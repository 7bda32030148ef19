/**
 * The documents of the `knowledge` collection and the keyed update that
 * `upsertKnowledge` asks the store for (`updateOne({question}, {$set: doc}, {upsert: true})`).
 *
 * The collection is a sequence in the order the store enumerates it, so that the
 * local scan (see module Ranking) sees the documents in a definite order; `Lookup`
 * gives the view of it as a map from `question` to a document.
 */
module Knowledge {
  import opened Wrappers

  /** What a stored document holds under `embedding`: nothing, a numeric array, or some other value. */
  datatype EmbeddingField = Absent | Vector(values: seq<real>) | NonArray

  /**
   * A stored document. `extra` stands for every field outside the upsert payload
   * (anything an earlier writer put there); `$set` leaves those alone.
   */
  datatype KnowledgeDoc = KnowledgeDoc(
    question: string,
    answer: string,
    comment: Option<string>,
    embedding: EmbeddingField,
    extra: map<string, string>)

  /** The argument of `upsertKnowledge`. */
  datatype Payload = Payload(question: string, answer: string, comment: Option<string>, embedding: seq<real>)

  /** A search result: the projected `question`, `answer`, `comment` and the `score`. */
  datatype Hit = Hit(question: string, answer: string, comment: Option<string>, score: Option<real>)

  /** At most one document per distinct `question`. */
  ghost predicate UniqueQuestions(docs: seq<KnowledgeDoc>) {
    forall i, j :: 0 <= i < j < |docs| ==> docs[i].question != docs[j].question
  }

  /** The position of the first document whose `question` is `q`: the one `updateOne` matches. */
  function FindQuestion(docs: seq<KnowledgeDoc>, q: string): (r: Option<nat>)
    ensures r.Some? ==> r.value < |docs| && docs[r.value].question == q
    ensures r.Some? ==> forall j :: 0 <= j < r.value ==> docs[j].question != q
    ensures r.None? ==> forall j :: 0 <= j < |docs| ==> docs[j].question != q
    decreases |docs|
  {
    if |docs| == 0 then None
    else if docs[0].question == q then Some(0)
    else match FindQuestion(docs[1..], q)
      case None => None
      case Some(i) => Some(i + 1)
  }

  /** `findOne({question: q})`: the first document with that question, if any. */
  function Lookup(docs: seq<KnowledgeDoc>, q: string): (r: Option<KnowledgeDoc>)
    ensures r.Some? <==> exists i :: 0 <= i < |docs| && docs[i].question == q
    ensures r.Some? ==> r.value in docs && r.value.question == q
  {
    match FindQuestion(docs, q)
    case None => None
    case Some(i) => Some(docs[i])
  }

  /** `$set: doc` on a matched document: the payload's four fields are overwritten, the rest kept. */
  function Apply(d: KnowledgeDoc, p: Payload): (r: KnowledgeDoc)
    ensures r.question == p.question
    ensures r.extra == d.extra
  {
    d.(question := p.question, answer := p.answer, comment := p.comment, embedding := Vector(p.embedding))
  }

  /** The document `upsert: true` inserts when nothing matched. */
  function Fresh(p: Payload): (r: KnowledgeDoc)
    ensures r.extra == map[]
    ensures Apply(r, p) == r
  {
    KnowledgeDoc(p.question, p.answer, p.comment, Vector(p.embedding), map[])
  }

  /** The collection after `updateOne({question: p.question}, {$set: p}, {upsert: true})`. */
  function Upserted(docs: seq<KnowledgeDoc>, p: Payload): (r: seq<KnowledgeDoc>)
    ensures |r| == if Lookup(docs, p.question).Some? then |docs| else |docs| + 1
  {
    match FindQuestion(docs, p.question)
    case Some(i) => docs[i := Apply(docs[i], p)]
    case None => docs + [Fresh(p)]
  }

  /** The invariant "at most one document per question" survives an upsert. */
  lemma UpsertKeepsUnique(docs: seq<KnowledgeDoc>, p: Payload)
    requires UniqueQuestions(docs)
    ensures UniqueQuestions(Upserted(docs, p))
  {
  }

  /**
   * After an upsert exactly one document has the payload's question; its four payload
   * fields are the payload's, and any other fields are those of the document it replaced.
   */
  lemma UpsertExactlyOne(docs: seq<KnowledgeDoc>, p: Payload)
    requires UniqueQuestions(docs)
    ensures var r := Upserted(docs, p);
      exists i :: 0 <= i < |r| && r[i].question == p.question
        && r[i].answer == p.answer && r[i].comment == p.comment && r[i].embedding == Vector(p.embedding)
        && r[i].extra == (if Lookup(docs, p.question).Some? then Lookup(docs, p.question).value.extra else map[])
        && forall j :: 0 <= j < |r| && j != i ==> r[j].question != p.question
  {
    var r := Upserted(docs, p);
    match FindQuestion(docs, p.question)
    case Some(i) =>
      assert r[i].question == p.question;
    case None =>
      assert r[|docs|].question == p.question;
  }

  /** Documents with other questions are neither added, removed nor changed, and keep their order. */
  lemma UpsertOthersUnchanged(docs: seq<KnowledgeDoc>, p: Payload)
    ensures var r := Upserted(docs, p);
      && |docs| <= |r| <= |docs| + 1
      && (forall j :: 0 <= j < |docs| && docs[j].question != p.question ==> r[j] == docs[j])
      && (forall j :: |docs| <= j < |r| ==> r[j].question == p.question)
  {
  }

  /**
   * The collection behaves as a map from question to document: looking up the
   * payload's question finds the updated document, every other question finds what it found before.
   */
  lemma {:induction false} UpsertIsKeyedUpdate(docs: seq<KnowledgeDoc>, p: Payload, q: string)
    ensures Lookup(Upserted(docs, p), q) ==
      if q == p.question then
        Some(if Lookup(docs, q).Some? then Apply(Lookup(docs, q).value, p) else Fresh(p))
      else Lookup(docs, q)
  {
    var r := Upserted(docs, p);
    match FindQuestion(docs, p.question)
    case Some(i) =>
      if q == p.question {
        assert FindQuestion(r, q).Some? && FindQuestion(r, q).value == i by {
          FirstMatch(r, q, i);
        }
      } else {
        match FindQuestion(docs, q)
        case Some(j) => FirstMatch(r, q, j);
        case None => NoMatch(r, q);
      }
    case None =>
      if q == p.question {
        FirstMatch(r, q, |docs|);
      } else {
        match FindQuestion(docs, q)
        case Some(j) => FirstMatch(r, q, j);
        case None => NoMatch(r, q);
      }
  }

  /** `FindQuestion` finds the first match (its partner: the search by index it must agree with). */
  lemma {:induction false} FirstMatch(docs: seq<KnowledgeDoc>, q: string, i: nat)
    requires i < |docs| && docs[i].question == q
    requires forall j :: 0 <= j < i ==> docs[j].question != q
    ensures FindQuestion(docs, q) == Some(i)
    decreases i
  {
    if i > 0 {
      FirstMatch(docs[1..], q, i - 1);
    }
  }

  lemma NoMatch(docs: seq<KnowledgeDoc>, q: string)
    requires forall j :: 0 <= j < |docs| ==> docs[j].question != q
    ensures FindQuestion(docs, q) == None
  {
  }
}
