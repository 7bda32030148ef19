/**
 * The knowledge store of src/services/db.ts: the module-level `client` / `db`
 * singletons, `connectDB`, `getDB`, `upsertKnowledge` and the three-tier
 * `searchByVector`.
 */
module Db {
  import opened Wrappers
  import opened Strings
  import opened Config
  import opened Knowledge
  import opened Ranking

  const URI_NOT_SET: string := "MONGODB_URI is not set in .env"
  const URI_PLACEHOLDER: string :=
    "MONGODB_URI looks like a placeholder or contains invalid characters. Please update the .env file with a valid MongoDB connection string (replace the <password> placeholder)."
  const CONNECT_FAILED: string := "Failed to connect to MongoDB: "
  const NOT_CONNECTED: string := "DB not connected. Call connectDB() first."

  /** The substrings that mark a connection string as an unedited template. */
  const PLACEHOLDER_PATTERNS: seq<string> := ["<", ">", "your_password", "<password>", "PASSWORD"]

  /** The handle `client.db(MONGO_DB_NAME)` returns. */
  datatype DbHandle = DbHandle(name: string)

  /** The three strategies of `searchByVector`, in the order they are tried. */
  datatype Tier = DefaultIndex | ExplicitIndex | LocalCosineScan

  /** The checks `connectDB` makes on the connection string before it builds a client. */
  function CheckUri(uri: string): (r: Outcome)
    ensures r.Pass? <==> uri != "" && forall i :: 0 <= i < |PLACEHOLDER_PATTERNS| ==> !Contains(uri, PLACEHOLDER_PATTERNS[i])
    ensures r.Fail? ==> r.error == (if uri == "" then URI_NOT_SET else URI_PLACEHOLDER)
  {
    if uri == "" then Fail(URI_NOT_SET)
    else if exists i :: 0 <= i < |PLACEHOLDER_PATTERNS| && Contains(uri, PLACEHOLDER_PATTERNS[i]) then Fail(URI_PLACEHOLDER)
    else Pass
  }

  /** The template's own `<password>` is rejected, and would be by its `<` alone. */
  lemma PasswordTemplateRejected(uri: string)
    requires Contains(uri, "<password>")
    ensures CheckUri(uri) == Fail(URI_PLACEHOLDER)
    ensures Contains(uri, "<")
  {
    assert MatchesAt("<password>", "<", 0);
    ContainsTransitive(uri, "<password>", "<");
    assert PLACEHOLDER_PATTERNS[0] == "<";
  }

  /** A non-empty `Outcome` of a tier: it succeeded with at least one row. */
  predicate HasRows(t: Result<seq<Hit>>) {
    t.Ok? && |t.value| > 0
  }

  class KnowledgeStore {
    /** The `MongoClient`, remembered by the connection string it was built from. */
    var client: Option<string>
    /** The connected database handle; `None` until a connect succeeds. */
    var db: Option<DbHandle>
    /** The `knowledge` collection, in the order the store enumerates it. */
    var docs: seq<KnowledgeDoc>

    /** At most one document per question, as the upsert-by-question keeps it. */
    ghost predicate Valid()
      reads this
    {
      UniqueQuestions(docs)
    }

    /** A process that has not connected yet, over a collection that already holds `existing`. */
    constructor (existing: seq<KnowledgeDoc>)
      requires UniqueQuestions(existing)
      ensures Valid()
      ensures client == None && db == None && docs == existing
    {
      client := None;
      db := None;
      docs := existing;
    }

    /**
     * `connectDB()`: reuse the handle once there is one; otherwise validate the
     * connection string, build a client and connect. `connect` is what
     * `client.connect()` does this time.
     */
    method ConnectDB(uri: string, connect: Outcome) returns (r: Result<DbHandle>)
      modifies this`client, this`db
      ensures old(db).Some? ==> r == Ok(old(db).value) && db == old(db) && client == old(client)
      ensures old(db).None? && CheckUri(uri).Fail? ==>
        r == Err(CheckUri(uri).error) && db == None && client == old(client)
      ensures old(db).None? && CheckUri(uri).Pass? ==> client == Some(uri)
      ensures old(db).None? && CheckUri(uri).Pass? && connect.Fail? ==>
        r == Err(CONNECT_FAILED + ThrownText(connect.error)) && db == None
      ensures old(db).None? && CheckUri(uri).Pass? && connect.Pass? ==>
        r == Ok(DbHandle(MONGO_DB_NAME)) && db == Some(DbHandle(MONGO_DB_NAME))
      ensures r.Ok? <==> db.Some?
    {
      if db.Some? {
        return Ok(db.value);
      }
      var check := CheckUri(uri);
      if check.Fail? {
        return Err(check.error);
      }
      client := Some(uri);
      if connect.Fail? {
        return Err(CONNECT_FAILED + ThrownText(connect.error));
      }
      db := Some(DbHandle(MONGO_DB_NAME));
      r := Ok(db.value);
    }

    /** `getDB()`: the handle, or the "not connected" error exactly when there is none. */
    method GetDB() returns (r: Result<DbHandle>)
      ensures r.Err? <==> db.None?
      ensures r.Err? ==> r.error == NOT_CONNECTED
      ensures r.Ok? ==> db == Some(r.value)
    {
      if db.None? {
        return Err(NOT_CONNECTED);
      }
      r := Ok(db.value);
    }

    /**
     * `upsertKnowledge(p)`: `getDB()` first, then the keyed update; `update` is how
     * the driver's `updateOne` call ends.
     */
    method UpsertKnowledge(p: Payload, update: Outcome) returns (r: Outcome)
      requires Valid()
      modifies this`docs
      ensures Valid()
      ensures db.None? ==> r == Fail(NOT_CONNECTED) && docs == old(docs)
      ensures db.Some? && update.Fail? ==> r == update && docs == old(docs)
      ensures db.Some? && update.Pass? ==> r == Pass && docs == Upserted(old(docs), p)
    {
      var handle := GetDB();
      if handle.Err? {
        return Fail(handle.error);
      }
      if update.Fail? {
        return update;
      }
      UpsertKeepsUnique(docs, p);
      docs := Upserted(docs, p);
      r := Pass;
    }

    /**
     * `searchByVector(vector, k)`: the Atlas `$search` with the default index
     * (`tier1`), the same query naming the index "default" (`tier2`), and the
     * local cosine scan, whose `find(...).toArray()` ends as `scan` says. A tier's
     * rows are returned as they are as soon as it has any; an error from tiers 1
     * and 2 only moves on to the next tier, but a failed scan fetch is not caught
     * and becomes the search's error. `attempted` lists the tiers that ran, in order.
     */
    method SearchByVector(vector: seq<real>, k: int, tier1: Result<seq<Hit>>, tier2: Result<seq<Hit>>, scan: Outcome, sqrt: SqrtFn)
      returns (r: Result<seq<Hit>>, attempted: seq<Tier>)
      ensures db.None? ==> r == Err(NOT_CONNECTED) && attempted == []
      ensures db.Some? ==> |attempted| > 0 && attempted[0] == DefaultIndex
      ensures db.Some? ==> (r.Ok? <==> HasRows(tier1) || HasRows(tier2) || scan.Pass?)
      ensures db.Some? && HasRows(tier1) ==> r == tier1 && attempted == [DefaultIndex]
      ensures db.Some? && !HasRows(tier1) && HasRows(tier2) ==>
        r == tier2 && attempted == [DefaultIndex, ExplicitIndex]
      ensures db.Some? && !HasRows(tier1) && !HasRows(tier2) ==>
        attempted == [DefaultIndex, ExplicitIndex, LocalCosineScan]
      ensures db.Some? && !HasRows(tier1) && !HasRows(tier2) && scan.Pass? ==>
        r == Ok(LocalScan(vector, WithEmbedding(docs), k, sqrt))
      ensures db.Some? && !HasRows(tier1) && !HasRows(tier2) && scan.Fail? ==>
        r == Err(scan.error)
      ensures ExplicitIndex in attempted <==> db.Some? && !HasRows(tier1)
      ensures LocalCosineScan in attempted <==> db.Some? && !HasRows(tier1) && !HasRows(tier2)
    {
      var handle := GetDB();
      if handle.Err? {
        return Err(handle.error), [];
      }
      attempted := [DefaultIndex];
      if tier1.Ok? && |tier1.value| > 0 {
        return tier1, attempted;
      }
      attempted := attempted + [ExplicitIndex];
      if tier2.Ok? && |tier2.value| > 0 {
        return tier2, attempted;
      }
      attempted := attempted + [LocalCosineScan];
      if scan.Fail? {
        return Err(scan.error), attempted;
      }
      var fetched := WithEmbedding(docs);
      r := Ok(LocalScan(vector, fetched, k, sqrt));
    }
  }
}
