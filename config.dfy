/** Configuration values, fixed at the defaults of src/config.ts (environment overrides are not modelled). */
module Config {
  const MONGO_DB_NAME: string := "nerdalert"
  const HF_TEXT_MODEL: string := "mistralai/Mistral-7B-Instruct-v0.2"
  const HF_EMBEDDING_MODEL: string := "sentence-transformers/all-mpnet-base-v2"
  const HF_MAX_TOKENS: int := 450
}
