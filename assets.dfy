/**
 * The files the host apps bundle with the keyboard (profiles.json, the kana table and
 * one schema file per schema id), as the engine's parser would see them. A missing file
 * is `None`; a file that does not parse is `Err` with the parser's message.
 */
module Assets {
  import opened Wrappers
  import opened Models

  datatype AssetStore = AssetStore(
    profilesJson: Option<Result<seq<Profile>, string>>,
    kanaEngineJson: Option<Result<KanaEngine, string>>,
    schemaFiles: map<string, Result<Schema, string>>)
}
