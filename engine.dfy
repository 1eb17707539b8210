/**
 * The process-wide engine of rust_core/src/engine.rs: one slot that is empty until
 * `init` succeeds and then holds the profiles, the schema cache and the kana table.
 * `init` and `load_schema` change the slot; `process_key` and `get_profiles` only read it.
 */
module Engine {
  import opened Wrappers
  import opened Models
  import opened Conversion

  /** `s` is a suffix of `m`. */
  predicate EndsWith(m: string, s: string) {
    |s| <= |m| && m[|m| - |s|..] == s
  }

  /** The errors the engine reports; `Message` gives the text the source returns. */
  datatype EngineError =
    | ProfilesParseFailed(detail: string)
    | KanaEngineParseFailed(detail: string)
    | SchemaParseFailed(schemaId: string, detail: string)
    | AlreadyInitialized
    | NotInitialized
    | ProfileNotFound(profileId: string)
    | SchemaNotLoaded(schemaId: string)
  {
    /**
     * Every message is non-empty; the lifecycle errors have fixed texts, and the others
     * end with the parser's detail or the id that was not found.
     */
    function Message(): (m: string)
      ensures |m| > 0
      ensures AlreadyInitialized? ==> m == "Engine already initialized"
      ensures NotInitialized? ==> m == "Engine not initialized"
      ensures ProfilesParseFailed? || KanaEngineParseFailed? || SchemaParseFailed? ==> EndsWith(m, detail)
      ensures ProfileNotFound? ==> EndsWith(m, profileId)
      ensures SchemaNotLoaded? ==> EndsWith(m, schemaId)
    {
      match this
      case ProfilesParseFailed(d) => "Failed to parse profiles.json: " + d
      case KanaEngineParseFailed(d) => "Failed to parse japaneseKanaEngine.json: " + d
      case SchemaParseFailed(id, d) => "Failed to parse schema " + id + ": " + d
      case AlreadyInitialized => "Engine already initialized"
      case NotInitialized => "Engine not initialized"
      case ProfileNotFound(id) => "Profile not found: " + id
      case SchemaNotLoaded(id) => "Schema not loaded: " + id
    }
  }

  /** The contents of an initialized engine (the `IMEEngine` struct). */
  datatype IMEEngine = IMEEngine(
    profiles: seq<Profile>,
    schemas: map<string, Schema>,
    kanaEngine: KanaEngine)

  /**
   * The lifecycle only moves forward: once the slot is filled it stays filled, with the
   * same profiles and kana table, and no cached schema id is ever dropped.
   */
  ghost predicate SlotGrows(before: Option<IMEEngine>, after: Option<IMEEngine>) {
    before.Some? ==>
      after.Some? && after.value.profiles == before.value.profiles
      && after.value.kanaEngine == before.value.kanaEngine
      && before.value.schemas.Keys <= after.value.schemas.Keys
  }

  /**
   * `process_key` as a function of the slot. Errors are checked in order: no engine,
   * no profile with that id (the first match is used), the profile's schema not cached.
   */
  function ProcessKeyIn(slot: Option<IMEEngine>, key: string, buffer: string, profileId: string)
    : (r: Result<ConversionResult, EngineError>)
    ensures r.Err? ==> r.error.NotInitialized? || r.error.ProfileNotFound? || r.error.SchemaNotLoaded?
    ensures r.Ok? ==> slot.Some? && FindProfile(slot.value.profiles, profileId).Some?
                      && FindProfile(slot.value.profiles, profileId).value.inputSchemaId in slot.value.schemas
    ensures r.Ok? && r.value.action == ComposingAction ==>
      exists k :: k in slot.value.schemas[FindProfile(slot.value.profiles, profileId).value.inputSchemaId]
                  && r.value.buffer <= k
  {
    match slot
    case None => Err(NotInitialized)
    case Some(e) =>
      match FindProfile(e.profiles, profileId)
      case None => Err(ProfileNotFound(profileId))
      case Some(p) =>
        if p.inputSchemaId !in e.schemas then Err(SchemaNotLoaded(p.inputSchemaId))
        else Ok(Convert(e.schemas[p.inputSchemaId], e.kanaEngine, key, buffer))
  }

  /** The error ladder of `process_key`, each rung in both directions. */
  lemma ProcessKeyErrors(slot: Option<IMEEngine>, key: string, buffer: string, profileId: string)
    ensures ProcessKeyIn(slot, key, buffer, profileId) == Err(NotInitialized) <==> slot.None?
    ensures ProcessKeyIn(slot, key, buffer, profileId) == Err(ProfileNotFound(profileId)) <==>
      slot.Some? && FindProfile(slot.value.profiles, profileId).None?
    ensures slot.Some? && FindProfile(slot.value.profiles, profileId).Some? ==>
      var p := FindProfile(slot.value.profiles, profileId).value;
      (ProcessKeyIn(slot, key, buffer, profileId).Err? <==> p.inputSchemaId !in slot.value.schemas)
      && (ProcessKeyIn(slot, key, buffer, profileId).Err? ==>
            ProcessKeyIn(slot, key, buffer, profileId) == Err(SchemaNotLoaded(p.inputSchemaId)))
  {
  }

  /**
   * After loading `schema` under a profile's schema id, that profile's keystrokes use
   * `schema`, whatever was cached under the id before.
   */
  lemma ReloadedSchemaIsUsed(e: IMEEngine, schemaId: string, schema: Schema, key: string, buffer: string, profileId: string)
    requires FindProfile(e.profiles, profileId).Some?
    requires FindProfile(e.profiles, profileId).value.inputSchemaId == schemaId
    ensures ProcessKeyIn(Some(e.(schemas := e.schemas[schemaId := schema])), key, buffer, profileId)
      == Ok(Convert(schema, e.kanaEngine, key, buffer))
  {
  }

  /** The prefix scan: does any key of `schema` start with `prefix`? */
  method AnyKeyStartsWith(schema: Schema, prefix: string) returns (found: bool)
    ensures found <==> SomeKeyStartsWith(schema, prefix)
  {
    var unseen := schema.Keys;
    found := false;
    while unseen != {} && !found
      invariant unseen <= schema.Keys
      invariant found ==> SomeKeyStartsWith(schema, prefix)
      invariant !found ==> forall k :: k in schema && k !in unseen ==> !(prefix <= k)
      decreases |unseen|
    {
      var k :| k in unseen;
      found := prefix <= k;
      unseen := unseen - {k};
    }
  }

  /** The profile search: the first profile with this id, scanning in list order. */
  method FindProfileIn(profiles: seq<Profile>, id: string) returns (r: Option<Profile>)
    ensures r == FindProfile(profiles, id)
  {
    var i := 0;
    while i < |profiles| && profiles[i].id != id
      invariant 0 <= i <= |profiles|
      invariant FindProfile(profiles, id) == FindProfile(profiles[i..], id)
    {
      assert profiles[i..][1..] == profiles[i + 1..];
      i := i + 1;
    }
    r := if i < |profiles| then Some(profiles[i]) else None;
  }

  /** The global engine slot (`static ENGINE: RwLock<Option<IMEEngine>>`). */
  class GlobalEngine {
    var slot: Option<IMEEngine>

    /** The process starts with no engine. */
    constructor ()
      ensures slot == None
    {
      slot := None;
    }

    /**
     * `init`: both blobs must parse (profiles first) before the slot is looked at; an
     * engine already in place is kept and the call fails; otherwise the profiles and the
     * kana table are installed with an empty schema cache.
     */
    method Init(profiles: Result<seq<Profile>, string>, kanaEngine: Result<KanaEngine, string>)
      returns (r: Result<(), EngineError>)
      modifies this
      ensures SlotGrows(old(slot), slot)
      ensures profiles.Err? ==> r == Err(ProfilesParseFailed(profiles.error)) && slot == old(slot)
      ensures profiles.Ok? && kanaEngine.Err? ==>
        r == Err(KanaEngineParseFailed(kanaEngine.error)) && slot == old(slot)
      ensures profiles.Ok? && kanaEngine.Ok? && old(slot).Some? ==>
        r == Err(AlreadyInitialized) && slot == old(slot)
      ensures profiles.Ok? && kanaEngine.Ok? && old(slot).None? ==>
        r == Ok(()) && slot == Some(IMEEngine(profiles.value, map[], kanaEngine.value))
    {
      if profiles.Err? {
        return Err(ProfilesParseFailed(profiles.error));
      }
      if kanaEngine.Err? {
        return Err(KanaEngineParseFailed(kanaEngine.error));
      }
      var engine := IMEEngine(profiles.value, map[], kanaEngine.value);
      if slot.Some? {
        return Err(AlreadyInitialized);
      }
      slot := Some(engine);
      r := Ok(());
    }

    /**
     * `load_schema`: the blob must parse and the engine must exist; then the schema is
     * stored under its id, replacing any schema cached there and leaving other ids alone.
     * An empty schema is accepted.
     */
    method LoadSchema(schema: Result<Schema, string>, schemaId: string) returns (r: Result<(), EngineError>)
      modifies this
      ensures SlotGrows(old(slot), slot)
      ensures schema.Err? ==> r == Err(SchemaParseFailed(schemaId, schema.error)) && slot == old(slot)
      ensures schema.Ok? && old(slot).None? ==> r == Err(NotInitialized) && slot == old(slot)
      ensures schema.Ok? && old(slot).Some? ==>
        r == Ok(()) && slot == Some(old(slot).value.(schemas := old(slot).value.schemas[schemaId := schema.value]))
    {
      if schema.Err? {
        return Err(SchemaParseFailed(schemaId, schema.error));
      }
      if slot.None? {
        return Err(NotInitialized);
      }
      var engine := slot.value;
      slot := Some(engine.(schemas := engine.schemas[schemaId := schema.value]));
      r := Ok(());
    }

    /** `process_key`: reads the slot and changes nothing. */
    method ProcessKey(key: string, buffer: string, profileId: string) returns (r: Result<ConversionResult, EngineError>)
      ensures r == ProcessKeyIn(slot, key, buffer, profileId)
    {
      if slot.None? {
        return Err(NotInitialized);
      }
      var engine := slot.value;
      var profile := FindProfileIn(engine.profiles, profileId);
      if profile.None? {
        return Err(ProfileNotFound(profileId));
      }
      var schemaId := profile.value.inputSchemaId;
      if schemaId !in engine.schemas {
        return Err(SchemaNotLoaded(schemaId));
      }
      var schema := engine.schemas[schemaId];
      var candidate := buffer + key;
      if candidate in schema {
        var entry := schema[candidate];
        if entry.kanaKey in engine.kanaEngine {
          return Ok(Commit(engine.kanaEngine[entry.kanaKey]));
        } else {
          return Ok(Commit(entry.kanaKey));
        }
      }
      var hasPrefix := AnyKeyStartsWith(schema, candidate);
      if hasPrefix {
        return Ok(Composing(candidate));
      }
      if key in schema && schema[key].kanaKey in engine.kanaEngine {
        return Ok(ConversionResult(engine.kanaEngine[schema[key].kanaKey], buffer, CommitAction));
      }
      r := Ok(Clear());
    }

    /** `get_profiles`: the installed profiles in their original order. */
    method GetProfiles() returns (r: Result<seq<Profile>, EngineError>)
      ensures slot.None? ==> r == Err(NotInitialized)
      ensures slot.Some? ==> r == Ok(slot.value.profiles)
    {
      if slot.None? {
        return Err(NotInitialized);
      }
      r := Ok(slot.value.profiles);
    }
  }

  /**
   * A second `init` with well-formed blobs fails and keeps the first engine; the
   * profiles it reports are still the first ones.
   */
  method InitTwice(first: seq<Profile>, second: seq<Profile>, kana: KanaEngine)
    returns (r: Result<(), EngineError>, profiles: Result<seq<Profile>, EngineError>)
    ensures r == Err(AlreadyInitialized)
    ensures profiles == Ok(first)
  {
    var engine := new GlobalEngine();
    var ok := engine.Init(Ok(first), Ok(kana));
    r := engine.Init(Ok(second), Ok(kana));
    profiles := engine.GetProfiles();
  }
}
