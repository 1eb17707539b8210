/**
 * The iOS keyboard's profile manager (mobile/iOS/CyrillicKeyboard/Engine/ProfileManager.swift):
 * it decodes the bundled profiles, initializes the engine, loads each schema into the
 * engine at most once, and keeps the selected profile id in the app group's defaults.
 */
module IosProfileManager {
  import opened Wrappers
  import opened Models
  import opened Engine
  import opened Assets

  /** The failures the manager reports; `Message` gives the text the source returns. */
  datatype ManagerError =
    | ProfilesFileMissing
    | KanaEngineFileMissing
    | ProfilesDecodeFailed(detail: string)
    | EngineInitFailed(error: EngineError)
    | SchemaFileMissing(schemaId: string)
    | SchemaLoadFailed(schemaId: string, error: EngineError)
    | NoCurrentProfile
    | ProfileNotFound(profileId: string)
  {
    /**
     * Every message is non-empty; the missing-file and no-profile failures have fixed
     * texts, and the others end with the cause or the id concerned.
     */
    function Message(): (m: string)
      ensures |m| > 0
      ensures ProfilesFileMissing? ==> m == "Failed to load profiles.json"
      ensures KanaEngineFileMissing? ==> m == "Failed to load kana_engine.json"
      ensures NoCurrentProfile? ==> m == "No current profile set"
      ensures ProfilesDecodeFailed? ==> EndsWith(m, detail)
      ensures EngineInitFailed? || SchemaLoadFailed? ==> EndsWith(m, error.Message())
      ensures SchemaFileMissing? ==> EndsWith(m, schemaId + ".json")
      ensures ProfileNotFound? ==> EndsWith(m, profileId)
    {
      match this
      case ProfilesFileMissing => "Failed to load profiles.json"
      case KanaEngineFileMissing => "Failed to load kana_engine.json"
      case ProfilesDecodeFailed(d) => "Failed to decode profiles.json: " + d
      case EngineInitFailed(e) => "Failed to initialize Rust engine: " + e.Message()
      case SchemaFileMissing(id) => "Failed to load schema file: " + id + ".json"
      case SchemaLoadFailed(id, e) => "Failed to load schema " + id + ": " + e.Message()
      case NoCurrentProfile => "No current profile set"
      case ProfileNotFound(id) => "Profile not found: " + id
    }
  }

  /** The profile id read when the defaults hold none. */
  const DefaultProfileId: string := "rus_standard"

  /** The set of schema ids the manager believes loaded, beside the engine slot. */
  datatype LoadState = LoadState(loadedSchemas: set<string>, slot: Option<IMEEngine>)

  /** Every schema id the manager believes loaded really is in the engine's cache. */
  ghost predicate Consistent(st: LoadState) {
    forall id :: id in st.loadedSchemas ==> st.slot.Some? && id in st.slot.value.schemas
  }

  /**
   * `loadSchemaForProfile` on values: an id already loaded is skipped; otherwise the
   * schema file must exist and the engine must accept it, and only then is the id recorded.
   */
  function LoadSchemaStep(files: map<string, Result<Schema, string>>, st: LoadState, schemaId: string)
    : (r: (LoadState, Option<ManagerError>))
    ensures r.1.None? <==> schemaId in st.loadedSchemas
                           || (schemaId in files && files[schemaId].Ok? && st.slot.Some?)
    ensures r.1.Some? ==> r.1.value.SchemaFileMissing? || r.1.value.SchemaLoadFailed?
  {
    if schemaId in st.loadedSchemas then (st, None)
    else if schemaId !in files then (st, Some(SchemaFileMissing(schemaId)))
    else
      match files[schemaId]
      case Err(d) => (st, Some(SchemaLoadFailed(schemaId, SchemaParseFailed(schemaId, d))))
      case Ok(schema) =>
        if st.slot.None? then (st, Some(SchemaLoadFailed(schemaId, NotInitialized)))
        else
          var e := st.slot.value;
          (LoadState(st.loadedSchemas + {schemaId}, Some(e.(schemas := e.schemas[schemaId := schema]))), None)
  }

  /** An id already recorded as loaded is a success that reads and changes nothing. */
  lemma LoadedSchemaIsSkipped(files: map<string, Result<Schema, string>>, st: LoadState, schemaId: string)
    requires schemaId in st.loadedSchemas
    ensures LoadSchemaStep(files, st, schemaId) == (st, None)
  {
  }

  /**
   * The id is recorded exactly when the load succeeds; a failed load changes nothing;
   * a successful load of a new id leaves it in the engine's cache.
   */
  lemma SchemaRecordedOnlyOnSuccess(files: map<string, Result<Schema, string>>, st: LoadState, schemaId: string)
    ensures var (after, err) := LoadSchemaStep(files, st, schemaId);
      (err.Some? ==> after == st)
      && (err.None? ==> after.loadedSchemas == st.loadedSchemas + {schemaId})
      && (err.None? && schemaId !in st.loadedSchemas ==>
            after.slot.Some? && schemaId in after.slot.value.schemas)
      && SlotGrows(st.slot, after.slot)
  {
  }

  /** Loading twice is loading once: after a success the second call is a no-op success. */
  lemma LoadSchemaIdempotent(files: map<string, Result<Schema, string>>, st: LoadState, schemaId: string)
    requires LoadSchemaStep(files, st, schemaId).1.None?
    ensures var after := LoadSchemaStep(files, st, schemaId).0;
      LoadSchemaStep(files, after, schemaId) == (after, None)
  {
  }

  /** A load keeps the manager's record consistent with the engine. */
  lemma {:induction false} LoadSchemaKeepsConsistent(files: map<string, Result<Schema, string>>, st: LoadState, schemaId: string)
    requires Consistent(st)
    ensures Consistent(LoadSchemaStep(files, st, schemaId).0)
  {
    var after := LoadSchemaStep(files, st, schemaId).0;
    forall id | id in after.loadedSchemas
      ensures after.slot.Some? && id in after.slot.value.schemas
    {
      SchemaRecordedOnlyOnSuccess(files, st, schemaId);
      if id in st.loadedSchemas {
        assert st.slot.Some? && id in st.slot.value.schemas;
      }
    }
  }

  class ProfileManager {
    var availableProfiles: seq<Profile>
    var loadedSchemas: set<string>
    /** The `current_profile_id` entry of the shared defaults, absent until written. */
    var storedProfileId: Option<string>
    /** The engine behind the foreign-call bridge. */
    const engine: GlobalEngine
    /** The keyboard extension's and the app's bundles. */
    const bundle: AssetStore

    ghost predicate Valid()
      reads this, engine
    {
      Consistent(LoadState(loadedSchemas, engine.slot))
    }

    constructor (engine: GlobalEngine, bundle: AssetStore, storedProfileId: Option<string>)
      ensures this.engine == engine && this.bundle == bundle && this.storedProfileId == storedProfileId
      ensures availableProfiles == [] && loadedSchemas == {}
      ensures Valid()
    {
      this.engine := engine;
      this.bundle := bundle;
      this.storedProfileId := storedProfileId;
      availableProfiles := [];
      loadedSchemas := {};
    }

    /** The stored profile id, or "rus_standard" when none is stored. */
    function CurrentProfileId(): (id: string)
      reads this
      ensures storedProfileId.None? ==> id == DefaultProfileId
      ensures storedProfileId.Some? ==> id == storedProfileId.value
    {
      storedProfileId.GetOr(DefaultProfileId)
    }

    /** Some available profile has this id. */
    predicate IsValidProfile(profileId: string)
      reads this
      ensures IsValidProfile(profileId) <==> exists i :: 0 <= i < |availableProfiles| && availableProfiles[i].id == profileId
    {
      FindProfile(availableProfiles, profileId).Some?
    }

    /** The first available profile with the stored id, if there is one. */
    function CurrentProfile(): (p: Option<Profile>)
      reads this
      ensures p.None? <==> !IsValidProfile(CurrentProfileId())
      ensures p.Some? ==> p.value.id == CurrentProfileId() && p.value in availableProfiles
      ensures p.Some? ==> exists i :: 0 <= i < |availableProfiles| && availableProfiles[i] == p.value
                                      && !IdBefore(availableProfiles, p.value.id, i)
    {
      FindProfile(availableProfiles, CurrentProfileId())
    }

    /**
     * `initialize`: both bundled files must be found and profiles.json must decode before
     * anything changes; the decoded list then replaces the available profiles even if the
     * engine's own initialization fails afterwards.
     */
    method Initialize() returns (err: Option<ManagerError>)
      requires Valid()
      modifies this, engine
      ensures Valid()
      ensures loadedSchemas == old(loadedSchemas) && storedProfileId == old(storedProfileId)
      ensures SlotGrows(old(engine.slot), engine.slot)
      ensures bundle.profilesJson.None? ==>
        err == Some(ProfilesFileMissing) && availableProfiles == old(availableProfiles) && engine.slot == old(engine.slot)
      ensures bundle.profilesJson.Some? && bundle.kanaEngineJson.None? ==>
        err == Some(KanaEngineFileMissing) && availableProfiles == old(availableProfiles) && engine.slot == old(engine.slot)
      ensures bundle.profilesJson.Some? && bundle.kanaEngineJson.Some? && bundle.profilesJson.value.Err? ==>
        err == Some(ProfilesDecodeFailed(bundle.profilesJson.value.error))
        && availableProfiles == old(availableProfiles) && engine.slot == old(engine.slot)
      ensures bundle.profilesJson.Some? && bundle.kanaEngineJson.Some? && bundle.profilesJson.value.Ok? ==>
        availableProfiles == bundle.profilesJson.value.value
      ensures bundle.profilesJson.Some? && bundle.kanaEngineJson.Some? && bundle.profilesJson.value.Ok?
              && bundle.kanaEngineJson.value.Err? ==>
        err == Some(EngineInitFailed(KanaEngineParseFailed(bundle.kanaEngineJson.value.error)))
        && engine.slot == old(engine.slot)
      ensures bundle.profilesJson.Some? && bundle.kanaEngineJson.Some? && bundle.profilesJson.value.Ok?
              && bundle.kanaEngineJson.value.Ok? && old(engine.slot).Some? ==>
        err == Some(EngineInitFailed(AlreadyInitialized)) && engine.slot == old(engine.slot)
      ensures bundle.profilesJson.Some? && bundle.kanaEngineJson.Some? && bundle.profilesJson.value.Ok?
              && bundle.kanaEngineJson.value.Ok? && old(engine.slot).None? ==>
        err == None
        && engine.slot == Some(IMEEngine(bundle.profilesJson.value.value, map[], bundle.kanaEngineJson.value.value))
    {
      if bundle.profilesJson.None? {
        return Some(ProfilesFileMissing);
      }
      if bundle.kanaEngineJson.None? {
        return Some(KanaEngineFileMissing);
      }
      var profilesJson := bundle.profilesJson.value;
      if profilesJson.Err? {
        return Some(ProfilesDecodeFailed(profilesJson.error));
      }
      availableProfiles := profilesJson.value;
      var r := engine.Init(profilesJson, bundle.kanaEngineJson.value);
      if r.Err? {
        return Some(EngineInitFailed(r.error));
      }
      err := None;
    }

    /** `loadSchemaForProfile`: a load of the profile's schema as `LoadSchemaStep` describes. */
    method LoadSchemaForProfile(profile: Profile) returns (err: Option<ManagerError>)
      requires Valid()
      modifies this`loadedSchemas, engine
      ensures Valid()
      ensures (LoadState(loadedSchemas, engine.slot), err)
        == LoadSchemaStep(bundle.schemaFiles, old(LoadState(loadedSchemas, engine.slot)), profile.inputSchemaId)
    {
      LoadSchemaKeepsConsistent(bundle.schemaFiles, LoadState(loadedSchemas, engine.slot), profile.inputSchemaId);
      var schemaId := profile.inputSchemaId;
      if schemaId in loadedSchemas {
        return None;
      }
      if schemaId !in bundle.schemaFiles {
        return Some(SchemaFileMissing(schemaId));
      }
      var r := engine.LoadSchema(bundle.schemaFiles[schemaId], schemaId);
      if r.Err? {
        return Some(SchemaLoadFailed(schemaId, r.error));
      }
      loadedSchemas := loadedSchemas + {schemaId};
      err := None;
    }

    /** `loadCurrentSchema`: fails with no current profile, else loads its schema. */
    method LoadCurrentSchema() returns (err: Option<ManagerError>)
      requires Valid()
      modifies this`loadedSchemas, engine
      ensures Valid()
      ensures old(CurrentProfile()).None? ==>
        err == Some(NoCurrentProfile) && loadedSchemas == old(loadedSchemas) && engine.slot == old(engine.slot)
      ensures old(CurrentProfile()).Some? ==>
        (LoadState(loadedSchemas, engine.slot), err)
        == LoadSchemaStep(bundle.schemaFiles, old(LoadState(loadedSchemas, engine.slot)), old(CurrentProfile()).value.inputSchemaId)
    {
      var profile := CurrentProfile();
      if profile.None? {
        return Some(NoCurrentProfile);
      }
      err := LoadSchemaForProfile(profile.value);
    }

    /**
     * `switchProfile`: an unknown id fails and changes nothing; otherwise the target's
     * schema is loaded and only when that succeeds is the id stored, after which the
     * current profile is the target.
     */
    method SwitchProfile(profileId: string) returns (err: Option<ManagerError>)
      requires Valid()
      modifies this`loadedSchemas, this`storedProfileId, engine
      ensures Valid()
      ensures !old(IsValidProfile(profileId)) ==>
        err == Some(ManagerError.ProfileNotFound(profileId)) && loadedSchemas == old(loadedSchemas)
        && storedProfileId == old(storedProfileId) && engine.slot == old(engine.slot)
      ensures old(IsValidProfile(profileId)) ==>
        var (after, loadErr) := LoadSchemaStep(bundle.schemaFiles, old(LoadState(loadedSchemas, engine.slot)),
                                               FindProfile(availableProfiles, profileId).value.inputSchemaId);
        LoadState(loadedSchemas, engine.slot) == after && err == loadErr
        && storedProfileId == (if loadErr.None? then Some(profileId) else old(storedProfileId))
      ensures err.None? ==> CurrentProfile().Some? && CurrentProfile().value.id == profileId
    {
      var profile := FindProfile(availableProfiles, profileId);
      if profile.None? {
        return Some(ManagerError.ProfileNotFound(profileId));
      }
      err := LoadSchemaForProfile(profile.value);
      if err.Some? {
        return;
      }
      storedProfileId := Some(profileId);
    }
  }
}
