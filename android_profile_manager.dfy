/**
 * The Android input method's profile manager
 * (mobile/android/ime/.../engine/ProfileManager.kt): it reads the profile list from the
 * app's assets, chooses the current profile, persists the choice in shared preferences,
 * and initializes the engine and the current profile's schema.
 */
module AndroidProfileManager {
  import opened Wrappers
  import opened Models
  import opened Engine
  import opened Assets

  /** The profile id read when the preferences hold none. */
  const DefaultProfileId: string := "rus_standard"

  /** The profile with the saved id, else the first profile, else none. */
  function SelectCurrentProfile(profiles: seq<Profile>, savedId: string): (r: Option<Profile>)
    ensures r.None? <==> profiles == []
    ensures r.Some? ==> r.value in profiles
    ensures IdBefore(profiles, savedId, |profiles|) ==> r.Some? && r.value.id == savedId
    ensures IdBefore(profiles, savedId, |profiles|) ==>
      exists i :: 0 <= i < |profiles| && profiles[i] == r.value && !IdBefore(profiles, savedId, i)
    ensures !IdBefore(profiles, savedId, |profiles|) && profiles != [] ==> r == Some(profiles[0])
  {
    match FindProfile(profiles, savedId)
    case Some(p) => Some(p)
    case None => if profiles == [] then None else Some(profiles[0])
  }

  class ProfileManager {
    var profiles: seq<Profile>
    var currentProfile: Option<Profile>
    /** The `current_profile_id` entry of the shared preferences, absent until written. */
    var savedProfileId: Option<string>
    /** The engine behind the native bridge. */
    const engine: GlobalEngine
    /** The app's assets directory. */
    const assets: AssetStore

    /** The current profile is always one of the loaded profiles. */
    ghost predicate Valid()
      reads this
    {
      currentProfile.Some? ==> currentProfile.value in profiles
    }

    constructor (engine: GlobalEngine, assets: AssetStore, savedProfileId: Option<string>)
      ensures this.engine == engine && this.assets == assets && this.savedProfileId == savedProfileId
      ensures profiles == [] && currentProfile == None
      ensures Valid()
    {
      this.engine := engine;
      this.assets := assets;
      this.savedProfileId := savedProfileId;
      profiles := [];
      currentProfile := None;
    }

    /** The saved profile id, or "rus_standard" when none is saved. */
    function SavedIdOrDefault(): (id: string)
      reads this
      ensures savedProfileId.None? ==> id == DefaultProfileId
      ensures savedProfileId.Some? ==> id == savedProfileId.value
    {
      savedProfileId.GetOr(DefaultProfileId)
    }

    /**
     * `loadProfiles`: a missing or undecodable file returns false and changes nothing;
     * otherwise the decoded list replaces the profiles and the current profile is chosen
     * from the saved id.
     */
    method LoadProfiles() returns (ok: bool)
      requires Valid()
      modifies this`profiles, this`currentProfile
      ensures Valid()
      ensures ok <==> assets.profilesJson.Some? && assets.profilesJson.value.Ok?
      ensures !ok ==> profiles == old(profiles) && currentProfile == old(currentProfile)
      ensures ok ==> profiles == assets.profilesJson.value.value
                     && currentProfile == SelectCurrentProfile(profiles, SavedIdOrDefault())
    {
      if assets.profilesJson.None? || assets.profilesJson.value.Err? {
        return false;
      }
      profiles := assets.profilesJson.value.value;
      var savedId := SavedIdOrDefault();
      currentProfile := SelectCurrentProfile(profiles, savedId);
      ok := true;
    }

    /**
     * `switchProfile`: an unknown id returns false and changes neither the current
     * profile nor the preferences; a known one becomes current and is saved.
     */
    method SwitchProfile(profileId: string) returns (ok: bool)
      requires Valid()
      modifies this`currentProfile, this`savedProfileId
      ensures Valid()
      ensures ok <==> IdBefore(profiles, profileId, |profiles|)
      ensures !ok ==> currentProfile == old(currentProfile) && savedProfileId == old(savedProfileId)
      ensures ok ==> currentProfile == FindProfile(profiles, profileId)
                     && currentProfile.value.id == profileId && savedProfileId == Some(profileId)
    {
      var profile := FindProfile(profiles, profileId);
      if profile.None? {
        return false;
      }
      currentProfile := profile;
      savedProfileId := Some(profileId);
      ok := true;
    }

    /**
     * `loadSchemaForProfile`: reads the profile's schema file and hands it to the engine;
     * true exactly when the file exists and the engine stores it.
     */
    method LoadSchemaForProfile(profile: Profile) returns (ok: bool)
      modifies engine
      ensures ok <==> profile.inputSchemaId in assets.schemaFiles
                      && assets.schemaFiles[profile.inputSchemaId].Ok? && old(engine.slot).Some?
      ensures !ok ==> engine.slot == old(engine.slot)
      ensures ok ==> engine.slot == Some(old(engine.slot).value.(schemas :=
        old(engine.slot).value.schemas[profile.inputSchemaId := assets.schemaFiles[profile.inputSchemaId].value]))
    {
      if profile.inputSchemaId !in assets.schemaFiles {
        return false;
      }
      var r := engine.LoadSchema(assets.schemaFiles[profile.inputSchemaId], profile.inputSchemaId);
      ok := r.Ok?;
    }

    /**
     * `initializeEngine`: reads both files (a missing one returns false before the engine
     * is touched), returns the engine's init result, and only after a successful init
     * tries to load the current profile's schema, whose result it ignores.
     */
    method InitializeEngine() returns (ok: bool)
      modifies engine
      ensures ok <==> assets.profilesJson.Some? && assets.kanaEngineJson.Some?
                      && assets.profilesJson.value.Ok? && assets.kanaEngineJson.value.Ok?
                      && old(engine.slot).None?
      ensures !ok ==> engine.slot == old(engine.slot)
      ensures ok ==> engine.slot.Some?
                     && engine.slot.value.profiles == assets.profilesJson.value.value
                     && engine.slot.value.kanaEngine == assets.kanaEngineJson.value.value
      ensures ok && currentProfile.None? ==> engine.slot.value.schemas == map[]
      ensures ok && currentProfile.Some? ==>
        var id := currentProfile.value.inputSchemaId;
        engine.slot.value.schemas ==
          if id in assets.schemaFiles && assets.schemaFiles[id].Ok? then map[id := assets.schemaFiles[id].value]
          else map[]
    {
      if assets.profilesJson.None? || assets.kanaEngineJson.None? {
        return false;
      }
      var r := engine.Init(assets.profilesJson.value, assets.kanaEngineJson.value);
      ok := r.Ok?;
      if ok && currentProfile.Some? {
        var loaded := LoadSchemaForProfile(currentProfile.value);
      }
    }
  }
}
