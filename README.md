# Cyrillic-to-kana conversion engine, modelled in Dafny

This project models the core of a Cyrillic-keyboard input method that turns key
presses into Japanese kana. At its heart is the Rust engine (`rust_core/src/engine.rs`,
`rust_core/src/models.rs`): a process-wide slot that is empty until `init` installs an
ordered list of profiles and a kana table (kana key -> hiragana), a schema cache
(schema id -> (Cyrillic key sequence -> kana key)) that `load_schema` fills, and
`process_key`, which turns one key and the caller's composition buffer into a
`ConversionResult` (`commit`, `composing` or `clear`). Around it sit the two host-side
profile managers (iOS and Android), which load the bundled files, initialize the engine,
load schemas and remember the selected profile, and the host copies of the result and
profile records.

Files and modules:

- `wrappers.dfy` (`Wrappers`): `Option` and `Result`.
- `models.dfy` (`Models`): `Profile`, `SchemaEntry`, `Schema`, `KanaEngine`,
  `ConversionResult` and its three constructors; `FindProfile` (the first profile with an
  id, used by the engine and by both managers); `SchemaFromMembers`, the schema a JSON
  object decodes to when a key repeats.
- `conversion.dfy` (`Conversion`): the keystroke ladder `Convert` as a pure function, the
  lemmas for each rung, and `Feed`, which types several keys in a row feeding each
  returned buffer back in.
- `engine.dfy` (`Engine`): the engine slot as the class `GlobalEngine` with `Init`,
  `LoadSchema`, `ProcessKey` and `GetProfiles`; `ProcessKeyIn`, the specification of
  `ProcessKey`; the key scan `AnyKeyStartsWith` and the profile scan `FindProfileIn`.
- `host_models.dfy` (`HostModels`): the Kotlin and Swift `isCommit` / `isComposing` /
  `isClear` flags (both platforms compute them identically from the action string, so
  they are defined once) and Kotlin's `Profile.getDisplayName`.
- `assets.dfy` (`Assets`): the bundled files as the host reads them.
- `ios_profile_manager.dfy` (`IosProfileManager`) and `android_profile_manager.dfy`
  (`AndroidProfileManager`): the two `ProfileManager` classes.

Inputs that the source reads from outside are parameters or fields: a JSON blob is
given already parsed, as `Result<T, string>` (an `Err` carries the parser's message); a
bundled file that cannot be found is `None` in an `AssetStore`; the stored profile id of
UserDefaults / SharedPreferences is a field `Option<string>` (absent until written).

The code differs in several places from the engine's intended design. The model follows
the code:

- There is no precomputed prefix set. The composing test scans all schema keys on every
  call (`engine.rs:107`).
- `load_schema` replaces a schema already cached under the same id. It does not skip it.
  An empty schema is accepted.
- An exact match whose kana key is missing from the kana table commits the kana key
  itself (`engine.rs:100-102`). It does not report an error.
- At a dead end, the code tries `key` alone only as an exact match with a resolvable
  kana key. That commit hands back the caller's old buffer, not `""`. A dead end never
  composes, even when `key` alone starts some schema key.
- An empty `buffer + key` on a schema with keys but no `""` entry composes `""`, since
  `""` starts every key. It does not clear.

## Model

| member | source | states |
|---|---|---|
| `Models.Commit` | rust_core/src/models.rs:42-48 | the commit result carries the given output, an empty buffer, and the action "commit" and no other |
| `Models.Composing` | rust_core/src/models.rs:50-56 | the composing result carries an empty output, the given buffer, and the action "composing" and no other |
| `Models.Clear` | rust_core/src/models.rs:58-64 | the clear result has empty output and buffer and the action "clear" and no other |
| `Models.ConstructorsDistinct` | rust_core/src/models.rs:41-65 | no commit result equals a composing or clear result, and no composing result equals the clear result, whatever the arguments |
| `Models.FindProfile` | rust_core/src/engine.rs:80-84 | the result is absent exactly when no profile has the id; otherwise it is a listed profile with that id and no earlier profile has that id (the first match) |
| `Models.SchemaFromMembers` | rust_core/src/models.rs:22-23 | a decoded schema has a key exactly when some member of the JSON object has that key |
| `Models.SchemaLastMemberWins` | rust_core/src/models.rs:22-23 | for a key that repeats, the schema entry is the value of the last member with that key |
| `Conversion.Convert` | rust_core/src/engine.rs:92-127 | every result is commit, composing or clear; a composing result emits nothing and its buffer starts some schema key; a clear result is empty; a commit hands back either "" or the caller's buffer |
| `Conversion.ExactMatchCommitsKana` | rust_core/src/engine.rs:96-99 | when buffer + key is a schema key whose kana key is in the table, the result is commit of that kana with buffer "" |
| `Conversion.ExactMatchWithoutKanaCommitsKey` | rust_core/src/engine.rs:100-102 | when buffer + key is a schema key whose kana key is missing from the table, the result is commit of the kana key string itself |
| `Conversion.ComposingExactlyOnPartialMatch` | rust_core/src/engine.rs:106-111 | the result is composing if and only if buffer + key is not a schema key but starts one, and then it is composing(buffer + key) |
| `Conversion.ComposingBufferIsKeyPrefix` | rust_core/src/engine.rs:106-111 | every composing buffer returned is a prefix of some schema key |
| `Conversion.DeadEndCommitsKeyAlone` | rust_core/src/engine.rs:113-121 | at a dead end where key alone maps to resolvable kana, the result commits that kana and hands back the old buffer, not "" |
| `Conversion.DeadEndOtherwiseClears` | rust_core/src/engine.rs:113-126 | a dead end never composes; if key alone is not a schema key with resolvable kana (including a key whose kana key is missing), the result is clear |
| `Conversion.FallbackNeedsBuffer` | rust_core/src/engine.rs:113-126 | with an empty buffer a dead end always clears: the key-alone fallback only fires for a non-empty buffer |
| `Conversion.EmptyCandidateComposes` | rust_core/src/engine.rs:93-111 | an empty buffer + key, on a schema with keys but no "" entry, yields composing "" |
| `Conversion.TypingAKeyCommitsIt` | rust_core/src/engine.rs:93-111 | typing the glyphs of a schema key one by one, feeding each returned buffer back, composes at every step and commits the key's kana (or kana key) at the last, ending with buffer "" |
| `Conversion.Feed` | mobile/android/ime/src/main/kotlin/com/yourcompany/cyrillicime/ime/CyrillicInputMethodService.kt:91-112 | feeding each returned buffer back, as the input service does, starting from an empty buffer (or one that starts a schema key) every buffer handed back is empty or starts a schema key |
| `Engine.ProcessKeyErrors` | rust_core/src/engine.rs:71-90 | errors come in order and each in both directions: not initialized iff the slot is empty; profile not found iff no profile has the id; schema not loaded iff the first matching profile's schema id is not cached |
| `Engine.ProcessKeyIn` | rust_core/src/engine.rs:66-128 | an error is one of not initialized, profile not found, schema not loaded; a result is produced only when the first matching profile's schema is cached, and a composing buffer then starts a key of that schema |
| `Engine.EngineError.Message` | rust_core/src/engine.rs:24-90 | "Engine already initialized" and "Engine not initialized" verbatim; the parse errors end with the parser's detail; profile not found and schema not loaded end with the missing id |
| `Engine.ReloadedSchemaIsUsed` | rust_core/src/engine.rs:49-63 | after a schema is stored under a profile's schema id, that profile's keystrokes are converted with the new schema, whatever was cached before |
| `Engine.AnyKeyStartsWith` | rust_core/src/engine.rs:107 | the scan over the schema keys returns true iff some key starts with the candidate |
| `Engine.FindProfileIn` | rust_core/src/engine.rs:80-84 | the scan over the profile list returns the first profile with the id, or none |
| `Engine.GlobalEngine.constructor` | rust_core/src/engine.rs:7 | the process starts with an empty engine slot |
| `Engine.GlobalEngine.Init` | rust_core/src/engine.rs:23-46 | a profiles parse failure, then a kana parse failure, then an existing engine each fail without changing the slot ("Engine already initialized"); otherwise the profiles and kana table are installed with an empty schema cache |
| `Engine.GlobalEngine.LoadSchema` | rust_core/src/engine.rs:49-63 | a parse failure, then a missing engine, fail without change; otherwise the schema is stored under its id, replacing any earlier one and leaving the other ids, the profiles and the kana table alone |
| `Engine.GlobalEngine.ProcessKey` | rust_core/src/engine.rs:66-128 | the result equals `ProcessKeyIn` of the current slot; the method has no modifies clause, so it changes no engine state |
| `Engine.GlobalEngine.GetProfiles` | rust_core/src/engine.rs:131-141 | fails when not initialized, else returns the installed profiles in input order |
| `Engine.InitTwice` | rust_core/src/engine.rs:40-42 | a second well-formed init fails with "already initialized" and the engine still reports the first profile list |
| `HostModels.FlagsExclusive` | mobile/android/ime/src/main/kotlin/com/yourcompany/cyrillicime/ime/model/ConversionResult.kt:20-22 | at most one of isCommit, isComposing, isClear holds, and for an action outside the three none holds |
| `HostModels.IsCommit` | mobile/android/ime/src/main/kotlin/com/yourcompany/cyrillicime/ime/model/ConversionResult.kt:20 | holds iff the action is the tag the engine's commit constructor writes, and then it is neither the composing nor the clear tag |
| `HostModels.IsComposing` | mobile/android/ime/src/main/kotlin/com/yourcompany/cyrillicime/ime/model/ConversionResult.kt:21 | holds iff the action is the tag the engine's composing constructor writes, and then it is neither the commit nor the clear tag |
| `HostModels.IsClear` | mobile/android/ime/src/main/kotlin/com/yourcompany/cyrillicime/ime/model/ConversionResult.kt:22 | holds iff the action is the tag the engine's clear constructor writes, and then it is neither the commit nor the composing tag |
| `HostModels.ConstructorsRaiseTheirFlag` | mobile/iOS/Shared/Models/ConversionResult.swift:25-27 | a commit, composing or clear result built by the engine raises exactly its own flag on the host |
| `HostModels.DisplayName` | mobile/android/ime/src/main/kotlin/com/yourcompany/cyrillicime/ime/model/Profile.kt:29-31 | the result is one of the two names: the Japanese one for any language starting with "ja", the English one otherwise |
| `HostModels.DisplayNameExamples` | mobile/android/ime/src/main/kotlin/com/yourcompany/cyrillicime/ime/model/Profile.kt:29-31 | "ja" and "ja-JP" give the Japanese name; "en", "" and the default argument "en" give the English name |
| `IosProfileManager.LoadedSchemaIsSkipped` | mobile/iOS/CyrillicKeyboard/Engine/ProfileManager.swift:73-76 | a schema id already recorded as loaded is a success that changes neither the record nor the engine |
| `IosProfileManager.SchemaRecordedOnlyOnSuccess` | mobile/iOS/CyrillicKeyboard/Engine/ProfileManager.swift:78-89 | a failed load changes nothing; a success adds exactly the id to the record, and a newly loaded id is then in the engine's cache; the engine slot only grows |
| `IosProfileManager.LoadSchemaIdempotent` | mobile/iOS/CyrillicKeyboard/Engine/ProfileManager.swift:69-91 | after a successful load, loading the same schema again is a success that changes nothing |
| `IosProfileManager.LoadSchemaKeepsConsistent` | mobile/iOS/CyrillicKeyboard/Engine/ProfileManager.swift:69-91 | if every recorded id is in the engine's cache before a load, the same holds after it |
| `IosProfileManager.LoadSchemaStep` | mobile/iOS/CyrillicKeyboard/Engine/ProfileManager.swift:69-91 | `loadSchemaForProfile` on values: it succeeds iff the id is already recorded, or its schema file exists and parses and the engine is initialized; a failure is a missing file or a rejected load |
| `IosProfileManager.ManagerError.Message` | mobile/iOS/CyrillicKeyboard/Engine/ProfileManager.swift:33-109 | the missing-file and no-current-profile texts verbatim; the other texts end with the decoder's detail, the engine's message, "<id>.json" or the unknown profile id |
| `IosProfileManager.ProfileManager.constructor` | mobile/iOS/CyrillicKeyboard/Engine/ProfileManager.swift:16-24 | a new manager has no profiles and no loaded schemas |
| `IosProfileManager.ProfileManager.CurrentProfileId` | mobile/iOS/Shared/Extensions/UserDefaults+AppGroup.swift:30-36 | the stored id, or "rus_standard" when none is stored |
| `IosProfileManager.ProfileManager.IsValidProfile` | mobile/iOS/CyrillicKeyboard/Engine/ProfileManager.swift:159-161 | holds iff some available profile has the id |
| `IosProfileManager.ProfileManager.CurrentProfile` | mobile/iOS/CyrillicKeyboard/Engine/ProfileManager.swift:19-22 | absent iff no available profile has the stored id; otherwise the first available profile with that id |
| `IosProfileManager.ProfileManager.Initialize` | mobile/iOS/CyrillicKeyboard/Engine/ProfileManager.swift:30-62 | a missing profiles file, a missing kana file, or a profiles decode failure returns its error and changes nothing; after a decode the profiles are replaced even when the engine init then fails; the engine outcome is reported as such |
| `IosProfileManager.ProfileManager.LoadSchemaForProfile` | mobile/iOS/CyrillicKeyboard/Engine/ProfileManager.swift:69-91 | the record, the engine and the error are as `LoadSchemaStep` gives them: skip if loaded, else file then engine must succeed before the id is recorded; the record stays consistent with the engine |
| `IosProfileManager.ProfileManager.LoadCurrentSchema` | mobile/iOS/CyrillicKeyboard/Engine/ProfileManager.swift:95-100 | with no current profile returns "No current profile set" and loads nothing; otherwise loads the current profile's schema |
| `IosProfileManager.ProfileManager.SwitchProfile` | mobile/iOS/CyrillicKeyboard/Engine/ProfileManager.swift:107-125 | an unknown id fails and changes nothing; otherwise the target's schema is loaded and the id is stored only when that succeeds, after which the current profile has the target id |
| `AndroidProfileManager.SelectCurrentProfile` | mobile/android/ime/src/main/kotlin/com/yourcompany/cyrillicime/ime/engine/ProfileManager.kt:45-51 | the first profile with the saved id if any; else the first profile; none exactly when the list is empty; always one of the listed profiles |
| `AndroidProfileManager.ProfileManager.constructor` | mobile/android/ime/src/main/kotlin/com/yourcompany/cyrillicime/ime/engine/ProfileManager.kt:14-27 | a new manager has no profiles and no current profile |
| `AndroidProfileManager.ProfileManager.SavedIdOrDefault` | mobile/android/ime/src/main/kotlin/com/yourcompany/cyrillicime/ime/engine/ProfileManager.kt:45-48 | the saved id, or "rus_standard" when none is saved |
| `AndroidProfileManager.ProfileManager.LoadProfiles` | mobile/android/ime/src/main/kotlin/com/yourcompany/cyrillicime/ime/engine/ProfileManager.kt:37-59 | a missing or undecodable file returns false and changes nothing; otherwise the profiles are replaced and the current profile is selected from the saved id; the current profile stays one of the profiles |
| `AndroidProfileManager.ProfileManager.SwitchProfile` | mobile/android/ime/src/main/kotlin/com/yourcompany/cyrillicime/ime/engine/ProfileManager.kt:64-76 | returns true iff some profile has the id; on false neither the current profile nor the preferences change; on true the first such profile is current and its id is saved |
| `AndroidProfileManager.ProfileManager.LoadSchemaForProfile` | mobile/android/ime/src/main/kotlin/com/yourcompany/cyrillicime/ime/engine/ProfileManager.kt:81-91 | true iff the schema file exists, parses and the engine is initialized; then the schema is stored under its id, otherwise the engine is unchanged |
| `AndroidProfileManager.ProfileManager.InitializeEngine` | mobile/android/ime/src/main/kotlin/com/yourcompany/cyrillicime/ime/engine/ProfileManager.kt:96-117 | returns the engine init result (a missing file fails first); on failure the engine is unchanged; on success the current profile's schema load is attempted, and only then |

## Left out

- JSON parsing and serialisation (serde_json, kotlinx.serialization, JSONDecoder) are
  libraries outside the model: blobs arrive already parsed. The iOS manager's Swift
  decode and the engine's own parse of profiles.json are given the same parse outcome.
  On Android, one parse outcome likewise stands for both the lenient Kotlin decode in
  `loadProfiles` and the engine's strict parse in `initializeEngine`. So the model cannot
  express a profiles.json that only the lenient decoder accepts, for which `loadProfiles`
  would succeed and `initializeEngine` would fail.
  The "Invalid UTF-8 in profiles.json" branch of the iOS `initialize` is not modelled,
  since a Swift string always converts to UTF-8.
- Thread safety is not modelled. This covers the `RwLock` around the global slot and its
  "Failed to acquire write lock" / "Failed to acquire read lock" errors from a poisoned
  lock. The slot is one object.
- The foreign-call layers are not part of this model (`ffi.rs`, `jni.rs`, `RustCoreFFI.swift`,
  `RustCoreEngine.kt`, `NativeLib.kt`), nor the version string. The host managers call
  the engine's operations directly; the iOS bridge's own "already initialized" flag is
  not modelled.
- The UI and input-method lifecycle are not modelled: how each host applies a result to
  its text field and buffer. `Conversion.Feed` feeds every returned buffer back, as the
  Android service does.
- Logging (`print`, `Log`) is left out. So is the iOS profile-change notification.
- The Swift `Profile.displayName` is left out: it reads the device locale.
- Storage of UserDefaults and SharedPreferences is left out: each is a field holding the
  saved profile id.
