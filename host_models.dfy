/**
 * The host-side views of the engine's records: the `isCommit`/`isComposing`/`isClear`
 * flags that the Kotlin and Swift `ConversionResult` types compute from the action
 * string, and Kotlin's `Profile.getDisplayName`.
 */
module HostModels {
  import opened Models

  /** `isCommit`: the action is the tag the engine's commit constructor writes. */
  predicate IsCommit(r: ConversionResult)
    ensures IsCommit(r) <==> r.action == Commit("").action
    ensures IsCommit(r) ==> r.action != Composing("").action && r.action != Clear().action
  {
    r.action == "commit"
  }

  /** `isComposing`: the action is the tag the engine's composing constructor writes. */
  predicate IsComposing(r: ConversionResult)
    ensures IsComposing(r) <==> r.action == Composing("").action
    ensures IsComposing(r) ==> r.action != Commit("").action && r.action != Clear().action
  {
    r.action == "composing"
  }

  /** `isClear`: the action is the tag the engine's clear constructor writes. */
  predicate IsClear(r: ConversionResult)
    ensures IsClear(r) <==> r.action == Clear().action
    ensures IsClear(r) ==> r.action != Commit("").action && r.action != Composing("").action
  {
    r.action == "clear"
  }

  /** At most one flag holds for any result; an action outside the three sets none. */
  lemma FlagsExclusive(r: ConversionResult)
    ensures !(IsCommit(r) && IsComposing(r)) && !(IsCommit(r) && IsClear(r)) && !(IsComposing(r) && IsClear(r))
    ensures r.action != "commit" && r.action != "composing" && r.action != "clear" ==>
      !IsCommit(r) && !IsComposing(r) && !IsClear(r)
  {
  }

  /** Each result the engine builds raises exactly the flag of its constructor on the host. */
  lemma ConstructorsRaiseTheirFlag(o: string, b: string)
    ensures IsCommit(Commit(o)) && !IsComposing(Commit(o)) && !IsClear(Commit(o))
    ensures IsComposing(Composing(b)) && !IsCommit(Composing(b)) && !IsClear(Composing(b))
    ensures IsClear(Clear()) && !IsCommit(Clear()) && !IsComposing(Clear())
  {
  }

  /** The language argument `getDisplayName` uses when none is given. */
  const DefaultLanguage: string := "en"

  /** The Japanese name for any language tag starting with "ja", the English name otherwise. */
  function DisplayName(p: Profile, language: string): (name: string)
    ensures name == p.nameJa || name == p.nameEn
    ensures "ja" <= language ==> name == p.nameJa
    ensures !("ja" <= language) ==> name == p.nameEn
  {
    if "ja" <= language then p.nameJa else p.nameEn
  }

  /** Regional Japanese tags, English, the empty tag and the default all pick as expected. */
  lemma DisplayNameExamples(p: Profile)
    ensures DisplayName(p, "ja") == p.nameJa && DisplayName(p, "ja-JP") == p.nameJa
    ensures DisplayName(p, "en") == p.nameEn && DisplayName(p, "") == p.nameEn
    ensures DisplayName(p, DefaultLanguage) == p.nameEn
  {
    assert "en"[0] != "ja"[0];
    assert "ja" <= "ja-JP";
  }
}
