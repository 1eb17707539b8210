/**
 * The records of the conversion core (rust_core/src/models.rs): profiles, schemas,
 * the kana table and the result of one keystroke, with the three result constructors.
 */
module Models {
  import opened Wrappers

  /** One keyboard profile as listed in profiles.json. */
  datatype Profile = Profile(
    id: string,
    nameJa: string,
    nameEn: string,
    keyboardLayout: seq<string>,
    inputSchemaId: string)

  /** The value a schema maps a Cyrillic key sequence to. */
  datatype SchemaEntry = SchemaEntry(kanaKey: string)

  /** Cyrillic key sequence -> entry naming a kana key. */
  type Schema = map<string, SchemaEntry>

  /** Kana key -> hiragana text. */
  type KanaEngine = map<string, string>

  /** What one keystroke tells the host to do. */
  datatype ConversionResult = ConversionResult(output: string, buffer: string, action: string)

  const CommitAction: string := "commit"
  const ComposingAction: string := "composing"
  const ClearAction: string := "clear"

  /** Emit `output` and empty the composition buffer. */
  function Commit(output: string): (r: ConversionResult)
    ensures r.action == CommitAction && r.action != ComposingAction && r.action != ClearAction
    ensures r.output == output && r.buffer == ""
  {
    ConversionResult(output, "", CommitAction)
  }

  /** Emit nothing and show `buffer` as the pending composition. */
  function Composing(buffer: string): (r: ConversionResult)
    ensures r.action == ComposingAction && r.action != CommitAction && r.action != ClearAction
    ensures r.output == "" && r.buffer == buffer
  {
    ConversionResult("", buffer, ComposingAction)
  }

  /** Emit nothing and drop the composition. */
  function Clear(): (r: ConversionResult)
    ensures r.action == ClearAction && r.action != CommitAction && r.action != ComposingAction
    ensures r.output == "" && r.buffer == ""
  {
    ConversionResult("", "", ClearAction)
  }

  /** No two constructors build the same result, whatever their arguments. */
  lemma ConstructorsDistinct(o: string, b: string)
    ensures Commit(o) != Composing(b) && Commit(o) != Clear() && Composing(b) != Clear()
  {
  }

  /** `profiles` has an element with this id before position `i`. */
  predicate IdBefore(profiles: seq<Profile>, id: string, i: int)
    requires 0 <= i <= |profiles|
  {
    exists j :: 0 <= j < i && profiles[j].id == id
  }

  /**
   * The first profile with the given id (`profiles.iter().find(|p| p.id == id)`,
   * also Swift's `first { $0.id == id }` and Kotlin's `find { it.id == id }`).
   */
  function FindProfile(profiles: seq<Profile>, id: string): (r: Option<Profile>)
    ensures r.None? <==> !IdBefore(profiles, id, |profiles|)
    ensures r.Some? ==> exists i :: 0 <= i < |profiles| && profiles[i] == r.value
                                    && r.value.id == id && !IdBefore(profiles, id, i)
  {
    if profiles == [] then None
    else if profiles[0].id == id then
      assert !IdBefore(profiles, id, 0);
      Some(profiles[0])
    else
      var r := FindProfile(profiles[1..], id);
      assert IdBefore(profiles, id, |profiles|) ==> IdBefore(profiles[1..], id, |profiles| - 1) by {
        if IdBefore(profiles, id, |profiles|) {
          var j :| 0 <= j < |profiles| && profiles[j].id == id;
          assert profiles[1..][j - 1].id == id;
        }
      }
      assert r.Some? ==> exists i :: 0 <= i < |profiles| && profiles[i] == r.value
                                     && r.value.id == id && !IdBefore(profiles, id, i) by {
        if r.Some? {
          var i :| 0 <= i < |profiles| - 1 && profiles[1..][i] == r.value
                   && r.value.id == id && !IdBefore(profiles[1..], id, i);
          assert profiles[i + 1] == r.value;
          forall j | 0 < j < i + 1 ensures profiles[j].id != id {
            assert profiles[j] == profiles[1..][j - 1];
          }
        }
      }
      r
  }

  /**
   * The schema that a JSON object with the given members, in document order, decodes
   * to: one entry per distinct key, and a later member with a repeated key replaces
   * the earlier one.
   */
  function SchemaFromMembers(members: seq<(string, string)>): (s: Schema)
    ensures forall k :: k in s <==> exists i :: 0 <= i < |members| && members[i].0 == k
  {
    if members == [] then map[]
    else
      var last := members[|members| - 1];
      var s := SchemaFromMembers(members[..|members| - 1])[last.0 := SchemaEntry(last.1)];
      s
  }

  /** For a repeated key, the member that comes last decides the schema entry. */
  lemma {:induction false} SchemaLastMemberWins(members: seq<(string, string)>, i: int)
    requires 0 <= i < |members|
    requires forall j :: i < j < |members| ==> members[j].0 != members[i].0
    ensures members[i].0 in SchemaFromMembers(members)
    ensures SchemaFromMembers(members)[members[i].0] == SchemaEntry(members[i].1)
  {
    if i < |members| - 1 {
      var init := members[..|members| - 1];
      forall j | i < j < |init| ensures init[j].0 != init[i].0 {
        assert init[j] == members[j];
      }
      SchemaLastMemberWins(init, i);
    }
  }
}
