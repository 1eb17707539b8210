/**
 * The decision ladder of one keystroke (the body of `process_key` in
 * rust_core/src/engine.rs once the profile and its schema are found), as a pure
 * function of the schema, the kana table, the key and the caller's buffer.
 */
module Conversion {
  import opened Models

  /**
   * Some key of the schema starts with `s` (`schema.keys().any(|k| k.starts_with(s))`).
   * There is no precomputed prefix set: the engine scans the keys on every call.
   */
  predicate SomeKeyStartsWith(schema: Schema, s: string) {
    exists k :: k in schema && s <= k
  }

  /** The committed text for a schema entry: its kana, or the kana key itself when the table lacks it. */
  function KanaOrKey(kana: KanaEngine, entry: SchemaEntry): string {
    if entry.kanaKey in kana then kana[entry.kanaKey] else entry.kanaKey
  }

  /** `key` alone is a schema key whose kana key the table resolves. */
  predicate KeyAloneResolves(schema: Schema, kana: KanaEngine, key: string) {
    key in schema && schema[key].kanaKey in kana
  }

  /**
   * One keystroke: exact match of `buffer + key` commits, a proper start of some key
   * composes, otherwise `key` alone may commit (keeping the old buffer), otherwise clear.
   */
  function Convert(schema: Schema, kana: KanaEngine, key: string, buffer: string): (r: ConversionResult)
    ensures r.action == CommitAction || r.action == ComposingAction || r.action == ClearAction
    ensures r.action == ComposingAction ==> r.output == "" && SomeKeyStartsWith(schema, r.buffer)
    ensures r.action == ClearAction ==> r.output == "" && r.buffer == ""
    ensures r.action == CommitAction ==> r.buffer == "" || r.buffer == buffer
  {
    var candidate := buffer + key;
    if candidate in schema then
      Commit(KanaOrKey(kana, schema[candidate]))
    else if SomeKeyStartsWith(schema, candidate) then
      Composing(candidate)
    else if KeyAloneResolves(schema, kana, key) then
      ConversionResult(kana[schema[key].kanaKey], buffer, CommitAction)
    else
      Clear()
  }

  /** Rung 1: an exact match whose kana key resolves commits its kana and empties the buffer. */
  lemma ExactMatchCommitsKana(schema: Schema, kana: KanaEngine, key: string, buffer: string)
    requires buffer + key in schema && schema[buffer + key].kanaKey in kana
    ensures Convert(schema, kana, key, buffer) == Commit(kana[schema[buffer + key].kanaKey])
    ensures Convert(schema, kana, key, buffer).buffer == ""
  {
  }

  /** Rung 1, table mismatch: an exact match whose kana key is missing commits the kana key itself. */
  lemma ExactMatchWithoutKanaCommitsKey(schema: Schema, kana: KanaEngine, key: string, buffer: string)
    requires buffer + key in schema && schema[buffer + key].kanaKey !in kana
    ensures Convert(schema, kana, key, buffer) == Commit(schema[buffer + key].kanaKey)
  {
  }

  /**
   * Rung 2, both directions: the result is composing exactly when `buffer + key` is no
   * key but starts one, and then the new buffer is `buffer + key` and nothing is emitted.
   */
  lemma ComposingExactlyOnPartialMatch(schema: Schema, kana: KanaEngine, key: string, buffer: string)
    ensures Convert(schema, kana, key, buffer).action == ComposingAction <==>
      buffer + key !in schema && SomeKeyStartsWith(schema, buffer + key)
    ensures Convert(schema, kana, key, buffer).action == ComposingAction ==>
      Convert(schema, kana, key, buffer) == Composing(buffer + key)
  {
  }

  /** Every composing buffer the engine hands back is a prefix of some schema key. */
  lemma ComposingBufferIsKeyPrefix(schema: Schema, kana: KanaEngine, key: string, buffer: string)
    requires Convert(schema, kana, key, buffer).action == ComposingAction
    ensures exists k :: k in schema && Convert(schema, kana, key, buffer).buffer <= k
  {
  }

  /**
   * Rung 3: at a dead end, `key` alone with resolvable kana commits that kana and hands
   * back the caller's old buffer, not an empty one.
   */
  lemma DeadEndCommitsKeyAlone(schema: Schema, kana: KanaEngine, key: string, buffer: string)
    requires buffer + key !in schema && !SomeKeyStartsWith(schema, buffer + key)
    requires KeyAloneResolves(schema, kana, key)
    ensures Convert(schema, kana, key, buffer) ==
      ConversionResult(kana[schema[key].kanaKey], buffer, CommitAction)
  {
  }

  /**
   * Rung 4: any other dead end clears. A dead end never composes, even when `key` alone
   * starts some schema key, and a key alone whose kana key is missing also clears.
   */
  lemma DeadEndOtherwiseClears(schema: Schema, kana: KanaEngine, key: string, buffer: string)
    requires buffer + key !in schema && !SomeKeyStartsWith(schema, buffer + key)
    ensures Convert(schema, kana, key, buffer).action != ComposingAction
    ensures !KeyAloneResolves(schema, kana, key) ==> Convert(schema, kana, key, buffer) == Clear()
  {
  }

  /** The dead-end fallback can only fire with a non-empty buffer: with `buffer == ""` the key alone was already tried. */
  lemma FallbackNeedsBuffer(schema: Schema, kana: KanaEngine, key: string)
    requires key !in schema && !SomeKeyStartsWith(schema, key)
    ensures Convert(schema, kana, key, "") == Clear()
  {
    assert "" + key == key;
  }

  /**
   * An empty candidate on a schema with keys but no `""` entry composes the empty buffer,
   * because the empty string starts every key.
   */
  lemma EmptyCandidateComposes(schema: Schema, kana: KanaEngine)
    requires "" !in schema && |schema| > 0
    ensures Convert(schema, kana, "", "") == Composing("")
  {
    var k :| k in schema;
    assert "" <= k && SomeKeyStartsWith(schema, "");
    assert "" + "" == "";
  }

  /** The concatenation of a sequence of keystrokes. */
  function Concat(keys: seq<string>): string {
    if keys == [] then "" else keys[0] + Concat(keys[1..])
  }

  /**
   * Feeds keystrokes one at a time, handing each returned buffer back to the next call,
   * and collects the committed text; returns (committed text, final buffer). Starting
   * from an empty buffer (or one that starts a schema key), every buffer handed back is
   * empty or starts a schema key.
   */
  function Feed(schema: Schema, kana: KanaEngine, keys: seq<string>, buffer: string): (r: (string, string))
    ensures (buffer == "" || SomeKeyStartsWith(schema, buffer)) ==> (r.1 == "" || SomeKeyStartsWith(schema, r.1))
    decreases |keys|
  {
    if keys == [] then ("", buffer)
    else
      var r := Convert(schema, kana, keys[0], buffer);
      var rest := Feed(schema, kana, keys[1..], r.buffer);
      ((if r.action == CommitAction then r.output else "") + rest.0, rest.1)
  }

  /**
   * Multi-key completion: typing the glyphs of a schema key one by one, from a buffer
   * with no schema key strictly between it and the full key, composes at every step
   * and commits the key's kana at the last one, leaving an empty buffer.
   */
  lemma {:induction false} TypingAKeyCommitsIt(schema: Schema, kana: KanaEngine, keys: seq<string>, buffer: string)
    requires |keys| > 0 && forall i :: 0 <= i < |keys| ==> keys[i] != ""
    requires buffer + Concat(keys) in schema
    requires forall p :: p in schema && buffer < p ==> !(p < buffer + Concat(keys))
    ensures Feed(schema, kana, keys, buffer) == (KanaOrKey(kana, schema[buffer + Concat(keys)]), "")
  {
    var w := buffer + Concat(keys);
    var c := buffer + keys[0];
    assert w == c + Concat(keys[1..]);
    if |keys| == 1 {
      assert Concat(keys[1..]) == "";
      assert c == w;
      var out := KanaOrKey(kana, schema[w]);
      assert Convert(schema, kana, keys[0], buffer) == Commit(out);
      assert Feed(schema, kana, keys[1..], "") == ("", "");
      assert Feed(schema, kana, keys, buffer) == (out + "", "");
      assert out + "" == out;
    } else {
      assert keys[1..][0] == keys[1];
      assert Concat(keys[1..]) == keys[1] + Concat(keys[2..]);
      assert c < w;
      assert buffer < c;
      assert c !in schema;
      assert SomeKeyStartsWith(schema, c);
      assert Convert(schema, kana, keys[0], buffer) == Composing(c);
      forall p | p in schema && c < p ensures !(p < c + Concat(keys[1..])) {
        assert buffer < p;
      }
      TypingAKeyCommitsIt(schema, kana, keys[1..], c);
      var rest := Feed(schema, kana, keys[1..], c);
      assert rest.0 == KanaOrKey(kana, schema[w]) && rest.1 == "";
      assert Feed(schema, kana, keys, buffer) == ("" + rest.0, rest.1);
      assert "" + rest.0 == rest.0;
    }
  }
}
