/**
  `getFlagEmoji`: the flag shown for a country code, from a fixed table of
  twenty lower-case ISO 3166-1 alpha-2 codes, with a globe for everything
  else.
 */
module Flags {
  import opened JsText

  /** The globe shown when no flag is known. */
  const Globe: string := "\U{1F30D}"

  /** Unicode regional indicator symbol for a lower-case ASCII letter. */
  function RegionalIndicator(c: char): (r: char)
    requires 'a' <= c <= 'z'
    ensures 0x1F1E6 <= r as int <= 0x1F1FF
  {
    (0x1F1E6 + (c as int - 'a' as int)) as char
  }

  /** The twenty entries of the `flags` object literal, in source order, as written there. */
  const Entries: seq<(string, string)> := [
    ("mx", "\U{1F1F2}\U{1F1FD}"), ("us", "\U{1F1FA}\U{1F1F8}"), ("ca", "\U{1F1E8}\U{1F1E6}"),
    ("br", "\U{1F1E7}\U{1F1F7}"), ("ar", "\U{1F1E6}\U{1F1F7}"), ("co", "\U{1F1E8}\U{1F1F4}"),
    ("pe", "\U{1F1F5}\U{1F1EA}"), ("cl", "\U{1F1E8}\U{1F1F1}"), ("ve", "\U{1F1FB}\U{1F1EA}"),
    ("ec", "\U{1F1EA}\U{1F1E8}"), ("es", "\U{1F1EA}\U{1F1F8}"), ("fr", "\U{1F1EB}\U{1F1F7}"),
    ("de", "\U{1F1E9}\U{1F1EA}"), ("it", "\U{1F1EE}\U{1F1F9}"), ("gb", "\U{1F1EC}\U{1F1E7}"),
    ("jp", "\U{1F1EF}\U{1F1F5}"), ("kr", "\U{1F1F0}\U{1F1F7}"), ("cn", "\U{1F1E8}\U{1F1F3}"),
    ("in", "\U{1F1EE}\U{1F1F3}"), ("au", "\U{1F1E6}\U{1F1FA}")
  ]

  /** The codes the table knows. */
  const Codes: set<string> := set i | 0 <= i < |Entries| :: Entries[i].0

  /** A two-letter lower-case code. */
  predicate IsLowerPair(k: string)
  {
    |k| == 2 && 'a' <= k[0] <= 'z' && 'a' <= k[1] <= 'z'
  }

  /** The flag emoji Unicode defines for a two-letter code: its two regional indicators. */
  function FlagOfCode(k: string): (r: string)
    requires IsLowerPair(k)
    ensures |r| == 2 && r != Globe
  {
    [RegionalIndicator(k[0]), RegionalIndicator(k[1])]
  }

  /** Every entry of the table is the flag emoji of its key. */
  lemma EntriesAreFlagsOfTheirCodes()
    ensures forall i | 0 <= i < |Entries| :: IsLowerPair(Entries[i].0) && Entries[i].1 == FlagOfCode(Entries[i].0)
  {
  }

  /** Property lookup on the object literal: the value of the entry whose key is `key`. */
  function Lookup(entries: seq<(string, string)>, key: string): (r: Option<string>)
    ensures r.None? <==> forall i | 0 <= i < |entries| :: entries[i].0 != key
    ensures r.Some? ==> exists i | 0 <= i < |entries| :: entries[i] == (key, r.value)
  {
    if |entries| == 0 then None
    else if entries[0].0 == key then Some(entries[0].1)
    else
      var r := Lookup(entries[1..], key);
      assert forall i | 1 <= i < |entries| :: entries[i] == entries[1..][i - 1];
      r
  }

  /**
    `getFlagEmoji(countryCode)`: the globe for an empty code and for a code
    the table does not hold (compared after lower-casing); otherwise the
    flag emoji of the lower-cased code.
   */
  function Flag(code: string): (r: string)
    ensures code == "" || Lower(code) !in Codes ==> r == Globe
    ensures code != "" && Lower(code) in Codes ==> IsLowerPair(Lower(code)) && r == FlagOfCode(Lower(code))
  {
    if code == "" then Globe
    else
      match Lookup(Entries, Lower(code))
      case Some(e) =>
        EntriesAreFlagsOfTheirCodes();
        e
      case None => Globe
  }

  /** Lookup ignores case: a code and its lower-cased form give the same flag. */
  lemma FlagIgnoresCase(code: string)
    ensures Flag(code) == Flag(Lower(code))
  {
    LowerIdempotent(code);
  }

  /** Example: an upper-case code, as the IP lookup returns it, finds the Mexican flag. */
  lemma UpperCaseCodeFindsFlag()
    ensures Flag("MX") == "\U{1F1F2}\U{1F1FD}"
  {
    assert Lower("MX") == "mx";
  }

  // ---------------------------------------------------------------------
  // The lookup as written: `flags[key] || globe` on a plain object literal.
  // ---------------------------------------------------------------------

  /**
    The names inherited from `Object.prototype` (ECMA-262, "Properties of
    the Object Prototype Object", and `__proto__` from its Annex B) that a
    lower-cased code can spell: every other inherited name holds an
    upper-case letter, so `toLowerCase()` never produces it. Reading
    `constructor` yields the `Object` function and reading `__proto__`
    yields `Object.prototype`; both are truthy.
   */
  const InheritedKeys: seq<string> := ["constructor", "__proto__"]

  /** What `getFlagEmoji` hands back as written: a string, or an inherited non-string member. */
  datatype JsResult = Text(s: string) | InheritedMember(name: string)

  lemma InheritedKeysAreLong()
    ensures forall k | k in InheritedKeys :: |k| > 2
  {
    assert forall i | 0 <= i < |InheritedKeys| :: |InheritedKeys[i]| > 2;
  }

  /** No inherited name is one of the table's two-letter codes. */
  lemma InheritedKeysAreNotCodes()
    ensures forall k | k in InheritedKeys :: k !in Codes
  {
    InheritedKeysAreLong();
    EntriesAreFlagsOfTheirCodes();
    assert forall k | k in Codes :: |k| == 2;
  }

  /**
    `flags[countryCode.toLowerCase()] || '🌍'` evaluated on an ordinary object:
    own entries first, then the prototype chain, then `undefined`. It agrees
    with `Flag` except on the inherited names, where it yields the inherited
    member instead of the globe.
   */
  function FlagAsWritten(code: string): (r: JsResult)
    ensures code == "" || Lower(code) !in InheritedKeys ==> r == Text(Flag(code))
    ensures code != "" && Lower(code) in InheritedKeys ==> r == InheritedMember(Lower(code)) && Flag(code) == Globe
  {
    if code == "" then Text(Globe)
    else
      var key := Lower(code);
      match Lookup(Entries, key)
      case Some(e) =>
        InheritedKeysAreNotCodes();
        Text(e)
      case None =>
        if key in InheritedKeys then InheritedMember(key) else Text(Globe)
  }

  /** The code as written returns the `Object` function for the code "constructor", not the globe. */
  lemma FlagAsWrittenLeaksConstructor()
    ensures FlagAsWritten("constructor") == InheritedMember("constructor")
    ensures Flag("constructor") == Globe
  {
    LowerOfLowerCase("constructor");
    assert InheritedKeys[0] == "constructor";
  }

  /** The code as written returns `Object.prototype` for the code "__proto__", not the globe. */
  lemma FlagAsWrittenLeaksPrototype()
    ensures FlagAsWritten("__proto__") == InheritedMember("__proto__")
    ensures Flag("__proto__") == Globe
  {
    LowerOfLowerCase("__proto__");
    assert InheritedKeys[1] == "__proto__";
  }
}
