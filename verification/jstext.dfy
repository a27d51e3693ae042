/**
  The few JavaScript value rules the location page relies on when it reads
  optional string properties out of decoded JSON:

  - a property may be missing (`undefined`), which is modelled as `None`;
  - in a condition, and on either side of `||`, the empty string is falsy, so
    `""` counts as absent exactly like a missing property;
  - `a || b || ''` therefore picks the first non-empty value of a chain.
 */
module JsText {

  /** A JavaScript value that may be `undefined`/`null` (`None`) or present. */
  datatype Option<+T> = None | Some(value: T)

  /** JavaScript truthiness of an optional string property. */
  predicate Truthy(v: Option<string>)
  {
    v.Some? && v.value != ""
  }

  /** `a || b` on two strings: `a` unless it is the empty string. */
  function Or(a: string, b: string): (r: string)
    ensures a != "" ==> r == a
    ensures a == "" ==> r == b
  {
    if a != "" then a else b
  }

  /**
    What `chain[0] || chain[1] || ... || ''` evaluates to: the empty string
    exactly when no entry is truthy, and otherwise the value of the first
    truthy entry.
   */
  ghost predicate PicksFirstTruthy(chain: seq<Option<string>>, r: string)
  {
    && (r == "" <==> forall i | 0 <= i < |chain| :: !Truthy(chain[i]))
    && forall i | 0 <= i < |chain| && Truthy(chain[i]) && (forall j | 0 <= j < i :: !Truthy(chain[j])) ::
         r == chain[i].value
  }

  /** Evaluates the chain `chain[0] || chain[1] || ... || ''` from left to right. */
  function FirstTruthy(chain: seq<Option<string>>): (r: string)
    ensures PicksFirstTruthy(chain, r)
  {
    if |chain| == 0 then ""
    else if Truthy(chain[0]) then chain[0].value
    else
      var rest := FirstTruthy(chain[1..]);
      assert forall i | 1 <= i < |chain| :: chain[i] == chain[1..][i - 1];
      rest
  }

  /** Some entry is truthy only if a first truthy entry exists. */
  lemma {:induction false} FirstTruthyIndexExists(chain: seq<Option<string>>, k: int)
    requires 0 <= k < |chain| && Truthy(chain[k])
    ensures exists i :: 0 <= i <= k && Truthy(chain[i]) && forall j | 0 <= j < i :: !Truthy(chain[j])
    decreases k
  {
    if exists j :: 0 <= j < k && Truthy(chain[j]) {
      var j :| 0 <= j < k && Truthy(chain[j]);
      FirstTruthyIndexExists(chain, j);
    }
  }

  /** The chain rule determines its value: at most one string satisfies it. */
  lemma PicksFirstTruthyUnique(chain: seq<Option<string>>, r1: string, r2: string)
    requires PicksFirstTruthy(chain, r1) && PicksFirstTruthy(chain, r2)
    ensures r1 == r2
  {
    if r1 != "" {
      var k :| 0 <= k < |chain| && Truthy(chain[k]);
      FirstTruthyIndexExists(chain, k);
    }
  }

  /**
    `s.split(sep)` for a one-character separator: the pieces between
    consecutive occurrences of `sep`, always at least one.
   */
  function SplitOn(s: string, sep: char): (parts: seq<string>)
    ensures |parts| >= 1
    decreases |s|
  {
    if |s| == 0 then [""]
    else
      var rest := SplitOn(s[1..], sep);
      if s[0] == sep then [""] + rest else [[s[0]] + rest[0]] + rest[1..]
  }

  /** A string without the separator is a single piece. */
  lemma {:induction false} SplitOnWithoutSeparator(a: string, sep: char)
    requires sep !in a
    ensures SplitOn(a, sep) == [a]
    decreases |a|
  {
    if |a| > 0 {
      SplitOnWithoutSeparator(a[1..], sep);
      assert [a[0]] + a[1..] == a;
    }
  }

  /** Splitting `a + sep + b` yields `a` followed by the pieces of `b`, when `a` has no separator. */
  lemma {:induction false} SplitOnAfterFirstSeparator(a: string, sep: char, b: string)
    requires sep !in a
    ensures SplitOn(a + [sep] + b, sep) == [a] + SplitOn(b, sep)
    decreases |a|
  {
    var s := a + [sep] + b;
    if |a| == 0 {
      assert s[1..] == b;
    } else {
      assert s[1..] == a[1..] + [sep] + b;
      SplitOnAfterFirstSeparator(a[1..], sep, b);
      assert [a[0]] + a[1..] == a;
    }
  }

  /** Lower-cases the ASCII letters `A`..`Z` and leaves every other character alone. */
  function LowerChar(c: char): (r: char)
    ensures 'A' <= c <= 'Z' ==> 'a' <= r <= 'z' && r as int - c as int == 'a' as int - 'A' as int
    ensures !('A' <= c <= 'Z') ==> r == c
  {
    if 'A' <= c <= 'Z' then (c as int - 'A' as int + 'a' as int) as char else c
  }

  /** `String.prototype.toLowerCase`, restricted to ASCII letters. */
  function Lower(s: string): (r: string)
    ensures |r| == |s|
    ensures forall i | 0 <= i < |s| :: r[i] == LowerChar(s[i])
  {
    if |s| == 0 then "" else [LowerChar(s[0])] + Lower(s[1..])
  }

  /** A string without upper-case ASCII letters is its own lower-case form. */
  lemma LowerOfLowerCase(s: string)
    requires forall i | 0 <= i < |s| :: !('A' <= s[i] <= 'Z')
    ensures Lower(s) == s
  {
  }

  /** Lower-casing twice is lower-casing once. */
  lemma LowerIdempotent(s: string)
    ensures Lower(Lower(s)) == Lower(s)
  {
    var l := Lower(s);
    assert forall i | 0 <= i < |s| :: LowerChar(l[i]) == l[i];
  }
}
