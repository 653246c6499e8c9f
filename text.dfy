/** Text operations the core relies on: ASCII case mapping (Python's
    `str.lower`/`str.upper` and JavaScript's `toUpperCase` restricted to
    ASCII letters), substring search, the `.*`-joined literal patterns of
    the repair-cost table, and decimal rendering of natural numbers. */
module Text {
  import opened MotData

  function LowerChar(c: char): char
  {
    if 'A' <= c <= 'Z' then (c as int + 32) as char else c
  }

  function UpperChar(c: char): char
  {
    if 'a' <= c <= 'z' then (c as int - 32) as char else c
  }

  /** A plain character-by-character projection; LowerFacts states what
      it does to a string. */
  function Lower(s: string): (r: string)
    ensures |r| == |s| && forall i :: 0 <= i < |s| ==> r[i] == LowerChar(s[i])
  {
    seq(|s|, i requires 0 <= i < |s| => LowerChar(s[i]))
  }

  /** A plain character-by-character projection; the postcondition only
      exposes its positions to callers. */
  function Upper(s: string): (r: string)
    ensures |r| == |s| && forall i :: 0 <= i < |s| ==> r[i] == UpperChar(s[i])
  {
    seq(|s|, i requires 0 <= i < |s| => UpperChar(s[i]))
  }

  /** Lower-casing leaves no ASCII capital behind, changes no other
      character, maps each capital to the letter that upper-cases back to
      it, and is idempotent; lower-casing ignores a prior upper-casing. */
  lemma LowerFacts(s: string)
    ensures forall i :: 0 <= i < |s| ==> !('A' <= Lower(s)[i] <= 'Z')
    ensures forall i :: 0 <= i < |s| && !('A' <= s[i] <= 'Z') ==> Lower(s)[i] == s[i]
    ensures forall i :: 0 <= i < |s| && 'A' <= s[i] <= 'Z' ==> 'a' <= Lower(s)[i] <= 'z' && UpperChar(Lower(s)[i]) == s[i]
    ensures Lower(Lower(s)) == Lower(s)
    ensures Lower(Upper(s)) == Lower(s)
  {
    var l, u := Lower(s), Upper(s);
    assert forall i :: 0 <= i < |s| ==> Lower(l)[i] == l[i];
    forall i | 0 <= i < |s| ensures Lower(u)[i] == l[i] {
      var c := s[i];
      if 'a' <= c <= 'z' {
        assert u[i] == (c as int - 32) as char;
        assert LowerChar(u[i]) == c;
      }
    }
  }

  /** `w` occurs in `text` starting at position `i`. */
  predicate OccursAt(text: string, w: string, i: int)
  {
    0 <= i && i + |w| <= |text| && text[i..i + |w|] == w
  }

  /** The leftmost occurrence of `w` in `text` at or after `from`. */
  function FindFrom(text: string, w: string, from: nat): (r: Option<nat>)
    ensures r.Some? ==> from <= r.value && OccursAt(text, w, r.value)
    ensures r.Some? ==> forall j :: from <= j < r.value ==> !OccursAt(text, w, j)
    ensures r.None? ==> forall j :: from <= j ==> !OccursAt(text, w, j)
    decreases |text| - from
  {
    if from + |w| > |text| then None
    else if text[from..from + |w|] == w then Some(from)
    else FindFrom(text, w, from + 1)
  }

  /** Python's `w in text`. */
  predicate Contains(text: string, w: string)
  {
    FindFrom(text, w, 0).Some?
  }

  lemma ContainsIff(text: string, w: string)
    ensures Contains(text, w) <==> exists i :: OccursAt(text, w, i)
  {
    if !Contains(text, w) {
      forall i ensures !OccursAt(text, w, i) {
        if 0 <= i { assert !OccursAt(text, w, i); }
      }
    }
  }

  /** A pattern of the repair-cost table: literal segments that the
      regular expression joins with `.*`, e.g. `brake.*pad` is
      `["brake", "pad"]`. */
  type Pattern = seq<string>

  /** Greedy search: each segment is taken at its leftmost occurrence after
      the end of the previous one. */
  function MatchFrom(text: string, segments: Pattern, from: nat): bool
    decreases |segments|
  {
    if segments == [] then true
    else match FindFrom(text, segments[0], from)
      case None => false
      case Some(i) => MatchFrom(text, segments[1..], i + |segments[0]|)
  }

  /** Reference definition: the segments occur in `text`, in order, without
      overlapping, the first one at or after `from`. */
  ghost predicate InOrderFrom(text: string, segments: Pattern, from: nat)
    decreases |segments|
  {
    segments == [] ||
    exists i: nat :: from <= i && OccursAt(text, segments[0], i) &&
                     InOrderFrom(text, segments[1..], i + |segments[0]|)
  }

  /** `re.search` of the pattern on `text`. */
  predicate Matches(text: string, segments: Pattern)
  {
    MatchFrom(text, segments, 0)
  }

  lemma InOrderFromMonotone(text: string, segments: Pattern, a: nat, b: nat)
    requires a <= b && InOrderFrom(text, segments, b)
    ensures InOrderFrom(text, segments, a)
  {
  }

  /** The greedy search finds a match exactly when one exists. */
  lemma {:induction false} MatchFromCorrect(text: string, segments: Pattern, from: nat)
    ensures MatchFrom(text, segments, from) <==> InOrderFrom(text, segments, from)
    decreases |segments|
  {
    if segments != [] {
      var w, rest := segments[0], segments[1..];
      match FindFrom(text, w, from)
      case None =>
      case Some(i0) =>
        MatchFromCorrect(text, rest, i0 + |w|);
        if InOrderFrom(text, segments, from) {
          var i: nat :| from <= i && OccursAt(text, w, i) && InOrderFrom(text, rest, i + |w|);
          assert i0 <= i;
          InOrderFromMonotone(text, rest, i0 + |w|, i + |w|);
        }
    }
  }

  lemma MatchesCorrect(text: string, segments: Pattern)
    ensures Matches(text, segments) <==> InOrderFrom(text, segments, 0)
  {
    MatchFromCorrect(text, segments, 0);
  }

  function DigitChar(d: nat): char
    requires d < 10
  {
    ('0' as int + d) as char
  }

  /** Decimal rendering, as JavaScript's template literals print an index. */
  function NatToString(n: nat): (r: string)
    ensures |r| >= 1
    ensures n >= 10 ==> |r| >= 2
  {
    if n < 10 then [DigitChar(n)] else NatToString(n / 10) + [DigitChar(n % 10)]
  }

  lemma {:induction false} NatToStringInjective(n: nat, m: nat)
    requires NatToString(n) == NatToString(m)
    ensures n == m
  {
    var s, t := NatToString(n), NatToString(m);
    if n >= 10 && m >= 10 {
      assert s[..|s| - 1] == NatToString(n / 10);
      assert t[..|t| - 1] == NatToString(m / 10);
      NatToStringInjective(n / 10, m / 10);
      assert s[|s| - 1] == t[|t| - 1];
    }
  }
}
