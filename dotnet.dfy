/** The parts of the .NET base library whose behaviour the bridge relies on:
    32-bit integers, `DateTime.AddSeconds` with its range check, what
    `Task.Delay` does with its argument, and `String.Trim()` with the
    whitespace set of `Char.IsWhiteSpace`. */
module DotNet {
  import opened Wrappers

  newtype Int32 = x: int | -0x8000_0000 <= x < 0x8000_0000

  // ---------------------------------------------------------------------
  // DateTime, to whole-second precision, as seconds since the Unix epoch
  // ---------------------------------------------------------------------

  /** `new DateTime(1970, 1, 1, 0, 0, 0, DateTimeKind.Utc)`. */
  const Epoch: int := 0

  /** 0001-01-01T00:00:00, `DateTime.MinValue`. */
  const MinSeconds: int := -62135596800

  /** 9999-12-31T23:59:59, the last whole second before `DateTime.MaxValue`. */
  const MaxSeconds: int := 253402300799

  predicate Representable(t: int) {
    MinSeconds <= t <= MaxSeconds
  }

  /** `DateTime.AddSeconds`: it throws (here: None) when the result falls
      outside the range a DateTime can hold. Its separate check on the size
      of the argument is implied by this one for a representable start. */
  function AddSeconds(t: int, seconds: int): (r: Option<int>)
    requires Representable(t)
    ensures r.Some? <==> Representable(t + seconds)
    ensures r.Some? ==> r.value == t + seconds
  {
    if Representable(t + seconds) then Some(t + seconds) else None
  }

  // ---------------------------------------------------------------------
  // Task.Delay(millisecondsDelay, cancellationToken)
  // ---------------------------------------------------------------------

  /** What a delay of some milliseconds does: it elapses, it waits until it is
      cancelled (the value -1, an infinite timeout), or it throws
      `ArgumentOutOfRangeException` at once (any value below -1). */
  datatype DelayResult = Elapses | WaitsForever | Throws

  function Delay(milliseconds: Int32): (r: DelayResult)
    ensures r == Throws <==> milliseconds < -1
    ensures r == WaitsForever <==> milliseconds == -1
  {
    if milliseconds < -1 then Throws
    else if milliseconds == -1 then WaitsForever
    else Elapses
  }

  // ---------------------------------------------------------------------
  // String.Trim()
  // ---------------------------------------------------------------------

  /** `Char.IsWhiteSpace`: the Unicode space, line and paragraph separators,
      the controls U+0009..U+000D and U+0085. */
  predicate IsWhiteSpace(c: char) {
    || c == ' '
    || ('\t' <= c <= '\r')
    || c == '\U{0085}'
    || c == '\U{00A0}'
    || c == '\U{1680}'
    || ('\U{2000}' <= c <= '\U{200A}')
    || c == '\U{2028}'
    || c == '\U{2029}'
    || c == '\U{202F}'
    || c == '\U{205F}'
    || c == '\U{3000}'
  }

  /** Every character of `s` at an index in [lo, hi) is whitespace. */
  predicate WhiteSpaceBetween(s: string, lo: nat, hi: nat)
    requires hi <= |s|
  {
    forall i :: lo <= i < hi ==> IsWhiteSpace(s[i])
  }

  /** `s` is empty or whitespace only. */
  predicate AllWhiteSpace(s: string) {
    WhiteSpaceBetween(s, 0, |s|)
  }

  /** The number of whitespace characters at the start of `s`. */
  function LeadingWhiteSpace(s: string): (n: nat)
    ensures n <= |s|
  {
    if s == [] || !IsWhiteSpace(s[0]) then 0 else LeadingWhiteSpace(s[1..]) + 1
  }

  /** The number of whitespace characters at the end of `s`. */
  function TrailingWhiteSpace(s: string): (n: nat)
    ensures n <= |s|
  {
    if s == [] || !IsWhiteSpace(s[|s| - 1]) then 0 else TrailingWhiteSpace(s[..|s| - 1]) + 1
  }

  /** `LeadingWhiteSpace` counts the whole whitespace run at the start. */
  lemma {:induction false} LeadingWhiteSpaceSpec(s: string)
    ensures var n := LeadingWhiteSpace(s);
            WhiteSpaceBetween(s, 0, n) && (n < |s| ==> !IsWhiteSpace(s[n]))
  {
    if s != [] && IsWhiteSpace(s[0]) {
      var tail := s[1..];
      var k := LeadingWhiteSpace(tail);
      LeadingWhiteSpaceSpec(tail);
      forall i | 0 <= i < k + 1 ensures IsWhiteSpace(s[i]) {
        if i > 0 { assert s[i] == tail[i - 1]; }
      }
      if k + 1 < |s| { assert s[k + 1] == tail[k]; }
    }
  }

  /** `TrailingWhiteSpace` counts the whole whitespace run at the end. */
  lemma {:induction false} TrailingWhiteSpaceSpec(s: string)
    ensures var n := TrailingWhiteSpace(s);
            WhiteSpaceBetween(s, |s| - n, |s|) && (n < |s| ==> !IsWhiteSpace(s[|s| - 1 - n]))
  {
    if s != [] && IsWhiteSpace(s[|s| - 1]) {
      var init := s[..|s| - 1];
      var k := TrailingWhiteSpace(init);
      TrailingWhiteSpaceSpec(init);
      forall i | |s| - (k + 1) <= i < |s| ensures IsWhiteSpace(s[i]) {
        if i < |s| - 1 { assert s[i] == init[i]; }
      }
      if k + 1 < |s| { assert s[|s| - 1 - (k + 1)] == init[|init| - 1 - k]; }
    }
  }

  /** `r` is `s` with whitespace removed from both ends: a slice of `s` that
      neither starts nor ends with whitespace, with only whitespace around it. */
  ghost predicate IsTrimOf(s: string, r: string) {
    && (r == [] || (!IsWhiteSpace(r[0]) && !IsWhiteSpace(r[|r| - 1])))
    && exists i :: 0 <= i <= |s| - |r| && s[i..i + |r|] == r
                   && WhiteSpaceBetween(s, 0, i) && WhiteSpaceBetween(s, i + |r|, |s|)
  }

  /** `String.Trim()`: strips leading, then trailing whitespace. */
  function Trim(s: string): (r: string)
    ensures |r| <= |s|
  {
    var t := s[LeadingWhiteSpace(s)..];
    t[..|t| - TrailingWhiteSpace(t)]
  }

  /** `Trim` removes exactly the whitespace at both ends. */
  lemma TrimSpec(s: string)
    ensures IsTrimOf(s, Trim(s))
  {
    var lead := LeadingWhiteSpace(s);
    var t := s[lead..];
    var trail := TrailingWhiteSpace(t);
    var r := t[..|t| - trail];
    LeadingWhiteSpaceSpec(s);
    TrailingWhiteSpaceSpec(t);
    assert r == Trim(s);
    assert |r| == |t| - trail;
    forall k | 0 <= k < |r| ensures s[lead..lead + |r|][k] == r[k] {
      assert r[k] == t[k] == s[lead + k];
    }
    forall k | lead + |r| <= k < |s| ensures IsWhiteSpace(s[k]) {
      assert s[k] == t[k - lead];
    }
    if r != [] {
      assert r[0] == s[lead];
      assert r[|r| - 1] == t[|t| - 1 - trail];
    }
  }

  /** A string that is blank (empty or whitespace only) trims to "", and
      only such a string does. */
  lemma TrimBlank(s: string)
    ensures Trim(s) == [] <==> AllWhiteSpace(s)
  {
    TrimSpec(s);
    LeadingWhiteSpaceSpec(s);
    if Trim(s) == [] {
      var i :| 0 <= i <= |s| && WhiteSpaceBetween(s, 0, i) && WhiteSpaceBetween(s, i, |s|);
      assert AllWhiteSpace(s);
    }
  }

  /** Whitespace up to a non-whitespace character at `i` is the leading run. */
  lemma {:induction false} LeadingWhiteSpaceAt(s: string, i: nat)
    requires i < |s| && WhiteSpaceBetween(s, 0, i) && !IsWhiteSpace(s[i])
    ensures LeadingWhiteSpace(s) == i
  {
    if i > 0 {
      var tail := s[1..];
      assert IsWhiteSpace(s[0]);
      forall k | 0 <= k < i - 1 ensures IsWhiteSpace(tail[k]) { assert tail[k] == s[k + 1]; }
      assert tail[i - 1] == s[i];
      LeadingWhiteSpaceAt(tail, i - 1);
    }
  }

  /** Whitespace after a non-whitespace character at `j - 1` is the trailing run. */
  lemma {:induction false} TrailingWhiteSpaceAt(s: string, j: nat)
    requires 0 < j <= |s| && WhiteSpaceBetween(s, j, |s|) && !IsWhiteSpace(s[j - 1])
    ensures TrailingWhiteSpace(s) == |s| - j
    decreases |s|
  {
    if j < |s| {
      var init := s[..|s| - 1];
      assert IsWhiteSpace(s[|s| - 1]);
      forall k | j <= k < |init| ensures IsWhiteSpace(init[k]) { assert init[k] == s[k]; }
      assert init[j - 1] == s[j - 1];
      TrailingWhiteSpaceAt(init, j);
    }
  }

  /** The trimmed string is determined by `IsTrimOf`: `Trim` is the only
      function meeting that description. */
  lemma TrimUnique(s: string, r: string)
    requires IsTrimOf(s, r)
    ensures r == Trim(s)
  {
    var i :| 0 <= i <= |s| - |r| && s[i..i + |r|] == r
             && WhiteSpaceBetween(s, 0, i) && WhiteSpaceBetween(s, i + |r|, |s|);
    if r == [] {
      assert AllWhiteSpace(s);
      TrimBlank(s);
    } else {
      assert s[i] == r[0];
      LeadingWhiteSpaceAt(s, i);
      var t := s[i..];
      assert t[|r| - 1] == r[|r| - 1];
      forall k | |r| <= k < |t| ensures IsWhiteSpace(t[k]) { assert t[k] == s[i + k]; }
      TrailingWhiteSpaceAt(t, |r|);
      assert Trim(s) == t[..|r|];
      forall k | 0 <= k < |r| ensures t[..|r|][k] == r[k] {
        assert r[k] == s[i..i + |r|][k] == s[i + k];
      }
    }
  }

  /** Trimming twice is trimming once. */
  lemma TrimIdempotent(s: string)
    ensures Trim(Trim(s)) == Trim(s)
  {
    var r := Trim(s);
    TrimSpec(s);
    assert r[0..0 + |r|] == r;
    assert WhiteSpaceBetween(r, 0, 0) && WhiteSpaceBetween(r, 0 + |r|, |r|);
    TrimUnique(r, r);
  }
}
