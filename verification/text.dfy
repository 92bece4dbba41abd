/** Character-sequence helpers shared by the models: Python's `str.split` and
    `str.join` on a one-character separator, Python's clamping slice, and
    prefix and suffix tests. */
module Text {

  predicate StartsWith(s: string, prefix: string)
  {
    |prefix| <= |s| && s[..|prefix|] == prefix
  }

  predicate EndsWith(s: string, suffix: string)
  {
    |suffix| <= |s| && s[|s| - |suffix|..] == suffix
  }

  function Min(a: int, b: int): int
  {
    if a <= b then a else b
  }

  /** `sep.join(parts)` */
  function Join(parts: seq<string>, sep: char): string
  {
    if |parts| == 0 then ""
    else if |parts| == 1 then parts[0]
    else parts[0] + [sep] + Join(parts[1..], sep)
  }

  /** `s.split(sep)`: n separators give n + 1 parts, none of which contains
      the separator, and joining the parts back gives `s`. */
  function Split(s: string, sep: char): (parts: seq<string>)
    ensures |parts| >= 1
    ensures forall i :: 0 <= i < |parts| ==> sep !in parts[i]
    ensures Join(parts, sep) == s
  {
    if |s| == 0 then [""]
    else
      var rest := Split(s[1..], sep);
      if s[0] == sep then
        assert s == [sep] + s[1..];
        [""] + rest
      else
        assert s == [s[0]] + s[1..];
        [[s[0]] + rest[0]] + rest[1..]
  }

  /** Splitting a separator-free piece followed by the separator peels off
      exactly that piece. */
  lemma {:induction false} SplitPiece(p: string, t: string, sep: char)
    requires sep !in p
    ensures Split(p + [sep] + t, sep) == [p] + Split(t, sep)
    decreases |p|
  {
    if |p| == 0 {
      assert p + [sep] + t == [sep] + t;
      assert ([sep] + t)[1..] == t;
    } else {
      var s := p + [sep] + t;
      assert s[0] == p[0] && s[1..] == p[1..] + [sep] + t;
      SplitPiece(p[1..], t, sep);
      assert [p[0]] + p[1..] == p;
    }
  }

  /** A separator-free string splits into itself alone. */
  lemma {:induction false} SplitWhole(p: string, sep: char)
    requires sep !in p
    ensures Split(p, sep) == [p]
    decreases |p|
  {
    if |p| > 0 {
      SplitWhole(p[1..], sep);
      assert [p[0]] + p[1..] == p;
    }
  }

  /** The other half of the round trip: splitting a join of separator-free
      parts gives the parts back. */
  lemma {:induction false} SplitJoin(parts: seq<string>, sep: char)
    requires |parts| >= 1
    requires forall i :: 0 <= i < |parts| ==> sep !in parts[i]
    ensures Split(Join(parts, sep), sep) == parts
    decreases |parts|
  {
    if |parts| == 1 {
      SplitWhole(parts[0], sep);
    } else {
      SplitJoin(parts[1..], sep);
      SplitPiece(parts[0], Join(parts[1..], sep), sep);
      assert [parts[0]] + parts[1..] == parts;
    }
  }

  lemma JoinCons(a: string, rest: seq<string>, sep: char)
    requires |rest| >= 1
    ensures Join([a] + rest, sep) == a + [sep] + Join(rest, sep)
  {
    assert ([a] + rest)[1..] == rest;
  }

  /** The last part of a join ends the joined string, and when there are at
      least two parts the separator stands right before it. */
  lemma {:induction false} JoinEndsWithLast(parts: seq<string>, sep: char)
    requires |parts| >= 1
    ensures var j := Join(parts, sep); var last := parts[|parts| - 1];
      EndsWith(j, last) && (|parts| >= 2 ==> |last| < |j| && j[|j| - |last| - 1] == sep)
    decreases |parts|
  {
    if |parts| >= 2 {
      JoinEndsWithLast(parts[1..], sep);
      var tail := Join(parts[1..], sep);
      var last := parts[|parts| - 1];
      assert parts[1..][|parts[1..]| - 1] == last;
      var j := parts[0] + [sep] + tail;
      assert j[|j| - |tail|..] == tail;
      if |parts| == 2 {
        assert tail == last;
        assert j[|j| - |last| - 1] == sep;
      } else {
        assert j[|j| - |last| - 1] == tail[|tail| - |last| - 1];
      }
      assert j[|j| - |last|..] == tail[|tail| - |last|..];
    }
  }

  /** `s.split(sep)[-1]`: the longest separator-free suffix of `s`. */
  function LastSegment(s: string, sep: char): (r: string)
    ensures sep !in r
    ensures EndsWith(s, r)
    ensures |r| < |s| ==> s[|s| - |r| - 1] == sep
    ensures sep !in s ==> r == s
  {
    var parts := Split(s, sep);
    JoinEndsWithLast(parts, sep);
    parts[|parts| - 1]
  }

  /** A separator-free suffix that is the whole string or follows a
      separator is unique. */
  lemma LastSegmentUnique(s: string, sep: char, a: string, b: string)
    requires sep !in a && EndsWith(s, a) && (|a| < |s| ==> s[|s| - |a| - 1] == sep)
    requires sep !in b && EndsWith(s, b) && (|b| < |s| ==> s[|s| - |b| - 1] == sep)
    ensures a == b
  {
    if |a| < |b| {
      assert false;
    } else if |b| < |a| {
      assert false;
    }
  }

  /** The last segment of a join of separator-free parts is the last part. */
  lemma LastSegmentOfJoin(parts: seq<string>, sep: char)
    requires |parts| >= 1
    requires forall i :: 0 <= i < |parts| ==> sep !in parts[i]
    ensures LastSegment(Join(parts, sep), sep) == parts[|parts| - 1]
  {
    var j := Join(parts, sep);
    JoinEndsWithLast(parts, sep);
    LastSegmentUnique(j, sep, LastSegment(j, sep), parts[|parts| - 1]);
  }

  /** Python's `s[lo:hi]` for non-negative bounds: both bounds are clamped to
      the length, and a stop before the start gives the empty string. */
  function PySlice(s: string, lo: nat, hi: nat): (r: string)
    ensures lo <= hi <= |s| ==> r == s[lo..hi]
    ensures lo <= |s| <= hi ==> r == s[lo..]
    ensures |s| <= lo || hi <= lo ==> r == ""
  {
    var start := Min(lo, |s|);
    var stop := Min(hi, |s|);
    if stop <= start then "" else s[start..stop]
  }

  /** Index of the first character of `s` in `stops`, or `|s|` if none is. */
  function FirstOf(s: string, stops: set<char>): (r: nat)
    ensures r <= |s|
    ensures forall j :: 0 <= j < r ==> s[j] !in stops
    ensures r < |s| ==> s[r] in stops
  {
    if |s| == 0 then 0
    else if s[0] in stops then 0
    else 1 + FirstOf(s[1..], stops)
  }

  /** Appending characters after a stop-free string moves the first stop to
      the start of what was appended. */
  lemma {:induction false} FirstOfAppendClear(s: string, t: string, stops: set<char>)
    requires FirstOf(s, stops) == |s|
    ensures FirstOf(s + t, stops) == |s| + FirstOf(t, stops)
    decreases |s|
  {
    if |s| > 0 {
      assert (s + t)[1..] == s[1..] + t;
      FirstOfAppendClear(s[1..], t, stops);
    } else {
      assert s + t == t;
    }
  }

  /** Appending characters after a string that holds a stop does not move
      its first stop. */
  lemma {:induction false} FirstOfAppendHit(s: string, t: string, stops: set<char>)
    requires FirstOf(s, stops) < |s|
    ensures FirstOf(s + t, stops) == FirstOf(s, stops)
    decreases |s|
  {
    if s[0] !in stops {
      assert (s + t)[1..] == s[1..] + t;
      FirstOfAppendHit(s[1..], t, stops);
    }
  }

  /** The first stop is where the scan says it is. */
  lemma FirstOfAt(s: string, stops: set<char>, k: nat)
    requires k <= |s|
    requires forall j :: 0 <= j < k ==> s[j] !in stops
    requires k < |s| ==> s[k] in stops
    ensures FirstOf(s, stops) == k
  {
  }

}
