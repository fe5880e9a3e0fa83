/** Python's `str.strip`, `str.split(sep)` and `sep.join` on strings, with the
    facts the instrument replies and the sequence patterns rely on. */
module Strings {

  /** The characters `str.isspace()` accepts, which `str.strip()` removes. */
  const Whitespace: set<char> := {
    ' ', '\t', '\n', '\U{B}', '\U{C}', '\r', '\U{1C}', '\U{1D}', '\U{1E}', '\U{1F}',
    '\U{85}', '\U{A0}', '\U{1680}', '\U{2000}', '\U{2001}', '\U{2002}', '\U{2003}',
    '\U{2004}', '\U{2005}', '\U{2006}', '\U{2007}', '\U{2008}', '\U{2009}', '\U{200A}',
    '\U{2028}', '\U{2029}', '\U{202F}', '\U{205F}', '\U{3000}'
  }

  /** `s.lstrip(chars)`: the suffix left after dropping leading characters in `chars`. */
  function StripLeft(s: string, chars: set<char>): string {
    if s != [] && s[0] in chars then StripLeft(s[1..], chars) else s
  }

  /** `s.rstrip(chars)`: the prefix left after dropping trailing characters in `chars`. */
  function StripRight(s: string, chars: set<char>): string {
    if s != [] && s[|s| - 1] in chars then StripRight(s[..|s| - 1], chars) else s
  }

  /** `s.strip(chars)` */
  function Strip(s: string, chars: set<char>): string {
    StripRight(StripLeft(s, chars), chars)
  }

  /** Every character of `s` belongs to `chars`. */
  predicate AllIn(s: string, chars: set<char>) {
    forall k :: 0 <= k < |s| ==> s[k] in chars
  }

  /** The left strip keeps a suffix and removes exactly the leading run of
      characters in `chars`. */
  lemma {:induction false} StripLeftSpec(s: string, chars: set<char>)
    ensures var r := StripLeft(s, chars);
      && |r| <= |s| && r == s[|s| - |r|..]
      && (r != [] ==> r[0] !in chars)
      && AllIn(s[..|s| - |r|], chars)
    decreases |s|
  {
    if s != [] && s[0] in chars {
      var t := s[1..];
      StripLeftSpec(t, chars);
      var r := StripLeft(t, chars);
      assert StripLeft(s, chars) == r;
      assert t[|t| - |r|..] == s[|s| - |r|..];
      assert s[..|s| - |r|] == [s[0]] + t[..|t| - |r|];
    } else {
      assert s[..0] == [];
    }
  }

  /** The right strip keeps a prefix and removes exactly the trailing run of
      characters in `chars`. */
  lemma {:induction false} StripRightSpec(s: string, chars: set<char>)
    ensures var r := StripRight(s, chars);
      && |r| <= |s| && r == s[..|r|]
      && (r != [] ==> r[|r| - 1] !in chars)
      && AllIn(s[|r|..], chars)
    decreases |s|
  {
    if s != [] && s[|s| - 1] in chars {
      var t := s[..|s| - 1];
      StripRightSpec(t, chars);
      var r := StripRight(t, chars);
      assert StripRight(s, chars) == r;
      assert t[..|r|] == s[..|r|];
      assert s[|r|..] == t[|r|..] + [s[|s| - 1]];
    } else {
      assert s[|s|..] == [];
    }
  }

  /** Stripping keeps a contiguous part of the string whose ends are not in
      `chars`, and gives the empty string exactly when every character is. */
  lemma {:induction false} StripSpec(s: string, chars: set<char>)
    ensures var r := Strip(s, chars);
      && (r != [] ==> r[0] !in chars && r[|r| - 1] !in chars)
      && (r == [] <==> AllIn(s, chars))
      && var i := |s| - |StripLeft(s, chars)|; 0 <= i && i + |r| <= |s| && r == s[i..i + |r|]
  {
    StripSlice(s, chars);
    StripEmpty(s, chars);
  }

  /** The stripped string sits where the left strip starts. */
  lemma {:induction false} StripSlice(s: string, chars: set<char>)
    ensures var r := Strip(s, chars);
      && (r != [] ==> r[0] !in chars && r[|r| - 1] !in chars)
      && var i := |s| - |StripLeft(s, chars)|; 0 <= i && i + |r| <= |s| && r == s[i..i + |r|]
  {
    var l := StripLeft(s, chars);
    var i := |s| - |l|;
    assert 0 <= i && l == s[i..] && (l != [] ==> l[0] !in chars) by {
      StripLeftSpec(s, chars);
    }
    var r := StripRight(l, chars);
    assert |r| <= |l| && r == l[..|r|] && (r != [] ==> r[|r| - 1] !in chars) by {
      StripRightSpec(l, chars);
    }
    SliceOfSuffix(s, l, r, i, chars);
  }

  /**
   * A prefix `r` of the suffix `l` of `s` from `i` is the slice of `s` from `i`,
   * and its ends are those of `l` (first) and of `r` itself (last).
   */
  lemma SliceOfSuffix(s: string, l: string, r: string, i: nat, chars: set<char>)
    requires i <= |s| && l == s[i..] && (l != [] ==> l[0] !in chars)
    requires |r| <= |l| && r == l[..|r|] && (r != [] ==> r[|r| - 1] !in chars)
    ensures i + |r| <= |s| && r == s[i..i + |r|]
    ensures r != [] ==> r[0] !in chars && r[|r| - 1] !in chars
  {
  }

  /** Only a string made entirely of characters in `chars` strips to nothing. */
  lemma StripEmpty(s: string, chars: set<char>)
    ensures Strip(s, chars) == [] <==> AllIn(s, chars)
  {
    var l := StripLeft(s, chars);
    StripLeftSpec(s, chars);
    StripRightSpec(l, chars);
    var r := StripRight(l, chars);
    var i := |s| - |l|;
    if r == [] {
      assert l == [] by {
        assert l[|r|..] == l;
      }
      assert s[..i] == s;
    } else {
      assert r[0] == l[0] && l[0] == s[i];
    }
  }

  /** A string that neither starts nor ends with a character of `chars` is left alone. */
  lemma {:induction false} StripUnchanged(s: string, chars: set<char>)
    requires s == [] || (s[0] !in chars && s[|s| - 1] !in chars)
    ensures Strip(s, chars) == s
  {
  }

  /** Stripping twice is stripping once. */
  lemma {:induction false} StripIdempotent(s: string, chars: set<char>)
    ensures Strip(Strip(s, chars), chars) == Strip(s, chars)
  {
    StripSpec(s, chars);
    StripUnchanged(Strip(s, chars), chars);
  }

  /** Leading characters that all belong to `chars` are all stripped. */
  lemma {:induction false} StripLeftPrefix(p: string, t: string, chars: set<char>)
    requires forall k :: 0 <= k < |p| ==> p[k] in chars
    ensures StripLeft(p + t, chars) == StripLeft(t, chars)
    decreases |p|
  {
    if p == [] {
      assert p + t == t;
    } else {
      assert (p + t)[0] == p[0] && (p + t)[1..] == p[1..] + t;
      StripLeftPrefix(p[1..], t, chars);
    }
  }

  /** Stripping a string made of removable characters followed by a string
      that already has clean ends leaves the latter. */
  lemma {:induction false} StripAfterPrefix(p: string, t: string, chars: set<char>)
    requires forall k :: 0 <= k < |p| ==> p[k] in chars
    requires t != [] && t[0] !in chars && t[|t| - 1] !in chars
    ensures Strip(p + t, chars) == t
  {
    StripLeftPrefix(p, t, chars);
    assert StripLeft(t, chars) == t;
    StripUnchanged(t, chars);
  }

  /** Trailing characters that all belong to `chars` are all stripped. */
  lemma {:induction false} StripRightSuffix(t: string, q: string, chars: set<char>)
    requires forall k :: 0 <= k < |q| ==> q[k] in chars
    ensures StripRight(t + q, chars) == StripRight(t, chars)
    decreases |q|
  {
    if q == [] {
      assert t + q == t;
    } else {
      var q' := q[..|q| - 1];
      assert (t + q)[|t + q| - 1] == q[|q| - 1];
      assert (t + q)[..|t + q| - 1] == t + q';
      StripRightSuffix(t, q', chars);
    }
  }

  /** A string with clean ends, padded on both sides with characters of
      `chars`, is recovered by stripping. */
  lemma {:induction false} StripPadded(p: string, t: string, q: string, chars: set<char>)
    requires forall k :: 0 <= k < |p| ==> p[k] in chars
    requires forall k :: 0 <= k < |q| ==> q[k] in chars
    requires t != [] && t[0] !in chars && t[|t| - 1] !in chars
    ensures Strip(p + t + q, chars) == t
  {
    assert p + t + q == p + (t + q);
    StripLeftPrefix(p, t + q, chars);
    assert (t + q)[0] == t[0];
    assert StripLeft(t + q, chars) == t + q;
    StripRightSuffix(t, q, chars);
    assert StripRight(t, chars) == t;
  }

  /** Leading characters outside `chars` shield what follows them from the left strip. */
  lemma {:induction false} StripRightAppend(a: string, b: string, chars: set<char>)
    requires a != [] && a[|a| - 1] !in chars
    ensures StripRight(a + b, chars) == a + StripRight(b, chars)
    decreases |b|
  {
    if b != [] && b[|b| - 1] in chars {
      assert (a + b)[..|a + b| - 1] == a + b[..|b| - 1];
      StripRightAppend(a, b[..|b| - 1], chars);
    }
  }

  /** Removing the leading `prefix` exactly, when it is there. */
  function RemovePrefix(s: string, prefix: string): (r: string)
    ensures prefix <= s ==> prefix + r == s
    ensures !(prefix <= s) ==> r == s
  {
    if prefix <= s then s[|prefix|..] else s
  }

  /** Removing the trailing `suffix` exactly, when it is there. */
  function RemoveSuffix(s: string, suffix: string): (r: string)
    ensures |suffix| <= |s| && s[|s| - |suffix|..] == suffix ==> r + suffix == s
    ensures !(|suffix| <= |s| && s[|s| - |suffix|..] == suffix) ==> r == s
  {
    if |suffix| <= |s| && s[|s| - |suffix|..] == suffix then s[..|s| - |suffix|] else s
  }

  /** `s.split(sep)` for a one-character separator. */
  function Split(s: string, sep: char): (r: seq<string>)
    ensures |r| >= 1
    ensures forall k :: 0 <= k < |r| ==> sep !in r[k]
  {
    if s == [] then [[]]
    else
      var rest := Split(s[1..], sep);
      if s[0] == sep then [[]] + rest else [[s[0]] + rest[0]] + rest[1..]
  }

  /** `sep.join(parts)` for a one-character separator. */
  function Join(parts: seq<string>, sep: char): string {
    if |parts| == 0 then []
    else if |parts| == 1 then parts[0]
    else parts[0] + [sep] + Join(parts[1..], sep)
  }

  /** Joining the pieces of a split gives back the original string. */
  lemma {:induction false} JoinSplit(s: string, sep: char)
    ensures Join(Split(s, sep), sep) == s
    decreases |s|
  {
    if s != [] {
      var rest := Split(s[1..], sep);
      JoinSplit(s[1..], sep);
      if s[0] != sep && |rest| > 1 {
        assert Join(rest, sep) == rest[0] + [sep] + Join(rest[1..], sep);
        assert rest[1..][1..] == rest[2..];
      }
    }
  }

  /** A piece without the separator absorbs the first piece of what follows it. */
  lemma {:induction false} SplitPrefix(a: string, t: string, sep: char)
    requires sep !in a
    ensures Split(a + t, sep) == [a + Split(t, sep)[0]] + Split(t, sep)[1..]
    decreases |a|
  {
    if a != [] {
      var st := Split(t, sep);
      assert (a + t)[1..] == a[1..] + t;
      SplitPrefix(a[1..], t, sep);
      var rest := Split(a[1..] + t, sep);
      assert rest[0] == a[1..] + st[0] && rest[1..] == st[1..];
      assert (a + t)[0] == a[0] && a[0] != sep;
      assert Split(a + t, sep) == [[a[0]] + rest[0]] + rest[1..];
      assert [a[0]] + (a[1..] + st[0]) == a + st[0];
    } else {
      var st := Split(t, sep);
      assert a + t == t && a + st[0] == st[0];
      assert [st[0]] + st[1..] == st;
    }
  }

  /** Splitting a join of separator-free pieces gives back the pieces. */
  lemma {:induction false} SplitJoin(parts: seq<string>, sep: char)
    requires |parts| >= 1
    requires forall k :: 0 <= k < |parts| ==> sep !in parts[k]
    ensures Split(Join(parts, sep), sep) == parts
    decreases |parts|
  {
    if |parts| == 1 {
      SplitPrefix(parts[0], [], sep);
      assert parts[0] + [] == parts[0];
    } else {
      var tail := Join(parts[1..], sep);
      SplitJoin(parts[1..], sep);
      assert ([sep] + tail)[1..] == tail;
      assert Split([sep] + tail, sep) == [[]] + parts[1..];
      assert Join(parts, sep) == parts[0] + ([sep] + tail);
      SplitPrefix(parts[0], [sep] + tail, sep);
      assert parts[0] + [] == parts[0];
      assert ([[]] + parts[1..])[1..] == parts[1..];
    }
  }

  /** A join of pieces that are not empty neither starts nor ends with the separator. */
  lemma {:induction false} JoinEnds(parts: seq<string>, sep: char)
    requires |parts| >= 1
    requires forall k :: 0 <= k < |parts| ==> parts[k] != [] && sep !in parts[k]
    ensures var j := Join(parts, sep); j != [] && j[0] == parts[0][0] && j[|j| - 1] == parts[|parts| - 1][|parts[|parts| - 1]| - 1]
    decreases |parts|
  {
    if |parts| > 1 {
      JoinEnds(parts[1..], sep);
    }
  }
}
