/** String operations the modules share: joining, counting, searching, replacing and stripping.
    The lemmas about markers say when an occurrence cannot span a border between two strings. */
module Text {
  import opened Wrappers

  function Join(sep: string, parts: seq<string>): string {
    if parts == [] then ""
    else if |parts| == 1 then parts[0]
    else Join(sep, parts[..|parts| - 1]) + sep + parts[|parts| - 1]
  }

  lemma JoinOne(sep: string, s: string)
    ensures Join(sep, [s]) == s
  {
  }

  lemma {:induction false} JoinFront(sep: string, s: string, parts: seq<string>)
    requires parts != []
    ensures Join(sep, [s] + parts) == s + sep + Join(sep, parts)
  {
    var n := |parts| - 1;
    assert ([s] + parts)[..n + 1] == [s] + parts[..n];
    if n > 0 {
      JoinFront(sep, s, parts[..n]);
      assert s + sep + Join(sep, parts[..n]) + sep + parts[n] == s + sep + Join(sep, parts);
    }
  }

  lemma {:induction false} JoinNotEmpty(sep: string, parts: seq<string>)
    requires parts != [] && forall p :: p in parts ==> p != ""
    ensures Join(sep, parts) != ""
  {
    assert parts[|parts| - 1] in parts;
  }

  /** Python's `str.replace`: leftmost occurrences first, the replacement is not searched again. */
  function Replace(s: string, p: string, r: string): string
    requires p != ""
  {
    if s == "" then ""
    else if p <= s then r + Replace(s[|p|..], p, r)
    else [s[0]] + Replace(s[1..], p, r)
  }

  /** Number of positions at which p occurs in s. */
  function Count(s: string, p: string): nat
    requires p != ""
  {
    if s == "" then 0 else (if p <= s then 1 else 0) + Count(s[1..], p)
  }

  /** Position of the first occurrence. */
  function First(s: string, p: string): (k: Option<nat>)
    requires p != ""
    ensures k.Some? ==> k.value + |p| <= |s| && p <= s[k.value..]
  {
    if p <= s then Some(0)
    else if s == "" then None
    else
      var k := First(s[1..], p);
      if k.None? then None else Some(k.value + 1)
  }

  /** A tag fragment: a '<' at its front and no '<' or '&' behind. */
  predicate Marker(p: string) {
    p != "" && p[0] == '<' && forall i :: 1 <= i < |p| ==> p[i] != '<' && p[i] != '&'
  }

  predicate Tagless(s: string) {
    forall i :: 0 <= i < |s| ==> s[i] != '<' && s[i] != '&'
  }

  /** What markers are replaced by. */
  predicate Inert(r: string) {
    r != "" && r[0] == '&' && '<' !in r
  }

  lemma {:induction false} CountSkips(a: string, x: string, p: string)
    requires Marker(p) && '<' !in a
    ensures Count(a + x, p) == Count(x, p)
  {
    if a == "" {
      assert a + x == x;
    } else {
      assert (a + x)[1..] == a[1..] + x && (a + x)[0] == a[0];
      CountSkips(a[1..], x, p);
    }
  }

  lemma {:induction false} CountDrops(s: string, k: nat, p: string)
    requires p != "" && k <= |s|
    ensures Count(s[k..], p) <= Count(s, p)
  {
    if k > 0 {
      CountDrops(s[1..], k - 1, p);
      assert s[1..][k - 1..] == s[k..];
    }
  }

  lemma {:induction false} CountTakes(s: string, k: nat, p: string)
    requires p != "" && k <= |s|
    ensures Count(s[..k], p) <= Count(s, p)
  {
    if k > 0 {
      CountTakes(s[1..], k - 1, p);
      assert s[..k][1..] == s[1..][..k - 1];
      assert p <= s[..k] ==> p <= s;
    }
  }

  /** A longer pattern occurs no more often than its front. */
  lemma {:induction false} CountLonger(s: string, p: string, more: string)
    requires p != ""
    ensures Count(s, p + more) <= Count(s, p)
  {
    if s != "" {
      CountLonger(s[1..], p, more);
      assert p <= p + more;
      assert p + more <= s ==> p == s[..|p|];
    }
  }

  /** Occurrences of a marker do not span the border in front of a '<'. */
  lemma {:induction false} CountSplits(a: string, x: string, p: string)
    requires Marker(p) && (x == "" || x[0] == '<')
    ensures Count(a + x, p) == Count(a, p) + Count(x, p)
  {
    if a == "" {
      assert a + x == x;
    } else {
      assert (a + x)[1..] == a[1..] + x;
      CountSplits(a[1..], x, p);
      PrefixStays(a, x, p);
    }
  }

  /** A tag contributes itself at most. */
  lemma CountTag(tag: string, x: string, p: string)
    requires Marker(p) && tag != "" && '<' !in tag[1..]
    ensures Count(tag + x, p) == (if p <= tag + x then 1 else 0) + Count(x, p)
  {
    assert (tag + x)[1..] == tag[1..] + x;
    CountSkips(tag[1..], x, p);
  }

  lemma PrefixStays(a: string, x: string, p: string)
    requires Marker(p) && a != "" && (x == "" || x[0] == '<')
    ensures p <= a + x <==> p <= a
  {
    if |p| > |a| && x != "" {
      assert (a + x)[|a|] == x[0];
      assert p[|a|] != '<';
    }
  }

  lemma {:induction false} FirstAfter(a: string, x: string, p: string)
    requires Marker(p) && Count(a, p) == 0 && p <= x
    ensures First(a + x, p) == Some(|a|)
  {
    if a == "" {
      assert a + x == x;
    } else {
      assert (a + x)[1..] == a[1..] + x;
      FirstAfter(a[1..], x, p);
      PrefixStays(a, x, p);
    }
  }

  lemma {:induction false} PrefixWasThere(s: string, p: string, r: string, q: string)
    requires p != "" && Inert(r) && Tagless(q) && q <= Replace(s, p, r)
    ensures q <= s
  {
    if q != "" {
      assert q[0] in q && Replace(s, p, r)[0] == q[0];
      assert q[0] == s[0];
      assert q[1..] <= Replace(s[1..], p, r);
      PrefixWasThere(s[1..], p, r, q[1..]);
      assert q == [q[0]] + q[1..] && s == [s[0]] + s[1..];
    }
  }

  /** Replacing markers by inert text leaves none of them, and never creates another marker. */
  lemma {:induction false} ReplaceCounts(s: string, p: string, r: string, q: string)
    requires Marker(p) && Inert(r) && Marker(q)
    ensures Count(Replace(s, p, r), q) <= if p == q then 0 else Count(s, q)
  {
    if s == "" {
    } else if p <= s {
      ReplaceCounts(s[|p|..], p, r, q);
      CountSkips(r, Replace(s[|p|..], p, r), q);
      CountDrops(s, |p|, q);
    } else {
      ReplaceCounts(s[1..], p, r, q);
      var out, rest := Replace(s, p, r), Replace(s[1..], p, r);
      assert out[1..] == rest;
      if q <= out {
        assert q[1..] <= rest;
        PrefixWasThere(s[1..], p, r, q[1..]);
        assert q == [q[0]] + q[1..] && s == [s[0]] + s[1..];
        assert q <= s;
      }
    }
  }

  /** Text without the pattern is left alone. */
  lemma {:induction false} ReplaceNothing(s: string, p: string, r: string)
    requires p != "" && Count(s, p) == 0
    ensures Replace(s, p, r) == s
  {
    if s != "" { ReplaceNothing(s[1..], p, r); }
  }

  // ----- Stripping --------------------------------------------------------------

  function StripLeft(space: char -> bool, s: string): string {
    if s != "" && space(s[0]) then StripLeft(space, s[1..]) else s
  }

  function StripRight(space: char -> bool, s: string): string {
    if s != "" && space(s[|s| - 1]) then StripRight(space, s[..|s| - 1]) else s
  }

  /** Python's `str.strip`; which characters are whitespace is left open. */
  function Strip(space: char -> bool, s: string): string {
    StripRight(space, StripLeft(space, s))
  }

  lemma {:induction false} StripLeftCounts(space: char -> bool, s: string, p: string)
    requires p != ""
    ensures Count(StripLeft(space, s), p) <= Count(s, p)
  {
    if s != "" && space(s[0]) { StripLeftCounts(space, s[1..], p); }
  }

  lemma {:induction false} StripRightCounts(space: char -> bool, s: string, p: string)
    requires p != ""
    ensures Count(StripRight(space, s), p) <= Count(s, p)
  {
    if s != "" && space(s[|s| - 1]) {
      StripRightCounts(space, s[..|s| - 1], p);
      CountTakes(s, |s| - 1, p);
    }
  }

  lemma StripCounts(space: char -> bool, s: string, p: string)
    requires p != ""
    ensures Count(Strip(space, s), p) <= Count(s, p)
  {
    StripLeftCounts(space, s, p);
    StripRightCounts(space, StripLeft(space, s), p);
  }

  /** Stripping removes a leading space from text that has none of its own at either end. */
  lemma StripSpace(space: char -> bool, s: string)
    requires space(' ') && s != "" && !space(s[0]) && !space(s[|s| - 1])
    ensures Strip(space, " " + s) == s
  {
    assert (" " + s)[0] == ' ' && (" " + s)[1..] == s;
    assert StripLeft(space, s) == s && StripRight(space, s) == s;
  }
}
