/**
  String helpers the handlers rely on: the whitespace trimming that the
  request validators apply, the single-character replacement used to turn an
  upload path into an image URL, and the textual form of a record id.
 */
module Text {

  /** The characters String.prototype.trim strips that this model knows of:
      the ASCII blanks, no-break space, the byte-order mark and the two
      Unicode line terminators. */
  predicate IsSpace(c: char) {
    c == ' ' || c == '\t' || c == '\n' || c == '\r' || c == '\U{000B}' || c == '\U{000C}'
    || c == '\U{00A0}' || c == '\U{FEFF}' || c == '\U{2028}' || c == '\U{2029}'
  }

  predicate AllSpace(s: string) {
    forall i :: 0 <= i < |s| ==> IsSpace(s[i])
  }

  /** Neither end of `s` is a space (the empty string qualifies). */
  predicate Tight(s: string) {
    s == [] || (!IsSpace(s[0]) && !IsSpace(s[|s| - 1]))
  }

  /** Drops the leading spaces: the result is a suffix of `s` that is empty
      or starts with a non-space. */
  function TrimStart(s: string): (r: string)
    ensures |r| <= |s| && r == s[|s| - |r|..]
    ensures r == [] || !IsSpace(r[0])
  {
    if s != [] && IsSpace(s[0]) then TrimStart(s[1..]) else s
  }

  /** Drops the trailing spaces: the result is a prefix of `s` that is empty
      or ends with a non-space. */
  function TrimEnd(s: string): (r: string)
    ensures |r| <= |s| && r == s[..|r|]
    ensures r == [] || !IsSpace(r[|r| - 1])
  {
    if s != [] && IsSpace(s[|s| - 1]) then TrimEnd(s[..|s| - 1]) else s
  }

  /** Only spaces are dropped at the front. */
  lemma {:induction false} TrimStartDropsSpaces(s: string)
    ensures AllSpace(s[..|s| - |TrimStart(s)|])
  {
    if s != [] && IsSpace(s[0]) {
      TrimStartDropsSpaces(s[1..]);
      var r := TrimStart(s[1..]);
      assert s[..|s| - |r|] == [s[0]] + s[1..][..|s| - 1 - |r|];
    }
  }

  /** Only spaces are dropped at the back. */
  lemma {:induction false} TrimEndDropsSpaces(s: string)
    ensures AllSpace(s[|TrimEnd(s)|..])
  {
    if s != [] && IsSpace(s[|s| - 1]) {
      TrimEndDropsSpaces(s[..|s| - 1]);
      var r := TrimEnd(s[..|s| - 1]);
      assert s[|r|..] == s[..|s| - 1][|r|..] + [s[|s| - 1]];
    }
  }

  /** String.prototype.trim. */
  function Trim(s: string): (r: string)
    ensures Tight(r)
    ensures |r| <= |s|
  {
    var t := TrimStart(s);
    var r := TrimEnd(t);
    assert r != [] ==> r[0] == t[0];
    r
  }

  lemma {:induction false} TrimStartSkips(pre: string, rest: string)
    requires AllSpace(pre)
    requires rest == [] || !IsSpace(rest[0])
    ensures TrimStart(pre + rest) == rest
  {
    if pre != [] {
      assert (pre + rest)[1..] == pre[1..] + rest;
      TrimStartSkips(pre[1..], rest);
    }
  }

  lemma {:induction false} TrimEndSkips(rest: string, post: string)
    requires AllSpace(post)
    requires rest == [] || !IsSpace(rest[|rest| - 1])
    ensures TrimEnd(rest + post) == rest
  {
    if post != [] {
      var n := |post| - 1;
      assert (rest + post)[..|rest + post| - 1] == rest + post[..n];
      TrimEndSkips(rest, post[..n]);
    }
  }

  /** Surrounding whitespace does not count: trimming a tight core wrapped in
      spaces gives back exactly that core. */
  lemma {:induction false} TrimSurrounded(pre: string, core: string, post: string)
    requires AllSpace(pre) && AllSpace(post) && Tight(core)
    ensures Trim(pre + core + post) == core
  {
    if core == [] {
      assert pre + core + post == pre + post;
      TrimStartSkips(pre + post, []);
      assert pre + post + [] == pre + post;
    } else {
      assert pre + core + post == pre + (core + post);
      TrimStartSkips(pre, core + post);
      TrimEndSkips(core, post);
    }
  }

  /** The index of the first occurrence of `a` in `s`. */
  function FirstIndex(s: string, a: char): (k: nat)
    requires a in s
    ensures k < |s| && s[k] == a && a !in s[..k]
  {
    if s[0] == a then 0 else 1 + FirstIndex(s[1..], a)
  }

  /** String.prototype.replace with a one-character string pattern: only the
      first occurrence of `a` becomes `b`; every later one is kept. */
  function ReplaceFirst(s: string, a: char, b: char): (r: string)
    ensures |r| == |s|
    ensures a !in s ==> r == s
  {
    if s == [] then []
    else if s[0] == a then [b] + s[1..]
    else [s[0]] + ReplaceFirst(s[1..], a, b)
  }

  /** Exactly the first occurrence changes: what comes before it and what
      comes after it are kept. */
  lemma {:induction false} ReplaceFirstSplits(s: string, a: char, b: char)
    requires a in s
    ensures var k := FirstIndex(s, a); ReplaceFirst(s, a, b) == s[..k] + [b] + s[k + 1..]
  {
    if s[0] != a {
      ReplaceFirstSplits(s[1..], a, b);
      var k := FirstIndex(s[1..], a);
      assert s[..k + 1] == [s[0]] + s[1..][..k];
      assert s[k + 2..] == s[1..][k + 1..];
    }
  }

  /** A prefix free of the pattern is copied unchanged. */
  lemma {:induction false} ReplaceFirstAfter(p: string, s: string, a: char, b: char)
    requires a !in p
    ensures ReplaceFirst(p + s, a, b) == p + ReplaceFirst(s, a, b)
  {
    if p != [] {
      var ps := p + s;
      assert ps[0] == p[0] && p[0] != a;
      assert ps[1..] == p[1..] + s;
      calc {
        ReplaceFirst(ps, a, b);
        [p[0]] + ReplaceFirst(p[1..] + s, a, b);
        { ReplaceFirstAfter(p[1..], s, a, b); }
        [p[0]] + (p[1..] + ReplaceFirst(s, a, b));
        { assert [p[0]] + p[1..] == p; }
        p + ReplaceFirst(s, a, b);
      }
    } else {
      assert p + s == s;
    }
  }

  /** Decimal digits. */
  predicate IsDigits(s: string) {
    s != [] && forall i :: 0 <= i < |s| ==> '0' <= s[i] <= '9'
  }

  /** The textual form of a record id, as `toString()` gives it. */
  function IdText(n: nat): (s: string)
    ensures IsDigits(s)
  {
    if n < 10 then [('0' as int + n) as char]
    else IdText(n / 10) + [('0' as int + n % 10) as char]
  }

  /** Reads decimal digits back into a number. */
  function ParseDigits(s: string): nat
    requires IsDigits(s)
  {
    var d := s[|s| - 1] as int - '0' as int;
    if |s| == 1 then d else ParseDigits(s[..|s| - 1]) * 10 + d
  }

  /** The textual id reads back to the id it came from. */
  lemma {:induction false} IdTextRoundTrip(n: nat)
    ensures ParseDigits(IdText(n)) == n
  {
    if n >= 10 {
      IdTextRoundTrip(n / 10);
      var s := IdText(n);
      assert s[..|s| - 1] == IdText(n / 10);
    }
  }

  /** Distinct ids have distinct texts. */
  lemma IdTextInjective(m: nat, n: nat)
    ensures IdText(m) == IdText(n) ==> m == n
  {
    IdTextRoundTrip(m);
    IdTextRoundTrip(n);
  }
}
