/**
 * The few pieces of Python's `str` behaviour the monitor relies on:
 * `strip`, `lower`/`upper`, `split` and the `in` substring test.
 * Only ASCII whitespace and ASCII letters are modelled.
 */
module Text {
  import opened Wrappers

  /** `str.isspace` restricted to the ASCII range: tab, newline, vertical tab,
      form feed, carriage return, the four separators 0x1C-0x1F and space. */
  predicate IsSpace(c: char) {
    (9 <= c as int <= 13) || (28 <= c as int <= 32)
  }

  /** `s.lstrip()`: drops the leading whitespace. */
  function TrimLeft(s: string): (r: string)
    ensures |r| <= |s|
    ensures r == [] || !IsSpace(r[0])
  {
    if |s| > 0 && IsSpace(s[0]) then TrimLeft(s[1..]) else s
  }

  /** What `lstrip` keeps is a suffix of `s`, and what it drops is whitespace. */
  lemma {:induction false} TrimLeftSuffix(s: string)
    ensures TrimLeft(s) == s[|s| - |TrimLeft(s)|..]
    ensures forall i :: 0 <= i < |s| - |TrimLeft(s)| ==> IsSpace(s[i])
  {
    if |s| > 0 && IsSpace(s[0]) {
      TrimLeftSuffix(s[1..]);
      assert s[1..][|s| - 1 - |TrimLeft(s)|..] == s[|s| - |TrimLeft(s)|..];
      assert forall i :: 1 <= i < |s| ==> s[i] == s[1..][i - 1];
    }
  }

  /** `s.rstrip()`: drops the trailing whitespace and nothing else. */
  function TrimRight(s: string): (r: string)
    ensures |r| <= |s| && r == s[..|r|]
    ensures r == [] || !IsSpace(r[|r| - 1])
  {
    if |s| > 0 && IsSpace(s[|s| - 1]) then TrimRight(s[..|s| - 1]) else s
  }

  /** What `rstrip` drops is whitespace. */
  lemma {:induction false} TrimRightDropsSpace(s: string)
    ensures forall i :: |TrimRight(s)| <= i < |s| ==> IsSpace(s[i])
  {
    if |s| > 0 && IsSpace(s[|s| - 1]) {
      TrimRightDropsSpace(s[..|s| - 1]);
    }
  }

  /** `s.strip()`. */
  function Trim(s: string): (r: string)
    ensures |r| <= |s|
    ensures r == [] || (!IsSpace(r[0]) && !IsSpace(r[|r| - 1]))
  {
    TrimRight(TrimLeft(s))
  }

  /** A string that `strip` leaves alone. */
  lemma TrimNoop(s: string)
    requires s != [] && !IsSpace(s[0]) && !IsSpace(s[|s| - 1])
    ensures Trim(s) == s
  {
  }

  /** Stripping twice strips nothing more. */
  lemma TrimTwice(s: string)
    ensures Trim(Trim(s)) == Trim(s)
  {
    if Trim(s) != [] {
      TrimNoop(Trim(s));
    }
  }

  function LowerChar(c: char): char {
    if 'A' <= c <= 'Z' then (c as int + 32) as char else c
  }

  function UpperChar(c: char): char {
    if 'a' <= c <= 'z' then (c as int - 32) as char else c
  }

  /** `s.lower()` on ASCII letters. */
  function Lower(s: string): string {
    seq(|s|, i requires 0 <= i < |s| => LowerChar(s[i]))
  }

  /** `s.upper()` on ASCII letters. */
  function Upper(s: string): string {
    seq(|s|, i requires 0 <= i < |s| => UpperChar(s[i]))
  }

  /** Stripping and upper-casing a second time changes nothing. */
  lemma UpperTrimIdempotent(s: string)
    ensures Upper(Trim(Upper(Trim(s)))) == Upper(Trim(s))
  {
    var u := Upper(Trim(s));
    if u != [] {
      TrimNoop(u);
    }
  }

  /** Number of leading characters of `s` that are not whitespace. */
  function TokenLength(s: string): (n: nat)
    ensures n <= |s|
    ensures forall i :: 0 <= i < n ==> !IsSpace(s[i])
    ensures n == |s| || IsSpace(s[n])
  {
    if s == [] || IsSpace(s[0]) then 0 else 1 + TokenLength(s[1..])
  }

  /** `s.split()` (maxsplit `None`) and `s.split(maxsplit=k)` (`Some(k)`):
      runs of whitespace separate the parts; once `k` splits are done the
      rest, with its leading whitespace removed, is the last part. */
  function Split(s: string, maxsplit: Option<nat>): (parts: seq<string>)
    ensures forall i :: 0 <= i < |parts| ==> parts[i] != [] && !IsSpace(parts[i][0])
    decreases |s|
  {
    var t := TrimLeft(s);
    if t == [] then []
    else if maxsplit == Some(0) then [t]
    else
      var n := TokenLength(t);
      var rest := if maxsplit.Some? then Some(maxsplit.value - 1) else None;
      [t[..n]] + Split(t[n..], rest)
  }

  /** `s.split()`. */
  function Words(s: string): seq<string> {
    Split(s, None)
  }

  /** With no limit on the splits, no part holds whitespace. */
  lemma {:induction false} WordsHaveNoSpace(s: string)
    ensures forall i, j :: 0 <= i < |Words(s)| && 0 <= j < |Words(s)[i]| ==> !IsSpace(Words(s)[i][j])
    decreases |s|
  {
    var t := TrimLeft(s);
    if t != [] {
      var n := TokenLength(t);
      WordsHaveNoSpace(t[n..]);
      assert Words(s) == [t[..n]] + Words(t[n..]);
    }
  }

  /** A leading word ends at the first whitespace after it. */
  lemma WordsCons(w: string, rest: string)
    requires w != [] && forall i :: 0 <= i < |w| ==> !IsSpace(w[i])
    requires rest == [] || IsSpace(rest[0])
    ensures Words(w + rest) == [w] + Words(rest)
  {
    var s := w + rest;
    assert s[0] == w[0];
    assert TrimLeft(s) == s;
    var n := TokenLength(s);
    if rest != [] {
      assert s[|w|] == rest[0];
    }
    assert n == |w|;
    assert s[..n] == w && s[n..] == rest;
  }

  /** Whitespace before the words does not change them. */
  lemma WordsSkipSpace(c: char, rest: string)
    requires IsSpace(c)
    ensures Words([c] + rest) == Words(rest)
  {
    assert ([c] + rest)[1..] == rest;
    assert TrimLeft([c] + rest) == TrimLeft(rest);
  }

  /** A non-empty run of non-whitespace characters. */
  predicate IsWord(w: string) {
    w != [] && forall i :: 0 <= i < |w| ==> !IsSpace(w[i])
  }

  /** A leading word takes one of the splits left; the rest is split with
      one fewer. */
  lemma SplitCons(w: string, rest: string, k: nat)
    requires IsWord(w)
    requires rest == [] || IsSpace(rest[0])
    ensures Split(w + rest, Some(k + 1)) == [w] + Split(rest, Some(k))
  {
    var s := w + rest;
    assert s[0] == w[0];
    assert TrimLeft(s) == s;
    if rest != [] {
      assert s[|w|] == rest[0];
    }
    assert TokenLength(s) == |w|;
    assert s[..|w|] == w && s[|w|..] == rest;
  }

  /** Whitespace before the parts does not change them. */
  lemma SplitSkipSpace(c: char, rest: string, maxsplit: Option<nat>)
    requires IsSpace(c)
    ensures Split([c] + rest, maxsplit) == Split(rest, maxsplit)
  {
    assert ([c] + rest)[1..] == rest;
    assert TrimLeft([c] + rest) == TrimLeft(rest);
  }

  /** With no splits left, the whole text is the last part, inner and
      trailing whitespace included. */
  lemma SplitNone(v: string)
    requires v != [] && !IsSpace(v[0])
    ensures Split(v, Some(0)) == [v]
  {
  }

  /** `f"{a} {b} {v}".split(maxsplit=2)` is `[a, b, v]` for words `a` and
      `b`, whatever whitespace `v` holds after its first character. */
  lemma SplitTwice(a: string, b: string, v: string)
    requires IsWord(a) && IsWord(b)
    requires v != [] && !IsSpace(v[0])
    ensures Split(a + " " + b + " " + v, Some(2)) == [a, b, v]
  {
    assert a + " " + b + " " + v == a + ([' '] + (b + ([' '] + v)));
    SplitCons(a, [' '] + (b + ([' '] + v)), 1);
    SplitSkipSpace(' ', b + ([' '] + v), Some(1));
    SplitCons(b, [' '] + v, 0);
    SplitSkipSpace(' ', v, Some(0));
    SplitNone(v);
  }

  /** `p` is a prefix of `s`. */
  predicate IsPrefix(p: string, s: string) {
    |p| <= |s| && s[..|p|] == p
  }

  /** Python's `sub in s` for strings, computed by scanning. */
  predicate Contains(s: string, sub: string)
    decreases |s|
  {
    IsPrefix(sub, s) || (s != [] && Contains(s[1..], sub))
  }

  /** `sub` occurs in `s` starting at position `i`. */
  predicate OccursAt(s: string, sub: string, i: int) {
    0 <= i <= |s| - |sub| && s[i..i + |sub|] == sub
  }

  /** The scan finds `sub` exactly when it occurs at some position of `s`. */
  lemma {:induction false} ContainsOccurs(s: string, sub: string)
    ensures Contains(s, sub) <==> exists i :: OccursAt(s, sub, i)
    decreases |s|
  {
    if s != [] {
      ContainsOccurs(s[1..], sub);
      if IsPrefix(sub, s) {
        assert OccursAt(s, sub, 0);
      }
      if Contains(s[1..], sub) {
        var i :| OccursAt(s[1..], sub, i);
        assert OccursAt(s, sub, i + 1);
      }
      if exists i :: OccursAt(s, sub, i) {
        var i :| OccursAt(s, sub, i);
        if i > 0 {
          assert OccursAt(s[1..], sub, i - 1);
        } else {
          assert IsPrefix(sub, s);
        }
      }
    } else if IsPrefix(sub, s) {
      assert OccursAt(s, sub, 0);
    }
  }

  /** `sep.join(parts)`. */
  function Join(sep: string, parts: seq<string>): string {
    if parts == [] then ""
    else if |parts| == 1 then parts[0]
    else parts[0] + sep + Join(sep, parts[1..])
  }
}
