/** The parts of Python's `str` behaviour that the source relies on:
    `in` on strings, `.lower()`, `.strip()`, `.rstrip()`, `split`, `join`,
    and the truthiness of a possibly-None string. */
module PyText {
  import opened Wrappers

  /** `p` is a prefix of `s`. */
  predicate IsPrefix(p: string, s: string) {
    |p| <= |s| && s[..|p|] == p
  }

  /** Python's `sub in s` for strings. */
  predicate Contains(s: string, sub: string)
    decreases |s|
  {
    IsPrefix(sub, s) || (|s| > 0 && Contains(s[1..], sub))
  }

  /** Python's `any(p in s for p in phrases)`. */
  predicate ContainsAny(s: string, phrases: seq<string>) {
    exists i :: 0 <= i < |phrases| && Contains(s, phrases[i])
  }

  /** A string that occurs in a slice of `s` occurs in `s`. */
  lemma {:induction false} ContainsSlice(s: string, i: nat, j: nat, sub: string)
    requires i <= j <= |s|
    requires Contains(s[i..j], sub)
    ensures Contains(s, sub)
    decreases j - i
  {
    var t := s[i..j];
    if IsPrefix(sub, t) {
      ContainsSuffix(s, i, sub);
    } else {
      assert t[1..] == s[i + 1..j];
      ContainsSlice(s, i + 1, j, sub);
    }
  }

  /** A string that is a prefix of the suffix `s[i..]` occurs in `s`. */
  lemma {:induction false} ContainsSuffix(s: string, i: nat, sub: string)
    requires i <= |s|
    requires IsPrefix(sub, s[i..]) || Contains(s[i..], sub)
    ensures Contains(s, sub)
    decreases i
  {
    if i == 0 {
      assert s[0..] == s;
    } else {
      assert s[i - 1..][1..] == s[i..];
      ContainsSuffix(s, i - 1, sub);
    }
  }

  /** Index of the first occurrence of `sub` in `s`: Python's `s.find(sub)`,
      with None standing for -1. */
  function Find(s: string, sub: string): (r: Option<nat>)
    decreases |s|
    ensures r.None? <==> !Contains(s, sub)
    ensures r.Some? ==> r.value + |sub| <= |s| && s[r.value..r.value + |sub|] == sub
    ensures r.Some? ==> forall j :: 0 <= j < r.value ==> !IsPrefix(sub, s[j..])
  {
    if IsPrefix(sub, s) then
      Some(0)
    else if |s| == 0 then
      None
    else
      match Find(s[1..], sub)
      case None => None
      case Some(k) =>
        FindShift(s, sub, k);
        Some(k + 1)
  }

  /** A first occurrence at `k` in `s[1..]`, when `s` does not start with
      `sub`, is a first occurrence at `k + 1` in `s`. */
  lemma FindShift(s: string, sub: string, k: nat)
    requires |s| > 0 && !IsPrefix(sub, s)
    requires k + |sub| <= |s| - 1 && s[1..][k..k + |sub|] == sub
    requires forall j :: 0 <= j < k ==> !IsPrefix(sub, s[1..][j..])
    ensures s[k + 1..k + 1 + |sub|] == sub
    ensures forall j :: 0 <= j < k + 1 ==> !IsPrefix(sub, s[j..])
  {
    assert s[k + 1..k + 1 + |sub|] == s[1..][k..k + |sub|];
    forall j | 1 <= j < k + 1 ensures !IsPrefix(sub, s[j..]) {
      assert s[j..] == s[1..][j - 1..];
    }
  }

  /** Python's `s.split(sep)[0]`: everything before the first `sep`. */
  function Before(s: string, sep: string): (r: string)
    ensures |r| <= |s| && r == s[..|r|]
  {
    match Find(s, sep)
    case None => s
    case Some(i) => s[..i]
  }

  /** Python's `s.split(sep)[1]`, defined when `sep in s`: the text between
      the first and the second occurrence of `sep` (or the end). */
  function SecondPiece(s: string, sep: string): (r: string)
    requires Contains(s, sep)
  {
    var i := Find(s, sep).value;
    Before(s[i + |sep|..], sep)
  }

  /** Python's `str.lower()` on one character (ASCII letters only). */
  function LowerChar(c: char): char {
    if 'A' <= c <= 'Z' then (c as int + 32) as char else c
  }

  /** Python's `str.lower()`. */
  function Lower(s: string): (r: string)
    ensures |r| == |s|
    ensures forall i :: 0 <= i < |s| ==> r[i] == LowerChar(s[i])
  {
    seq(|s|, i requires 0 <= i < |s| => LowerChar(s[i]))
  }

  /** Lower-casing twice is lower-casing once. */
  lemma LowerIdempotent(s: string)
    ensures Lower(Lower(s)) == Lower(s)
  {
    assert forall i :: 0 <= i < |s| ==> LowerChar(LowerChar(s[i])) == LowerChar(s[i]);
  }

  /** The ASCII characters Python's `strip()` removes: tab to carriage
      return, the four separators 0x1c to 0x1f, and space. */
  predicate IsSpace(c: char) {
    '\t' <= c <= '\r' || '\U{1C}' <= c <= '\U{1F}' || c == ' '
  }

  /** Python's `s.rstrip()`: the longest prefix not ending in whitespace. */
  function RStrip(s: string): (r: string)
    ensures |r| <= |s| && r == s[..|r|]
    ensures r == [] || !IsSpace(r[|r| - 1])
    ensures forall k :: |r| <= k < |s| ==> IsSpace(s[k])
    decreases |s|
  {
    if |s| > 0 && IsSpace(s[|s| - 1]) then RStrip(s[..|s| - 1]) else s
  }

  /** Every character of `t` is whitespace. */
  predicate AllSpace(t: string) {
    forall k :: 0 <= k < |t| ==> IsSpace(t[k])
  }

  /** `r` is the slice of `s` at `i`, and all of `s` outside it is whitespace. */
  predicate TrimmedAt(s: string, i: nat, r: string) {
    i <= |s| - |r| && r == s[i..i + |r|] && AllSpace(s[..i]) && AllSpace(s[i + |r|..])
  }

  /** Python's `s.strip()`: the slice of `s` with no whitespace at either
      end, what it cuts off on both sides being whitespace only. */
  function Strip(s: string): (r: string)
    ensures exists i :: 0 <= i <= |s| - |r| && IsPrefix(r, s[i..])
    ensures r == [] || (!IsSpace(r[0]) && !IsSpace(r[|r| - 1]))
    ensures exists i: nat :: TrimmedAt(s, i, r)
    decreases |s|
  {
    if |s| > 0 && IsSpace(s[0]) then
      var r := Strip(s[1..]);
      var i: nat :| TrimmedAt(s[1..], i, r);
      TrimmedAtCons(s, i, r);
      r
    else
      var r := RStrip(s);
      TrimmedAtStart(s, r);
      r
  }

  /** Whitespace before a trimmed slice moves it one place along. */
  lemma TrimmedAtCons(s: string, i: nat, r: string)
    requires |s| > 0 && IsSpace(s[0]) && TrimmedAt(s[1..], i, r)
    ensures TrimmedAt(s, i + 1, r) && IsPrefix(r, s[i + 1..])
  {
    assert s[1..][i..i + |r|] == s[i + 1..i + 1 + |r|];
    assert s[..i + 1] == [s[0]] + s[1..][..i];
    assert s[i + 1 + |r|..] == s[1..][i + |r|..];
  }

  /** A prefix followed by whitespace only is trimmed at 0. */
  lemma TrimmedAtStart(s: string, r: string)
    requires |r| <= |s| && r == s[..|r|]
    requires forall k :: |r| <= k < |s| ==> IsSpace(s[k])
    ensures TrimmedAt(s, 0, r) && IsPrefix(r, s[0..])
  {
    assert s[..0] == [];
    assert s[0..0 + |r|] == s[..|r|];
  }

  /** Python's `s.split(c)` for a one-character separator. */
  function Split(s: string, c: char): (r: seq<string>)
    ensures |r| >= 1
    ensures forall i :: 0 <= i < |r| ==> c !in r[i]
    decreases |s|
  {
    if |s| == 0 then
      [""]
    else
      var rest := Split(s[1..], c);
      if s[0] == c then [""] + rest else [[s[0]] + rest[0]] + rest[1..]
  }

  /** Python's `sep.join(parts)`. */
  function Join(parts: seq<string>, sep: string): string
    decreases |parts|
  {
    if |parts| == 0 then ""
    else if |parts| == 1 then parts[0]
    else parts[0] + sep + Join(parts[1..], sep)
  }

  /** Splitting on a character and joining on that character gives back the text. */
  lemma {:induction false} JoinSplit(s: string, c: char)
    ensures Join(Split(s, c), [c]) == s
    decreases |s|
  {
    if |s| > 0 {
      var rest := Split(s[1..], c);
      JoinSplit(s[1..], c);
      if s[0] == c {
        assert Split(s, c) == [""] + rest;
        assert ([""] + rest)[1..] == rest;
      } else {
        var parts := [[s[0]] + rest[0]] + rest[1..];
        assert Split(s, c) == parts;
        if |rest| == 1 {
          assert parts == [[s[0]] + rest[0]];
        } else {
          assert parts[1..] == rest[1..];
          assert Join(rest, [c]) == rest[0] + [c] + Join(rest[1..], [c]);
        }
      }
      assert s == [s[0]] + s[1..];
    }
  }

  /** Number of occurrences of the character `c` in `s`. */
  function CountChar(s: string, c: char): nat
    decreases |s|
  {
    if |s| == 0 then 0 else (if s[0] == c then 1 else 0) + CountChar(s[1..], c)
  }

  lemma {:induction false} CountCharConcat(a: string, b: string, c: char)
    ensures CountChar(a + b, c) == CountChar(a, c) + CountChar(b, c)
    decreases |a|
  {
    if |a| > 0 {
      assert (a + b)[1..] == a[1..] + b;
      CountCharConcat(a[1..], b, c);
    } else {
      assert a + b == b;
    }
  }

  lemma {:induction false} CountCharAbsent(s: string, c: char)
    requires c !in s
    ensures CountChar(s, c) == 0
    decreases |s|
  {
    if |s| > 0 {
      assert forall k :: 0 <= k < |s| - 1 ==> s[1..][k] == s[k + 1];
      CountCharAbsent(s[1..], c);
    }
  }

  /** A text has one more piece under `split(c)` than it has occurrences of `c`. */
  lemma {:induction false} SplitPieces(s: string, c: char)
    ensures |Split(s, c)| == CountChar(s, c) + 1
    decreases |s|
  {
    if |s| > 0 {
      SplitPieces(s[1..], c);
    }
  }

  /** Joining pieces that do not contain `c` with a separator holding exactly one `c`
      yields one `c` per gap between pieces. */
  lemma {:induction false} JoinCount(parts: seq<string>, sep: string, c: char)
    requires |parts| >= 1
    requires forall i :: 0 <= i < |parts| ==> c !in parts[i]
    requires CountChar(sep, c) == 1
    ensures CountChar(Join(parts, sep), c) == |parts| - 1
    decreases |parts|
  {
    CountCharAbsent(parts[0], c);
    if |parts| > 1 {
      JoinCount(parts[1..], sep, c);
      CountCharConcat(parts[0], sep, c);
      CountCharConcat(parts[0] + sep, Join(parts[1..], sep), c);
    }
  }

  /** `n` spaces: Python's `" " * n`. */
  function Spaces(n: nat): (r: string)
    ensures |r| == n && '\n' !in r
  {
    seq(n, _ => ' ')
  }

  /** Python truthiness of a string that may be None: neither None nor "". */
  predicate Truthy(s: Option<string>) {
    s.Some? && s.value != ""
  }

  /** Python's `s or ""` for a string that may be None. */
  function OrEmpty(s: Option<string>): (r: string)
    ensures r == "" <==> !Truthy(s)
  {
    s.GetOr("")
  }

  /** Python's `str(x)` for a string that may be None. */
  function Str(s: Option<string>): string {
    s.GetOr("None")
  }
}
