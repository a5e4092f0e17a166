/** Character classes and string operations of JavaScript that the core relies on:
    the `\d`, `\w` and `\s` regex classes, `trim`, ASCII case mapping, `includes`,
    `split` on one character and `join`. */
module Strings {
  import Seqs

  /** The characters JavaScript's `\s` and `String.prototype.trim` treat as white space
      (WhiteSpace and LineTerminator of ECMAScript). */
  predicate IsSpace(c: char) {
    c == ' ' || c == '\t' || c == '\n' || c == '\r' || c == '\U{000B}' || c == '\U{000C}'
    || c == '\U{00A0}' || c == '\U{1680}' || ('\U{2000}' <= c <= '\U{200A}')
    || c == '\U{2028}' || c == '\U{2029}' || c == '\U{202F}' || c == '\U{205F}'
    || c == '\U{3000}' || c == '\U{FEFF}'
  }

  predicate IsDigit(c: char) { '0' <= c <= '9' }
  predicate IsUpper(c: char) { 'A' <= c <= 'Z' }
  predicate IsLower(c: char) { 'a' <= c <= 'z' }
  predicate IsLetter(c: char) { IsUpper(c) || IsLower(c) }
  predicate IsAlnum(c: char) { IsLetter(c) || IsDigit(c) }
  /** The regex class `\w`. */
  predicate IsWordChar(c: char) { IsAlnum(c) || c == '_' }

  function UpperChar(c: char): char {
    if IsLower(c) then (c as int - 32) as char else c
  }

  function LowerChar(c: char): char {
    if IsUpper(c) then (c as int + 32) as char else c
  }

  /** `toUpperCase`, restricted to the ASCII letters. */
  function Upper(s: string): (r: string)
    ensures |r| == |s|
    ensures forall i :: 0 <= i < |s| ==> r[i] == UpperChar(s[i])
  {
    if s == [] then [] else [UpperChar(s[0])] + Upper(s[1..])
  }

  /** `toLowerCase`, restricted to the ASCII letters. */
  function Lower(s: string): (r: string)
    ensures |r| == |s|
    ensures forall i :: 0 <= i < |s| ==> r[i] == LowerChar(s[i])
  {
    if s == [] then [] else [LowerChar(s[0])] + Lower(s[1..])
  }

  /** `s.replace(/\D/g, '')`: the digits of `s`, in order. */
  function Digits(s: string): string {
    Seqs.Filter(s, IsDigit)
  }

  predicate AllDigits(s: string) {
    forall i :: 0 <= i < |s| ==> IsDigit(s[i])
  }

  predicate IsBlank(s: string) {
    forall i :: 0 <= i < |s| ==> IsSpace(s[i])
  }

  function TrimStart(s: string): (r: string)
    ensures |r| <= |s| && r == s[|s| - |r|..]
    ensures r == [] || !IsSpace(r[0])
    ensures forall i :: 0 <= i < |s| - |r| ==> IsSpace(s[i])
  {
    if s == [] || !IsSpace(s[0]) then s else TrimStart(s[1..])
  }

  function TrimEnd(s: string): (r: string)
    ensures |r| <= |s| && r == s[..|r|]
    ensures r == [] || !IsSpace(r[|r| - 1])
    ensures forall i :: |r| <= i < |s| ==> IsSpace(s[i])
  {
    if s == [] || !IsSpace(s[|s| - 1]) then s else TrimEnd(s[..|s| - 1])
  }

  /** `s.trim()`. */
  function Trim(s: string): string {
    TrimEnd(TrimStart(s))
  }

  /** A string trims to the empty string exactly when all of it is white space. */
  lemma TrimEmptyIffBlank(s: string)
    ensures Trim(s) == "" <==> IsBlank(s)
  {
    var t := TrimStart(s);
    if Trim(s) == "" {
      BlankStartsBlank(t);
    }
  }

  /** A string that is empty or starts with a non-space character is blank only when
      it is empty. */
  lemma BlankStartsBlank(t: string)
    requires t == [] || !IsSpace(t[0])
    ensures IsBlank(t) <==> t == []
  {
    if t != [] {
      assert !IsSpace(t[0]);
    }
  }

  /** `sub` occurs in `s` starting at position `i`. */
  predicate OccursAt(s: string, sub: string, i: int) {
    0 <= i <= |s| - |sub| && s[i..i + |sub|] == sub
  }

  /** `s.includes(sub)`. */
  predicate Contains(s: string, sub: string) {
    exists i | 0 <= i <= |s| - |sub| :: OccursAt(s, sub, i)
  }

  /** `s.replace(from, to)` with a one-character string pattern: only the first
      occurrence is replaced. */
  function ReplaceFirst(s: string, from: char, to: char): (r: string)
    ensures |r| == |s|
  {
    if s == [] then []
    else if s[0] == from then [to] + s[1..]
    else [s[0]] + ReplaceFirst(s[1..], from, to)
  }

  /** `s.indexOf(c)` for one character: the first position holding `c`, or -1. */
  function CharIndex(s: string, c: char): (r: int)
    ensures -1 <= r < |s|
    ensures r == -1 <==> c !in s
    ensures r >= 0 ==> s[r] == c && c !in s[..r]
  {
    if s == [] then -1
    else if s[0] == c then 0
    else var k := CharIndex(s[1..], c); if k == -1 then -1 else k + 1
  }

  /** Replacing the first `from` changes exactly one position, the first one holding
      `from`, and none when `from` does not occur. */
  lemma {:induction false} ReplaceFirstAt(s: string, from: char, to: char)
    ensures var k := CharIndex(s, from);
      var r := ReplaceFirst(s, from, to);
      (k == -1 ==> r == s) &&
      (k >= 0 ==> r[k] == to && forall i :: 0 <= i < |s| && i != k ==> r[i] == s[i])
  {
    if s != [] && s[0] != from {
      ReplaceFirstAt(s[1..], from, to);
    }
  }

  /** `xs.join(sep)`. */
  function Join(xs: seq<string>, sep: string): string {
    if xs == [] then ""
    else if |xs| == 1 then xs[0]
    else xs[0] + sep + Join(xs[1..], sep)
  }

  /** Joining: every separator sits between two elements, so the length is the sum of
      the parts plus one separator fewer than there are parts. */
  function SumLengths(xs: seq<string>): nat {
    if xs == [] then 0 else |xs[0]| + SumLengths(xs[1..])
  }

  lemma {:induction false} JoinLength(xs: seq<string>, sep: string)
    requires xs != []
    ensures |Join(xs, sep)| == SumLengths(xs) + (|xs| - 1) * |sep|
  {
    if |xs| > 1 {
      JoinLength(xs[1..], sep);
    }
  }

  /** Appending an element to a non-empty list appends one separator and the element. */
  lemma {:induction false} JoinSnoc(xs: seq<string>, y: string, sep: string)
    requires xs != []
    ensures Join(xs + [y], sep) == Join(xs, sep) + sep + y
  {
    if |xs| == 1 {
      assert xs + [y] == [xs[0], y];
    } else {
      assert (xs + [y])[1..] == xs[1..] + [y];
      JoinSnoc(xs[1..], y, sep);
    }
  }

  /** A joined list starts with its first element and ends with its last. */
  lemma {:induction false} JoinEnds(xs: seq<string>, sep: string)
    requires xs != []
    ensures var r := Join(xs, sep);
      |r| >= |xs[0]| && |r| >= |xs[|xs| - 1]|
      && r[..|xs[0]|] == xs[0] && r[|r| - |xs[|xs| - 1]|..] == xs[|xs| - 1]
  {
    if |xs| > 1 {
      JoinEnds(xs[1..], sep);
      var t := Join(xs[1..], sep);
      assert Join(xs, sep) == xs[0] + sep + t;
      assert xs[1..][|xs[1..]| - 1] == xs[|xs| - 1];
    }
  }

  /** `s.split(c)` for a one-character separator. */
  function Split(s: string, c: char): (r: seq<string>)
    ensures |r| >= 1
    ensures forall k :: 0 <= k < |r| ==> c !in r[k]
    decreases |s|
  {
    var i := CharIndex(s, c);
    if i == -1 then [s] else [s[..i]] + Split(s[i + 1..], c)
  }

  /** Splitting and joining back with the same character gives the original string. */
  lemma {:induction false} SplitJoin(s: string, c: char)
    ensures Join(Split(s, c), [c]) == s
    decreases |s|
  {
    var i := CharIndex(s, c);
    if i != -1 {
      var rest := Split(s[i + 1..], c);
      SplitJoin(s[i + 1..], c);
      JoinCons(s[..i], rest, [c]);
      AroundAt(s, i);
    }
  }

  /** Joining a first part onto at least one more puts the separator after it. */
  lemma JoinCons(x: string, rest: seq<string>, sep: string)
    requires rest != []
    ensures Join([x] + rest, sep) == x + sep + Join(rest, sep)
  {
    assert ([x] + rest)[1..] == rest;
  }

  /** A string is the text before position `i`, the character at `i`, and the rest. */
  lemma AroundAt(s: string, i: nat)
    requires i < |s|
    ensures s[..i] + [s[i]] + s[i + 1..] == s
  {
    assert forall k :: 0 <= k < |s| ==> (s[..i] + [s[i]] + s[i + 1..])[k] == s[k];
  }

  /** The first separator after a separator-free prefix sits right after it. */
  lemma {:induction false} CharIndexAfter(a: string, b: string, c: char)
    requires c !in a
    ensures CharIndex(a + [c] + b, c) == |a|
  {
    if a != [] {
      assert (a + [c] + b)[1..] == a[1..] + [c] + b;
      CharIndexAfter(a[1..], b, c);
    }
  }

  /** Splitting stops at the first separator and goes on with what follows it. */
  lemma SplitAfterFirst(a: string, b: string, c: char)
    requires c !in a
    ensures Split(a + [c] + b, c) == [a] + Split(b, c)
  {
    var s := a + [c] + b;
    CharIndexAfter(a, b, c);
    assert s[..|a|] == a && s[|a| + 1..] == b;
  }

  /** Any pieces free of the separator, joined by it, split back into those pieces. */
  lemma {:induction false} SplitJoinPieces(ws: seq<string>, c: char)
    requires ws != []
    requires forall k :: 0 <= k < |ws| ==> c !in ws[k]
    ensures Split(Join(ws, [c]), c) == ws
  {
    if |ws| == 1 {
      assert CharIndex(ws[0], c) == -1;
    } else {
      SplitJoinPieces(ws[1..], c);
      JoinCons(ws[0], ws[1..], [c]);
      SplitAfterFirst(ws[0], Join(ws[1..], [c]), c);
      assert ws == [ws[0]] + ws[1..];
    }
  }

  /** Two pieces free of the separator, joined by it, split back into those pieces. */
  lemma SplitTwo(a: string, b: string, c: char)
    requires c !in a && c !in b
    ensures Split(a + [c] + b, c) == [a, b]
  {
    var s := a + [c] + b;
    assert s[|a|] == c;
    assert forall k :: 0 <= k < |a| ==> s[k] == a[k];
    assert s[..|a|] == a && s[|a| + 1..] == b;
    assert CharIndex(b, c) == -1;
  }

  /** `String(n)` for a natural number. */
  function NatToString(n: nat): (r: string)
    ensures r != [] && AllDigits(r)
  {
    if n < 10 then [('0' as int + n) as char]
    else NatToString(n / 10) + [('0' as int + n % 10) as char]
  }

  /** The number a string of decimal digits denotes, read most significant first. */
  function DigitsValue(s: string): nat {
    if s == [] then 0
    else DigitsValue(s[..|s| - 1]) * 10 + if IsDigit(s[|s| - 1]) then s[|s| - 1] as int - '0' as int else 0
  }

  /** Reading back the decimal text of `n` gives `n`. */
  lemma {:induction false} NatToStringValue(n: nat)
    ensures DigitsValue(NatToString(n)) == n
  {
    var r := NatToString(n);
    if n < 10 {
      assert r[..0] == [];
    } else {
      NatToStringValue(n / 10);
      assert r[..|r| - 1] == NatToString(n / 10);
    }
  }

  /** Different numbers have different decimal texts. */
  lemma NatToStringInjective(m: nat, n: nat)
    requires NatToString(m) == NatToString(n)
    ensures m == n
  {
    NatToStringValue(m);
    NatToStringValue(n);
  }

  /** `String(i)` for an integer: a minus sign before the digits when negative. */
  function IntToString(i: int): (r: string)
    ensures r != [] && forall k :: 0 <= k < |r| ==> IsDigit(r[k]) || r[k] == '-'
    ensures (r[0] == '-') <==> i < 0
  {
    if i < 0 then "-" + NatToString(-i) else NatToString(i)
  }

  /** Different integers have different texts. */
  lemma IntToStringInjective(m: int, n: int)
    requires IntToString(m) == IntToString(n)
    ensures m == n
  {
    if m < 0 {
      assert IntToString(m)[1..] == NatToString(-m);
      assert IntToString(n)[1..] == NatToString(-n);
      NatToStringInjective(-m, -n);
    } else {
      NatToStringInjective(m, n);
    }
  }

  /** A number's text followed by a word of letters can be split back: the number and
      the word are both recovered. */
  lemma IntThenWordInjective(m: int, a: string, n: int, b: string)
    requires a != [] && b != [] && IsLetter(a[0]) && IsLetter(b[0])
    requires IntToString(m) + a == IntToString(n) + b
    ensures m == n && a == b
  {
    var x, y := IntToString(m), IntToString(n);
    NumberEndsAtWord(m, a);
    NumberEndsAtWord(n, b);
    assert x == (x + a)[..|x|] == (y + b)[..|y|] == y;
    IntToStringInjective(m, n);
  }

  /** In a number's text followed by a word, the first character that is neither a
      digit nor a minus sign is where the word starts. */
  lemma NumberEndsAtWord(m: int, a: string)
    requires a != [] && IsLetter(a[0])
    ensures Seqs.FindIndex(IntToString(m) + a, c => !(IsDigit(c) || c == '-')) == |IntToString(m)|
  {
    var x := IntToString(m);
    assert (x + a)[|x|] == a[0];
    assert forall i :: 0 <= i < |x| ==> (x + a)[i] == x[i];
  }

  /** The first `from` is the one after a prefix free of it; only that one is
      replaced. */
  lemma {:induction false} ReplaceFirstAfter(a: string, b: string, from: char, to: char)
    requires from !in a
    ensures ReplaceFirst(a + [from] + b, from, to) == a + [to] + b
  {
    if a != [] {
      assert (a + [from] + b)[1..] == a[1..] + [from] + b;
      ReplaceFirstAfter(a[1..], b, from, to);
    }
  }
}
