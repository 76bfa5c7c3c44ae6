/**
 * The Python `str` operations the assistant relies on, written over `seq<char>`:
 * `lower()` (ASCII letters), the `in` substring test, `any(... in ...)` over a word list,
 * `strip()`, `split()` on whitespace, `split(sep)[k]`, `' '.join`, `isdigit()`, `int()`
 * and the decimal formatting of f-strings (`{n}`, `{n:02d}`).
 */
module Text {
  import opened Wrappers

  /** The characters `str.isspace()` accepts; `strip()`, `split()` and the regex class `\s` use the same set. */
  predicate IsSpace(c: char) {
    c == ' ' || ('\t' <= c <= '\r') || ('\U{1C}' <= c <= '\U{1F}') || c == '\U{85}' || c == '\U{A0}'
    || c == '\U{1680}' || ('\U{2000}' <= c <= '\U{200A}') || c == '\U{2028}' || c == '\U{2029}'
    || c == '\U{202F}' || c == '\U{205F}' || c == '\U{3000}'
  }

  predicate IsDigit(c: char) { '0' <= c <= '9' }

  predicate IsAsciiLetter(c: char) { ('a' <= c <= 'z') || ('A' <= c <= 'Z') }

  /** Characters of the regex class `\w` (ASCII part). */
  predicate IsWordChar(c: char) { IsAsciiLetter(c) || IsDigit(c) || c == '_' }

  function LowerChar(c: char): (r: char)
    ensures !('A' <= r <= 'Z')
    ensures 'A' <= c <= 'Z' || r == c
  {
    if 'A' <= c <= 'Z' then (c as int + 32) as char else c
  }

  /** `s.lower()` for ASCII letters. */
  function Lower(s: string): (r: string)
    ensures |r| == |s|
    ensures forall i :: 0 <= i < |r| ==> !('A' <= r[i] <= 'Z')
  {
    seq(|s|, i requires 0 <= i < |s| => LowerChar(s[i]))
  }

  lemma LowerIdempotent(s: string)
    ensures Lower(Lower(s)) == Lower(s)
  {
  }

  // ---------------------------------------------------------------------------
  // Substring search: `p in s`

  /** `s[i + k..i + |p|]` agrees with `p[k..]`, checked one character at a time. */
  predicate AgreeFrom(s: string, p: string, i: nat, k: nat)
    requires i + |p| <= |s|
    decreases |p| - k
  {
    k >= |p| || (s[i + k] == p[k] && AgreeFrom(s, p, i, k + 1))
  }

  /** `p` occurs in `s` at some index at or after `i`. */
  predicate ContainsFrom(s: string, p: string, i: nat)
    decreases |s| - i
  {
    i + |p| <= |s| && (AgreeFrom(s, p, i, 0) || ContainsFrom(s, p, i + 1))
  }

  /** Python's `p in s`. */
  predicate Contains(s: string, p: string) {
    ContainsFrom(s, p, 0)
  }

  /** `s.startswith(p)`, which is also what an anchored `re.match` of a literal checks. */
  predicate StartsWith(s: string, p: string) {
    |p| <= |s| && AgreeFrom(s, p, 0, 0)
  }

  lemma {:induction false} AgreeFromPointwise(s: string, p: string, i: nat, k: nat)
    requires i + |p| <= |s| && k <= |p|
    ensures AgreeFrom(s, p, i, k) <==> (forall j :: k <= j < |p| ==> s[i + j] == p[j])
    decreases |p| - k
  {
    if k < |p| {
      AgreeFromPointwise(s, p, i, k + 1);
    }
  }

  lemma AgreeIffSlice(s: string, p: string, i: nat)
    requires i + |p| <= |s|
    ensures AgreeFrom(s, p, i, 0) <==> s[i..i + |p|] == p
  {
    AgreeFromPointwise(s, p, i, 0);
    if s[i..i + |p|] == p {
      assert forall j :: 0 <= j < |p| ==> p[j] == s[i + j];
    }
  }

  /** `p` occurs in `s` starting at index `i`. */
  predicate OccursAt(s: string, p: string, i: int) {
    0 <= i && i + |p| <= |s| && s[i..i + |p|] == p
  }

  /** The first index at or after `i` where `p` occurs in `s`. */
  function IndexFrom(s: string, p: string, i: nat): (r: Option<nat>)
    ensures r.Some? <==> ContainsFrom(s, p, i)
    ensures r.Some? ==> i <= r.value && OccursAt(s, p, r.value)
    ensures r.Some? ==> forall j :: i <= j < r.value ==> !OccursAt(s, p, j)
    ensures r.None? ==> forall j :: i <= j ==> !OccursAt(s, p, j)
    decreases |s| - i
  {
    if i + |p| > |s| then None
    else
      AgreeIffSlice(s, p, i);
      if AgreeFrom(s, p, i, 0) then Some(i) else IndexFrom(s, p, i + 1)
  }

  /** `s.find(p)`, or `None` where Python returns -1. */
  function IndexOf(s: string, p: string): (r: Option<nat>)
    ensures r.Some? <==> Contains(s, p)
    ensures r.Some? ==> OccursAt(s, p, r.value)
    ensures r.Some? ==> forall j :: 0 <= j < r.value ==> !OccursAt(s, p, j)
    ensures r.None? ==> forall j :: !OccursAt(s, p, j)
  {
    IndexFrom(s, p, 0)
  }

  /** `p in s` holds exactly when some slice of `s` equals `p`. */
  lemma ContainsIff(s: string, p: string)
    ensures Contains(s, p) <==> exists i :: OccursAt(s, p, i)
  {
    var r := IndexOf(s, p);
    if r.Some? {
      assert OccursAt(s, p, r.value);
    }
  }

  lemma ContainsAt(s: string, p: string, i: nat)
    requires i + |p| <= |s| && s[i..i + |p|] == p
    ensures Contains(s, p)
  {
    assert OccursAt(s, p, i);
    ContainsIff(s, p);
  }

  /** `in` is transitive: a string containing `m` contains everything `m` contains. */
  lemma ContainsTransitive(s: string, m: string, p: string)
    requires Contains(s, m) && Contains(m, p)
    ensures Contains(s, p)
  {
    var i := IndexOf(s, m).value;
    var j := IndexOf(m, p).value;
    assert m == s[i..i + |m|];
    assert m[j..j + |p|] == s[i..i + |m|][j..j + |p|];
    assert s[i..i + |m|][j..j + |p|] == s[i + j..i + j + |p|];
    ContainsAt(s, p, i + j);
  }

  lemma ContainsItself(s: string)
    ensures Contains(s, s)
  {
    ContainsAt(s, s, 0);
  }

  lemma ContainsInPrefix(s: string, t: string, p: string)
    requires Contains(s, p)
    ensures Contains(s + t, p)
  {
    var i := IndexOf(s, p).value;
    assert (s + t)[i..i + |p|] == s[i..i + |p|];
    ContainsAt(s + t, p, i);
  }

  lemma ContainsInSuffix(s: string, t: string, p: string)
    requires Contains(t, p)
    ensures Contains(s + t, p)
  {
    var i := IndexOf(t, p).value;
    assert (s + t)[|s| + i..|s| + i + |p|] == t[i..i + |p|];
    ContainsAt(s + t, p, |s| + i);
  }

  /** `any(p in s for p in ps)`. */
  predicate ContainsAny(s: string, ps: seq<string>) {
    exists j :: 0 <= j < |ps| && Contains(s, ps[j])
  }

  /** The index of the first element of `ps` at or after `i` that occurs in `s`. */
  function FirstContainedFrom(s: string, ps: seq<string>, i: nat): (r: Option<nat>)
    ensures r.Some? ==> i <= r.value < |ps| && Contains(s, ps[r.value])
    ensures r.Some? ==> forall j :: i <= j < r.value ==> !Contains(s, ps[j])
    ensures r.None? ==> forall j :: i <= j < |ps| ==> !Contains(s, ps[j])
    decreases |ps| - i
  {
    if i >= |ps| then None
    else if Contains(s, ps[i]) then Some(i)
    else FirstContainedFrom(s, ps, i + 1)
  }

  /** The first element of `ps` that occurs in `s`, scanning in list order. */
  function FirstContained(s: string, ps: seq<string>): (r: Option<nat>)
    ensures r.Some? ==> r.value < |ps| && Contains(s, ps[r.value])
    ensures r.Some? ==> forall j :: 0 <= j < r.value ==> !Contains(s, ps[j])
    ensures r.None? <==> !ContainsAny(s, ps)
  {
    FirstContainedFrom(s, ps, 0)
  }

  // ---------------------------------------------------------------------------
  // strip(), split(), join

  function LeadingSpaces(s: string): (n: nat)
    ensures n <= |s|
    ensures forall j :: 0 <= j < n ==> IsSpace(s[j])
    ensures n == |s| || !IsSpace(s[n])
  {
    if s == [] || !IsSpace(s[0]) then 0 else 1 + LeadingSpaces(s[1..])
  }

  function TrailingSpaces(s: string): (n: nat)
    ensures n <= |s|
    ensures forall j :: |s| - n <= j < |s| ==> IsSpace(s[j])
    ensures n == |s| || !IsSpace(s[|s| - 1 - n])
  {
    if s == [] || !IsSpace(s[|s| - 1]) then 0 else 1 + TrailingSpaces(s[..|s| - 1])
  }

  /** `s.strip()`: the slice of `s` left after removing leading and trailing whitespace. */
  function Strip(s: string): (r: string)
    ensures r == [] || (!IsSpace(r[0]) && !IsSpace(r[|r| - 1]))
    ensures LeadingSpaces(s) + |r| <= |s| && r == s[LeadingSpaces(s)..LeadingSpaces(s) + |r|]
    ensures forall j :: 0 <= j < LeadingSpaces(s) ==> IsSpace(s[j])
    ensures forall j :: LeadingSpaces(s) + |r| <= j < |s| ==> IsSpace(s[j])
  {
    var a := s[LeadingSpaces(s)..];
    a[..|a| - TrailingSpaces(a)]
  }

  lemma StripIsInfix(s: string)
    ensures Contains(s, Strip(s))
  {
    ContainsAt(s, Strip(s), LeadingSpaces(s));
  }

  /** Length of the run of non-whitespace characters at the start of `s`. */
  function WordLength(s: string): (n: nat)
    ensures n <= |s|
    ensures forall j :: 0 <= j < n ==> !IsSpace(s[j])
    ensures n == |s| || IsSpace(s[n])
  {
    if s == [] || IsSpace(s[0]) then 0 else 1 + WordLength(s[1..])
  }

  /** `s.split()`: the maximal runs of non-whitespace characters, in order. */
  function Words(s: string): (ws: seq<string>)
    ensures forall k :: 0 <= k < |ws| ==> ws[k] != [] && forall j :: 0 <= j < |ws[k]| ==> !IsSpace(ws[k][j])
    decreases |s|
  {
    var t := s[LeadingSpaces(s)..];
    if t == [] then []
    else
      var n := WordLength(t);
      [t[..n]] + Words(t[n..])
  }

  /** `sep.join(parts)`. */
  function Join(sep: string, parts: seq<string>): string {
    if parts == [] then ""
    else if |parts| == 1 then parts[0]
    else parts[0] + sep + Join(sep, parts[1..])
  }

  /** A word: non-empty and free of whitespace. */
  predicate IsWord(w: string) {
    w != [] && forall j :: 0 <= j < |w| ==> !IsSpace(w[j])
  }

  /** Splitting words joined by single spaces gives the words back. */
  lemma {:induction false} WordsOfJoin(ws: seq<string>)
    requires forall k :: 0 <= k < |ws| ==> IsWord(ws[k])
    ensures Words(Join(" ", ws)) == ws
    decreases |ws|
  {
    if |ws| == 1 {
      WordsOfWord(ws[0]);
    } else if |ws| > 1 {
      assert Join(" ", ws) == ws[0] + " " + Join(" ", ws[1..]);
      WordsOfJoin(ws[1..]);
      JoinStartsWithWord(ws[1..]);
      WordsOfWordThen(ws[0], Join(" ", ws[1..]));
    }
  }

  lemma WordsOfWord(w: string)
    requires IsWord(w)
    ensures Words(w) == [w]
  {
    assert LeadingSpaces(w) == 0;
    assert w[0..] == w;
    assert WordLength(w) == |w|;
    assert w[..|w|] == w;
    assert Words(w[|w|..]) == [];
  }

  lemma WordsOfWordThen(w: string, rest: string)
    requires IsWord(w) && (rest == [] || !IsSpace(rest[0]))
    ensures Words(w + " " + rest) == [w] + Words(rest)
  {
    assert w + " " + rest == w + (" " + rest);
    WordsOfWordBefore(w, " " + rest);
    WordsSkipOneSpace(rest);
  }

  /** A word followed by whitespace or nothing is the first word. */
  lemma WordsOfWordBefore(w: string, tail: string)
    requires IsWord(w) && (tail == [] || IsSpace(tail[0]))
    ensures Words(w + tail) == [w] + Words(tail)
  {
    var s := w + tail;
    assert s[0] == w[0];
    assert LeadingSpaces(s) == 0;
    assert s[0..] == s;
    assert forall j :: 0 <= j < |w| ==> s[j] == w[j];
    assert |w| == |s| || IsSpace(s[|w|]) by {
      if tail != [] {
        assert s[|w|] == tail[0];
      }
    }
    assert forall j :: 0 <= j < |w| ==> !IsSpace(s[j]);
    assert WordLength(s) == |w|;
    assert s[..|w|] == w;
    assert s[|w|..] == tail;
  }

  /** One leading space does not change the words of a text that starts with a non-space. */
  lemma WordsSkipOneSpace(rest: string)
    requires rest == [] || !IsSpace(rest[0])
    ensures Words(" " + rest) == Words(rest)
  {
    var tail := " " + rest;
    assert LeadingSpaces(tail) == 1;
    assert tail[1..] == rest;
    assert LeadingSpaces(rest) == 0;
    assert rest[0..] == rest;
  }

  /** A join of words begins with the first character of the first word. */
  lemma JoinStartsWithWord(ws: seq<string>)
    requires ws != [] && IsWord(ws[0])
    ensures Join(" ", ws) != [] && Join(" ", ws)[0] == ws[0][0]
  {
  }

  /** `s.split(d)[0]`: the text before the first occurrence of `d`. */
  function Before(s: string, d: string): (r: string)
    ensures !Contains(s, d) ==> r == s
    ensures Contains(s, d) ==> |r| < |s| || d == []
  {
    match IndexOf(s, d)
    case None => s
    case Some(i) => s[..i]
  }

  /** The text after the first occurrence of `d`; `s.split(d)[1]` is `Before(After(s, d), d)`. */
  function After(s: string, d: string): (r: string)
    ensures |r| <= |s|
  {
    match IndexOf(s, d)
    case None => ""
    case Some(i) => s[i + |d|..]
  }

  /** `s.split(d)[1]`, defined when `d` occurs in `s` (otherwise Python raises IndexError). */
  function SecondPart(s: string, d: string): string {
    Before(After(s, d), d)
  }

  // ---------------------------------------------------------------------------
  // Digits and decimal formatting

  function DigitValue(c: char): (v: nat)
    requires IsDigit(c)
    ensures v < 10
  {
    c as int - '0' as int
  }

  function DigitChar(v: nat): (c: char)
    requires v < 10
    ensures IsDigit(c) && DigitValue(c) == v
  {
    ('0' as int + v) as char
  }

  predicate AllDigits(s: string) {
    forall i :: 0 <= i < |s| ==> IsDigit(s[i])
  }

  /** `s.isdigit()` (ASCII digits): non-empty and all digits. */
  predicate IsDigitString(s: string) {
    s != [] && AllDigits(s)
  }

  /** `int(s)` for a string of ASCII digits. */
  function DigitsToNat(s: string): nat
    requires AllDigits(s)
  {
    if s == [] then 0 else DigitsToNat(s[..|s| - 1]) * 10 + DigitValue(s[|s| - 1])
  }

  /** `str(n)` / `f"{n}"`; reading the digits back with `int()` gives `n` again. */
  function NatToString(n: nat): (r: string)
    ensures IsDigitString(r)
    ensures DigitsToNat(r) == n
    ensures n < 10 <==> |r| == 1
    ensures 10 <= n < 100 ==> |r| == 2
    ensures 1000 <= n < 10000 ==> |r| == 4
    ensures n > 0 ==> r[0] != '0'
  {
    if n < 10 then [DigitChar(n)]
    else
      var r := NatToString(n / 10) + [DigitChar(n % 10)];
      assert r[..|r| - 1] == NatToString(n / 10);
      r
  }

  /** `f"{n:02d}"`. */
  function Pad2(n: nat): (r: string)
    ensures IsDigitString(r) && DigitsToNat(r) == n
    ensures n < 100 ==> |r| == 2
  {
    if n < 10 then
      var r := "0" + NatToString(n);
      assert r[..1] == "0";
      r
    else NatToString(n)
  }

  lemma {:induction false} LeadingZeroIgnored(x: string)
    requires AllDigits(x)
    ensures AllDigits("0" + x) && DigitsToNat("0" + x) == DigitsToNat(x)
  {
    if x != [] {
      var y := x[..|x| - 1];
      LeadingZeroIgnored(y);
      assert ("0" + x)[..|x|] == "0" + y;
    }
  }

  /** `n` written with at least `width` digits, padded with leading zeros (`f"{n:0{width}d}"`). */
  function ZeroPad(n: nat, width: nat): (r: string)
    ensures IsDigitString(r) && DigitsToNat(r) == n
    ensures |NatToString(n)| <= width ==> |r| == width
    decreases width
  {
    if |NatToString(n)| >= width then NatToString(n)
    else
      var r := ZeroPad(n, width - 1);
      LeadingZeroIgnored(r);
      "0" + r
  }

  /** `f"{n:04d}"`, the width `%Y` gives the four-digit years the assistant deals with. */
  function Pad4(n: nat): (r: string)
    ensures IsDigitString(r) && DigitsToNat(r) == n
    ensures n < 10000 ==> |r| == 4
  {
    ZeroPad(n, 4)
  }

  /** `f"{i}"` for a possibly negative integer. */
  function IntToString(i: int): (r: string)
    ensures r != []
    ensures i >= 0 ==> r == NatToString(i)
    ensures i < 0 ==> r == "-" + NatToString(-i)
  {
    if i >= 0 then NatToString(i) else "-" + NatToString(-i)
  }
}
