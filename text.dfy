/** The JavaScript string operations the core relies on, written out on
    `seq<char>`: `replace` with a one-character pattern, `trim`, `split(' ')`,
    `toUpperCase` (ASCII letters), `slice(0, n)` and number-to-string. */
module Text {

  /** The index of the first `c` in `s`, or `|s|` when there is none. */
  function FirstIndex(s: string, c: char): (k: nat)
    ensures k <= |s|
    ensures forall j :: 0 <= j < k ==> s[j] != c
    ensures k < |s| ==> s[k] == c
    ensures k == |s| <==> c !in s
  {
    if s == [] then 0
    else if s[0] == c then 0
    else
      var k := FirstIndex(s[1..], c);
      assert c in s[1..] ==> c in s;
      1 + k
  }

  /** `s.replace(from, to)` with one-character strings: only the first
      occurrence of `from` is replaced, and nothing else changes. */
  function ReplaceFirst(s: string, from: char, to: char): (r: string)
    ensures var k := FirstIndex(s, from); r == if k < |s| then s[k := to] else s
  {
    if s == [] then []
    else if s[0] == from then [to] + s[1..]
    else [s[0]] + ReplaceFirst(s[1..], from, to)
  }

  lemma ReplaceFirstAbsent(s: string, from: char, to: char)
    requires from !in s
    ensures ReplaceFirst(s, from, to) == s
  {
  }

  /** The characters JavaScript's `String.prototype.trim` removes: the
      WhiteSpace and LineTerminator code points of ECMAScript. */
  predicate IsJsWhitespace(c: char) {
    c == ' ' || c == '\t' || c == '\n' || c == '\r' || c == '\U{000B}' || c == '\U{000C}'
    || c == '\U{00A0}' || c == '\U{1680}' || ('\U{2000}' <= c <= '\U{200A}')
    || c == '\U{2028}' || c == '\U{2029}' || c == '\U{202F}' || c == '\U{205F}'
    || c == '\U{3000}' || c == '\U{FEFF}'
  }

  predicate IsBlank(s: string) {
    forall i :: 0 <= i < |s| ==> IsJsWhitespace(s[i])
  }

  /** Drops leading whitespace. */
  function TrimStart(s: string): (r: string)
    ensures |r| <= |s| && r == s[|s| - |r|..]
    ensures forall i :: 0 <= i < |s| - |r| ==> IsJsWhitespace(s[i])
    ensures r != [] ==> !IsJsWhitespace(r[0])
  {
    if s != [] && IsJsWhitespace(s[0]) then TrimStart(s[1..]) else s
  }

  /** Drops trailing whitespace. */
  function TrimEnd(s: string): (r: string)
    ensures |r| <= |s| && r == s[..|r|]
    ensures forall i :: |r| <= i < |s| ==> IsJsWhitespace(s[i])
    ensures r != [] ==> !IsJsWhitespace(r[|r| - 1])
  {
    if s != [] && IsJsWhitespace(s[|s| - 1]) then TrimEnd(s[..|s| - 1]) else s
  }

  /** `s.trim()` */
  function Trim(s: string): string {
    TrimEnd(TrimStart(s))
  }

  /** `!s.trim()` holds exactly when every character of `s` is whitespace. */
  lemma TrimEmptyIffBlank(s: string)
    ensures Trim(s) == [] <==> IsBlank(s)
  {
    if IsBlank(s) {
      BlankTrimsToEmpty(s);
    } else if Trim(s) == [] {
      EmptyTrimIsBlank(s);
    }
  }

  lemma {:induction false} BlankTrimsToEmpty(s: string)
    requires IsBlank(s)
    ensures TrimStart(s) == [] && Trim(s) == []
  {
    if s != [] {
      assert IsJsWhitespace(s[0]);
      BlankTrimsToEmpty(s[1..]);
    }
  }

  lemma EmptyTrimIsBlank(s: string)
    requires Trim(s) == []
    ensures IsBlank(s)
  {
    var u := TrimStart(s);
    assert u == [];
  }

  /** `s.split(sep)` as JavaScript computes it: one segment more than there
      are separators, empty segments kept, `""` gives `[""]`. */
  function Split(s: string, sep: char): (r: seq<string>)
    ensures |r| >= 1
    ensures forall i :: 0 <= i < |r| ==> sep !in r[i]
  {
    if s == [] then [""]
    else if s[0] == sep then [""] + Split(s[1..], sep)
    else
      var rest := Split(s[1..], sep);
      [[s[0]] + rest[0]] + rest[1..]
  }

  /** `segments.join(sep)`: the segments with one separator between each two. */
  function Join(segments: seq<string>, sep: char): string {
    if segments == [] then []
    else if |segments| == 1 then segments[0]
    else segments[0] + [sep] + Join(segments[1..], sep)
  }

  /** Splitting loses nothing: joining the segments back with the
      separator gives the string. */
  lemma {:induction false} JoinSplit(s: string, sep: char)
    ensures Join(Split(s, sep), sep) == s
  {
    if s != [] {
      JoinSplit(s[1..], sep);
      var rest := Split(s[1..], sep);
      var segs := Split(s, sep);
      if s[0] == sep {
        assert segs == [""] + rest;
        assert segs[1..] == rest;
        assert Join(segs, sep) == [sep] + Join(rest, sep);
      } else if |rest| == 1 {
        assert segs == [[s[0]] + rest[0]];
      } else {
        assert segs[0] == [s[0]] + rest[0] && segs[1..] == rest[1..];
        assert Join(rest, sep) == rest[0] + [sep] + Join(rest[1..], sep);
        assert Join(segs, sep) == [s[0]] + Join(rest, sep);
      }
      assert [s[0]] + s[1..] == s;
    }
  }

  /** There is one segment more than there are separators. */
  lemma {:induction false} SplitCount(s: string, sep: char)
    ensures |Split(s, sep)| == multiset(s)[sep] + 1
  {
    if s != [] {
      SplitCount(s[1..], sep);
      assert s == [s[0]] + s[1..];
      assert multiset(s) == multiset{s[0]} + multiset(s[1..]);
    }
  }

  /** The first characters of the segments, joined: an empty segment has no
      first character (`undefined`), which joining writes as nothing. */
  function Heads(segments: seq<string>): string {
    if segments == [] then []
    else (if segments[0] == [] then [] else [segments[0][0]]) + Heads(segments[1..])
  }

  /** Reference definition: the characters of `s` that start a word, i.e. are
      not `sep` and come first or right after a `sep`. `afterSep` says whether
      the character before `s` was a separator (or `s` is at the start). */
  function WordStarts(s: string, sep: char, afterSep: bool): string {
    if s == [] then []
    else (if s[0] != sep && afterSep then [s[0]] else []) + WordStarts(s[1..], sep, s[0] == sep)
  }

  /** The first characters of the segments of `split(sep)` are exactly the
      word starts of the string, in order. */
  lemma {:induction false} HeadsOfSplit(s: string, sep: char)
    ensures Heads(Split(s, sep)) == WordStarts(s, sep, true)
    ensures Heads(Split(s, sep)[1..]) == WordStarts(s, sep, false)
  {
    if s == [] {
    } else if s[0] == sep {
      HeadsOfSplit(s[1..], sep);
      assert Split(s, sep)[1..] == Split(s[1..], sep);
    } else {
      HeadsOfSplit(s[1..], sep);
      var rest := Split(s[1..], sep);
      var segs := Split(s, sep);
      assert segs[0] == [s[0]] + rest[0];
      assert segs[1..] == rest[1..];
    }
  }

  /** ASCII upper-casing of one character. */
  function UpperChar(c: char): (r: char)
    ensures 'a' <= c <= 'z' ==> 'A' <= r <= 'Z'
    ensures !('a' <= c <= 'z') ==> r == c
  {
    if 'a' <= c <= 'z' then (c as int - 'a' as int + 'A' as int) as char else c
  }

  /** `s.toUpperCase()` for ASCII letters; other characters are kept. */
  function Upper(s: string): (r: string)
    ensures |r| == |s|
    ensures forall i :: 0 <= i < |s| ==> r[i] == UpperChar(s[i])
  {
    if s == [] then [] else [UpperChar(s[0])] + Upper(s[1..])
  }

  /** The first `n` characters of `s`, or all of it when it is shorter. */
  function Take(s: string, n: nat): (r: string)
    ensures |r| == if |s| <= n then |s| else n
    ensures r == s[..|r|]
    ensures |s| <= n ==> r == s
  {
    if |s| <= n then s else s[..n]
  }

  function DigitChar(d: nat): (c: char)
    requires d < 10
    ensures '0' <= c <= '9'
  {
    ('0' as int + d) as char
  }

  /** The decimal digits of `n`, as a JavaScript template literal prints it. */
  function Decimal(n: nat): (r: string)
    ensures |r| >= 1
    ensures forall i :: 0 <= i < |r| ==> '0' <= r[i] <= '9'
    ensures n >= 10 ==> r[0] != '0'
  {
    if n < 10 then [DigitChar(n)] else Decimal(n / 10) + [DigitChar(n % 10)]
  }

  /** The value of a string of decimal digits, most significant first. */
  function DecimalValue(s: string): int {
    if s == [] then 0 else 10 * DecimalValue(s[..|s| - 1]) + (s[|s| - 1] as int - '0' as int)
  }

  /** Reading back the printed digits gives the number printed. */
  lemma {:induction false} DecimalRoundTrip(n: nat)
    ensures DecimalValue(Decimal(n)) == n
  {
    var s := Decimal(n);
    if n >= 10 {
      DecimalRoundTrip(n / 10);
      assert s[..|s| - 1] == Decimal(n / 10);
    }
  }

  /** Different numbers print differently. */
  lemma DecimalInjective(m: nat, n: nat)
    requires Decimal(m) == Decimal(n)
    ensures m == n
  {
    DecimalRoundTrip(m);
    DecimalRoundTrip(n);
  }

  /** `String(n)` for an integer. */
  function NumberText(n: int): string {
    if n < 0 then "-" + Decimal(-n) else Decimal(n)
  }

  /** Reference reading of a printed integer: an optional minus sign, then
      decimal digits. */
  function ReadNumber(s: string): int {
    if s != [] && s[0] == '-' then -DecimalValue(s[1..]) else DecimalValue(s)
  }

  /** A printed integer reads back as itself, negative ones included. */
  lemma NumberTextRoundTrip(n: int)
    ensures ReadNumber(NumberText(n)) == n
  {
    if n < 0 {
      DecimalRoundTrip(-n);
      assert NumberText(n)[1..] == Decimal(-n);
    } else {
      DecimalRoundTrip(n);
      assert Decimal(n)[0] != '-';
    }
  }
}
