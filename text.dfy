/** String helpers with the semantics of the PHP built-ins the clause classes
    call: trim, strtoupper, intval on digit strings, explode and implode on a
    single space, and the decimal rendering of integers. */
module Text {

  /** The characters PHP's trim() strips from both ends of a line. */
  predicate IsBlank(c: char) {
    c == ' ' || c == '\t' || c == '\n' || c == '\r' || c == '\0' || c == '\U{000B}'
  }

  function TrimLeft(s: string): (r: string)
    ensures |r| <= |s|
  {
    if s != [] && IsBlank(s[0]) then TrimLeft(s[1..]) else s
  }

  function TrimRight(s: string): (r: string)
    ensures |r| <= |s|
  {
    if s != [] && IsBlank(s[|s| - 1]) then TrimRight(s[..|s| - 1]) else s
  }

  /** trim($line). */
  function Trim(s: string): (r: string)
    ensures |r| <= |s|
  {
    TrimRight(TrimLeft(s))
  }

  /** A string that trim() leaves as it is: no blank at either end. */
  predicate Unpadded(s: string) {
    s == [] || (!IsBlank(s[0]) && !IsBlank(s[|s| - 1]))
  }

  /** n spaces: the indentation the writers put in front of a line. */
  function Spaces(n: nat): (r: string)
    ensures |r| == n && forall i :: 0 <= i < n ==> r[i] == ' '
  {
    if n == 0 then "" else " " + Spaces(n - 1)
  }

  lemma {:induction false} TrimLeftPadded(n: nat, s: string)
    requires s == [] || !IsBlank(s[0])
    ensures TrimLeft(Spaces(n) + s) == s
  {
    if n > 0 {
      assert (Spaces(n) + s)[1..] == Spaces(n - 1) + s;
      TrimLeftPadded(n - 1, s);
    }
  }

  /** trim() on the right keeps a prefix, and never cuts into a non-blank
      character. */
  lemma {:induction false} TrimRightPrefix(s: string, k: nat)
    requires 0 < k <= |s| && !IsBlank(s[k - 1])
    ensures k <= |TrimRight(s)| && TrimRight(s) == s[..|TrimRight(s)|]
  {
    if IsBlank(s[|s| - 1]) {
      var p := s[..|s| - 1];
      TrimRightPrefix(p, k);
      assert p[..|TrimRight(p)|] == s[..|TrimRight(p)|];
    }
  }

  lemma TrimRightUnpadded(s: string)
    requires Unpadded(s)
    ensures TrimRight(s) == s
  {
  }

  /** An indented line trims back to its content. */
  lemma TrimIndented(n: nat, s: string)
    requires Unpadded(s)
    ensures Trim(Spaces(n) + s) == s
  {
    TrimLeftPadded(n, s);
  }

  predicate IsLower(c: char) {
    'a' <= c <= 'z'
  }

  /** strtoupper on one character (ASCII letters only). */
  function UpperChar(c: char): (u: char)
    ensures IsLower(c) ==> u as int == c as int - 32
    ensures !IsLower(c) ==> u == c
  {
    if IsLower(c) then (c as int - 32) as char else c
  }

  /** strtoupper($s). */
  function Upper(s: string): (u: string)
    ensures |u| == |s|
  {
    if s == [] then [] else [UpperChar(s[0])] + Upper(s[1..])
  }

  /** strtoupper works character by character. */
  lemma {:induction false} UpperAt(s: string)
    ensures forall i :: 0 <= i < |s| ==> Upper(s)[i] == UpperChar(s[i])
  {
    if s != [] {
      UpperAt(s[1..]);
      assert forall i :: 1 <= i < |s| ==> Upper(s)[i] == Upper(s[1..])[i - 1];
    }
  }

  lemma {:induction false} UpperAppend(a: string, b: string)
    ensures Upper(a + b) == Upper(a) + Upper(b)
  {
    if a != [] {
      assert (a + b)[0] == a[0] && (a + b)[1..] == a[1..] + b;
      UpperAppend(a[1..], b);
    } else {
      assert a + b == b;
    }
  }

  /** A string without lower-case letters is its own upper case. */
  lemma UpperFixed(s: string)
    requires forall i :: 0 <= i < |s| ==> !IsLower(s[i])
    ensures Upper(s) == s
  {
    UpperAt(s);
  }

  /** The characters before the first space: the keyword of a MapFile line. */
  function Head(s: string): (h: string)
    ensures |h| <= |s| && h == s[..|h|]
    ensures ' ' !in h
    ensures |h| < |s| ==> s[|h|] == ' '
  {
    if s == [] || s[0] == ' ' then [] else [s[0]] + Head(s[1..])
  }

  lemma {:induction false} HeadOfWord(w: string, rest: string)
    requires ' ' !in w
    ensures Head(w + " " + rest) == w
  {
    if w != [] {
      assert (w + " " + rest)[1..] == w[1..] + " " + rest;
      HeadOfWord(w[1..], rest);
    }
  }

  /** The head of a string that starts with a space-free word followed by
      a space, or by nothing, is that word. */
  lemma {:induction false} HeadOfPrefix(t: string, w: string)
    requires ' ' !in w && |w| <= |t| && t[..|w|] == w
    requires |t| == |w| || t[|w|] == ' '
    ensures Head(t) == w
  {
    if w != [] {
      assert t[0] == w[0];
      assert t[1..][..|w| - 1] == w[1..];
      HeadOfPrefix(t[1..], w[1..]);
      assert [w[0]] + w[1..] == w;
    }
  }

  lemma {:induction false} HeadOfSpaceFree(w: string)
    requires ' ' !in w
    ensures Head(w) == w
  {
    if w != [] {
      HeadOfSpaceFree(w[1..]);
    }
  }

  predicate IsDigit(c: char) {
    '0' <= c <= '9'
  }

  /** Matches [0-9]+. */
  predicate IsDigits(s: string) {
    |s| > 0 && forall i :: 0 <= i < |s| ==> IsDigit(s[i])
  }

  /** Matches [0-9.]+, the decimal text the clauses accept for a float. */
  predicate IsDecimal(s: string) {
    |s| > 0 && forall i :: 0 <= i < |s| ==> IsDigit(s[i]) || s[i] == '.'
  }

  lemma DigitsAreDecimal(s: string)
    requires IsDigits(s)
    ensures IsDecimal(s)
  {
  }

  lemma DecimalIsPlain(s: string)
    requires IsDecimal(s)
    ensures Unpadded(s) && ' ' !in s && '\n' !in s && Upper(s) == s
  {
    UpperFixed(s);
  }

  function DigitChar(d: nat): (c: char)
    requires d < 10
    ensures IsDigit(c)
  {
    ('0' as int + d) as char
  }

  function DigitValue(c: char): (d: nat)
    requires IsDigit(c)
    ensures d < 10
  {
    c as int - '0' as int
  }

  /** The decimal rendering of a natural number, as PHP prints an integer. */
  function NatToString(n: nat): (s: string)
    ensures IsDigits(s)
  {
    if n < 10 then [DigitChar(n)] else NatToString(n / 10) + [DigitChar(n % 10)]
  }

  /** The decimal rendering of an integer, with a leading '-' when negative. */
  function IntToString(i: int): (s: string)
    ensures i >= 0 ==> IsDigits(s)
    ensures i < 0 ==> |s| > 1 && s[0] == '-'
  {
    if i < 0 then "-" + NatToString(-i) else NatToString(i)
  }

  /** intval() of a string of digits (no overflow: integers are unbounded here). */
  function ParseNat(s: string): nat
    requires forall i :: 0 <= i < |s| ==> IsDigit(s[i])
  {
    if s == [] then 0 else ParseNat(s[..|s| - 1]) * 10 + DigitValue(s[|s| - 1])
  }

  /** Reading back the decimal rendering of a number gives the number. */
  lemma {:induction false} ParseNatToString(n: nat)
    ensures ParseNat(NatToString(n)) == n
  {
    var s := NatToString(n);
    if n >= 10 {
      assert s[..|s| - 1] == NatToString(n / 10);
      ParseNatToString(n / 10);
    }
  }

  /** The value of the leading digits of a string, 0 when it starts with none:
      intval() of the strings this model hands it (table tokens and digit runs). */
  function LeadingValue(s: string): nat {
    ParseNat(LeadingDigits(s))
  }

  function LeadingDigits(s: string): (d: string)
    ensures |d| <= |s| && d == s[..|d|]
    ensures forall i :: 0 <= i < |d| ==> IsDigit(d[i])
  {
    if s != [] && IsDigit(s[0]) then [s[0]] + LeadingDigits(s[1..]) else []
  }

  /** explode(' ', $s): the pieces between single spaces, empty pieces included. */
  function Split(s: string): (r: seq<string>)
    ensures |r| >= 1
    ensures forall k :: 0 <= k < |r| ==> ' ' !in r[k]
  {
    if s == [] then [""]
    else
      var rest := Split(s[1..]);
      if s[0] == ' ' then [""] + rest else [[s[0]] + rest[0]] + rest[1..]
  }

  /** implode(' ', $ts). */
  function Join(ts: seq<string>): string {
    if ts == [] then "" else if |ts| == 1 then ts[0] else ts[0] + " " + Join(ts[1..])
  }

  lemma {:induction false} SplitWord(w: string)
    requires ' ' !in w
    ensures Split(w) == [w]
  {
    if w != [] {
      SplitWord(w[1..]);
      assert [w[0]] + w[1..] == w;
    }
  }

  lemma {:induction false} SplitWordThen(w: string, rest: string)
    requires ' ' !in w
    ensures Split(w + " " + rest) == [w] + Split(rest)
  {
    if w == [] {
      assert (w + " " + rest)[1..] == rest;
    } else {
      assert (w + " " + rest)[1..] == w[1..] + " " + rest;
      SplitWordThen(w[1..], rest);
      assert [w[0]] + w[1..] == w;
    }
  }

  lemma AppendAssociative(a: seq<string>, b: seq<string>, c: seq<string>)
    ensures a + b + c == a + (b + c)
  {
  }

  /** Three space-free words joined by single spaces split back into them. */
  lemma SplitThree(a: string, b: string, c: string)
    requires ' ' !in a && ' ' !in b && ' ' !in c
    ensures Split(a + " " + b + " " + c) == [a, b, c]
  {
    assert a + " " + b + " " + c == a + " " + (b + " " + c);
    SplitWordThen(a, b + " " + c);
    SplitWordThen(b, c);
    SplitWord(c);
  }

  /** implode(' ') of three pieces. */
  lemma JoinThree(a: string, b: string, c: string)
    ensures Join([a, b, c]) == a + " " + b + " " + c
  {
    assert [a, b, c][1..] == [b, c] && [b, c][1..] == [c];
    assert Join([b, c]) == b + " " + c;
    assert Join([a, b, c]) == a + " " + (b + " " + c);
    assert a + " " + (b + " " + c) == a + " " + b + " " + c;
  }

  /** explode undoes implode when no piece holds the separator. */
  lemma {:induction false} SplitJoin(ts: seq<string>)
    requires ts != []
    requires forall k :: 0 <= k < |ts| ==> ' ' !in ts[k]
    ensures Split(Join(ts)) == ts
  {
    if |ts| == 1 {
      SplitWord(ts[0]);
    } else {
      SplitWordThen(ts[0], Join(ts[1..]));
      SplitJoin(ts[1..]);
    }
  }

  /** implode of decimal tokens is decimal text separated by single spaces. */
  lemma {:induction false} JoinDecimals(ts: seq<string>)
    requires ts != []
    requires forall k :: 0 <= k < |ts| ==> IsDecimal(ts[k])
    ensures var j := Join(ts); |j| > 0 && Unpadded(j) && '\n' !in j && Upper(j) == j
    ensures IsDigit(Join(ts)[0]) || Join(ts)[0] == '.'
  {
    DecimalIsPlain(ts[0]);
    if |ts| > 1 {
      JoinDecimals(ts[1..]);
      var j := Join(ts[1..]);
      UpperAppend(ts[0] + " ", j);
      UpperAppend(ts[0], " ");
      assert Upper(" ") == " ";
      assert (ts[0] + " " + j)[0] == ts[0][0];
    }
  }
}
