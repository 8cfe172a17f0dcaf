/** The closed code/token tables behind STATUS and UNITS, and the PHP
    conversion function each clause class declares for them
    (convertStatus in scalebar.php and legend.php, convertUnits in
    scalebar.php). */
module Codec {
  import opened Wrappers
  import opened Text

  /** A failed conversion or a rejected setter call: the attribute and the
      offending text, in place of the thrown exception's message. */
  datatype Error = Invalid(attribute: string, raw: string)

  /** One `code => 'TOKEN'` entry of a PHP lookup array. */
  datatype Entry = Entry(code: nat, token: string)

  type Table = seq<Entry>

  const STATUS_OFF: nat := 0
  const STATUS_ON: nat := 1

  const UNITS_INCHES: nat := 0
  const UNITS_FEET: nat := 1
  const UNITS_MILES: nat := 2
  const UNITS_METERS: nat := 3
  const UNITS_KILOMETERS: nat := 4
  const UNITS_DD: nat := 5
  const UNITS_PIXELS: nat := 6
  const UNITS_NAUTICALMILES: nat := 8

  const StatusTable: Table := [Entry(STATUS_ON, "ON"), Entry(STATUS_OFF, "OFF")]

  const UnitsTable: Table := [
    Entry(UNITS_INCHES, "INCHES"),
    Entry(UNITS_FEET, "FEET"),
    Entry(UNITS_MILES, "MILES"),
    Entry(UNITS_METERS, "METERS"),
    Entry(UNITS_KILOMETERS, "KILOMETERS"),
    Entry(UNITS_DD, "DD"),
    Entry(UNITS_PIXELS, "PIXELS"),
    Entry(UNITS_NAUTICALMILES, "NAUTICALMILES")
  ]

  predicate IsUpperLetter(c: char) {
    'A' <= c <= 'Z'
  }

  /** A table whose codes and tokens are each distinct and whose tokens are
      upper-case words (so no token is numeric and strtoupper keeps it). */
  predicate WellFormed(t: Table) {
    Distinct(t) && WordTokens(t)
  }

  predicate Distinct(t: Table) {
    forall i, j :: 0 <= i < j < |t| ==> t[i].code != t[j].code && t[i].token != t[j].token
  }

  predicate WordTokens(t: Table) {
    && (forall i :: 0 <= i < |t| ==> |t[i].token| > 0)
    && (forall i, k :: 0 <= i < |t| && 0 <= k < |t[i].token| ==> IsUpperLetter(t[i].token[k]))
  }

  /** The argument PHP passes: an integer field value (writers) or a string
      taken from a MapFile line (readers). */
  datatype Arg = Number(n: int) | Text(s: string)

  /** What the conversion returns: a code or a token. */
  datatype Converted = Code(code: nat) | Token(token: string)

  /** `isset($table[$code]) ? $table[$code] : ...`, with an integer key. */
  function Lookup(t: Table, code: int): (r: Option<string>)
    ensures r.Some? <==> exists i :: 0 <= i < |t| && t[i].code == code
    ensures r.Some? ==> exists i :: 0 <= i < |t| && t[i].code == code && t[i].token == r.value
  {
    if t == [] then None
    else if t[0].code == code then Some(t[0].token)
    else Lookup(t[1..], code)
  }

  /** isset($table[$s]) for a string key: PHP turns a string that is the
      canonical decimal spelling of an integer into that integer key, so the
      string hits an entry exactly when it spells the entry's code. */
  function KeyOfText(t: Table, s: string): (r: Option<nat>)
    ensures r.Some? <==> exists i :: 0 <= i < |t| && NatToString(t[i].code) == s
    ensures r.Some? ==> NatToString(r.value) == s && exists i :: 0 <= i < |t| && t[i].code == r.value
  {
    if t == [] then None
    else if NatToString(t[0].code) == s then Some(t[0].code)
    else KeyOfText(t[1..], s)
  }

  /** array_search($s, $table) for a non-numeric string: the key of the first
      entry whose token equals $s. */
  function Search(t: Table, s: string): (r: Option<nat>)
    ensures r.Some? <==> exists i :: 0 <= i < |t| && t[i].token == s
    ensures r.Some? ==> exists i :: 0 <= i < |t| && t[i].token == s && t[i].code == r.value
  {
    if t == [] then None
    else if t[0].token == s then Some(t[0].code)
    else Search(t[1..], s)
  }

  /** convertStatus / convertUnits.
      A number is looked up and gives its token. A string that spells a code
      also gives that code's TOKEN; otherwise a string that is a token gives
      its code, except that code 0 is falsy in PHP, so the token of code 0
      fails like an unknown string. The numeric-string test of the source
      needs no separate model: every code spelling is numeric and no token
      of a well-formed table is. */
  function Convert(t: Table, name: string, arg: Arg): Result<Converted, Error> {
    match arg
    case Number(n) =>
      var tok := Lookup(t, n);
      if tok.Some? then Success(Token(tok.value)) else Failure(Invalid(name, IntToString(n)))
    case Text(s) =>
      if KeyOfText(t, s).Some? then Success(Token(Lookup(t, KeyOfText(t, s).value).value))
      else
        var k := Search(t, s);
        if k.Some? && k.value != 0 then Success(Code(k.value)) else Failure(Invalid(name, s))
  }

  /** intval() of a conversion result: a code is itself, a token (letters
      only) has no leading digits and gives 0. */
  function Intval(c: Converted): nat {
    match c
    case Code(k) => k
    case Token(tok) => LeadingValue(tok)
  }

  /** `self::convertX($this->field)` in a writer: the token of a code. */
  function EncodeCode(t: Table, name: string, code: int): (r: Result<string, Error>)
    ensures r.Success? <==> exists i :: 0 <= i < |t| && t[i].code == code
    ensures r.Success? ==> exists i :: 0 <= i < |t| && t[i].code == code && t[i].token == r.value
    ensures r.Failure? ==> r.error == Invalid(name, IntToString(code))
  {
    var c :- Convert(t, name, Number(code));
    Success(c.token)
  }

  /** `intval(self::convertX(strtoupper($text)))` in a reader. */
  function ReadCode(t: Table, name: string, text: string): Result<int, Error> {
    var c :- Convert(t, name, Text(Upper(text)));
    Success(Intval(c))
  }

  lemma TablesWellFormed()
    ensures WellFormed(StatusTable)
    ensures WellFormed(UnitsTable)
  {
    UnitsDistinct();
    UnitsWordTokens();
  }

  lemma UnitsDistinct()
    ensures Distinct(UnitsTable)
  {
  }

  lemma UnitsWordTokens()
    ensures WordTokens(UnitsTable)
  {
  }

  lemma {:induction false} TokenIsNotNumeral(t: Table, i: int, n: nat)
    requires WellFormed(t) && 0 <= i < |t|
    ensures NatToString(n) != t[i].token
  {
    var s := NatToString(n);
    assert IsDigit(s[0]);
    assert IsUpperLetter(t[i].token[0]);
  }

  lemma {:induction false} LookupEntry(t: Table, i: int)
    requires WellFormed(t) && 0 <= i < |t|
    ensures Lookup(t, t[i].code) == Some(t[i].token)
  {
    if i > 0 {
      assert t[1..][i - 1] == t[i];
      LookupEntry(t[1..], i - 1);
    }
  }

  lemma {:induction false} SearchEntry(t: Table, i: int)
    requires WellFormed(t) && 0 <= i < |t|
    ensures Search(t, t[i].token) == Some(t[i].code)
  {
    if i > 0 {
      assert t[1..][i - 1] == t[i];
      SearchEntry(t[1..], i - 1);
    }
  }

  lemma {:induction false} TokenHasNoLeadingDigit(t: Table, i: int)
    requires WellFormed(t) && 0 <= i < |t|
    ensures LeadingValue(t[i].token) == 0
  {
    assert IsUpperLetter(t[i].token[0]);
  }

  /** Reading an entry's token, in any letter case, gives the entry's code,
      except for code 0, whose token is rejected (array_search returns the
      falsy key 0). */
  lemma ReadToken(t: Table, name: string, i: int, text: string)
    requires WellFormed(t) && 0 <= i < |t|
    requires Upper(text) == t[i].token
    ensures t[i].code != 0 ==> ReadCode(t, name, text) == Success(t[i].code)
    ensures t[i].code == 0 ==> ReadCode(t, name, text) == Failure(Invalid(name, t[i].token))
  {
    if KeyOfText(t, t[i].token).Some? {
      var j :| 0 <= j < |t| && NatToString(t[j].code) == t[i].token;
      TokenIsNotNumeral(t, i, t[j].code);
    }
    SearchEntry(t, i);
  }

  /** Reading the decimal spelling of a valid code gives 0, whatever the
      code: the conversion returns the token and intval() of it is 0. */
  lemma ReadNumeral(t: Table, name: string, i: int, text: string)
    requires WellFormed(t) && 0 <= i < |t|
    requires text == NatToString(t[i].code)
    ensures ReadCode(t, name, text) == Success(0)
  {
    DigitsAreDecimal(text);
    DecimalIsPlain(text);
    var k := KeyOfText(t, text).value;
    var j :| 0 <= j < |t| && t[j].code == k;
    LookupEntry(t, j);
    TokenHasNoLeadingDigit(t, j);
  }

  /** Any other text is rejected, naming the upper-cased text. */
  lemma ReadUnknown(t: Table, name: string, text: string)
    requires WellFormed(t)
    requires forall i :: 0 <= i < |t| ==> Upper(text) != t[i].token && Upper(text) != NatToString(t[i].code)
    ensures ReadCode(t, name, text) == Failure(Invalid(name, Upper(text)))
  {
  }

  /** A token written for a code reads back as that code exactly when the
      code is not 0. */
  lemma EncodeThenRead(t: Table, name: string, code: int)
    requires WellFormed(t)
    requires EncodeCode(t, name, code).Success?
    ensures var tok := EncodeCode(t, name, code).value;
      ReadCode(t, name, tok) == if code == 0 then Failure(Invalid(name, tok)) else Success(code)
  {
    var tok := EncodeCode(t, name, code).value;
    var i :| 0 <= i < |t| && t[i].code == code && t[i].token == tok;
    UpperFixed(tok);
    ReadToken(t, name, i, tok);
  }

  /** The written token determines the code: encoding is injective. */
  lemma EncodeInjective(t: Table, name: string, a: int, b: int)
    requires WellFormed(t)
    requires EncodeCode(t, name, a).Success? && EncodeCode(t, name, b).Success?
    requires EncodeCode(t, name, a).value == EncodeCode(t, name, b).value
    ensures a == b
  {
    var i :| 0 <= i < |t| && t[i].code == a && t[i].token == EncodeCode(t, name, a).value;
    var j :| 0 <= j < |t| && t[j].code == b && t[j].token == EncodeCode(t, name, b).value;
    assert !(i < j) && !(j < i);
  }

  /** The UNITS codes are exactly 0 to 6 and 8; 7 is never valid. */
  lemma UnitsCodes(code: int)
    ensures EncodeCode(UnitsTable, "UNITS", code).Success? <==> code in {0, 1, 2, 3, 4, 5, 6, 8}
  {
    if code in {0, 1, 2, 3, 4, 5, 6, 8} {
      var i := if code == 8 then 7 else code;
      assert UnitsTable[i].code == code;
    } else {
      forall i | 0 <= i < |UnitsTable| ensures UnitsTable[i].code != code {
        assert i in {0, 1, 2, 3, 4, 5, 6, 7};
      }
    }
  }

  /** The STATUS codes are exactly ON (1) and OFF (0). */
  lemma StatusCodes(code: int)
    ensures EncodeCode(StatusTable, "STATUS", code) ==
      if code == 1 then Success("ON") else if code == 0 then Success("OFF")
      else Failure(Invalid("STATUS", IntToString(code)))
  {
    TablesWellFormed();
    if code == 1 {
      LookupEntry(StatusTable, 0);
    } else if code == 0 {
      LookupEntry(StatusTable, 1);
    }
  }
}
