/**
 * Python's `str()` and `repr()` of the values that reach a log line: integers,
 * booleans, strings and decoded JSON values (`str(list)` is the `repr` of the list).
 */
module PyText {
  import opened Wrappers
  import opened PyJson

  const HexDigits: string := "0123456789abcdef"

  function DigitChar(d: nat): (c: char)
    requires d < 10
    ensures '0' <= c <= '9'
  {
    (48 + d) as char
  }

  /** Decimal digits of `n`, most significant first, with no leading zero. */
  function Digits(n: nat): (s: string)
    ensures |s| > 0 && (n > 0 ==> s[0] != '0')
    ensures forall k :: 0 <= k < |s| ==> '0' <= s[k] <= '9'
  {
    if n < 10 then [DigitChar(n)] else Digits(n / 10) + [DigitChar(n % 10)]
  }

  /** The number a string of decimal digits denotes. */
  function DigitsValue(s: string): nat
    requires forall k :: 0 <= k < |s| ==> '0' <= s[k] <= '9'
  {
    if s == [] then 0 else DigitsValue(s[..|s| - 1]) * 10 + (s[|s| - 1] as int - 48)
  }

  lemma {:induction false} DigitsValueOfDigits(n: nat)
    ensures DigitsValue(Digits(n)) == n
  {
    if n >= 10 {
      DigitsValueOfDigits(n / 10);
      var s := Digits(n);
      assert s[..|s| - 1] == Digits(n / 10);
    }
  }

  /**
   * `str(i)` for an int: an optional minus sign, then digits that read back as |i|,
   * in canonical form: "0" for zero and otherwise no leading zero.
   */
  function IntStr(i: int): (r: string)
    ensures i == 0 ==> r == "0"
    ensures i >= 0 ==> |r| > 0 && (forall k :: 0 <= k < |r| ==> '0' <= r[k] <= '9') && DigitsValue(r) == i
    ensures i > 0 ==> r[0] != '0'
    ensures i < 0 ==> |r| > 1 && r[0] == '-' && (forall k :: 1 <= k < |r| ==> '0' <= r[k] <= '9') && DigitsValue(r[1..]) == -i
    ensures i < 0 ==> r[1] != '0'
  {
    DigitsValueOfDigits(if i < 0 then -i else i);
    assert i < 0 ==> ("-" + Digits(-i))[1..] == Digits(-i);
    if i < 0 then "-" + Digits(-i) else Digits(i)
  }

  /** `str(b)` for a bool. */
  function BoolStr(b: bool): string {
    if b then "True" else "False"
  }

  /** The quote `repr` puts around a string: `"` only when the text holds `'` and no `"`. */
  function QuoteFor(s: string): (q: char)
    ensures q == '\'' || q == '"'
  {
    if '\'' in s && '"' !in s then '"' else '\''
  }

  /**
   * The control characters `repr` writes as `\xNN`: C0 controls other than tab,
   * newline and carriage return, DEL, the C1 controls, no-break space and soft hyphen.
   */
  predicate HexEscaped(c: char) {
    (c < ' ' && c != '\t' && c != '\n' && c != '\r') || ('\U{7F}' <= c <= '\U{A0}') || c == '\U{AD}'
  }

  function EscapeChar(c: char, quote: char): (e: string)
    ensures |e| >= 1 && (|e| == 1 <==> e[0] != '\\')
  {
    if c == quote || c == '\\' then ['\\', c]
    else if c == '\t' then "\\t"
    else if c == '\n' then "\\n"
    else if c == '\r' then "\\r"
    else if HexEscaped(c) then ['\\', 'x', HexDigits[c as int / 16], HexDigits[c as int % 16]]
    else [c]
  }

  function EscapeAll(s: string, quote: char): string {
    if s == [] then "" else EscapeChar(s[0], quote) + EscapeAll(s[1..], quote)
  }

  /**
   * `repr(s)` for a str: the quotes, and between them the body of a valid
   * string literal that reads back as `s`.
   */
  function StrRepr(s: string): (r: string)
    ensures |r| >= 2 && r[0] == r[|r| - 1] == QuoteFor(s)
    ensures Unescape(r[1..|r| - 1], QuoteFor(s)) == Some(s)
  {
    var r := [QuoteFor(s)] + EscapeAll(s, QuoteFor(s)) + [QuoteFor(s)];
    assert r[1..|r| - 1] == EscapeAll(s, QuoteFor(s));
    UnescapeEscapeAll(s, QuoteFor(s));
    r
  }

  predicate IsHexDigit(c: char) {
    '0' <= c <= '9' || 'a' <= c <= 'f' || 'A' <= c <= 'F'
  }

  function HexValue(c: char): (v: nat)
    requires IsHexDigit(c)
    ensures v < 16
  {
    if '0' <= c <= '9' then c as int - 48 else if 'a' <= c <= 'f' then c as int - 87 else c as int - 55
  }

  /** `c` placed before the text read so far, when that text could be read. */
  function Cons(c: char, rest: Option<string>): Option<string> {
    if rest.Some? then Some([c] + rest.value) else None
  }

  /**
   * Reads the body of a string literal delimited by `quote`, as Python's parser
   * does, for the escapes `repr` writes: `\\`, `\'`, `\"`, `\t`, `\n`, `\r`
   * and `\xHH`. Anything else is not read (None): an unescaped `quote` or line
   * break, which would end or break the literal, a backslash at the very end,
   * and every other escape.
   */
  function Unescape(e: string, quote: char): (r: Option<string>)
    decreases |e|
  {
    if e == [] then Some("")
    else if e[0] == '\\' then
      if |e| == 1 then None
      else if e[1] == '\\' || e[1] == '\'' || e[1] == '"' then Cons(e[1], Unescape(e[2..], quote))
      else if e[1] == 't' then Cons('\t', Unescape(e[2..], quote))
      else if e[1] == 'n' then Cons('\n', Unescape(e[2..], quote))
      else if e[1] == 'r' then Cons('\r', Unescape(e[2..], quote))
      else if e[1] == 'x' && |e| >= 4 && IsHexDigit(e[2]) && IsHexDigit(e[3]) then
        Cons((HexValue(e[2]) * 16 + HexValue(e[3])) as char, Unescape(e[4..], quote))
      else None
    else if e[0] == quote || e[0] == '\n' || e[0] == '\r' then None
    else Cons(e[0], Unescape(e[1..], quote))
  }

  /** A quote inside the body is read only when it is escaped: Python's `'\'"'` for `'"`. */
  lemma StrReprQuotes()
    ensures StrRepr("'\"") == "'\\'\"'"
    ensures Unescape("'\"", '\'') == None
    ensures Unescape("\\a", '\'') == None && Unescape("a\\", '\'') == None
  {
    assert QuoteFor("'\"") == '\'';
    assert EscapeAll("'\"", '\'') == "\\'\"" by {
      assert EscapeAll("\"", '\'') == "\"" by {
        assert "\""[1..] == [];
      }
      assert "'\""[1..] == "\"";
    }
    assert Unescape("\"", '\'') == Some("\"") by {
      assert "\""[1..] == "" && "\""[0] == '"';
      assert Unescape("", '\'') == Some("");
      assert ['"'] + "" == "\"";
    }
    assert "a\\"[1..] == "\\";
  }

  lemma UnescapeChar(c: char, quote: char, rest: string)
    requires quote == '\'' || quote == '"'
    ensures Unescape(EscapeChar(c, quote) + rest, quote) == Cons(c, Unescape(rest, quote))
  {
    var e := EscapeChar(c, quote) + rest;
    if HexEscaped(c) && !(c == quote || c == '\\' || c == '\t' || c == '\n' || c == '\r') {
      assert c as int < 256;
      assert HexValue(HexDigits[c as int / 16]) == c as int / 16;
      assert HexValue(HexDigits[c as int % 16]) == c as int % 16;
      assert e[4..] == rest;
    } else if |EscapeChar(c, quote)| == 2 {
      assert e[2..] == rest;
    } else {
      assert e[1..] == rest;
    }
  }

  /** `repr` loses nothing: the text between the quotes reads back as the original string. */
  lemma {:induction false} UnescapeEscapeAll(s: string, quote: char)
    requires quote == '\'' || quote == '"'
    ensures Unescape(EscapeAll(s, quote), quote) == Some(s)
  {
    if s != [] {
      UnescapeChar(s[0], quote, EscapeAll(s[1..], quote));
      UnescapeEscapeAll(s[1..], quote);
      assert [s[0]] + s[1..] == s;
    }
  }

  /**
   * `repr(v)` for a decoded JSON value; for a list this is also `str(list)`. A
   * list is bracketed and a dict braced, a str is quoted and reads back, and an
   * int is written in decimal.
   */
  function Repr(j: Json): (r: string)
    ensures |r| > 0
    ensures j.JNull? ==> r == "None"
    ensures j.JArr? ==> |r| >= 2 && r[0] == '[' && r[|r| - 1] == ']'
    ensures j.JObj? ==> |r| >= 2 && r[0] == '{' && r[|r| - 1] == '}'
    ensures j.JStr? ==> |r| >= 2 && r[0] == r[|r| - 1] == QuoteFor(j.s) && Unescape(r[1..|r| - 1], QuoteFor(j.s)) == Some(j.s)
    ensures j.JInt? ==> r == IntStr(j.i)
    ensures j.JBool? ==> r == BoolStr(j.b)
    decreases j, 1
  {
    match j
    case JNull => "None"
    case JBool(b) => BoolStr(b)
    case JInt(i) => IntStr(i)
    case JStr(s) => StrRepr(s)
    case JArr(items) => "[" + ReprItems(items) + "]"
    case JObj(fields) => "{" + ReprFields(fields) + "}"
  }

  /** The reprs of a list's elements, separated by ", ". */
  function ReprItems(items: seq<Json>): string
    decreases items, 0
  {
    if items == [] then ""
    else if |items| == 1 then Repr(items[0])
    else Repr(items[0]) + ", " + ReprItems(items[1..])
  }

  /** The `key: value` reprs of a dict's entries, separated by ", ". */
  function ReprFields(fields: seq<(string, Json)>): string
    decreases fields, 0
  {
    if fields == [] then ""
    else
      assert fields[0] in fields;
      assert fields[0].1 < fields[0];
      var entry := StrRepr(fields[0].0) + ": " + Repr(fields[0].1);
      if |fields| == 1 then entry else entry + ", " + ReprFields(fields[1..])
  }

  /**
   * `repr` of a list, piece by piece: an empty list is "[]", one element is
   * bracketed alone, and an element before more is followed by ", " and the repr
   * of the rest without its opening bracket.
   */
  lemma ReprList(x: Json, rest: seq<Json>)
    ensures Repr(JArr([])) == "[]"
    ensures rest == [] ==> Repr(JArr([x] + rest)) == "[" + Repr(x) + "]"
    ensures rest != [] ==> Repr(JArr([x] + rest)) == "[" + Repr(x) + ", " + Repr(JArr(rest))[1..]
  {
    var items := [x] + rest;
    assert items[0] == x && items[1..] == rest;
    if rest != [] {
      assert ReprItems(items) == Repr(x) + ", " + ReprItems(rest);
      Enclosed('[', Repr(x), ReprItems(rest), ']');
    }
  }

  /**
   * `repr` of a dict, entry by entry: no entry is "{}", one entry is braced alone
   * as `key: value`, and an entry before more is followed by ", " and the repr of
   * the rest without its opening brace.
   */
  lemma ReprDict(key: string, value: Json, rest: seq<(string, Json)>)
    ensures Repr(JObj([])) == "{}"
    ensures rest == [] ==> Repr(JObj([(key, value)] + rest)) == "{" + StrRepr(key) + ": " + Repr(value) + "}"
    ensures rest != [] ==> Repr(JObj([(key, value)] + rest)) == "{" + StrRepr(key) + ": " + Repr(value) + ", " + Repr(JObj(rest))[1..]
  {
    if rest == [] {
      assert [(key, value)] + rest == [(key, value)];
      ReprDictOne(key, value);
    } else {
      ReprDictCons(key, value, rest);
    }
  }

  lemma ReprDictOne(key: string, value: Json)
    ensures Repr(JObj([])) == "{}"
    ensures Repr(JObj([(key, value)])) == "{" + StrRepr(key) + ": " + Repr(value) + "}"
  {
    var fields := [(key, value)];
    assert fields[0] == (key, value) && |fields| == 1;
    assert ReprFields(fields) == StrRepr(key) + ": " + Repr(value);
    BracedEntry(StrRepr(key), Repr(value));
  }

  lemma ReprDictCons(key: string, value: Json, rest: seq<(string, Json)>)
    requires rest != []
    ensures Repr(JObj([(key, value)] + rest)) == "{" + StrRepr(key) + ": " + Repr(value) + ", " + Repr(JObj(rest))[1..]
  {
    var fields := [(key, value)] + rest;
    assert fields[0] == (key, value) && fields[1..] == rest;
    assert ReprFields(fields) == StrRepr(key) + ": " + Repr(value) + ", " + ReprFields(rest);
    EnclosedEntry(StrRepr(key), Repr(value), ReprFields(rest));
  }

  /** A bracketed first piece before the rest of a bracketed list, as text. */
  lemma Enclosed(open: char, first: string, rest: string, close: char)
    ensures [open] + (first + ", " + rest) + [close] == [open] + first + ", " + ([open] + rest + [close])[1..]
  {
    assert ([open] + rest + [close])[1..] == rest + [close];
  }

  /** A dict's only entry, braced. */
  lemma BracedEntry(key: string, value: string)
    ensures "{" + (key + ": " + value) + "}" == "{" + key + ": " + value + "}"
  {
  }

  /** The same for a dict, whose first piece is `key: value`. */
  lemma EnclosedEntry(key: string, value: string, rest: string)
    ensures "{" + (key + ": " + value + ", " + rest) + "}" == "{" + key + ": " + value + ", " + ("{" + rest + "}")[1..]
  {
    assert ("{" + rest + "}")[1..] == rest + "}";
  }
}
