/**
 * The text Python's `json.dumps` writes for a value with its default settings: items separated
 * by ", ", keys from values by ": ", keys in insertion order, and `ensure_ascii`, so every
 * character outside the printable ASCII range is written as a `\uXXXX` escape (a surrogate pair
 * above U+FFFF) with lower-case hexadecimal digits.
 */
module JsonText {
  import opened JsonValues

  /** `json.dumps(j)`. */
  function Dumps(j: Json): string
    decreases j, 2
  {
    match j
    case JNull => "null"
    case JBool(b) => if b then "true" else "false"
    case JNum(n) => IntText(n)
    case JStr(s) => Quote(s)
    case JArr(items) => "[" + Items(items) + "]"
    case JObj(fields) => "{" + Fields(fields) + "}"
  }

  /** The items of a list, separated by ", ". */
  function Items(items: seq<Json>): string
    decreases items, 1
  {
    if |items| == 0 then ""
    else if |items| == 1 then Dumps(items[0])
    else Dumps(items[0]) + ", " + Items(items[1..])
  }

  /** The fields of a dictionary as `"key": value`, separated by ", ". */
  function Fields(fields: seq<(string, Json)>): string
    decreases fields, 1
  {
    if |fields| == 0 then ""
    else if |fields| == 1 then Field(fields[0])
    else Field(fields[0]) + ", " + Fields(fields[1..])
  }

  /** One dictionary entry, `"key": value`. */
  function Field(field: (string, Json)): string
    decreases field, 0
  {
    Quote(field.0) + ": " + Dumps(field.1)
  }

  /** A string literal: the escaped characters between double quotes. */
  function Quote(s: string): string {
    "\"" + Escaped(s) + "\""
  }

  function Escaped(s: string): string {
    if |s| == 0 then "" else Escape(s[0]) + Escaped(s[1..])
  }

  /** How one character is written inside a string literal. */
  function Escape(c: char): string {
    var n := c as int;
    if c == '\\' then "\\\\"
    else if c == '"' then "\\\""
    else if n == 8 then "\\b"
    else if n == 12 then "\\f"
    else if c == '\n' then "\\n"
    else if c == '\r' then "\\r"
    else if c == '\t' then "\\t"
    else if ' ' <= c <= '~' then [c]
    else if n < 0x1_0000 then "\\u" + Hex4(n)
    else
      var m := n - 0x1_0000;
      "\\u" + Hex4(0xD800 + m / 0x400) + "\\u" + Hex4(0xDC00 + m % 0x400)
  }

  /** Four lower-case hexadecimal digits. */
  function Hex4(n: nat): string
    requires n < 0x1_0000
  {
    [HexDigit(n / 0x1000), HexDigit(n / 0x100 % 0x10), HexDigit(n / 0x10 % 0x10), HexDigit(n % 0x10)]
  }

  function HexDigit(d: nat): (c: char)
    requires d < 16
    ensures ' ' <= c <= '~'
  {
    if d < 10 then Digit(d) else ('a' as int + d - 10) as char
  }

  function Digit(d: nat): (c: char)
    requires d < 10
    ensures '0' <= c <= '9'
  {
    ('0' as int + d) as char
  }

  /** `str(n)` for an integer. */
  function IntText(n: int): string {
    if n < 0 then "-" + NatText(-n) else NatText(n)
  }

  function NatText(n: nat): string {
    if n < 10 then [Digit(n)] else NatText(n / 10) + [Digit(n % 10)]
  }

  /** Printable ASCII: the characters `ensure_ascii` lets through unescaped. */
  predicate Printable(s: string) {
    forall k :: 0 <= k < |s| ==> ' ' <= s[k] <= '~'
  }

  lemma PrintableAppend(a: string, b: string)
    requires Printable(a) && Printable(b)
    ensures Printable(a + b)
  {
    assert forall k :: |a| <= k < |a + b| ==> (a + b)[k] == b[k - |a|];
  }

  lemma {:induction false} NatTextPrintable(n: nat)
    ensures Printable(NatText(n)) && |NatText(n)| > 0
  {
    if n >= 10 {
      NatTextPrintable(n / 10);
      PrintableAppend(NatText(n / 10), [Digit(n % 10)]);
    }
  }

  lemma Hex4Printable(n: nat)
    requires n < 0x1_0000
    ensures Printable(Hex4(n)) && Printable("\\u" + Hex4(n))
  {
    PrintableAppend("\\u", Hex4(n));
  }

  lemma EscapePrintable(c: char)
    ensures Printable(Escape(c))
  {
    var n := c as int;
    if c == '\\' || c == '"' || n == 8 || n == 12 || c == '\n' || c == '\r' || c == '\t' || ' ' <= c <= '~' {
    } else if n < 0x1_0000 {
      Hex4Printable(n);
    } else {
      var m := n - 0x1_0000;
      Hex4Printable(0xD800 + m / 0x400);
      Hex4Printable(0xDC00 + m % 0x400);
      PrintableAppend("\\u" + Hex4(0xD800 + m / 0x400), "\\u" + Hex4(0xDC00 + m % 0x400));
    }
  }

  lemma {:induction false} EscapedPrintable(s: string)
    ensures Printable(Escaped(s))
  {
    if |s| > 0 {
      EscapePrintable(s[0]);
      EscapedPrintable(s[1..]);
      PrintableAppend(Escape(s[0]), Escaped(s[1..]));
    }
  }

  /**
   * What `json.dumps` writes is never empty and, with `ensure_ascii`, holds printable ASCII
   * characters only: control characters and all non-ASCII text are escaped.
   */
  lemma {:induction false} DumpsPrintable(j: Json)
    ensures Printable(Dumps(j)) && |Dumps(j)| > 0
    decreases j, 2
  {
    match j
    case JNull =>
    case JBool(b) =>
    case JNum(n) =>
      NatTextPrintable(if n < 0 then -n else n);
      if n < 0 {
        PrintableAppend("-", NatText(-n));
      }
    case JStr(s) =>
      EscapedPrintable(s);
      PrintableAppend("\"", Escaped(s));
      PrintableAppend("\"" + Escaped(s), "\"");
    case JArr(items) =>
      ItemsPrintable(items);
      PrintableAppend("[", Items(items));
      PrintableAppend("[" + Items(items), "]");
    case JObj(fields) =>
      FieldsPrintable(fields);
      PrintableAppend("{", Fields(fields));
      PrintableAppend("{" + Fields(fields), "}");
  }

  lemma {:induction false} ItemsPrintable(items: seq<Json>)
    ensures Printable(Items(items))
    decreases items, 1
  {
    if |items| == 1 {
      DumpsPrintable(items[0]);
    } else if |items| > 1 {
      DumpsPrintable(items[0]);
      ItemsPrintable(items[1..]);
      PrintableAppend(Dumps(items[0]), ", ");
      PrintableAppend(Dumps(items[0]) + ", ", Items(items[1..]));
    }
  }

  lemma {:induction false} FieldsPrintable(fields: seq<(string, Json)>)
    ensures Printable(Fields(fields))
    decreases fields, 1
  {
    if |fields| == 1 {
      FieldPrintable(fields[0]);
    } else if |fields| > 1 {
      FieldPrintable(fields[0]);
      FieldsPrintable(fields[1..]);
      PrintableAppend(Field(fields[0]), ", ");
      PrintableAppend(Field(fields[0]) + ", ", Fields(fields[1..]));
    }
  }

  lemma {:induction false} FieldPrintable(field: (string, Json))
    ensures Printable(Field(field))
    decreases field, 0
  {
    EscapedPrintable(field.0);
    PrintableAppend("\"", Escaped(field.0));
    PrintableAppend("\"" + Escaped(field.0), "\"");
    DumpsPrintable(field.1);
    PrintableAppend(Quote(field.0), ": ");
    PrintableAppend(Quote(field.0) + ": ", Dumps(field.1));
  }
}
