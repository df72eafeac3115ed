/**
 * JSON values as Python's `json` module produces and consumes them, and
 * `json.dumps` with its default settings (`ensure_ascii=True`, separators
 * ", " and ": "). Floating-point numbers are not modelled.
 */
module Json {
  import opened Wrappers

  datatype Json =
    | JNull
    | JBool(b: bool)
    | JInt(i: int)
    | JStr(s: string)
    | JArr(items: seq<Json>)
    | JObj(fields: seq<Field>)

  /** One `key: value` member of an object, in insertion order. */
  datatype Field = Field(key: string, value: Json)

  /** Python truthiness of a decoded JSON value (`bool(v)`). */
  predicate Truthy(j: Json) {
    match j
    case JNull => false
    case JBool(b) => b
    case JInt(i) => i != 0
    case JStr(s) => s != ""
    case JArr(items) => items != []
    case JObj(fields) => fields != []
  }

  /** Python's `type(v).__name__` for a decoded JSON value. */
  function TypeName(j: Json): string {
    match j
    case JNull => "NoneType"
    case JBool(_) => "bool"
    case JInt(_) => "int"
    case JStr(_) => "str"
    case JArr(_) => "list"
    case JObj(_) => "dict"
  }

  /** Value bound to `key` among `fields`; a later binding shadows an earlier one, as in a Python dict. */
  function Lookup(fields: seq<Field>, key: string): (r: Option<Json>)
    ensures r.Some? <==> exists k :: 0 <= k < |fields| && fields[k].key == key
    ensures r.Some? ==> exists k :: 0 <= k < |fields| && fields[k] == Field(key, r.value) && LastWithKey(fields, k)
    decreases |fields|, 1
  {
    if |fields| == 0 then None
    else if fields[|fields| - 1].key == key then Some(fields[|fields| - 1].value)
    else
      var init := fields[..|fields| - 1];
      var r := Lookup(init, key);
      assert forall k :: 0 <= k < |init| ==> init[k] == fields[k];
      LookupPastLast(fields, key);
      r
  }

  /** A binding that is last among all but the final field, whose key differs, is last among all. */
  lemma LookupPastLast(fields: seq<Field>, key: string)
    requires |fields| > 0 && fields[|fields| - 1].key != key
    ensures var r := Lookup(fields[..|fields| - 1], key);
      r.Some? ==> exists k :: 0 <= k < |fields| && fields[k] == Field(key, r.value) && LastWithKey(fields, k)
    decreases |fields|, 0
  {
    var init := fields[..|fields| - 1];
    var r := Lookup(init, key);
    if r.Some? {
      var k :| 0 <= k < |init| && init[k] == Field(key, r.value) && LastWithKey(init, k);
      assert fields[k] == init[k];
      forall j | k < j < |fields| ensures fields[j].key != fields[k].key {
        if j < |init| {
          assert fields[j] == init[j];
        }
      }
    }
  }

  /** No field after position `k` has the key of field `k`. */
  predicate LastWithKey(fields: seq<Field>, k: int)
    requires 0 <= k < |fields|
  {
    forall j :: k < j < |fields| ==> fields[j].key != fields[k].key
  }

  /** Python's `d.get(key)` on a decoded object; `None` for a missing key. */
  function Get(j: Json, key: string): Option<Json>
    requires j.JObj?
  {
    Lookup(j.fields, key)
  }

  /** Python's `d.get(key, default)`. */
  function GetOr(j: Json, key: string, default: Json): Json
    requires j.JObj?
  {
    Get(j, key).GetOr(default)
  }

  /** A string value, or `default` when the key is missing or not a string. */
  function GetString(j: Json, key: string, default: string): string
    requires j.JObj?
  {
    match Get(j, key)
    case Some(JStr(s)) => s
    case _ => default
  }

  /** The object `{"error": msg}` that tools and the daemon report failures with. */
  function ErrorObject(msg: string): Json {
    JObj([Field("error", JStr(msg))])
  }

  // ----- json.dumps -----

  function HexDigit(n: nat): (c: char)
    requires n < 16
    ensures ('0' <= c <= '9') || ('a' <= c <= 'f')
  {
    if n < 10 then ('0' as int + n) as char else ('a' as int + n - 10) as char
  }

  /** Four lower-case hexadecimal digits, as `'{0:04x}'.format(n)`. */
  function Hex4(n: nat): (r: string)
    requires n < 0x10000
    ensures |r| == 4
  {
    [HexDigit(n / 0x1000), HexDigit(n / 0x100 % 16), HexDigit(n / 16 % 16), HexDigit(n % 16)]
  }

  /** The escape `json.dumps` writes for one character under `ensure_ascii`. */
  function EscapeChar(c: char): string {
    if c == '"' then "\\\""
    else if c == '\\' then "\\\\"
    else if c == '\n' then "\\n"
    else if c == '\r' then "\\r"
    else if c == '\t' then "\\t"
    else if c == '\U{8}' then "\\b"
    else if c == '\U{C}' then "\\f"
    else if ' ' <= c <= '~' then [c]
    else if (c as int) < 0x10000 then "\\u" + Hex4(c as int)
    else
      // a character outside the Basic Multilingual Plane becomes a UTF-16 surrogate pair
      var n := c as int - 0x10000;
      "\\u" + Hex4(0xD800 + n / 0x400) + "\\u" + Hex4(0xDC00 + n % 0x400)
  }

  function EscapeString(s: string): string {
    if |s| == 0 then "" else EscapeChar(s[0]) + EscapeString(s[1..])
  }

  function NatDigits(n: nat): (r: string)
    ensures |r| >= 1
  {
    if n < 10 then [('0' as int + n) as char] else NatDigits(n / 10) + [('0' as int + n % 10) as char]
  }

  /** Python's `str(i)` for an integer. */
  function IntToString(i: int): string {
    if i < 0 then "-" + NatDigits(-i) else NatDigits(i)
  }

  function Encode(j: Json): string
    decreases j
  {
    match j
    case JNull => "null"
    case JBool(b) => if b then "true" else "false"
    case JInt(i) => IntToString(i)
    case JStr(s) => "\"" + EscapeString(s) + "\""
    case JArr(items) => "[" + EncodeItems(items) + "]"
    case JObj(fields) => "{" + EncodeFields(fields) + "}"
  }

  function EncodeItems(items: seq<Json>): string
    decreases items
  {
    if |items| == 0 then ""
    else if |items| == 1 then Encode(items[0])
    else Encode(items[0]) + ", " + EncodeItems(items[1..])
  }

  function EncodeFields(fields: seq<Field>): string
    decreases fields
  {
    if |fields| == 0 then ""
    else
      var f := "\"" + EscapeString(fields[0].key) + "\": " + Encode(fields[0].value);
      if |fields| == 1 then f else f + ", " + EncodeFields(fields[1..])
  }

  /** Printable ASCII other than the quote and the backslash: `json.dumps` copies such text verbatim. */
  predicate NeedsNoEscape(s: string) {
    forall k :: 0 <= k < |s| ==> ' ' <= s[k] <= '~' && s[k] != '"' && s[k] != '\\'
  }

  lemma {:induction false} EscapeStringVerbatim(s: string)
    requires NeedsNoEscape(s)
    ensures EscapeString(s) == s
    decreases |s|
  {
    if |s| > 0 {
      EscapeStringVerbatim(s[1..]);
      assert s == [s[0]] + s[1..];
    }
  }

  lemma EncodeVerbatimString(msg: string)
    requires EscapeString(msg) == msg
    ensures Encode(JStr(msg)) == "\"" + msg + "\""
  {
  }

  lemma EncodeErrorField(msg: string)
    requires EscapeString(msg) == msg
    ensures EncodeFields([Field("error", JStr(msg))]) == "\"" + "error" + "\": " + Encode(JStr(msg))
  {
    assert EscapeString("error") == "error";
  }

  lemma BraceErrorField(f: string, msg: string)
    requires f == "\"" + "error" + "\": " + ("\"" + msg + "\"")
    ensures "{" + f + "}" == "{\"error\": \"" + msg + "\"}"
  {
  }

  /** The one-key error object the tools answer with: a message needing no escapes appears verbatim. */
  lemma EncodeErrorObject(msg: string)
    requires NeedsNoEscape(msg)
    ensures Encode(ErrorObject(msg)) == "{\"error\": \"" + msg + "\"}"
  {
    EscapeStringVerbatim(msg);
    EncodeVerbatimString(msg);
    EncodeErrorField(msg);
    BraceErrorField(EncodeFields([Field("error", JStr(msg))]), msg);
  }

  // ----- every encoding is one line of printable ASCII -----

  /** Every character lies between ' ' and '~'. */
  predicate Printable(s: string) {
    forall k :: 0 <= k < |s| ==> ' ' <= s[k] <= '~'
  }

  lemma PrintableConcat(a: string, b: string)
    requires Printable(a) && Printable(b)
    ensures Printable(a + b)
  {
    forall k | 0 <= k < |a + b| ensures ' ' <= (a + b)[k] <= '~' {
      if k >= |a| { assert (a + b)[k] == b[k - |a|]; }
    }
  }

  lemma EscapeCharPrintable(c: char)
    ensures Printable(EscapeChar(c))
  {
  }

  lemma {:induction false} EscapeStringPrintable(s: string)
    ensures Printable(EscapeString(s))
    decreases |s|
  {
    if |s| > 0 {
      EscapeCharPrintable(s[0]);
      EscapeStringPrintable(s[1..]);
      PrintableConcat(EscapeChar(s[0]), EscapeString(s[1..]));
    }
  }

  lemma {:induction false} NatDigitsPrintable(n: nat)
    ensures Printable(NatDigits(n))
  {
    if n >= 10 {
      NatDigitsPrintable(n / 10);
      PrintableConcat(NatDigits(n / 10), [('0' as int + n % 10) as char]);
    }
  }

  lemma QuotedPrintable(s: string)
    ensures Printable("\"" + EscapeString(s) + "\"")
  {
    EscapeStringPrintable(s);
    PrintableConcat("\"", EscapeString(s));
    PrintableConcat("\"" + EscapeString(s), "\"");
  }

  /**
   * The encoding of any value is printable ASCII; in particular it holds no
   * newline, which is what lets the daemon frame its replies one per line.
   */
  lemma {:induction false} EncodePrintable(j: Json)
    ensures Printable(Encode(j))
    ensures '\n' !in Encode(j)
    decreases j
  {
    match j
    case JNull =>
    case JBool(b) =>
    case JInt(i) =>
      NatDigitsPrintable(if i < 0 then -i else i);
      if i < 0 { PrintableConcat("-", NatDigits(-i)); }
    case JStr(s) => QuotedPrintable(s);
    case JArr(items) =>
      EncodeItemsPrintable(items);
      PrintableConcat("[", EncodeItems(items));
      PrintableConcat("[" + EncodeItems(items), "]");
    case JObj(fields) =>
      EncodeFieldsPrintable(fields);
      PrintableConcat("{", EncodeFields(fields));
      PrintableConcat("{" + EncodeFields(fields), "}");
  }

  lemma {:induction false} EncodeItemsPrintable(items: seq<Json>)
    ensures Printable(EncodeItems(items))
    decreases items
  {
    if |items| > 0 {
      EncodePrintable(items[0]);
      if |items| > 1 {
        EncodeItemsPrintable(items[1..]);
        PrintableConcat(Encode(items[0]), ", ");
        PrintableConcat(Encode(items[0]) + ", ", EncodeItems(items[1..]));
      }
    }
  }

  lemma {:induction false} FieldPrintable(f: Field)
    ensures Printable("\"" + EscapeString(f.key) + "\": " + Encode(f.value))
    decreases f
  {
    EscapeStringPrintable(f.key);
    EncodePrintable(f.value);
    var quoted := "\"" + EscapeString(f.key);
    PrintableConcat("\"", EscapeString(f.key));
    PrintableConcat(quoted, "\": ");
    PrintableConcat(quoted + "\": ", Encode(f.value));
  }

  lemma {:induction false} EncodeFieldsPrintable(fields: seq<Field>)
    ensures Printable(EncodeFields(fields))
    decreases fields
  {
    if |fields| > 0 {
      var f := "\"" + EscapeString(fields[0].key) + "\": " + Encode(fields[0].value);
      FieldPrintable(fields[0]);
      if |fields| > 1 {
        EncodeFieldsPrintable(fields[1..]);
        PrintableConcat(f, ", ");
        PrintableConcat(f + ", ", EncodeFields(fields[1..]));
      }
    }
  }

}
