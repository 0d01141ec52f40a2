/** JSON values as the repository sends and the client encodes them, and the
    encoder `JSON.stringify` restricted to those values (integers only). */
module Json {

  datatype Json =
    | JNull
    | JBool(b: bool)
    | JNumber(n: int)
    | JString(s: string)
    | JArray(items: seq<Json>)
    /** An object, its entries in `Object.keys` order. */
    | JObject(fields: seq<(string, Json)>)

  /** No character below U+0020 occurs in `s`; in particular no line break. */
  predicate Printable(s: string)
  {
    forall k :: 0 <= k < |s| ==> s[k] as int >= 0x20
  }

  /** Whether an object has an entry under `key` (whatever its value, `null` included). */
  predicate HasKey(fields: seq<(string, Json)>, key: string)
  {
    exists k :: 0 <= k < |fields| && fields[k].0 == key
  }

  /** No two entries of an object share a key, as for any object `JSON.parse`
      returns or a program builds. */
  predicate DistinctKeys(fields: seq<(string, Json)>)
  {
    forall i, j :: 0 <= i < j < |fields| ==> fields[i].0 != fields[j].0
  }

  function HexDigit(d: nat): (c: char)
    requires d < 16
    ensures c as int >= 0x20
  {
    if d < 10 then (('0' as int) + d) as char else (('a' as int) + d - 10) as char
  }

  /** The escape `JSON.stringify` writes for one character of a string. */
  function EscapeChar(ch: char): (r: string)
    ensures Printable(r)
  {
    if ch == '"' then "\\\""
    else if ch == '\\' then "\\\\"
    else if ch as int == 0x08 then "\\b"
    else if ch == '\t' then "\\t"
    else if ch == '\n' then "\\n"
    else if ch as int == 0x0C then "\\f"
    else if ch == '\r' then "\\r"
    else if ch as int < 0x20 then "\\u00" + [HexDigit(ch as int / 16), HexDigit(ch as int % 16)]
    else [ch]
  }

  function Escape(s: string): string
  {
    if s == [] then "" else EscapeChar(s[0]) + Escape(s[1..])
  }

  /** A string literal: the escaped characters between double quotes. */
  function Quote(s: string): string
  {
    "\"" + Escape(s) + "\""
  }

  /** Every control character of a string is escaped in its literal. */
  lemma {:induction false} QuotePrintable(s: string)
    ensures Printable(Quote(s))
  {
    EscapePrintable(s);
  }

  lemma {:induction false} EscapePrintable(s: string)
    ensures Printable(Escape(s))
  {
    if s != [] {
      EscapePrintable(s[1..]);
    }
  }

  function NatToDecimal(n: nat): (r: string)
    ensures |r| >= 1 && Printable(r)
  {
    var d := [(('0' as int) + n % 10) as char];
    if n < 10 then d else NatToDecimal(n / 10) + d
  }

  function IntToDecimal(n: int): (r: string)
    ensures Printable(r)
  {
    if n < 0 then "-" + NatToDecimal(-n) else NatToDecimal(n)
  }

  /** A character `JSON.stringify` writes as itself. */
  predicate Verbatim(ch: char)
  {
    ch as int >= 0x20 && ch != '"' && ch != '\\'
  }

  predicate AllVerbatim(s: string)
  {
    forall k :: 0 <= k < |s| ==> Verbatim(s[k])
  }

  /** A string without quotes, backslashes or control characters is quoted as is. */
  lemma {:induction false} QuoteVerbatim(s: string)
    requires AllVerbatim(s)
    ensures Quote(s) == "\"" + s + "\""
  {
    EscapeVerbatim(s);
  }

  lemma {:induction false} EscapeVerbatim(s: string)
    requires AllVerbatim(s)
    ensures Escape(s) == s
  {
    if s != [] {
      EscapeVerbatim(s[1..]);
      assert s == [s[0]] + s[1..];
    }
  }

  /** The property naming a node's primary type. */
  const PrimaryTypeKey := "jcr:primaryType"

  /** `JSON.stringify` writes the key as itself between quotes. */
  lemma PrimaryTypeKeyQuoted()
    ensures Quote(PrimaryTypeKey) == "\"jcr:primaryType\""
  {
    QuotedKey();
    KeyBetweenQuotes();
  }

  lemma QuotedKey()
    ensures Quote(PrimaryTypeKey) == "\"" + PrimaryTypeKey + "\""
  {
    QuoteVerbatim(PrimaryTypeKey);
  }

  lemma KeyBetweenQuotes()
    ensures "\"" + PrimaryTypeKey + "\"" == "\"jcr:primaryType\""
  {
  }

  /** `JSON.stringify(v)`. */
  function Stringify(v: Json): string
  {
    match v
    case JNull => "null"
    case JBool(b) => if b then "true" else "false"
    case JNumber(n) => IntToDecimal(n)
    case JString(s) => Quote(s)
    case JArray(items) => "[" + StringifyItems(items) + "]"
    case JObject(fields) => "{" + StringifyFields(fields) + "}"
  }

  function StringifyItems(items: seq<Json>): string
  {
    if items == [] then ""
    else if |items| == 1 then Stringify(items[0])
    else Stringify(items[0]) + "," + StringifyItems(items[1..])
  }

  function StringifyFields(fields: seq<(string, Json)>): string
  {
    if fields == [] then ""
    else
      var head := fields[0];
      assert head in fields;
      assert head.1 < head;
      var entry := Quote(head.0) + ":" + Stringify(head.1);
      if |fields| == 1 then entry else entry + "," + StringifyFields(fields[1..])
  }

  /** An object with one string entry. */
  lemma StringifyStringEntry(key: string, s: string)
    ensures Stringify(JObject([(key, JString(s))])) == "{" + Quote(key) + ":" + Quote(s) + "}"
  {
    assert Stringify(JString(s)) == Quote(s);
    assert StringifyFields([(key, JString(s))]) == Quote(key) + ":" + Quote(s);
  }

  /** The encoding of any value stays on one line: every control character of a
      string, the line feed among them, is written as an escape. */
  lemma {:induction false} StringifyPrintable(v: Json)
    ensures Printable(Stringify(v))
  {
    match v
    case JString(s) => QuotePrintable(s);
    case JArray(items) => ItemsPrintable(items);
    case JObject(fields) => FieldsPrintable(fields);
    case _ =>
  }

  lemma {:induction false} ItemsPrintable(items: seq<Json>)
    ensures Printable(StringifyItems(items))
  {
    if items != [] {
      StringifyPrintable(items[0]);
      if |items| > 1 {
        ItemsPrintable(items[1..]);
      }
    }
  }

  lemma {:induction false} FieldsPrintable(fields: seq<(string, Json)>)
    ensures Printable(StringifyFields(fields))
  {
    if fields != [] {
      var head := fields[0];
      assert head in fields;
      assert head.1 < head;
      StringifyPrintable(head.1);
      QuotePrintable(head.0);
      if |fields| > 1 {
        FieldsPrintable(fields[1..]);
      }
    }
  }
}
