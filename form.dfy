/** The `application/x-www-form-urlencoded` bodies of src/AEM.js:
    `Object.assign` on the parameter objects, `String(value)`,
    `encodeURIComponent`, and `key=value` pairs joined by `&`. */
module UrlForm {
  import opened Common
  import opened Json
  import opened Text

  /** The characters `encodeURIComponent` leaves as they are. */
  predicate Unreserved(ch: char)
  {
    ('A' <= ch <= 'Z') || ('a' <= ch <= 'z') || ('0' <= ch <= '9') ||
    ch == '-' || ch == '_' || ch == '.' || ch == '!' || ch == '~' ||
    ch == '*' || ch == '\'' || ch == '(' || ch == ')'
  }

  predicate UpperHexDigit(ch: char)
  {
    ('0' <= ch <= '9') || ('A' <= ch <= 'F')
  }

  /** What an encoded component is made of. */
  predicate Safe(ch: char)
  {
    Unreserved(ch) || ch == '%' || UpperHexDigit(ch)
  }

  predicate IsByte(b: nat)
  {
    b < 256
  }

  /** The UTF-8 encoding of one character. */
  function Utf8Bytes(ch: char): (r: seq<nat>)
    ensures 1 <= |r| <= 4
    ensures forall k :: 0 <= k < |r| ==> IsByte(r[k])
  {
    var c := ch as int;
    if c < 0x80 then [c]
    else if c < 0x800 then [0xC0 + c / 64, 0x80 + c % 64]
    else if c < 0x10000 then [0xE0 + c / 4096, 0x80 + (c / 64) % 64, 0x80 + c % 64]
    else [0xF0 + c / 262144, 0x80 + (c / 4096) % 64, 0x80 + (c / 64) % 64, 0x80 + c % 64]
  }

  /** The UTF-8 encoding of a string. */
  function Utf8BytesOf(s: string): seq<nat>
  {
    if s == [] then [] else Utf8Bytes(s[0]) + Utf8BytesOf(s[1..])
  }

  function UpperHex(d: nat): (c: char)
    requires d < 16
    ensures UpperHexDigit(c)
  {
    if d < 10 then (('0' as int) + d) as char else (('A' as int) + d - 10) as char
  }

  function HexValue(c: char): (d: nat)
    requires UpperHexDigit(c)
    ensures d < 16
  {
    if c <= '9' then (c as int) - ('0' as int) else (c as int) - ('A' as int) + 10
  }

  /** `%XY` for each byte, with upper-case hexadecimal digits. */
  function PercentBytes(bytes: seq<nat>): (r: string)
    requires forall k :: 0 <= k < |bytes| ==> IsByte(bytes[k])
    ensures forall k :: 0 <= k < |r| ==> Safe(r[k])
  {
    if bytes == [] then ""
    else
      assert IsByte(bytes[0]);
      ['%', UpperHex(bytes[0] / 16), UpperHex(bytes[0] % 16)] + PercentBytes(bytes[1..])
  }

  function EncodeChar(ch: char): string
  {
    if Unreserved(ch) then [ch] else PercentBytes(Utf8Bytes(ch))
  }

  /** `encodeURIComponent(s)`. Every character of the result is unreserved, a
      `%` or a hexadecimal digit, so in particular never `&` or `=`. */
  function EncodeComponent(s: string): (r: string)
    ensures forall k :: 0 <= k < |r| ==> Safe(r[k])
  {
    if s == [] then "" else EncodeChar(s[0]) + EncodeComponent(s[1..])
  }

  /** Reading an encoded component back into bytes: `%XY` is one byte, any other
      character the byte of its code. */
  function PercentDecode(s: string): seq<nat>
  {
    if s == [] then []
    else if |s| >= 3 && s[0] == '%' && UpperHexDigit(s[1]) && UpperHexDigit(s[2]) then
      [HexValue(s[1]) * 16 + HexValue(s[2])] + PercentDecode(s[3..])
    else [s[0] as nat] + PercentDecode(s[1..])
  }

  /** Decoding the escapes of an encoded component gives the UTF-8 bytes of the
      original string. */
  lemma {:induction false} DecodeEncode(s: string)
    ensures PercentDecode(EncodeComponent(s)) == Utf8BytesOf(s)
  {
    if s != [] {
      DecodeEncode(s[1..]);
      DecodeChar(s[0], EncodeComponent(s[1..]));
      assert EncodeComponent(s) == EncodeChar(s[0]) + EncodeComponent(s[1..]);
    }
  }

  lemma DecodeChar(ch: char, rest: string)
    ensures PercentDecode(EncodeChar(ch) + rest) == Utf8Bytes(ch) + PercentDecode(rest)
  {
    if Unreserved(ch) {
      assert (EncodeChar(ch) + rest)[1..] == rest;
    } else {
      DecodeBytes(Utf8Bytes(ch), rest);
    }
  }

  lemma {:induction false} DecodeBytes(bytes: seq<nat>, rest: string)
    requires forall k :: 0 <= k < |bytes| ==> IsByte(bytes[k])
    ensures PercentDecode(PercentBytes(bytes) + rest) == bytes + PercentDecode(rest)
  {
    if bytes != [] {
      var b := bytes[0];
      var s := PercentBytes(bytes) + rest;
      assert s == ['%', UpperHex(b / 16), UpperHex(b % 16)] + (PercentBytes(bytes[1..]) + rest);
      assert IsByte(b);
      HexRoundTrip(b / 16);
      HexRoundTrip(b % 16);
      assert s[0] == '%' && s[1] == UpperHex(b / 16) && s[2] == UpperHex(b % 16);
      assert HexValue(s[1]) * 16 + HexValue(s[2]) == b;
      assert s[3..] == PercentBytes(bytes[1..]) + rest;
      assert PercentDecode(s) == [b] + PercentDecode(s[3..]);
      DecodeBytes(bytes[1..], rest);
      assert PercentDecode(s[3..]) == bytes[1..] + PercentDecode(rest);
      assert bytes == [b] + bytes[1..];
      assert [b] + (bytes[1..] + PercentDecode(rest)) == bytes + PercentDecode(rest);
    } else {
      assert PercentBytes(bytes) + rest == rest;
    }
  }

  lemma HexRoundTrip(d: nat)
    requires d < 16
    ensures HexValue(UpperHex(d)) == d
  {
  }

  /** A string of unreserved characters is its own encoding. */
  lemma {:induction false} EncodeUnreserved(s: string)
    requires forall k :: 0 <= k < |s| ==> Unreserved(s[k])
    ensures EncodeComponent(s) == s
  {
    if s != [] {
      EncodeUnreserved(s[1..]);
      assert s == [s[0]] + s[1..];
    }
  }

  /** `String(value)` for a JSON value: arrays join their elements with commas,
      writing `null` elements as nothing, and objects are `[object Object]`. */
  function FormString(v: Json): string
  {
    match v
    case JNull => "null"
    case JBool(b) => if b then "true" else "false"
    case JNumber(n) => IntToDecimal(n)
    case JString(s) => s
    case JArray(items) => ElementsString(items)
    case JObject(_) => "[object Object]"
  }

  function ElementsString(items: seq<Json>): string
  {
    if items == [] then ""
    else
      var first := if items[0].JNull? then "" else FormString(items[0]);
      if |items| == 1 then first else first + "," + ElementsString(items[1..])
  }

  /** `encodeURIComponent(key) + '=' + encodeURIComponent(value)`. */
  function Pair(entry: (string, Json)): string
  {
    EncodeComponent(entry.0) + "=" + EncodeComponent(FormString(entry.1))
  }

  function Pairs(fields: seq<(string, Json)>): (r: seq<string>)
    ensures |r| == |fields|
    ensures forall k :: 0 <= k < |fields| ==> r[k] == Pair(fields[k])
  {
    if fields == [] then [] else [Pair(fields[0])] + Pairs(fields[1..])
  }

  /** The body: one pair per key, in key order, joined by `&`. */
  function EncodeBody(fields: seq<(string, Json)>): string
  {
    Join(Pairs(fields), "&")
  }

  lemma SafeExcludes(s: string)
    requires forall k :: 0 <= k < |s| ==> Safe(s[k])
    ensures '&' !in s && '=' !in s
  {
  }

  /** One pair holds no `&` and splits at its one `=` into the encoded key and value. */
  lemma PairSplits(entry: (string, Json))
    ensures '&' !in Pair(entry)
    ensures Split(Pair(entry), '=') == [EncodeComponent(entry.0), EncodeComponent(FormString(entry.1))]
  {
    var key := EncodeComponent(entry.0);
    var value := EncodeComponent(FormString(entry.1));
    SafeExcludes(key);
    SafeExcludes(value);
    assert Join([key, value], "=") == key + "=" + value;
    SplitJoin([key, value], '=');
  }

  /** The body can be taken apart again: splitting at `&` gives one piece per
      key, and each piece splits at its one `=` into the encoded key and value. */
  lemma BodySplits(fields: seq<(string, Json)>)
    requires |fields| >= 1
    ensures Split(EncodeBody(fields), '&') == Pairs(fields)
    ensures forall k :: 0 <= k < |fields| ==>
      Split(Pairs(fields)[k], '=') == [EncodeComponent(fields[k].0), EncodeComponent(FormString(fields[k].1))]
  {
    var pairs := Pairs(fields);
    forall k | 0 <= k < |pairs|
      ensures '&' !in pairs[k]
      ensures Split(pairs[k], '=') == [EncodeComponent(fields[k].0), EncodeComponent(FormString(fields[k].1))]
    {
      PairSplits(fields[k]);
    }
    SplitJoin(pairs, '&');
  }

  /** The value an object holds under `key`: the first entry with that key. */
  function Lookup(obj: seq<(string, Json)>, key: string): (r: Option<Json>)
    ensures r.Some? <==> HasKey(obj, key)
  {
    if obj == [] then None
    else if obj[0].0 == key then Some(obj[0].1)
    else
      assert HasKey(obj, key) <==> HasKey(obj[1..], key) by {
        if HasKey(obj, key) {
          var k :| 0 <= k < |obj| && obj[k].0 == key;
          assert obj[1..][k - 1].0 == key;
        }
        if HasKey(obj[1..], key) {
          var k :| 0 <= k < |obj[1..]| && obj[1..][k].0 == key;
          assert obj[k + 1].0 == key;
        }
      }
      Lookup(obj[1..], key)
  }

  /** The first entry with a key is the one `Lookup` finds. */
  lemma {:induction false} LookupAt(obj: seq<(string, Json)>, i: nat, key: string)
    requires i < |obj| && obj[i].0 == key
    requires forall j :: 0 <= j < i ==> obj[j].0 != key
    ensures Lookup(obj, key) == Some(obj[i].1)
  {
    if i > 0 {
      LookupAt(obj[1..], i - 1, key);
    }
  }

  /** `obj[key] = value`: an existing key keeps its place, a new one goes last. */
  function Put(obj: seq<(string, Json)>, key: string, value: Json): seq<(string, Json)>
  {
    if obj == [] then [(key, value)]
    else if obj[0].0 == key then [(key, value)] + obj[1..]
    else [obj[0]] + Put(obj[1..], key, value)
  }

  /** `Object.assign(target, source)`: each entry of the source is put in turn. */
  function Assign(target: seq<(string, Json)>, source: seq<(string, Json)>): seq<(string, Json)>
    decreases source
  {
    if source == [] then target else Assign(Put(target, source[0].0, source[0].1), source[1..])
  }

  /** Putting a key sets it and changes no other key. */
  lemma {:induction false} PutLookup(obj: seq<(string, Json)>, key: string, value: Json, other: string)
    ensures Lookup(Put(obj, key, value), key) == Some(value)
    ensures other != key ==> Lookup(Put(obj, key, value), other) == Lookup(obj, other)
  {
    if obj != [] && obj[0].0 != key {
      PutLookup(obj[1..], key, value, other);
    }
  }

  /** Putting a key leaves the existing keys in their order, and adds one entry
      exactly when the key is new. */
  lemma {:induction false} PutKeepsOrder(obj: seq<(string, Json)>, key: string, value: Json)
    ensures |Put(obj, key, value)| == |obj| + (if HasKey(obj, key) then 0 else 1)
    ensures forall i :: 0 <= i < |obj| ==> Put(obj, key, value)[i].0 == obj[i].0
  {
    if obj != [] && obj[0].0 != key {
      PutKeepsOrder(obj[1..], key, value);
      assert Lookup(obj, key) == Lookup(obj[1..], key);
      forall i | 0 <= i < |obj|
        ensures Put(obj, key, value)[i].0 == obj[i].0
      {
        if i > 0 {
          assert Put(obj, key, value)[i] == Put(obj[1..], key, value)[i - 1];
        }
      }
    } else if obj != [] {
      assert obj[0].0 == key;
    }
  }

  /** After `Object.assign` a key holds the source's value when the source has
      the key, and the target's otherwise. */
  lemma {:induction false} AssignLookup(target: seq<(string, Json)>, source: seq<(string, Json)>, key: string)
    requires DistinctKeys(source)
    decreases source
    ensures Lookup(Assign(target, source), key) ==
      if HasKey(source, key) then Lookup(source, key) else Lookup(target, key)
  {
    if source != [] {
      var rest := source[1..];
      assert DistinctKeys(rest);
      AssignLookup(Put(target, source[0].0, source[0].1), rest, key);
      PutLookup(target, source[0].0, source[0].1, key);
      if key == source[0].0 {
        forall k | 0 <= k < |rest|
          ensures rest[k].0 != key
        {
          assert source[k + 1].0 != source[0].0;
        }
      } else {
        assert Lookup(source, key) == Lookup(rest, key);
      }
    }
  }

  /** `Object.assign` keeps the target's keys first, in their order. */
  lemma {:induction false} AssignKeepsOrder(target: seq<(string, Json)>, source: seq<(string, Json)>)
    ensures |Assign(target, source)| >= |target|
    ensures forall i :: 0 <= i < |target| ==> Assign(target, source)[i].0 == target[i].0
    decreases source
  {
    if source != [] {
      var next := Put(target, source[0].0, source[0].1);
      PutKeepsOrder(target, source[0].0, source[0].1);
      AssignKeepsOrder(next, source[1..]);
    }
  }
}
