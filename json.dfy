/** Parsed JSON values, the way serde reads a struct out of one, and the way
    serde_json writes a string literal.

    A JSON text is not parsed here: `Json` is the result of parsing, with the
    members of an object kept in the order, and with the repetitions, in which
    they appear in the text (serde reads a struct from that stream, not from a
    deduplicated map). */
module JsonValues {
  import opened Prelude

  datatype Json =
    | JNull
    | JBool(b: bool)
    | JNumber(literal: string)
    | JString(text: string)
    | JArray(items: seq<Json>)
    | JObject(members: seq<(string, Json)>)

  // ---------------------------------------------------------------------------
  // Reading struct fields the way serde's derived Deserialize does.
  //
  // A field with aliases answers to every one of its names. Members whose key
  // names no field are skipped. A field that receives a second value (under
  // any of its names) is a `duplicate field` error, a required field that
  // receives none is a `missing field` error, and an `Option` field that
  // receives none is `None`.
  // ---------------------------------------------------------------------------

  /** The values of the members whose key is one of `keys`, in order. */
  function ValuesOf(members: seq<(string, Json)>, keys: set<string>): (vs: seq<Json>)
    ensures forall v :: v in vs ==> exists k :: 0 <= k < |members| && members[k].0 in keys && members[k].1 == v
  {
    if members == [] then []
    else (if members[0].0 in keys then [members[0].1] else []) + ValuesOf(members[1..], keys)
  }

  /** Member k is the only member whose key is one of `keys`. */
  ghost predicate SoleKeyAt(members: seq<(string, Json)>, keys: set<string>, k: int)
  {
    0 <= k < |members| && members[k].0 in keys &&
    forall l :: 0 <= l < |members| && l != k ==> members[l].0 !in keys
  }

  lemma {:induction false} NoValues(members: seq<(string, Json)>, keys: set<string>)
    ensures ValuesOf(members, keys) == [] <==> forall l :: 0 <= l < |members| ==> members[l].0 !in keys
  {
    if members != [] {
      NoValues(members[1..], keys);
      assert forall l :: 1 <= l < |members| ==> members[l] == members[1..][l - 1];
    }
  }

  /** A field is read exactly once, with value v, exactly when one member
      names it (under any of its names) and that member's value is v. */
  lemma {:induction false} SoleValue(members: seq<(string, Json)>, keys: set<string>, v: Json)
    ensures ValuesOf(members, keys) == [v] <==> exists k :: SoleKeyAt(members, keys, k) && members[k].1 == v
  {
    if members == [] {
      return;
    }
    var rest := members[1..];
    assert forall l :: 1 <= l < |members| ==> members[l] == rest[l - 1];
    NoValues(rest, keys);
    assert ValuesOf(members, keys) == (if members[0].0 in keys then [members[0].1] else []) + ValuesOf(rest, keys);
    if members[0].0 in keys {
      if ValuesOf(members, keys) == [v] {
        assert ValuesOf(members, keys)[0] == members[0].1;
        assert SoleKeyAt(members, keys, 0) && members[0].1 == v;
      }
      if exists k :: SoleKeyAt(members, keys, k) && members[k].1 == v {
        var k :| SoleKeyAt(members, keys, k) && members[k].1 == v;
        assert k == 0;
        assert forall l :: 0 <= l < |rest| ==> rest[l].0 !in keys by {
          forall l | 0 <= l < |rest| ensures rest[l].0 !in keys {
            assert rest[l] == members[l + 1];
          }
        }
      }
    } else {
      SoleValue(rest, keys, v);
      if ValuesOf(members, keys) == [v] {
        var k :| SoleKeyAt(rest, keys, k) && rest[k].1 == v;
        assert SoleKeyAt(members, keys, k + 1);
      }
      if exists k :: SoleKeyAt(members, keys, k) && members[k].1 == v {
        var k :| SoleKeyAt(members, keys, k) && members[k].1 == v;
        assert k != 0;
        assert SoleKeyAt(rest, keys, k - 1);
      }
    }
  }

  /** A required `String` field, given the values its names received. */
  function StringField(vs: seq<Json>): (r: Option<string>)
    ensures r.Some? <==> |vs| == 1 && vs[0].JString?
    ensures r.Some? ==> vs == [JString(r.value)]
  {
    if |vs| == 1 && vs[0].JString? then Some(vs[0].text) else None
  }

  /** A `String` read as one element of an array. */
  function StringElement(j: Json): (r: Option<string>)
    ensures r.Some? <==> j.JString?
    ensures r.Some? ==> j == JString(r.value)
  {
    if j.JString? then Some(j.text) else None
  }

  /** An `Option<String>` read as one value: null is None, a string is Some. */
  function OptionalStringElement(j: Json): (r: Option<Option<string>>)
    ensures r == Some(None) <==> j == JNull
    ensures forall s :: r == Some(Some(s)) <==> j == JString(s)
    ensures r.None? <==> !(j.JNull? || j.JString?)
  {
    match j
    case JNull => Some(None)
    case JString(s) => Some(Some(s))
    case _ => None
  }

  /** An `Option<String>` field, given the values its names received. */
  function OptionalStringField(vs: seq<Json>): (r: Option<Option<string>>)
    ensures r == Some(None) <==> vs == [] || vs == [JNull]
    ensures forall s :: r == Some(Some(s)) <==> vs == [JString(s)]
  {
    if vs == [] then Some(None)
    else if |vs| == 1 then OptionalStringElement(vs[0])
    else None
  }

  // ---------------------------------------------------------------------------
  // String literals as serde_json writes them, and the reading that undoes it.
  // ---------------------------------------------------------------------------

  const HexDigits: string := "0123456789abcdef"

  /** Characters that serde_json writes unchanged. */
  predicate PlainChar(c: char)
  {
    c != '"' && c != '\\' && c as int >= 0x20
  }

  /** How serde_json writes one character inside a string literal: `"` and `\`
      are backslash-escaped, the five control characters with a short form use
      it, the other control characters below U+0020 become `\u00XX` with
      lower-case hex digits, and every other character is written as is. */
  function EscapeChar(c: char): (e: string)
    ensures 1 <= |e| <= 6
  {
    if PlainChar(c) then [c]
    else if c == '"' then ['\\', '"']
    else if c == '\\' then ['\\', '\\']
    else if c as int == 0x08 then ['\\', 'b']
    else if c as int == 0x09 then ['\\', 't']
    else if c as int == 0x0A then ['\\', 'n']
    else if c as int == 0x0C then ['\\', 'f']
    else if c as int == 0x0D then ['\\', 'r']
    else ['\\', 'u', '0', '0', HexDigits[c as int / 16], HexDigits[c as int % 16]]
  }

  function Escape(s: string): string
  {
    if s == [] then [] else EscapeChar(s[0]) + Escape(s[1..])
  }

  /** A JSON string literal holding s, quotes included. */
  function Quote(s: string): string
  {
    "\"" + Escape(s) + "\""
  }

  /** Strings that serde_json writes unchanged. */
  predicate Plain(s: string)
  {
    s == [] || (PlainChar(s[0]) && Plain(s[1..]))
  }

  lemma {:induction false} PlainEveryChar(s: string)
    requires forall i :: 0 <= i < |s| ==> PlainChar(s[i])
    ensures Plain(s)
  {
    if s != [] {
      assert forall i :: 0 <= i < |s[1..]| ==> s[1..][i] == s[i + 1];
      PlainEveryChar(s[1..]);
    }
  }

  lemma {:induction false} EscapePlain(s: string)
    requires Plain(s)
    ensures Escape(s) == s
  {
    if s != [] {
      EscapePlain(s[1..]);
    }
  }

  function HexValue(c: char): (r: Option<nat>)
    ensures r.Some? ==> r.value < 16
  {
    if '0' <= c <= '9' then Some(c as int - '0' as int)
    else if 'a' <= c <= 'f' then Some(c as int - 'a' as int + 10)
    else if 'A' <= c <= 'F' then Some(c as int - 'A' as int + 10)
    else None
  }

  /** The value of the four hex digits `\u` is followed by. */
  function Hex4(h: string): (r: Option<nat>)
    requires |h| == 4
    ensures r.Some? ==> r.value < 0x10000
  {
    match (HexValue(h[0]), HexValue(h[1]), HexValue(h[2]), HexValue(h[3]))
    case (Some(a), Some(b), Some(c), Some(d)) => Some(((a * 16 + b) * 16 + c) * 16 + d)
    case _ => None
  }

  function Prepend(c: char, r: Option<string>): (p: Option<string>)
    ensures p.Some? <==> r.Some?
    ensures p.Some? ==> p.value == [c] + r.value
  {
    match r
    case None => None
    case Some(t) => Some([c] + t)
  }

  /** The short escapes of JSON: the character that `\x` stands for. */
  function ShortEscape(x: char): Option<char>
  {
    match x
    case '"' => Some('"')
    case '\\' => Some('\\')
    case '/' => Some('/')
    case 'b' => Some(8 as char)
    case 'f' => Some(12 as char)
    case 'n' => Some(10 as char)
    case 'r' => Some(13 as char)
    case 't' => Some(9 as char)
    case _ => None
  }

  /** The characters that the body of a JSON string literal stands for, or
      None when it is not a well-formed body (an unescaped quote or control
      character, an unknown escape, or a `\u` escape of a lone surrogate;
      surrogate pairs are not modelled). */
  function Unescape(b: string): Option<string>
    decreases |b|
  {
    if b == [] then Some([])
    else if b[0] == '"' || b[0] as int < 0x20 then None
    else if b[0] != '\\' then Prepend(b[0], Unescape(b[1..]))
    else if |b| < 2 then None
    else if b[1] == 'u' then
      if |b| < 6 then None
      else match Hex4(b[2..6])
        case Some(n) =>
          if 0xD800 <= n < 0xE000 then None else Prepend(n as char, Unescape(b[6..]))
        case None => None
    else match ShortEscape(b[1])
      case Some(c) => Prepend(c, Unescape(b[2..]))
      case None => None
  }

  lemma HexDigitValue(n: nat)
    requires n < 16
    ensures HexValue(HexDigits[n]) == Some(n)
  {
  }

  lemma UnescapeChar(c: char, rest: string)
    ensures Unescape(EscapeChar(c) + rest) == Prepend(c, Unescape(rest))
  {
    var e := EscapeChar(c);
    if c != '"' && c != '\\' && c as int < 0x20 && c as int !in {0x08, 0x09, 0x0A, 0x0C, 0x0D} {
      var n := c as int;
      HexDigitValue(n / 16);
      HexDigitValue(n % 16);
      assert (e + rest)[2..6] == ['0', '0', HexDigits[n / 16], HexDigits[n % 16]];
      assert (e + rest)[6..] == rest;
    } else if |e| == 2 {
      assert (e + rest)[2..] == rest;
    } else {
      assert (e + rest)[1..] == rest;
    }
  }

  /** Reading back what serde_json wrote gives the original string. */
  lemma {:induction false} UnescapeEscape(s: string)
    ensures Unescape(Escape(s)) == Some(s)
  {
    if s != [] {
      UnescapeEscape(s[1..]);
      UnescapeChar(s[0], Escape(s[1..]));
      assert [s[0]] + s[1..] == s;
    }
  }

  /** Escaping never merges two strings: distinct strings are written differently. */
  lemma EscapeInjective(s: string, t: string)
    requires Escape(s) == Escape(t)
    ensures s == t
  {
    UnescapeEscape(s);
    UnescapeEscape(t);
  }
}
