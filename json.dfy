/**
 * JSON values as the handlers see them after `JSON.parse` (or as Vercel's
 * body parser delivers them), and the JavaScript operations the code applies
 * to them: truthiness, property access, `String(v)`, `Number(v)`,
 * `JSON.stringify(v)` and object spread.
 *
 * Numbers are integers: every amount, id and count in the core is one.
 */
module Json {
  import opened Basics
  import opened Strings

  datatype Json =
    | JNull
    | JBool(b: bool)
    | JNumber(n: int)
    | JString(s: string)
    | JArray(elems: seq<Json>)
    | JObject(members: seq<(string, Json)>)

  /**
   * The platform's `JSON.parse`: `None` when it throws. `JSON.parse` keeps
   * the last of repeated member names, and `Lookup` reads the first, so a
   * parser is expected to give objects whose member names are unique; the
   * model does not require it.
   */
  type JsonParser = string -> Option<Json>

  /** A number after `Number(...)`: an integer, or `NaN`. */
  datatype Num = Int(i: int) | NaN

  /** JavaScript truthiness of a present value. */
  predicate Truthy(v: Json)
  {
    match v
    case JNull => false
    case JBool(b) => b
    case JNumber(n) => n != 0
    case JString(s) => s != []
    case _ => true
  }

  /** Truthiness of a possibly `undefined` (`None`) value. */
  predicate IsTruthy(o: Option<Json>)
  {
    o.Some? && Truthy(o.value)
  }

  /** The value of the first member named `k`. */
  function Lookup(ms: seq<(string, Json)>, k: string): (r: Option<Json>)
    ensures r.Some? ==> (k, r.value) in ms
  {
    if ms == [] then None else if ms[0].0 == k then Some(ms[0].1) else Lookup(ms[1..], k)
  }

  /** The first member named `k` is at index `i`. */
  lemma {:induction false} LookupAt(ms: seq<(string, Json)>, k: string, i: nat)
    requires i < |ms| && ms[i].0 == k
    requires forall j :: 0 <= j < i ==> ms[j].0 != k
    ensures Lookup(ms, k) == Some(ms[i].1)
  {
    if i > 0 {
      LookupAt(ms[1..], k, i - 1);
    }
  }

  /** No member is named `k`. */
  lemma {:induction false} LookupAbsent(ms: seq<(string, Json)>, k: string)
    requires forall j :: 0 <= j < |ms| ==> ms[j].0 != k
    ensures Lookup(ms, k) == None
  {
    if ms != [] {
      LookupAbsent(ms[1..], k);
    }
  }

  /** A member named `k` exists exactly when its lookup finds a value. */
  lemma {:induction false} LookupPresent(ms: seq<(string, Json)>, k: string)
    ensures Lookup(ms, k).Some? <==> HasKey(ms, k)
  {
    if ms != [] && ms[0].0 != k {
      LookupPresent(ms[1..], k);
      if HasKey(ms, k) {
        var i :| 0 <= i < |ms| && ms[i].0 == k;
        assert ms[1..][i - 1].0 == k;
      }
    }
  }

  /** `v?.k`: the property of an object, `undefined` for every other value. */
  function Field(v: Option<Json>, k: string): (r: Option<Json>)
    ensures r.Some? ==> v.Some? && v.value.JObject? && (k, r.value) in v.value.members
  {
    if v.Some? && v.value.JObject? then Lookup(v.value.members, k) else None
  }

  /** A property is smaller than the object holding it. */
  lemma FieldSmaller(v: Option<Json>, k: string)
    requires Field(v, k).Some?
    ensures Field(v, k).value < v.value
  {
    var ms := v.value.members;
    var i :| 0 <= i < |ms| && ms[i] == (k, Field(v, k).value);
    assert ms[i] in ms;
  }

  /** Property keys are compared as strings: `k in obj` for an object. */
  predicate HasKey(ms: seq<(string, Json)>, k: string)
  {
    exists i :: 0 <= i < |ms| && ms[i].0 == k
  }

  /** `String(v)`; `None` is `undefined`. */
  function ToJsString(v: Option<Json>): string
  {
    if v.None? then "undefined" else Str(v.value)
  }

  /** `String(v)` of a present value; arrays join their elements with commas. */
  function Str(v: Json): string
  {
    match v
    case JNull => "null"
    case JBool(b) => if b then "true" else "false"
    case JNumber(n) => IntToString(n)
    case JString(s) => s
    case JArray(es) => Join(seq(|es|, i requires 0 <= i < |es| => if es[i].JNull? then "" else Str(es[i])), ",")
    case JObject(_) => "[object Object]"
  }

  /** `Number(v)`: strings and arrays go through their string form; an object's is `"[object Object]"`, never a number. */
  function ToNumber(v: Option<Json>): (r: Num)
    ensures v.Some? && v.value.JNumber? ==> r == Int(v.value.n)
    ensures v.None? || (v.Some? && v.value.JObject?) ==> r == NaN
    ensures v.Some? && v.value.JString? && AllDigits(Trim(v.value.s)) ==> r == Int(RadixValue(Trim(v.value.s), 10))
  {
    if v.None? then NaN
    else match v.value
      case JNull => Int(0)
      case JBool(b) => Int(if b then 1 else 0)
      case JNumber(n) => Int(n)
      case JObject(_) => NaN
      case _ =>
        var p := StringToNumber(Str(v.value));
        if p.Some? then Int(p.value) else NaN
  }

  // ---------------------------------------------------------------------
  // JSON.stringify

  const HexDigits: string := "0123456789abcdef"

  /** The escape `JSON.stringify` writes for one character of a string. */
  function EscapeChar(c: char): (e: string)
    ensures |e| >= 1
    ensures e[0] == '\\' <==> |e| > 1
  {
    if c == '"' then "\\\""
    else if c == '\\' then "\\\\"
    else if c == '\U{8}' then "\\b"
    else if c == '\U{C}' then "\\f"
    else if c == '\n' then "\\n"
    else if c == '\r' then "\\r"
    else if c == '\t' then "\\t"
    else if c < ' ' then "\\u00" + [HexDigits[c as int / 16], HexDigits[c as int % 16]]
    else [c]
  }

  function Escape(s: string): string
  {
    if s == [] then "" else EscapeChar(s[0]) + Escape(s[1..])
  }

  /** A JSON string literal. */
  function Quote(s: string): string
  {
    "\"" + Escape(s) + "\""
  }

  /** `JSON.stringify(v)` without indentation. */
  function Stringify(v: Json): string
  {
    match v
    case JNull => "null"
    case JBool(b) => if b then "true" else "false"
    case JNumber(n) => IntToString(n)
    case JString(s) => Quote(s)
    case JArray(es) => "[" + Join(seq(|es|, i requires 0 <= i < |es| => Stringify(es[i])), ",") + "]"
    case JObject(ms) =>
      "{" + Join(seq(|ms|, i requires 0 <= i < |ms| => Quote(ms[i].0) + ":" + Stringify(ms[i].1)), ",") + "}"
  }

  function HexValue(c: char): (r: Option<nat>)
    ensures r.Some? ==> r.value < 16
  {
    if '0' <= c <= '9' then Some(c as int - '0' as int)
    else if 'a' <= c <= 'f' then Some(c as int - 'a' as int + 10)
    else if 'A' <= c <= 'F' then Some(c as int - 'A' as int + 10)
    else None
  }

  /** The character a two-character escape `\x` stands for. */
  function ShortEscape(x: char): Option<char>
  {
    if x == '"' then Some('"') else if x == '\\' then Some('\\') else if x == '/' then Some('/')
    else if x == 'b' then Some('\U{8}') else if x == 'f' then Some('\U{C}')
    else if x == 'n' then Some('\n') else if x == 'r' then Some('\r') else if x == 't' then Some('\t')
    else None
  }

  /**
   * The body of a JSON string literal read back: each `\` escape becomes the
   * character it stands for; raw control characters and `"` are refused.
   * This is the reading the JSON grammar (RFC 8259, section 7) gives.
   */
  function Unescape(e: string): (r: Option<string>)
    decreases |e|
  {
    if e == [] then Some([])
    else if e[0] == '"' || e[0] < ' ' then None
    else if e[0] != '\\' then
      var rest := Unescape(e[1..]);
      if rest.Some? then Some([e[0]] + rest.value) else None
    else if |e| < 2 then None
    else
      var c := e[1];
      var simple := ShortEscape(c);
      if simple.Some? then
        var rest := Unescape(e[2..]);
        if rest.Some? then Some([simple.value] + rest.value) else None
      else if c == 'u' && |e| >= 6 && HexValue(e[2]).Some? && HexValue(e[3]).Some?
              && HexValue(e[4]).Some? && HexValue(e[5]).Some? then
        var code := ((HexValue(e[2]).value * 16 + HexValue(e[3]).value) * 16 + HexValue(e[4]).value) * 16
          + HexValue(e[5]).value;
        if 0xD800 <= code < 0xE000 then None
        else
          var rest := Unescape(e[6..]);
          if rest.Some? then Some([code as char] + rest.value) else None
      else None
  }

  lemma UnescapePlain(c: char, tail: string)
    requires c >= ' ' && c != '"' && c != '\\'
    ensures Unescape([c] + tail) == if Unescape(tail).Some? then Some([c] + Unescape(tail).value) else None
  {
    assert ([c] + tail)[1..] == tail;
  }

  lemma UnescapeShort(x: char, tail: string)
    requires ShortEscape(x).Some?
    ensures Unescape(['\\', x] + tail) ==
      if Unescape(tail).Some? then Some([ShortEscape(x).value] + Unescape(tail).value) else None
  {
    assert (['\\', x] + tail)[2..] == tail;
  }

  lemma UnescapeUnicode(c: char, tail: string)
    requires c < ' ' && c != '\U{8}' && c != '\U{C}' && c != '\n' && c != '\r' && c != '\t'
    ensures Unescape(EscapeChar(c) + tail) == if Unescape(tail).Some? then Some([c] + Unescape(tail).value) else None
  {
    var hi, lo := c as int / 16, c as int % 16;
    var e := EscapeChar(c) + tail;
    assert e == ['\\', 'u', '0', '0', HexDigits[hi], HexDigits[lo]] + tail;
    assert e[6..] == tail;
    assert HexValue(HexDigits[hi]) == Some(hi) && HexValue(HexDigits[lo]) == Some(lo);
    assert ((0 * 16 + 0) * 16 + hi) * 16 + lo == c as int;
  }

  lemma UnescapeEscapeChar(c: char, tail: string)
    ensures Unescape(EscapeChar(c) + tail) ==
      (if Unescape(tail).Some? then Some([c] + Unescape(tail).value) else None)
  {
    if c == '"' { UnescapeShort('"', tail); }
    else if c == '\\' { UnescapeShort('\\', tail); }
    else if c == '\U{8}' { UnescapeShort('b', tail); }
    else if c == '\U{C}' { UnescapeShort('f', tail); }
    else if c == '\n' { UnescapeShort('n', tail); }
    else if c == '\r' { UnescapeShort('r', tail); }
    else if c == '\t' { UnescapeShort('t', tail); }
    else if c < ' ' { UnescapeUnicode(c, tail); }
    else { UnescapePlain(c, tail); }
  }

  /** Reading back what `JSON.stringify` writes for a string gives the string. */
  lemma {:induction false} UnescapeEscape(s: string)
    ensures Unescape(Escape(s)) == Some(s)
  {
    if s != [] {
      UnescapeEscape(s[1..]);
      UnescapeEscapeChar(s[0], Escape(s[1..]));
      assert [s[0]] + s[1..] == s;
    }
  }

  // ---------------------------------------------------------------------
  // Object spread

  /** Assigning `obj[k] = v`: an existing key keeps its place, a new key goes last. */
  function Put(ms: seq<(string, Json)>, k: string, v: Json): (r: seq<(string, Json)>)
    ensures Lookup(r, k) == Some(v)
    ensures forall j :: j != k ==> Lookup(r, j) == Lookup(ms, j)
  {
    if ms == [] then [(k, v)]
    else if ms[0].0 == k then [(k, v)] + ms[1..]
    else [ms[0]] + Put(ms[1..], k, v)
  }

  /** `{...a, ...b}`: the members of `b` assigned over those of `a`, in order. */
  function Spread(a: seq<(string, Json)>, b: seq<(string, Json)>): seq<(string, Json)>
    decreases |b|
  {
    if b == [] then a else Spread(Put(a, b[0].0, b[0].1), b[1..])
  }

  /** After a spread a key has the value `b` gives it, or else the one `a` gives it. */
  lemma {:induction false} SpreadLookup(a: seq<(string, Json)>, b: seq<(string, Json)>, k: string)
    ensures Lookup(Spread(a, b), k) == if Lookup(b, k).Some? then LastLookup(b, k) else Lookup(a, k)
    decreases |b|
  {
    if b != [] {
      SpreadLookup(Put(a, b[0].0, b[0].1), b[1..], k);
    }
  }

  /** The value of the last member named `k` (later assignments win). */
  function LastLookup(ms: seq<(string, Json)>, k: string): (r: Option<Json>)
    ensures r.Some? <==> Lookup(ms, k).Some?
  {
    if ms == [] then None
    else
      var rest := LastLookup(ms[1..], k);
      if rest.Some? then rest else if ms[0].0 == k then Some(ms[0].1) else None
  }
}
