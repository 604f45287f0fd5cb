/**
 * JSON values and the text Python's `json.dumps(value, ensure_ascii=False)`
 * produces for them (default separators ", " and ": "). Objects keep their
 * keys in insertion order, as Python dicts do.
 */
module JsonText {
  import opened Wrappers

  datatype Json =
    | JNull
    | JBool(b: bool)
    | JNum(n: int)
    | JStr(s: string)
    | JArr(items: seq<Json>)
    | JObj(fields: seq<(string, Json)>)

  /** The keys bound in an object. */
  function Keys(fields: seq<(string, Json)>): set<string> {
    if fields == [] then {} else Keys(fields[..|fields| - 1]) + {fields[|fields| - 1].0}
  }

  /** Looking a key up in a parsed object: the last binding of a key wins, as in `json.loads`. */
  function Get(fields: seq<(string, Json)>, key: string): (r: Option<Json>)
    ensures r.Some? <==> key in Keys(fields)
  {
    if fields == [] then None
    else if fields[|fields| - 1].0 == key then Some(fields[|fields| - 1].1)
    else
      Get(fields[..|fields| - 1], key)
  }

  /** A key bound nowhere in an object is absent. */
  lemma {:induction false} GetAbsent(fields: seq<(string, Json)>, key: string)
    requires forall i :: 0 <= i < |fields| ==> fields[i].0 != key
    ensures Get(fields, key) == None
  {
    if fields != [] {
      GetAbsent(fields[..|fields| - 1], key);
    }
  }

  /** A key bound exactly once is found at its binding. */
  lemma {:induction false} GetUnique(fields: seq<(string, Json)>, k: nat, key: string)
    requires k < |fields| && fields[k].0 == key
    requires forall i :: 0 <= i < |fields| && i != k ==> fields[i].0 != key
    ensures Get(fields, key) == Some(fields[k].1)
  {
    if k < |fields| - 1 {
      GetUnique(fields[..|fields| - 1], k, key);
    }
  }

  // ---------------------------------------------------------------------
  // String escaping
  // ---------------------------------------------------------------------

  function HexDigit(d: nat): (c: char)
    requires d < 16
  {
    if d < 10 then ('0' as int + d) as char else ('a' as int + d - 10) as char
  }

  function HexValue(c: char): Option<nat> {
    if '0' <= c <= '9' then Some(c as int - '0' as int)
    else if 'a' <= c <= 'f' then Some(c as int - 'a' as int + 10)
    else if 'A' <= c <= 'F' then Some(c as int - 'A' as int + 10)
    else None
  }

  /** The escape `json.dumps` writes for one character of a string. */
  function EscapeChar(c: char): string {
    if c == '"' then "\\\""
    else if c == '\\' then "\\\\"
    else if c == '\n' then "\\n"
    else if c == '\r' then "\\r"
    else if c == '\t' then "\\t"
    else if c as int == 8 then "\\b"
    else if c as int == 12 then "\\f"
    else if c as int < 0x20 then "\\u00" + [HexDigit(c as int / 16), HexDigit(c as int % 16)]
    else [c]
  }

  function Escape(s: string): string {
    if s == [] then [] else EscapeChar(s[0]) + Escape(s[1..])
  }

  /** A JSON string literal for `s`. */
  function Quote(s: string): (r: string)
    ensures |r| >= 2 && r[0] == '"' && r[|r| - 1] == '"'
  {
    "\"" + Escape(s) + "\""
  }

  /** No control character (in particular no line break) occurs in `s`. */
  predicate SingleLine(s: string) {
    forall i :: 0 <= i < |s| ==> s[i] as int >= 0x20
  }

  function Prepend(c: char, r: Option<string>): Option<string> {
    match r
    case None => None
    case Some(t) => Some([c] + t)
  }

  function SimpleEscape(c: char): Option<char> {
    if c == '"' then Some('"')
    else if c == '\\' then Some('\\')
    else if c == '/' then Some('/')
    else if c == 'b' then Some(8 as char)
    else if c == 'f' then Some(12 as char)
    else if c == 'n' then Some('\n')
    else if c == 'r' then Some('\r')
    else if c == 't' then Some('\t')
    else None
  }

  /** Decodes the body of a JSON string literal (strict mode: raw control characters are refused). */
  function Unescape(t: string): Option<string>
    decreases |t|
  {
    if t == [] then Some([])
    else if t[0] == '"' || t[0] as int < 0x20 then None
    else if t[0] != '\\' then Prepend(t[0], Unescape(t[1..]))
    else if |t| < 2 then None
    else if t[1] == 'u' then
      if |t| < 6 then None
      else
        match (HexValue(t[2]), HexValue(t[3]), HexValue(t[4]), HexValue(t[5]))
        case (Some(a), Some(b), Some(c), Some(d)) =>
          var code := ((a * 16 + b) * 16 + c) * 16 + d;
          if 0xD800 <= code < 0xE000 || code >= 0x1_0000 then None
          else Prepend(code as char, Unescape(t[6..]))
        case _ => None
    else
      match SimpleEscape(t[1])
      case None => None
      case Some(c) => Prepend(c, Unescape(t[2..]))
  }

  /** Reads a JSON string literal back. */
  function Unquote(q: string): Option<string> {
    if |q| >= 2 && q[0] == '"' && q[|q| - 1] == '"' then Unescape(q[1..|q| - 1]) else None
  }

  lemma HexRoundTrip(d: nat)
    requires d < 16
    ensures HexValue(HexDigit(d)) == Some(d)
  {
  }

  lemma UnescapeChar(c: char, rest: string)
    ensures Unescape(EscapeChar(c) + rest) == Prepend(c, Unescape(rest))
  {
    var t := EscapeChar(c) + rest;
    if c as int < 0x20 && c != '\n' && c != '\r' && c != '\t' && c as int != 8 && c as int != 12 {
      var hi, lo := c as int / 16, c as int % 16;
      HexRoundTrip(hi);
      HexRoundTrip(lo);
      assert t[2..6] == ['0', '0', HexDigit(hi), HexDigit(lo)];
      assert t[6..] == rest;
    } else if c == '"' || c == '\\' || c == '\n' || c == '\r' || c == '\t' || c as int == 8 || c as int == 12 {
      assert t[2..] == rest;
    } else {
      assert t[1..] == rest;
    }
  }

  /** Decoding undoes escaping. */
  lemma {:induction false} UnescapeEscape(s: string)
    ensures Unescape(Escape(s)) == Some(s)
  {
    if s != [] {
      UnescapeChar(s[0], Escape(s[1..]));
      UnescapeEscape(s[1..]);
      assert [s[0]] + s[1..] == s;
    }
  }

  /** `Unquote` is the inverse of `Quote`: a string survives being serialized. */
  lemma UnquoteQuote(s: string)
    ensures Unquote(Quote(s)) == Some(s)
  {
    var q := Quote(s);
    assert q[1..|q| - 1] == Escape(s);
    UnescapeEscape(s);
  }

  lemma {:induction false} EscapeSingleLine(s: string)
    ensures SingleLine(Escape(s))
  {
    if s != [] {
      EscapeSingleLine(s[1..]);
      var e := EscapeChar(s[0]);
      assert SingleLine(e) by {
        if s[0] as int < 0x20 {
          forall i | 0 <= i < |e| ensures e[i] as int >= 0x20 {
          }
        }
      }
      assert Escape(s) == e + Escape(s[1..]);
    }
  }

  // ---------------------------------------------------------------------
  // Numbers and whole values
  // ---------------------------------------------------------------------

  function NatText(n: nat): string
    decreases n
  {
    if n < 10 then [('0' as int + n) as char]
    else NatText(n / 10) + [('0' as int + n % 10) as char]
  }

  /** Python's `str(n)` for an integer. */
  function IntText(n: int): string {
    if n < 0 then "-" + NatText(-n) else NatText(n)
  }

  /** Python's `sep.join(parts)`. */
  function Join(sep: string, parts: seq<string>): string {
    if parts == [] then ""
    else if |parts| == 1 then parts[0]
    else parts[0] + sep + Join(sep, parts[1..])
  }

  /** `json.dumps(j, ensure_ascii=False)`. */
  function Dumps(j: Json): string
    decreases j
  {
    match j
    case JNull => "null"
    case JBool(b) => if b then "true" else "false"
    case JNum(n) => IntText(n)
    case JStr(s) => Quote(s)
    case JArr(items) =>
      "[" + Join(", ", seq(|items|, i requires 0 <= i < |items| => Dumps(items[i]))) + "]"
    case JObj(fields) =>
      "{" + Join(", ", seq(|fields|, i requires 0 <= i < |fields| =>
        Quote(fields[i].0) + ": " + Dumps(fields[i].1))) + "}"
  }

  lemma {:induction false} NatTextSingleLine(n: nat)
    ensures SingleLine(NatText(n))
    decreases n
  {
    if n >= 10 {
      NatTextSingleLine(n / 10);
    }
  }

  lemma {:induction false} JoinSingleLine(sep: string, parts: seq<string>)
    requires SingleLine(sep)
    requires forall i :: 0 <= i < |parts| ==> SingleLine(parts[i])
    ensures SingleLine(Join(sep, parts))
  {
    if |parts| > 1 {
      JoinSingleLine(sep, parts[1..]);
    }
  }

  /** `json.dumps` without `indent` writes a value on a single line. */
  lemma {:induction false} DumpsSingleLine(j: Json)
    ensures SingleLine(Dumps(j))
    decreases j
  {
    match j
    case JNull =>
    case JBool(b) =>
    case JNum(n) =>
      NatTextSingleLine(if n < 0 then -n else n);
    case JStr(s) =>
      EscapeSingleLine(s);
    case JArr(items) =>
      var parts := seq(|items|, i requires 0 <= i < |items| => Dumps(items[i]));
      forall i | 0 <= i < |items| ensures SingleLine(parts[i]) {
        DumpsSingleLine(items[i]);
      }
      JoinSingleLine(", ", parts);
    case JObj(fields) =>
      var parts := seq(|fields|, i requires 0 <= i < |fields| =>
        Quote(fields[i].0) + ": " + Dumps(fields[i].1));
      forall i | 0 <= i < |fields| ensures SingleLine(parts[i]) {
        DumpsSingleLine(fields[i].1);
        EscapeSingleLine(fields[i].0);
      }
      JoinSingleLine(", ", parts);
  }
}
