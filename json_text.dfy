/**
 * The JSON text that the director stores in a template's `*_json` columns:
 * `JSON.generate` (Generate) and `JSON.parse` (Parse) for the subset of JSON
 * the model covers (null, booleans, integers, strings, arrays, objects).
 * The main fact is the round trip: parsing generated text gives back the
 * value with symbols turned into strings (Normalize).
 */
module JsonText {
  import opened Wrappers
  import opened RubyValue

  // ---------------------------------------------------------------- characters

  predicate IsWs(c: char) {
    c == ' ' || c == '\t' || c == '\n' || c == '\r'
  }

  predicate IsDigit(c: char) {
    '0' <= c <= '9'
  }

  predicate AllDigits(s: string) {
    forall i :: 0 <= i < |s| ==> IsDigit(s[i])
  }

  function DigitChar(d: nat): (c: char)
    requires d < 10
    ensures IsDigit(c)
  {
    ('0' as int + d) as char
  }

  /** Lower-case hex digit, as the generator writes in `\u00XX` escapes. */
  function HexChar(d: nat): char
    requires d < 16
  {
    if d < 10 then DigitChar(d) else ('a' as int + d - 10) as char
  }

  function HexValue(c: char): Option<nat> {
    if '0' <= c <= '9' then Some(c as int - '0' as int)
    else if 'a' <= c <= 'f' then Some(c as int - 'a' as int + 10)
    else if 'A' <= c <= 'F' then Some(c as int - 'A' as int + 10)
    else None
  }

  // ---------------------------------------------------------------- generation

  /** Decimal digits of `n`, most significant first. */
  function NatDigits(n: nat): string
    decreases n
  {
    if n < 10 then [DigitChar(n)] else NatDigits(n / 10) + [DigitChar(n % 10)]
  }

  function IntText(i: int): string {
    if i < 0 then "-" + NatDigits(-i) else NatDigits(i)
  }

  /**
   * One character inside a JSON string: quote and backslash are escaped,
   * control characters get their short escape or `\u00XX`, all else is literal.
   */
  function EscapeChar(c: char): string {
    if c == '"' then "\\\""
    else if c == '\\' then "\\\\"
    else if c == '\n' then "\\n"
    else if c == '\r' then "\\r"
    else if c == '\t' then "\\t"
    else if c as int == 8 then "\\b"
    else if c as int == 12 then "\\f"
    else if (c as int) < 0x20 then "\\u00" + [HexChar(c as int / 16), HexChar(c as int % 16)]
    else [c]
  }

  function Escape(s: string): string {
    if s == [] then "" else EscapeChar(s[0]) + Escape(s[1..])
  }

  function Quote(s: string): string {
    "\"" + Escape(s) + "\""
  }

  /** `JSON.generate(v)`: symbols are written as strings, hash keys by their name. */
  function Generate(v: Value): string
    decreases v, 1, 0
  {
    match v
    case Nil => "null"
    case Bool(b) => if b then "true" else "false"
    case Int(i) => IntText(i)
    case Str(s) => Quote(s)
    case Sym(s) => Quote(s)
    case Arr(xs) => "[" + (if xs == [] then "" else GenItems(v, 0)) + "]"
    case Hash(es) => "{" + (if es == [] then "" else GenMembers(v, 0)) + "}"
  }

  /** The array elements from position `k` on, separated by commas. */
  function GenItems(v: Value, k: nat): string
    requires v.Arr? && k < |v.items|
    decreases v, 0, |v.items| - k
  {
    Generate(v.items[k]) + (if k + 1 < |v.items| then "," + GenItems(v, k + 1) else "")
  }

  /** The object members from position `k` on, as `"name":value` separated by commas. */
  function GenMembers(v: Value, k: nat): string
    requires v.Hash? && k < |v.entries|
    decreases v, 0, |v.entries| - k
  {
    Quote(v.entries[k].0.name) + ":" + Generate(v.entries[k].1)
      + (if k + 1 < |v.entries| then "," + GenMembers(v, k + 1) else "")
  }

  // ---------------------------------------------------------------- parsing

  function SkipWs(s: string): (r: string)
    ensures |r| <= |s|
    ensures r == [] || !IsWs(r[0])
  {
    if s != [] && IsWs(s[0]) then SkipWs(s[1..]) else s
  }

  /** The longest run of digits at the start of `s`, and what follows it. */
  function SpanDigits(s: string): (r: (string, string))
    ensures r.0 + r.1 == s
    ensures AllDigits(r.0)
    ensures r.1 == [] || !IsDigit(r.1[0])
  {
    if s != [] && IsDigit(s[0]) then
      var (ds, rest) := SpanDigits(s[1..]);
      ([s[0]] + ds, rest)
    else ([], s)
  }

  function DigitsValue(ds: string): nat
    requires AllDigits(ds)
  {
    if ds == [] then 0 else 10 * DigitsValue(ds[..|ds| - 1]) + (ds[|ds| - 1] as int - '0' as int)
  }

  /** A number: an optional minus sign and digits without leading zeros. */
  function ParseNumber(s: string): (r: Outcome<(Value, string)>)
    ensures r.Ok? ==> |r.value.1| < |s|
  {
    var neg := s != [] && s[0] == '-';
    var t := if neg then s[1..] else s;
    var (ds, rest) := SpanDigits(t);
    if ds == [] || (ds[0] == '0' && |ds| > 1) then Err(ParserError)
    else if rest != [] && (rest[0] == '.' || rest[0] == 'e' || rest[0] == 'E') then Err(Unsupported)
    else
      var n: int := DigitsValue(ds);
      Ok((Int(if neg then -n else n), rest))
  }

  function ParseLiteral(s: string, word: string, v: Value): (r: Outcome<(Value, string)>)
    requires word != []
    ensures r.Ok? ==> |r.value.1| < |s|
  {
    if |word| <= |s| && s[..|word|] == word then Ok((v, s[|word|..])) else Err(ParserError)
  }

  /** The value of four hex digits. */
  function Hex4(t: string): Option<nat>
    requires |t| == 4
  {
    match (HexValue(t[0]), HexValue(t[1]), HexValue(t[2]), HexValue(t[3]))
    case (Some(a), Some(b), Some(c), Some(d)) => Some(((a * 16 + b) * 16 + c) * 16 + d)
    case _ => None
  }

  /** The escape after a backslash: the character it stands for and how many characters it took. */
  function Unescape(t: string): (r: Outcome<(char, nat)>)
    ensures r.Ok? ==> 1 <= r.value.1 <= |t|
  {
    if t == [] then Err(ParserError)
    else if t[0] == '"' || t[0] == '\\' || t[0] == '/' then Ok((t[0], 1))
    else if t[0] == 'b' then Ok((8 as char, 1))
    else if t[0] == 'f' then Ok((12 as char, 1))
    else if t[0] == 'n' then Ok(('\n', 1))
    else if t[0] == 'r' then Ok(('\r', 1))
    else if t[0] == 't' then Ok(('\t', 1))
    else if t[0] == 'u' then
      if |t| < 5 then Err(ParserError)
      else match Hex4(t[1..5])
        case None => Err(ParserError)
        case Some(h) =>
          if h < 16 * 16 * 16 * 16 && (h < 0xD800 || 0xDFFF < h) then Ok((h as char, 5))
          else Err(Unsupported)
    else Err(ParserError)
  }

  /** The rest of a string after its opening quote: its characters, and the text after the closing quote. */
  function ParseString(s: string): (r: Outcome<(string, string)>)
    ensures r.Ok? ==> |r.value.1| < |s|
    decreases |s|
  {
    if s == [] then Err(ParserError)
    else if s[0] == '"' then Ok(([], s[1..]))
    else if s[0] == '\\' then
      match Unescape(s[1..])
      case Err(e) => Err(e)
      case Ok((c, n)) =>
        match ParseString(s[1 + n..])
        case Err(e) => Err(e)
        case Ok((chars, rest)) => Ok(([c] + chars, rest))
    else if (s[0] as int) < 0x20 then Err(ParserError)
    else
      match ParseString(s[1..])
      case Err(e) => Err(e)
      case Ok((chars, rest)) => Ok(([s[0]] + chars, rest))
  }

  /** One value after optional white space, and the text after it. */
  function ParseValue(s: string): (r: Outcome<(Value, string)>)
    ensures r.Ok? ==> |r.value.1| < |s|
    decreases |s|, 0
  {
    var t := SkipWs(s);
    if t == [] then Err(ParserError)
    else if t[0] == 'n' then ParseLiteral(t, "null", Nil)
    else if t[0] == 't' then ParseLiteral(t, "true", Bool(true))
    else if t[0] == 'f' then ParseLiteral(t, "false", Bool(false))
    else if t[0] == '-' || IsDigit(t[0]) then ParseNumber(t)
    else if t[0] == '"' then
      match ParseString(t[1..])
      case Err(e) => Err(e)
      case Ok((chars, rest)) => Ok((Str(chars), rest))
    else if t[0] == '[' then ParseArray(t[1..])
    else if t[0] == '{' then ParseObject(t[1..])
    else Err(ParserError)
  }

  /** The rest of an array after its `[`. */
  function ParseArray(s: string): (r: Outcome<(Value, string)>)
    ensures r.Ok? ==> |r.value.1| < |s|
    decreases |s|, 2
  {
    var t := SkipWs(s);
    if t != [] && t[0] == ']' then Ok((Arr([]), t[1..])) else ParseElements(t, [])
  }

  /** Array elements, collected after `acc`, up to and including the closing `]`. */
  function ParseElements(s: string, acc: seq<Value>): (r: Outcome<(Value, string)>)
    ensures r.Ok? ==> |r.value.1| < |s|
    decreases |s|, 1
  {
    match ParseValue(s)
    case Err(e) => Err(e)
    case Ok((x, rest)) =>
      var u := SkipWs(rest);
      if u == [] then Err(ParserError)
      else if u[0] == ',' then ParseElements(u[1..], acc + [x])
      else if u[0] == ']' then Ok((Arr(acc + [x]), u[1..]))
      else Err(ParserError)
  }

  /** The rest of an object after its `{`. */
  function ParseObject(s: string): (r: Outcome<(Value, string)>)
    ensures r.Ok? ==> |r.value.1| < |s|
    decreases |s|, 2
  {
    var t := SkipWs(s);
    if t != [] && t[0] == '}' then Ok((Hash([]), t[1..])) else ParseMembers(t, [])
  }

  /**
   * Object members, stored into `acc` one by one as `Hash#[]=` does (a repeated
   * name keeps its first position and takes the last value), up to the closing `}`.
   */
  function ParseMembers(s: string, acc: seq<(Key, Value)>): (r: Outcome<(Value, string)>)
    ensures r.Ok? ==> |r.value.1| < |s|
    decreases |s|, 1
  {
    var t := SkipWs(s);
    if t == [] || t[0] != '"' then Err(ParserError)
    else
      match ParseString(t[1..])
      case Err(e) => Err(e)
      case Ok((name, r1)) =>
        var u := SkipWs(r1);
        if u == [] || u[0] != ':' then Err(ParserError)
        else
          match ParseValue(u[1..])
          case Err(e) => Err(e)
          case Ok((x, r2)) =>
            var w := SkipWs(r2);
            var acc' := Put(acc, StrKey(name), x);
            if w == [] then Err(ParserError)
            else if w[0] == ',' then ParseMembers(w[1..], acc')
            else if w[0] == '}' then Ok((Hash(acc'), w[1..]))
            else Err(ParserError)
  }

  /** `JSON.parse(s)`: one value, with nothing but white space around it. */
  function Parse(s: string): Outcome<Value> {
    match ParseValue(s)
    case Err(e) => Err(e)
    case Ok((v, rest)) => if SkipWs(rest) == [] then Ok(v) else Err(ParserError)
  }
}
