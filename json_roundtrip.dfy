/**
 * What the director relies on when it stores a value in a JSON column and
 * reads it back: generated text parses back to the normalized value, and the
 * text of a value other than nil is never the `null` literal.
 */
module JsonRoundTrip {
  import opened Wrappers
  import opened RubyValue
  import opened JsonText

  /** What may follow a value inside generated text: the end, a comma, or a closing bracket. */
  predicate Delimited(rest: string) {
    rest == [] || rest[0] == ',' || rest[0] == ']' || rest[0] == '}'
  }

  // ---------------------------------------------------------------- numbers

  lemma {:induction false} NatDigitsFacts(n: nat)
    ensures NatDigits(n) != [] && AllDigits(NatDigits(n))
    ensures |NatDigits(n)| == 1 <==> n < 10
    ensures |NatDigits(n)| > 1 ==> NatDigits(n)[0] != '0'
    ensures DigitsValue(NatDigits(n)) == n
    decreases n
  {
    if n >= 10 {
      NatDigitsFacts(n / 10);
      var ds := NatDigits(n / 10) + [DigitChar(n % 10)];
      assert ds[..|ds| - 1] == NatDigits(n / 10);
      assert ds[0] == NatDigits(n / 10)[0];
    }
  }

  lemma {:induction false} SpanDigitsOf(ds: string, rest: string)
    requires AllDigits(ds)
    requires rest == [] || !IsDigit(rest[0])
    ensures SpanDigits(ds + rest) == (ds, rest)
  {
    if ds == [] {
      assert ds + rest == rest;
    } else {
      var s := ds + rest;
      assert s[0] == ds[0] && IsDigit(s[0]);
      assert s[1..] == ds[1..] + rest;
      SpanDigitsOf(ds[1..], rest);
      assert [ds[0]] + ds[1..] == ds;
    }
  }

  /** ParseNumber on a minus sign, a run of digits without leading zeros, and a delimiter. */
  lemma ParseNegativeOf(s: string, ds: string, rest: string)
    requires s != [] && s[0] == '-' && SpanDigits(s[1..]) == (ds, rest)
    requires ds != [] && AllDigits(ds) && !(ds[0] == '0' && |ds| > 1)
    requires rest == [] || (rest[0] != '.' && rest[0] != 'e' && rest[0] != 'E')
    ensures ParseNumber(s) == Ok((Int(-(DigitsValue(ds) as int)), rest))
  {
  }

  /** ParseNumber on a run of digits without leading zeros, and a delimiter. */
  lemma ParseNonNegativeOf(ds: string, rest: string)
    requires ds != [] && IsDigit(ds[0]) && AllDigits(ds) && !(ds[0] == '0' && |ds| > 1)
    requires SpanDigits(ds + rest) == (ds, rest)
    requires rest == [] || (rest[0] != '.' && rest[0] != 'e' && rest[0] != 'E')
    ensures ParseNumber(ds + rest) == Ok((Int(DigitsValue(ds)), rest))
  {
    assert (ds + rest)[0] == ds[0];
  }

  /** The digits written for `n` are read back as `n`, whatever delimiter follows. */
  lemma DigitsRoundTrip(n: nat, rest: string)
    requires Delimited(rest)
    ensures var ds := NatDigits(n);
      && ds != [] && IsDigit(ds[0]) && AllDigits(ds) && !(ds[0] == '0' && |ds| > 1)
      && SpanDigits(ds + rest) == (ds, rest) && DigitsValue(ds) == n
  {
    NatDigitsFacts(n);
    SpanDigitsOf(NatDigits(n), rest);
  }

  /** A minus sign and the digits of `n` are read back as `-n`. */
  lemma NegativeRoundTrip(n: nat, rest: string)
    requires 0 < n && Delimited(rest)
    ensures ParseNumber("-" + (NatDigits(n) + rest)) == Ok((Int(-(n as int)), rest))
  {
    var s := "-" + (NatDigits(n) + rest);
    assert s[0] == '-' && s[1..] == NatDigits(n) + rest;
    DigitsRoundTrip(n, rest);
    assert SpanDigits(s[1..]) == (NatDigits(n), rest);
    ParseNegativeOf(s, NatDigits(n), rest);
  }

  /** The text of a negative integer is a minus sign before the digits of its magnitude. */
  lemma NegativeText(i: int, rest: string)
    requires i < 0
    ensures IntText(i) + rest == "-" + (NatDigits(-i) + rest)
  {
    assert IntText(i) == "-" + NatDigits(-i);
  }

  /** The text of a non-negative integer is read back as that integer. */
  lemma NonNegativeRoundTrip(i: int, rest: string)
    requires 0 <= i && Delimited(rest)
    ensures ParseNumber(IntText(i) + rest) == Ok((Int(i), rest))
  {
    DigitsRoundTrip(i, rest);
    ParseNonNegativeOf(NatDigits(i), rest);
  }

  lemma NumberRoundTrip(i: int, rest: string)
    requires Delimited(rest)
    ensures ParseNumber(IntText(i) + rest) == Ok((Int(i), rest))
  {
    if i < 0 {
      NegativeRoundTrip(-i, rest);
      NegativeText(i, rest);
    } else {
      NonNegativeRoundTrip(i, rest);
    }
  }

  // ---------------------------------------------------------------- strings

  /** The escape sequence written for `c` is read back as `c`. */
  lemma UnescapeOf(c: char, tail: string)
    requires EscapeChar(c)[0] == '\\'
    ensures Unescape(EscapeChar(c)[1..] + tail) == Ok((c, |EscapeChar(c)| - 1))
  {
    var t := EscapeChar(c)[1..] + tail;
    if c != '"' && c != '\\' && c != '\n' && c != '\r' && c != '\t' && c as int != 8 && c as int != 12 {
      var hi, lo := c as int / 16, c as int % 16;
      assert t[0] == 'u' && t[1..5] == ['0', '0', HexChar(hi), HexChar(lo)];
      assert HexValue(HexChar(hi)) == Some(hi) && HexValue(HexChar(lo)) == Some(lo);
      assert Hex4(t[1..5]) == Some(c as int);
    }
  }

  /** One written character of a string is read back as that character. */
  lemma ParseStringStep(c: char, x: string)
    ensures ParseString(EscapeChar(c) + x)
         == match ParseString(x)
            case Err(e) => Err(e)
            case Ok((chars, rest)) => Ok(([c] + chars, rest))
  {
    var t := EscapeChar(c) + x;
    if |EscapeChar(c)| > 1 {
      UnescapeOf(c, x);
      assert t[0] == '\\';
      assert t[1..] == EscapeChar(c)[1..] + x;
      assert t[1 + (|EscapeChar(c)| - 1)..] == x;
    } else {
      assert t[0] == c && t[1..] == x;
    }
  }

  /** The escaped text of a non-empty string starts with its first character's escape. */
  lemma EscapeCons(s: string, rest: string)
    requires s != []
    ensures Escape(s) + ("\"" + rest) == EscapeChar(s[0]) + (Escape(s[1..]) + ("\"" + rest))
  {
  }

  lemma {:induction false} StringRoundTrip(s: string, rest: string)
    ensures ParseString(Escape(s) + ("\"" + rest)) == Ok((s, rest))
  {
    if s == [] {
      assert Escape(s) + ("\"" + rest) == "\"" + rest;
    } else {
      StringRoundTrip(s[1..], rest);
      EscapeCons(s, rest);
      ParseStringStep(s[0], Escape(s[1..]) + ("\"" + rest));
      assert [s[0]] + s[1..] == s;
    }
  }

  // ---------------------------------------------------------------- values

  /** Generated text starts with the character that selects its kind of value. */
  lemma GenerateHead(v: Value)
    ensures Generate(v) != [] && !IsWs(Generate(v)[0])
    ensures Generate(v)[0] != ']' && Generate(v)[0] != '}'
    ensures Generate(v)[0] == 'n' <==> v.Nil?
  {
    match v
    case Int(i) =>
      var n: nat := if i < 0 then -i else i;
      NatDigitsFacts(n);
      assert IsDigit(NatDigits(n)[0]);
    case _ =>
  }

  /** One element step of ParseElements, once the element itself has been read. */
  lemma ElementsStep(s: string, acc: seq<Value>, x: Value, r: string)
    requires ParseValue(s) == Ok((x, r))
    requires r != [] && (r[0] == ',' || r[0] == ']')
    ensures ParseElements(s, acc)
         == if r[0] == ',' then ParseElements(r[1..], acc + [x]) else Ok((Arr(acc + [x]), r[1..]))
  {
    assert SkipWs(r) == r;
  }

  /** One member step of ParseMembers, once the name and the value have been read. */
  lemma MembersStep(s: string, acc: seq<(Key, Value)>, name: string, r1: string, x: Value, r2: string)
    requires s != [] && s[0] == '"' && ParseString(s[1..]) == Ok((name, r1))
    requires r1 != [] && r1[0] == ':' && ParseValue(r1[1..]) == Ok((x, r2))
    requires r2 != [] && (r2[0] == ',' || r2[0] == '}')
    ensures ParseMembers(s, acc)
         == if r2[0] == ',' then ParseMembers(r2[1..], Put(acc, StrKey(name), x))
            else Ok((Hash(Put(acc, StrKey(name), x)), r2[1..]))
  {
    assert SkipWs(s) == s && SkipWs(r1) == r1 && SkipWs(r2) == r2;
  }

  lemma PutAllStep(acc: seq<(Key, Value)>, ps: seq<(Key, Value)>, k: nat)
    requires k < |ps|
    ensures PutAll(acc, ps[k..]) == PutAll(Put(acc, ps[k].0, ps[k].1), ps[k + 1..])
  {
    assert ps[k..][0] == ps[k] && ps[k..][1..] == ps[k + 1..];
  }

  /** ParseValue on text that starts a string, an array or an object. */
  lemma ParseValueAt(s: string)
    requires s != [] && (s[0] == '"' || s[0] == '[' || s[0] == '{')
    ensures s[0] == '"' ==> ParseValue(s) == match ParseString(s[1..])
                                             case Err(e) => Err(e)
                                             case Ok((chars, rest)) => Ok((Str(chars), rest))
    ensures s[0] == '[' ==> ParseValue(s) == ParseArray(s[1..])
    ensures s[0] == '{' ==> ParseValue(s) == ParseObject(s[1..])
  {
    assert SkipWs(s) == s;
  }

  lemma ParseArrayAt(s: string)
    requires s != [] && !IsWs(s[0])
    ensures ParseArray(s) == if s[0] == ']' then Ok((Arr([]), s[1..])) else ParseElements(s, [])
  {
    assert SkipWs(s) == s;
  }

  lemma ParseObjectAt(s: string)
    requires s != [] && !IsWs(s[0])
    ensures ParseObject(s) == if s[0] == '}' then Ok((Hash([]), s[1..])) else ParseMembers(s, [])
  {
    assert SkipWs(s) == s;
  }

  lemma LiteralRoundTrip(v: Value, rest: string)
    requires v.Nil? || v.Bool?
    ensures ParseValue(Generate(v) + rest) == Ok((v, rest))
  {
    var s := Generate(v) + rest;
    assert SkipWs(s) == s;
    if v.Nil? {
      assert s[..4] == "null" && s[4..] == rest;
    } else if v.b {
      assert s[..4] == "true" && s[4..] == rest;
    } else {
      assert s[..5] == "false" && s[5..] == rest;
    }
  }

  /** The text of an integer starts with a minus sign or a digit. */
  lemma IntTextHead(i: int)
    ensures IntText(i) != [] && (IntText(i)[0] == '-' || IsDigit(IntText(i)[0]))
  {
    if i >= 0 {
      NatDigitsFacts(i);
    }
  }

  lemma IntRoundTrip(i: int, rest: string)
    requires Delimited(rest)
    ensures ParseValue(Generate(Int(i)) + rest) == Ok((Int(i), rest))
  {
    var s := Generate(Int(i)) + rest;
    GenerateHead(Int(i));
    assert SkipWs(s) == s;
    IntTextHead(i);
    assert s[0] == IntText(i)[0];
    NumberRoundTrip(i, rest);
  }

  /** A quoted string, split after its opening quote. */
  lemma QuoteText(t: string, rest: string)
    ensures var s := Quote(t) + rest;
      s[0] == '"' && s[1..] == Escape(t) + ("\"" + rest)
  {
  }

  lemma TextRoundTrip(v: Value, rest: string)
    requires v.Str? || v.Sym?
    ensures ParseValue(Generate(v) + rest) == Ok((Str(v.s), rest))
  {
    assert Generate(v) == Quote(v.s);
    QuoteText(v.s, rest);
    ParseValueAt(Quote(v.s) + rest);
    StringRoundTrip(v.s, rest);
  }

  lemma {:induction false} ValueRoundTrip(v: Value, rest: string)
    requires Delimited(rest)
    ensures ParseValue(Generate(v) + rest) == Ok((Normalize(v), rest))
    decreases v, 2, 0, 0
  {
    match v
    case Nil => LiteralRoundTrip(v, rest);
    case Bool(_) => LiteralRoundTrip(v, rest);
    case Int(i) => IntRoundTrip(i, rest);
    case Str(_) => TextRoundTrip(v, rest);
    case Sym(_) => TextRoundTrip(v, rest);
    case Arr(_) => ArrayRoundTrip(v, rest);
    case Hash(_) => ObjectRoundTrip(v, rest);
  }

  /** The text of an array, split after its `[`. */
  lemma ArrayText(v: Value, rest: string)
    requires v.Arr?
    ensures var s := Generate(v) + rest;
      var body := (if v.items == [] then "" else GenItems(v, 0)) + "]" + rest;
      && s != [] && s[0] == '[' && s[1..] == body
      && body != [] && !IsWs(body[0]) && (body[0] == ']' <==> v.items == [])
  {
    if v.items != [] {
      GenerateHead(v.items[0]);
      assert GenItems(v, 0)[0] == Generate(v.items[0])[0];
    }
  }

  lemma {:induction false} ArrayRoundTrip(v: Value, rest: string)
    requires v.Arr? && Delimited(rest)
    ensures ParseValue(Generate(v) + rest) == Ok((Normalize(v), rest))
    decreases v, 1, 0, 0
  {
    var xs := v.items;
    var body := (if xs == [] then "" else GenItems(v, 0)) + "]" + rest;
    ArrayText(v, rest);
    assert ParseValue(Generate(v) + rest) == ParseArray(body) by {
      ParseValueAt(Generate(v) + rest);
    }
    ParseArrayAt(body);
    if xs != [] {
      ItemsRoundTrip(v, 0, [], rest);
      assert [] + NormalizedItems(xs)[0..] == NormalizedItems(xs);
    }
  }

  /** The text of an object, split after its `{`. */
  lemma ObjectText(v: Value, rest: string)
    requires v.Hash?
    ensures var s := Generate(v) + rest;
      var body := (if v.entries == [] then "" else GenMembers(v, 0)) + "}" + rest;
      && s != [] && s[0] == '{' && s[1..] == body
      && body != [] && body[0] == (if v.entries == [] then '}' else '"')
  {
    var inner := if v.entries == [] then "" else GenMembers(v, 0);
    var body := inner + "}" + rest;
    assert Generate(v) + rest == "{" + body;
    if v.entries != [] {
      assert inner[0] == Quote(v.entries[0].0.name)[0] == '"';
    }
  }

  lemma {:induction false} ObjectRoundTrip(v: Value, rest: string)
    requires v.Hash? && Delimited(rest)
    ensures ParseValue(Generate(v) + rest) == Ok((Normalize(v), rest))
    decreases v, 1, 0, 0
  {
    var es := v.entries;
    var body := (if es == [] then "" else GenMembers(v, 0)) + "}" + rest;
    ObjectText(v, rest);
    assert ParseValue(Generate(v) + rest) == ParseObject(body) by {
      ParseValueAt(Generate(v) + rest);
    }
    ParseObjectAt(body);
    if es == [] {
      assert PutAll([], NormalizedEntries(es)) == [];
    } else {
      MembersRoundTrip(v, 0, [], rest);
      assert NormalizedEntries(es)[0..] == NormalizedEntries(es);
    }
  }

  /** The text of element `k` and what follows it, split where the parser reads it. */
  lemma ItemText(v: Value, k: nat, rest: string)
    requires v.Arr? && k < |v.items|
    ensures var after := (if k + 1 < |v.items| then "," + GenItems(v, k + 1) else "") + "]" + rest;
      && GenItems(v, k) + "]" + rest == Generate(v.items[k]) + after
      && after != [] && after[0] == (if k + 1 < |v.items| then ',' else ']')
      && after[1..] == if k + 1 < |v.items| then GenItems(v, k + 1) + "]" + rest else rest
  {
  }

  /** Reading element `k`, then the parser moves on. */
  lemma {:induction false} ItemRoundTrip(v: Value, k: nat, acc: seq<Value>, rest: string)
    requires v.Arr? && k < |v.items| && Delimited(rest)
    ensures var acc' := acc + [Normalize(v.items[k])];
      ParseElements(GenItems(v, k) + "]" + rest, acc)
        == if k + 1 < |v.items| then ParseElements(GenItems(v, k + 1) + "]" + rest, acc')
           else Ok((Arr(acc'), rest))
    decreases v, 0, |v.items| - k, 0
  {
    var after := (if k + 1 < |v.items| then "," + GenItems(v, k + 1) else "") + "]" + rest;
    ItemText(v, k, rest);
    ValueRoundTrip(v.items[k], after);
    ElementsStep(GenItems(v, k) + "]" + rest, acc, Normalize(v.items[k]), after);
  }

  lemma {:induction false} ItemsRoundTrip(v: Value, k: nat, acc: seq<Value>, rest: string)
    requires v.Arr? && k < |v.items| && Delimited(rest)
    ensures ParseElements(GenItems(v, k) + "]" + rest, acc)
         == Ok((Arr(acc + NormalizedItems(v.items)[k..]), rest))
    decreases v, 0, |v.items| - k, 1
  {
    var ni := NormalizedItems(v.items);
    var acc' := acc + [Normalize(v.items[k])];
    assert ni[k] == Normalize(v.items[k]);
    ItemRoundTrip(v, k, acc, rest);
    if k + 1 < |v.items| {
      ItemsRoundTrip(v, k + 1, acc', rest);
      assert acc' + ni[k + 1..] == acc + ni[k..] by {
        assert ni[k..] == [ni[k]] + ni[k + 1..];
      }
    } else {
      assert ni[k..] == [ni[k]];
    }
  }

  /** The concatenation of a member's pieces, regrouped to the right. */
  lemma Regroup(a: string, b: string, c: string, d: string, e: string, f: string, g: string, h: string)
    ensures a + b + c + d + e + f + g + h == a + (b + (c + (d + (e + (f + g + h)))))
  {
    assert a + b + c + d + e + f + g + h == a + b + c + d + e + (f + g + h);
  }

  /** What follows member `k`: a comma and the next members, or the closing brace. */
  lemma MemberTail(v: Value, k: nat, rest: string)
    requires v.Hash? && k < |v.entries|
    ensures var after := (if k + 1 < |v.entries| then "," + GenMembers(v, k + 1) else "") + "}" + rest;
      && after != [] && after[0] == (if k + 1 < |v.entries| then ',' else '}')
      && after[1..] == if k + 1 < |v.entries| then GenMembers(v, k + 1) + "}" + rest else rest
  {
  }

  /** The text of member `k` and what follows it, split where the parser reads it. */
  lemma MemberText(v: Value, k: nat, rest: string)
    requires v.Hash? && k < |v.entries|
    ensures var after := (if k + 1 < |v.entries| then "," + GenMembers(v, k + 1) else "") + "}" + rest;
      var afterName := ":" + (Generate(v.entries[k].1) + after);
      && GenMembers(v, k) + "}" + rest == "\"" + (Escape(v.entries[k].0.name) + ("\"" + afterName))
      && afterName[1..] == Generate(v.entries[k].1) + after
  {
    var name, x := v.entries[k].0.name, v.entries[k].1;
    var tail := if k + 1 < |v.entries| then "," + GenMembers(v, k + 1) else "";
    var e := Escape(name);
    var g := Generate(x);
    assert GenMembers(v, k) == "\"" + e + "\"" + ":" + g + tail;
    Regroup("\"", e, "\"", ":", g, tail, "}", rest);
  }

  /** Reading member `k`: its name and value are stored into `acc`, then the parser moves on. */
  lemma {:induction false} MemberRoundTrip(v: Value, k: nat, acc: seq<(Key, Value)>, rest: string)
    requires v.Hash? && k < |v.entries| && Delimited(rest)
    ensures var acc' := Put(acc, StrKey(v.entries[k].0.name), Normalize(v.entries[k].1));
      ParseMembers(GenMembers(v, k) + "}" + rest, acc)
        == if k + 1 < |v.entries| then ParseMembers(GenMembers(v, k + 1) + "}" + rest, acc')
           else Ok((Hash(acc'), rest))
    decreases v, 0, |v.entries| - k, 0
  {
    var name, x := v.entries[k].0.name, v.entries[k].1;
    var after := (if k + 1 < |v.entries| then "," + GenMembers(v, k + 1) else "") + "}" + rest;
    var afterName := ":" + (Generate(x) + after);
    MemberText(v, k, rest);
    MemberTail(v, k, rest);
    StringRoundTrip(name, afterName);
    ValueRoundTrip(x, after);
    MembersStep(GenMembers(v, k) + "}" + rest, acc, name, afterName, Normalize(x), after);
  }

  lemma {:induction false} MembersRoundTrip(v: Value, k: nat, acc: seq<(Key, Value)>, rest: string)
    requires v.Hash? && k < |v.entries| && Delimited(rest)
    ensures ParseMembers(GenMembers(v, k) + "}" + rest, acc)
         == Ok((Hash(PutAll(acc, NormalizedEntries(v.entries)[k..])), rest))
    decreases v, 0, |v.entries| - k, 1
  {
    var ne := NormalizedEntries(v.entries);
    var acc' := Put(acc, StrKey(v.entries[k].0.name), Normalize(v.entries[k].1));
    assert ne[k] == (StrKey(v.entries[k].0.name), Normalize(v.entries[k].1));
    PutAllStep(acc, ne, k);
    MemberRoundTrip(v, k, acc, rest);
    if k + 1 < |v.entries| {
      MembersRoundTrip(v, k + 1, acc', rest);
    } else {
      assert ne[k + 1..] == [];
    }
  }

  /** `JSON.parse(JSON.generate(v))` gives back `v` with symbols read back as strings. */
  lemma ParseGenerate(v: Value)
    ensures Parse(Generate(v)) == Ok(Normalize(v))
  {
    ValueRoundTrip(v, []);
    assert Generate(v) + [] == Generate(v);
  }

  /** The text of any value other than nil differs from the `null` sentinel. */
  lemma GenerateNotNull(v: Value)
    requires !v.Nil?
    ensures Generate(v) != "null"
  {
    GenerateHead(v);
  }
  // ---------------------------------------------------------------- parsed values are plain

  predicate PlainItems(xs: seq<Value>) {
    forall i :: 0 <= i < |xs| ==> Plain(xs[i])
  }

  predicate PlainEntries(es: seq<(Key, Value)>) {
    DistinctKeys(es) && forall i :: 0 <= i < |es| ==> es[i].0.StrKey? && Plain(es[i].1)
  }

  lemma {:induction false} ParseValuePlain(s: string)
    ensures ParseValue(s).Ok? ==> Plain(ParseValue(s).value.0)
    decreases |s|, 0
  {
    var t := SkipWs(s);
    if t != [] && t[0] == '[' {
      ParseArrayPlain(t[1..]);
    } else if t != [] && t[0] == '{' {
      ParseObjectPlain(t[1..]);
    }
  }

  lemma {:induction false} ParseArrayPlain(s: string)
    ensures ParseArray(s).Ok? ==> Plain(ParseArray(s).value.0)
    decreases |s|, 2
  {
    var t := SkipWs(s);
    if !(t != [] && t[0] == ']') {
      ParseElementsPlain(t, []);
    }
  }

  lemma {:induction false} ParseElementsPlain(s: string, acc: seq<Value>)
    requires PlainItems(acc)
    ensures ParseElements(s, acc).Ok? ==> Plain(ParseElements(s, acc).value.0)
    decreases |s|, 1
  {
    ParseValuePlain(s);
    match ParseValue(s)
    case Err(_) =>
    case Ok((x, rest)) =>
      var u := SkipWs(rest);
      var acc' := acc + [x];
      assert PlainItems(acc') by {
        assert forall i :: 0 <= i < |acc| ==> acc'[i] == acc[i];
      }
      if u != [] && u[0] == ',' {
        ParseElementsPlain(u[1..], acc');
      }
  }

  lemma {:induction false} ParseObjectPlain(s: string)
    ensures ParseObject(s).Ok? ==> Plain(ParseObject(s).value.0)
    decreases |s|, 2
  {
    var t := SkipWs(s);
    if !(t != [] && t[0] == '}') {
      ParseMembersPlain(t, []);
    }
  }

  /** Storing a String key and a plain value keeps a Hash's entries plain. */
  lemma PutPlain(acc: seq<(Key, Value)>, name: string, x: Value)
    requires PlainEntries(acc) && Plain(x)
    ensures PlainEntries(Put(acc, StrKey(name), x))
  {
    var r := Put(acc, StrKey(name), x);
    PutEntries(acc, StrKey(name), x);
    forall i | 0 <= i < |r|
      ensures r[i].0.StrKey? && Plain(r[i].1)
    {
      assert r[i] in r;
    }
  }

  lemma {:induction false} ParseMembersPlain(s: string, acc: seq<(Key, Value)>)
    requires PlainEntries(acc)
    ensures ParseMembers(s, acc).Ok? ==> Plain(ParseMembers(s, acc).value.0)
    decreases |s|, 1
  {
    var t := SkipWs(s);
    if t != [] && t[0] == '"' {
      match ParseString(t[1..])
      case Err(_) =>
      case Ok((name, r1)) =>
        var u := SkipWs(r1);
        if u != [] && u[0] == ':' {
          ParseValuePlain(u[1..]);
          match ParseValue(u[1..])
          case Err(_) =>
          case Ok((x, r2)) =>
            var w := SkipWs(r2);
            PutPlain(acc, name, x);
            if w != [] && w[0] == ',' {
              ParseMembersPlain(w[1..], Put(acc, StrKey(name), x));
            }
        }
    }
  }

  /** `JSON.parse` returns no symbols, String keys only, and no key twice. */
  lemma ParsePlain(s: string)
    ensures Parse(s).Ok? ==> Plain(Parse(s).value)
  {
    ParseValuePlain(s);
  }
}
