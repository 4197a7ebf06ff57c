/** The overlay colour strings of the base generator: `_random_rgba`
    writes `rgba(r,g,b,alpha)` and `_rgba_str_to_tuple` reads such a
    string back into integer channels and a float alpha. */
module Rgba {
  import opened Wrappers
  import Text
  import opened Draws

  /** A float as Python's `repr` writes it in positional form: an optional
      minus sign, the whole part, a point and at least one fraction digit
      ("1.0", "0.15", "-2.5"). */
  datatype Decimal = Decimal(negative: bool, whole: nat, fraction: string)
  {
    ghost predicate Valid()
    {
      fraction != [] && Text.AllDigits(fraction)
    }
  }

  /** The alpha `_random_rgba` writes when its caller gives none. */
  const DefaultAlpha: Decimal := Decimal(false, 1, "0")

  function Pow10(k: nat): (p: real)
    ensures p >= 1.0
  {
    if k == 0 then 1.0 else 10.0 * Pow10(k - 1)
  }

  /** The value of the numeral `whole.fraction`. */
  function Pointed(whole: string, fraction: string): real
    requires Text.AllDigits(whole) && Text.AllDigits(fraction)
  {
    Text.DigitsValue(whole) as real + Text.DigitsValue(fraction) as real / Pow10(|fraction|)
  }

  function Signed(negative: bool, x: real): real
  {
    if negative then -x else x
  }

  /** The number a decimal names, exactly. */
  function DecimalValue(d: Decimal): real
    requires d.Valid()
  {
    Signed(d.negative, Pointed(Text.NatToString(d.whole), d.fraction))
  }

  /** `f"{alpha}"` for a float in positional form. */
  function FormatDecimal(d: Decimal): (s: string)
    requires d.Valid()
    ensures |s| >= 3 && Text.IsDigit(s[|s| - 1])
  {
    (if d.negative then "-" else "") + Text.NatToString(d.whole) + "." + d.fraction
  }

  /** The colour `_rgba_str_to_tuple` returns. */
  datatype Colour = Colour(r: int, g: int, b: int, alpha: real)

  /** Why `_rgba_str_to_tuple` raises ValueError: a field `float` cannot
      read, fewer than four fields, or more than four. */
  datatype ParseError = NotANumber(field: string) | TooFewFields(got: nat) | TooManyFields

  /** `f"rgba({r},{g},{b},{alpha})"`. */
  function FormatRgba(r: int, g: int, b: int, alpha: Decimal): (s: string)
    requires alpha.Valid()
  {
    "rgba(" + Text.IntToString(r) + "," + Text.IntToString(g) + "," + Text.IntToString(b) + "," + FormatDecimal(alpha) + ")"
  }

  /** The four fields of the string, joined by commas. */
  lemma FormatIsJoin(r: int, g: int, b: int, alpha: Decimal)
    requires alpha.Valid()
    ensures FormatRgba(r, g, b, alpha) ==
              "rgba(" + Text.Join([Text.IntToString(r), Text.IntToString(g), Text.IntToString(b), FormatDecimal(alpha)], ',') + ")"
  {
    var parts := [Text.IntToString(r), Text.IntToString(g), Text.IntToString(b), FormatDecimal(alpha)];
    assert parts[1..][1..][1..] == [parts[3]];
    assert Text.Join(parts[1..][1..], ',') == parts[2] + [','] + parts[3];
    assert Text.Join(parts[1..], ',') == parts[1] + [','] + (parts[2] + [','] + parts[3]);
    assert Text.Join(parts, ',') == parts[0] + [','] + (parts[1] + [','] + (parts[2] + [','] + parts[3]));
  }

  /** `_random_rgba(alpha)`: the first three draws are the channels. */
  function RandomRgba(draws: seq<int>, alpha: Decimal): string
    requires InRange(draws, 0, 3, 220, 255) && alpha.Valid()
  {
    FormatRgba(draws[0], draws[1], draws[2], alpha)
  }

  /** What `_random_rgba` writes has exactly three commas and reads back
      as the drawn channels, each in [220, 255], and the alpha. */
  lemma RandomRgbaReadsBack(draws: seq<int>, alpha: Decimal)
    requires InRange(draws, 0, 3, 220, 255) && alpha.Valid()
    ensures Text.Count(RandomRgba(draws, alpha), ',') == 3
    ensures RgbaStrToTuple(RandomRgba(draws, alpha)) == Ok(Colour(draws[0], draws[1], draws[2], DecimalValue(alpha)))
    ensures var c := RgbaStrToTuple(RandomRgba(draws, alpha)).value;
            220 <= c.r <= 255 && 220 <= c.g <= 255 && 220 <= c.b <= 255
  {
    RoundTrip(draws[0], draws[1], draws[2], alpha);
  }

  /** The number the pieces of an unsigned numeral between points name:
      one piece of digits, or two with at least one digit between them. */
  function PiecesValue(parts: seq<string>): Option<real>
  {
    if |parts| == 1 && parts[0] != [] && Text.AllDigits(parts[0]) then
      Some(Text.DigitsValue(parts[0]) as real)
    else if |parts| == 2 && (parts[0] != [] || parts[1] != [])
         && Text.AllDigits(parts[0]) && Text.AllDigits(parts[1]) then
      Some(Pointed(parts[0], parts[1]))
    else None
  }

  /** The number an unsigned run of digits with at most one point names. */
  function ParseUnsigned(body: string): Option<real>
  {
    PiecesValue(Text.Split(body, '.'))
  }

  /** A numeral with an optional leading sign. */
  function ParseSigned(t: string): Option<real>
  {
    var signed := |t| > 0 && (t[0] == '-' || t[0] == '+');
    match ParseUnsigned(if signed then t[1..] else t)
    case None => None
    case Some(x) => Some(Signed(signed && t[0] == '-', x))
  }

  /** Python's `float(s)` on the positional decimal forms: surrounding
      whitespace, an optional sign, digits with at most one point and at
      least one digit.  The value is the exact real the numeral denotes;
      Python's binary64 `float` agrees for integers up to 2^53 and for
      numerals printed by `repr`. */
  function ParseNumber(s: string): Option<real>
  {
    ParseSigned(Text.Strip(s))
  }

  /** A numeral that starts with a digit, after an optional minus. */
  lemma ParseMinus(negative: bool, body: string)
    requires body != [] && Text.IsDigit(body[0])
    ensures ParseSigned((if negative then "-" else "") + body) ==
              match ParseUnsigned(body)
              case None => None
              case Some(x) => Some(Signed(negative, x))
  {
    var t := (if negative then "-" else "") + body;
    if negative {
      assert t[0] == '-' && t[1..] == body;
    } else {
      assert t == body;
    }
  }

  /** A text that neither starts nor ends with whitespace is read as is. */
  lemma ParseTrimmed(s: string)
    requires s != [] && !Text.IsSpace(s[0]) && !Text.IsSpace(s[|s| - 1])
    ensures ParseNumber(s) == ParseSigned(s)
  {
    Text.StripKeepsTrimmed(s);
  }

  lemma ParseDigits(digits: string)
    requires digits != [] && Text.AllDigits(digits)
    ensures ParseUnsigned(digits) == Some(Text.DigitsValue(digits) as real)
  {
    NoPoint(digits);
    Text.SplitNoSeparator(digits, '.');
  }

  lemma NoPoint(s: string)
    requires Text.AllDigits(s)
    ensures '.' !in s
  {
    forall i | 0 <= i < |s| ensures s[i] != '.' {
      assert Text.IsDigit(s[i]);
    }
  }

  lemma ParsePointed(w: string, f: string)
    requires w != [] && Text.AllDigits(w) && Text.AllDigits(f)
    ensures ParseUnsigned(w + "." + f) == Some(Pointed(w, f))
  {
    NoPoint(w);
    NoPoint(f);
    Text.SplitAtSeparator(w, f, '.');
    Text.SplitNoSeparator(f, '.');
    assert Text.Split(w + "." + f, '.') == [w, f];
  }

  /** Python's `int(x)` on a float: truncation toward zero. */
  function Truncate(x: real): (n: int)
    ensures x >= 0.0 ==> 0 <= n && n as real <= x < n as real + 1.0
    ensures x < 0.0 ==> n <= 0 && n as real - 1.0 < x <= n as real
  {
    if x >= 0.0 then x.Floor else -((-x).Floor)
  }

  /** `list(map(parse, fields))`; an error names the position of the
      first field `parse` refuses. */
  function ParseAll<T>(fields: seq<string>, parse: string -> Option<T>): (r: Result<seq<T>, nat>)
    ensures r.Ok? ==> |r.value| == |fields|
    ensures r.Ok? ==> forall i :: 0 <= i < |fields| ==> parse(fields[i]) == Some(r.value[i])
    ensures r.Err? ==> r.error < |fields| && parse(fields[r.error]).None?
    ensures r.Err? ==> forall j :: 0 <= j < r.error ==> parse(fields[j]).Some?
  {
    if fields == [] then Ok([])
    else
      match parse(fields[0])
      case None => Err(0)
      case Some(x) =>
        match ParseAll(fields[1..], parse)
        case Err(k) => Err(k + 1)
        case Ok(xs) => Ok([x] + xs)
  }

  /** `a, b, c, d = map(parse, fields)`: unpacking converts the fields it
      pulls, at most five, and then insists on exactly four. */
  function Unpack4<T>(fields: seq<string>, parse: string -> Option<T>): (r: Result<seq<T>, ParseError>)
    ensures r.Ok? ==> |fields| == 4 && |r.value| == 4
    ensures r.Ok? ==> forall i :: 0 <= i < 4 ==> parse(fields[i]) == Some(r.value[i])
    ensures |fields| != 4 ==> r.Err?
  {
    var pulled := if |fields| <= 5 then fields else fields[..5];
    match ParseAll(pulled, parse)
    case Err(k) => Err(NotANumber(pulled[k]))
    case Ok(xs) =>
      if |fields| < 4 then Err(TooFewFields(|fields|))
      else if |fields| > 4 then Err(TooManyFields)
      else Ok(xs)
  }

  /** The fields `_rgba_str_to_tuple` splits off once the wrapper is gone. */
  function Fields(s: string): seq<string>
  {
    Text.Split(Text.Erase(Text.Erase(s, "rgba("), ")"), ',')
  }

  /** `_rgba_str_to_tuple(s)`. */
  function RgbaStrToTuple(s: string): (r: Result<Colour, ParseError>)
    ensures r.Ok? ==> |Fields(s)| == 4 && ParseNumber(Fields(s)[0]).Some? && r.value.r == Truncate(ParseNumber(Fields(s)[0]).value)
  {
    FromFields(Fields(s))
  }

  /** `r, g, b, a = map(float, fields)` and the integer casts. */
  function FromFields(fields: seq<string>): (r: Result<Colour, ParseError>)
    ensures r.Ok? ==> |fields| == 4 && ParseNumber(fields[0]).Some? && r.value.r == Truncate(ParseNumber(fields[0]).value)
  {
    Convert(fields, ParseNumber)
  }

  /** The same with the number reader as a parameter. */
  function Convert(fields: seq<string>, parse: string -> Option<real>): (r: Result<Colour, ParseError>)
    ensures r.Ok? ==> |fields| == 4 && parse(fields[0]).Some? && r.value.r == Truncate(parse(fields[0]).value)
  {
    match Unpack4(fields, parse)
    case Err(e) => Err(e)
    case Ok(v) => Ok(Colour(Truncate(v[0]), Truncate(v[1]), Truncate(v[2]), v[3]))
  }

  /** There is one field more than the string has commas: removing the
      wrapper removes no comma. */
  lemma FieldCount(s: string)
    ensures |Fields(s)| == Text.Count(s, ',') + 1
  {
    Text.EraseKeepsCount(s, "rgba(", ',');
    Text.EraseKeepsCount(Text.Erase(s, "rgba("), ")", ',');
    Text.SplitCount(Text.Erase(Text.Erase(s, "rgba("), ")"), ',');
  }

  /** A string without exactly three commas is refused. */
  lemma WrongCommaCount(s: string)
    requires Text.Count(s, ',') != 3
    ensures RgbaStrToTuple(s).Err?
  {
    FieldCount(s);
  }

  /** Characters of printed numbers and their comma-joined list. */
  predicate Plain(c: char)
  {
    Text.IsDigit(c) || c == '-' || c == '.' || c == ','
  }

  ghost predicate AllPlain(s: string)
  {
    forall i :: 0 <= i < |s| ==> Plain(s[i])
  }

  lemma PlainNat(n: nat)
    ensures AllPlain(Text.NatToString(n))
  {
  }

  lemma PlainJoin(parts: seq<string>)
    requires |parts| >= 1 && forall i :: 0 <= i < |parts| ==> AllPlain(parts[i])
    ensures AllPlain(Text.Join(parts, ','))
  {
    if |parts| > 1 {
      PlainJoin(parts[1..]);
    }
  }

  /** `float(str(i))`, read as an exact real, is i. */
  lemma ParseInt(i: int)
    ensures ParseNumber(Text.IntToString(i)) == Some(i as real)
  {
    var n: nat := if i < 0 then -i else i;
    var digits := Text.NatToString(n);
    var s := Text.IntToString(i);
    assert s == (if i < 0 then "-" else "") + digits;
    ParseTrimmed(s);
    ParseMinus(i < 0, digits);
    ParseDigits(digits);
    Text.NatToStringRoundTrip(n);
  }

  /** `float(f"{alpha}")`, read as an exact real, is the alpha's value. */
  lemma ParseDecimal(d: Decimal)
    requires d.Valid()
    ensures ParseNumber(FormatDecimal(d)) == Some(DecimalValue(d))
  {
    var s := FormatDecimal(d);
    var w := Text.NatToString(d.whole);
    var body := w + "." + d.fraction;
    var v := Pointed(w, d.fraction);
    assert s == (if d.negative then "-" else "") + body;
    assert ParseNumber(s) == ParseSigned(s) by {
      ParseTrimmed(s);
    }
    assert ParseUnsigned(body) == Some(v) by {
      ParsePointed(w, d.fraction);
    }
    assert ParseSigned(s) == Some(Signed(d.negative, v)) by {
      ParseMinus(d.negative, body);
    }
  }

  lemma PlainInt(i: int)
    ensures AllPlain(Text.IntToString(i))
  {
    PlainNat(if i < 0 then -i else i);
  }

  lemma PlainDecimal(d: Decimal)
    requires d.Valid()
    ensures AllPlain(FormatDecimal(d))
  {
    PlainNat(d.whole);
  }

  /** Removing the wrapper from `rgba(x)` leaves x when x is made of
      printed numbers and commas. */
  lemma Unwrap(x: string)
    requires AllPlain(x)
    ensures Text.Erase(Text.Erase("rgba(" + x + ")", "rgba("), ")") == x
  {
    assert 'r' !in x && ')' !in x by {
      forall i | 0 <= i < |x| ensures x[i] != 'r' && x[i] != ')' {
        assert Plain(x[i]);
      }
    }
    var s := "rgba(" + x + ")";
    assert s[..5] == "rgba(" && s[5..] == x + ")";
    Text.EraseSkips(x, ")", "rgba(");
    assert Text.Erase(s, "rgba(") == x + ")";
    Text.EraseSkips(x, ")", ")");
    assert Text.Erase(")", ")") == [];
  }

  /** Four fields that all parse unpack to their values. */
  lemma UnpackParsed<T>(fields: seq<string>, parse: string -> Option<T>, x0: T, x1: T, x2: T, x3: T)
    requires |fields| == 4
    requires parse(fields[0]) == Some(x0) && parse(fields[1]) == Some(x1)
    requires parse(fields[2]) == Some(x2) && parse(fields[3]) == Some(x3)
    ensures Unpack4(fields, parse) == Ok([x0, x1, x2, x3])
  {
    var r := ParseAll(fields, parse);
    assert r.Ok?;
    assert r.value == [x0, x1, x2, x3] by {
      assert parse(fields[0]) == Some(r.value[0]);
      assert parse(fields[1]) == Some(r.value[1]);
      assert parse(fields[2]) == Some(r.value[2]);
      assert parse(fields[3]) == Some(r.value[3]);
    }
  }

  /** The fields of `rgba(r,g,b,alpha)` are the four printed numbers. */
  lemma FieldsOfFormat(r: int, g: int, b: int, alpha: Decimal)
    requires alpha.Valid()
    ensures Fields(FormatRgba(r, g, b, alpha)) ==
              [Text.IntToString(r), Text.IntToString(g), Text.IntToString(b), FormatDecimal(alpha)]
  {
    var parts := [Text.IntToString(r), Text.IntToString(g), Text.IntToString(b), FormatDecimal(alpha)];
    PlainInt(r);
    PlainInt(g);
    PlainInt(b);
    PlainDecimal(alpha);
    PlainJoin(parts);
    FormatIsJoin(r, g, b, alpha);
    Unwrap(Text.Join(parts, ','));
    forall i | 0 <= i < 4 ensures ',' !in parts[i] {
      var p := parts[i];
      assert AllPlain(p);
      assert ',' !in p by {
        forall k | 0 <= k < |p| ensures p[k] != ',' {
          assert Plain(p[k]);
          if i < 3 {
            assert Text.IsDigit(p[k]) || p[k] == '-';
          }
        }
      }
    }
    Text.SplitJoin(parts, ',');
  }

  /** The default alpha "1.0" is the number 1. */
  lemma DefaultAlphaIsOne()
    ensures DefaultAlpha.Valid() && DecimalValue(DefaultAlpha) == 1.0
  {
    assert Text.NatToString(1) == "1";
    assert Text.DigitsValue("1") == 1 by { assert "1"[..0] == []; }
    assert Text.DigitsValue("0") == 0 by { assert "0"[..0] == []; }
  }

  /** Reading back what `_random_rgba` wrote gives the channels and the
      alpha it was given. */
  lemma RoundTrip(r: int, g: int, b: int, alpha: Decimal)
    requires alpha.Valid()
    ensures Text.Count(FormatRgba(r, g, b, alpha), ',') == 3
    ensures RgbaStrToTuple(FormatRgba(r, g, b, alpha)) == Ok(Colour(r, g, b, DecimalValue(alpha)))
  {
    var s := FormatRgba(r, g, b, alpha);
    FieldsOfFormat(r, g, b, alpha);
    FieldCount(s);
    ReadBack(r, g, b, alpha);
  }

  /** The numerals of r, g, b and alpha read back as them. */
  lemma ReadBack(r: int, g: int, b: int, alpha: Decimal)
    requires alpha.Valid()
    ensures FromFields([Text.IntToString(r), Text.IntToString(g), Text.IntToString(b), FormatDecimal(alpha)])
              == Ok(Colour(r, g, b, DecimalValue(alpha)))
  {
    ChannelsParse(r, g, b);
    ParseDecimal(alpha);
    FromParsed(Text.IntToString(r), Text.IntToString(g), Text.IntToString(b), FormatDecimal(alpha), ParseNumber,
               r as real, g as real, b as real, DecimalValue(alpha));
    TruncateInt(r);
    TruncateInt(g);
    TruncateInt(b);
  }

  lemma TruncateInt(i: int)
    ensures Truncate(i as real) == i
  {
  }

  lemma ChannelsParse(r: int, g: int, b: int)
    ensures ParseNumber(Text.IntToString(r)) == Some(r as real)
    ensures ParseNumber(Text.IntToString(g)) == Some(g as real)
    ensures ParseNumber(Text.IntToString(b)) == Some(b as real)
  {
    ParseInt(r);
    ParseInt(g);
    ParseInt(b);
  }

  /** Four fields that each read as a number give the colour of those
      numbers, the first three cut to integers. */
  lemma FromParsed(f0: string, f1: string, f2: string, f3: string, parse: string -> Option<real>,
                   x0: real, x1: real, x2: real, x3: real)
    requires parse(f0) == Some(x0) && parse(f1) == Some(x1)
    requires parse(f2) == Some(x2) && parse(f3) == Some(x3)
    ensures Convert([f0, f1, f2, f3], parse) == Ok(Colour(Truncate(x0), Truncate(x1), Truncate(x2), x3))
  {
    UnpackParsed([f0, f1, f2, f3], parse, x0, x1, x2, x3);
  }
}
