/**
 * The image captioner's text options (lgtm-generator/main.go): the font size clamp and the
 * "#rrggbb" / "rrggbb" colour parser. Go strings are byte strings, so a colour is its bytes.
 */
module HexColor {
  newtype byte = b: int | 0 <= b < 256

  datatype Option<T> = None | Some(value: T)

  /** color.RGBA; the zero value RGBA(0, 0, 0, 0) is transparent black. */
  datatype RGBA = RGBA(r: byte, g: byte, b: byte, a: byte)

  /** Why a colour could not be parsed (only the corrected parser ever reports one). */
  datatype ColorError = WrongLength | NotHexDigit

  /** A colour and the error the parser returns beside it. */
  datatype Parsed = Parsed(color: RGBA, err: Option<ColorError>)

  const Hash: byte := 0x23
  const Transparent: RGBA := RGBA(0, 0, 0, 0)
  const White: RGBA := RGBA(255, 255, 255, 255)
  const Opaque: byte := 255

  // ---------------------------------------------------------------- font size

  const DefaultFontSize: int := 48
  const MaxFontSize: int := 500

  /** A font size outside 1..500 is replaced by 48. */
  function EffectiveFontSize(fontSize: int): (r: int)
    ensures 1 <= r <= MaxFontSize
    ensures 1 <= fontSize <= MaxFontSize ==> r == fontSize
    ensures !(1 <= fontSize <= MaxFontSize) ==> r == DefaultFontSize
  {
    if fontSize <= 0 || fontSize > MaxFontSize then DefaultFontSize else fontSize
  }

  /** Clamping twice is clamping once. */
  lemma FontSizeIdempotent(fontSize: int)
    ensures EffectiveFontSize(EffectiveFontSize(fontSize)) == EffectiveFontSize(fontSize)
  {
  }

  // ---------------------------------------------------------------- hex digits

  /** strings.TrimPrefix(s, "#"): at most one leading '#' goes. */
  function TrimPrefix(s: seq<byte>): (r: seq<byte>)
    ensures |s| > 0 && s[0] == Hash ==> [Hash] + r == s
    ensures !(|s| > 0 && s[0] == Hash) ==> r == s
  {
    if |s| > 0 && s[0] == Hash then s[1..] else s
  }

  /** 0-9, a-f and A-F. */
  predicate IsHexDigit(c: byte)
  {
    (0x30 <= c <= 0x39) || (0x61 <= c <= 0x66) || (0x41 <= c <= 0x46)
  }

  function DigitValue(c: byte): (v: nat)
    requires IsHexDigit(c)
    ensures v < 16
  {
    if c <= 0x39 then c as int - 0x30
    else if c >= 0x61 then c as int - 0x61 + 10
    else c as int - 0x41 + 10
  }

  /**
   * strconv.ParseUint of a two-byte string in base 16 with bit size 8, its error dropped: two hex
   * digits give their value (at most 255, so never a range error); anything else is a syntax error,
   * for which ParseUint returns 0.
   */
  function ParsePair(hi: byte, lo: byte): (v: byte)
    ensures IsHexDigit(hi) && IsHexDigit(lo) ==> v as int == 16 * DigitValue(hi) + DigitValue(lo)
    ensures !(IsHexDigit(hi) && IsHexDigit(lo)) ==> v == 0
  {
    if IsHexDigit(hi) && IsHexDigit(lo) then (16 * DigitValue(hi) + DigitValue(lo)) as byte else 0
  }

  // ---------------------------------------------------------------- the parser as written

  /** parseHexColor: a wrong length after the trim gives the zero colour; otherwise three pairs and an opaque alpha. The error is always nil. */
  function ParseHexColor(s: seq<byte>): (p: Parsed)
    ensures p.err == None
    ensures |TrimPrefix(s)| != 6 ==> p.color == Transparent
    ensures |TrimPrefix(s)| == 6 ==> p.color.a == Opaque
  {
    var t := TrimPrefix(s);
    if |t| != 6 then Parsed(Transparent, None)
    else Parsed(RGBA(ParsePair(t[0], t[1]), ParsePair(t[2], t[3]), ParsePair(t[4], t[5]), Opaque), None)
  }

  /** The caller's choice of text colour: the parsed colour, or white when the parser reports an error. */
  function TextColorAsWritten(s: seq<byte>): RGBA
  {
    var p := ParseHexColor(s);
    if p.err.Some? then White else p.color
  }

  /** The white fallback never applies: the text colour is always the parsed colour. */
  lemma FallbackUnreachable(s: seq<byte>)
    ensures TextColorAsWritten(s) == ParseHexColor(s).color
  {
  }

  /** "#fff" is not six digits long, so the text is drawn in transparent black rather than white. */
  lemma ShortColorIsTransparent()
    ensures TextColorAsWritten([Hash, 0x66, 0x66, 0x66]) == Transparent
  {
  }

  /** The '#' is optional: with or without it the same colour comes out. */
  lemma HashIsOptional(s: seq<byte>)
    requires !(|s| > 0 && s[0] == Hash)
    ensures ParseHexColor([Hash] + s) == ParseHexColor(s)
  {
    assert ([Hash] + s)[1..] == s;
  }

  /** Only one '#' is trimmed: "##" followed by six digits is seven bytes and gives the zero colour. */
  lemma DoubleHashIsTransparent(s: seq<byte>)
    requires |s| == 6
    ensures ParseHexColor([Hash, Hash] + s).color == Transparent
  {
    assert ([Hash, Hash] + s)[1..] == [Hash] + s;
  }

  /** The channel bytes of a six-byte colour: pair k is bytes 2k and 2k+1. */
  function Channel(c: RGBA, k: nat): byte
    requires k < 3
  {
    if k == 0 then c.r else if k == 1 then c.g else c.b
  }

  /** A pair that is not two hex digits gives 0 for its channel; the others are unaffected. */
  lemma MalformedPairIsZero(s: seq<byte>, k: nat)
    requires k < 3 && |TrimPrefix(s)| == 6
    ensures var t := TrimPrefix(s);
            && Channel(ParseHexColor(s).color, k) == ParsePair(t[2 * k], t[2 * k + 1])
            && (!(IsHexDigit(t[2 * k]) && IsHexDigit(t[2 * k + 1])) ==> Channel(ParseHexColor(s).color, k) == 0)
  {
  }

  // ---------------------------------------------------------------- formatting, the parser's inverse

  /** The lower-case digit of a value below 16. */
  function HexDigit(v: nat): (c: byte)
    requires v < 16
    ensures IsHexDigit(c) && DigitValue(c) == v
  {
    if v < 10 then (0x30 + v) as byte else (0x61 + v - 10) as byte
  }

  function HexPair(v: byte): seq<byte>
  {
    [HexDigit(v as int / 16), HexDigit(v as int % 16)]
  }

  /** "#rrggbb" in lower case; the alpha is not written. */
  function FormatHex(c: RGBA): (s: seq<byte>)
    ensures |s| == 7 && s[0] == Hash
  {
    [Hash] + HexPair(c.r) + HexPair(c.g) + HexPair(c.b)
  }

  lemma PairRoundTrip(v: byte)
    ensures ParsePair(HexPair(v)[0], HexPair(v)[1]) == v
  {
  }

  /** Parsing a formatted colour, with or without its '#', gives the colour back, made opaque. */
  lemma ParseFormatRoundTrip(c: RGBA)
    ensures ParseHexColor(FormatHex(c)) == Parsed(c.(a := Opaque), None)
    ensures ParseHexColor(FormatHex(c)[1..]) == Parsed(c.(a := Opaque), None)
  {
    var s := FormatHex(c);
    assert s[1..] == HexPair(c.r) + HexPair(c.g) + HexPair(c.b);
    PairRoundTrip(c.r);
    PairRoundTrip(c.g);
    PairRoundTrip(c.b);
  }

  predicate IsHexColor(t: seq<byte>)
  {
    |t| == 6 && forall i :: 0 <= i < 6 ==> IsHexDigit(t[i])
  }

  /** A-F to a-f; every other byte unchanged. */
  function LowerDigit(c: byte): byte
  {
    if 0x41 <= c <= 0x46 then c + 0x20 else c
  }

  /** The digits with A-F in lower case. */
  function Lower(t: seq<byte>): seq<byte>
  {
    seq(|t|, i requires 0 <= i < |t| => LowerDigit(t[i]))
  }

  lemma DigitRoundTrip(c: byte)
    requires IsHexDigit(c)
    ensures HexDigit(DigitValue(c)) == LowerDigit(c)
  {
  }

  lemma SplitPair(hi: byte, lo: byte)
    requires IsHexDigit(hi) && IsHexDigit(lo)
    ensures HexPair(ParsePair(hi, lo)) == [LowerDigit(hi), LowerDigit(lo)]
  {
    var v := ParsePair(hi, lo);
    assert v as int / 16 == DigitValue(hi) && v as int % 16 == DigitValue(lo);
    DigitRoundTrip(hi);
    DigitRoundTrip(lo);
  }

  /** Every six-digit colour is its own canonical form: formatting what it parses to gives it back in lower case. */
  lemma FormatParseRoundTrip(s: seq<byte>)
    requires IsHexColor(TrimPrefix(s))
    ensures FormatHex(ParseHexColor(s).color) == [Hash] + Lower(TrimPrefix(s))
  {
    var t := TrimPrefix(s);
    assert IsHexDigit(t[0]) && IsHexDigit(t[1]) && IsHexDigit(t[2]);
    assert IsHexDigit(t[3]) && IsHexDigit(t[4]) && IsHexDigit(t[5]);
    SplitPair(t[0], t[1]);
    SplitPair(t[2], t[3]);
    SplitPair(t[4], t[5]);
    assert Lower(t) == [LowerDigit(t[0]), LowerDigit(t[1])] + [LowerDigit(t[2]), LowerDigit(t[3])] + [LowerDigit(t[4]), LowerDigit(t[5])];
  }

  // ---------------------------------------------------------------- the parser the caller relies on

  /** parseHexColor reporting the errors that the caller's white fallback expects. */
  function CheckedParseHexColor(s: seq<byte>): (p: Parsed)
    ensures p.err == None <==> IsHexColor(TrimPrefix(s))
    ensures p.err == None ==> p.color == ParseHexColor(s).color
  {
    var t := TrimPrefix(s);
    if |t| != 6 then Parsed(Transparent, Some(WrongLength))
    else if !IsHexColor(t) then Parsed(Transparent, Some(NotHexDigit))
    else ParseHexColor(s)
  }

  /** The text colour with the corrected parser. */
  function TextColor(s: seq<byte>): RGBA
  {
    var p := CheckedParseHexColor(s);
    if p.err.Some? then White else p.color
  }

  /** With the corrected parser a well-formed colour is drawn as written and anything else in white. */
  lemma TextColorIntended(s: seq<byte>)
    ensures IsHexColor(TrimPrefix(s)) ==> TextColor(s) == ParseHexColor(s).color && TextColor(s).a == Opaque
    ensures !IsHexColor(TrimPrefix(s)) ==> TextColor(s) == White
    ensures TextColor([Hash, 0x66, 0x66, 0x66]) == White
  {
  }
}
