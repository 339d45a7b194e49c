/** Audio formats as text: "rate:format:channels". */
module AudioFormat {
  import opened Decimal

  datatype SampleFormat = Undefined | S8 | S16 | S24P32 | S32 | Float | Dsd

  /** `uint32_t`, an enumeration and `uint8_t`. */
  datatype AudioFormat = AudioFormat(sampleRate: nat, format: SampleFormat, channels: nat) {
    predicate Representable() {
      sampleRate <= 0xffff_ffff && channels <= 0xff
    }
  }

  datatype Failure = Invalid | MissingValue

  datatype Result<+T> = Ok(value: T) | Err(error: Failure)

  const MAX_CHANNELS: nat := 8

  /** The capacity of `struct audio_format_string`, including the terminating NUL. */
  const BUFFER_SIZE: nat := 24

  predicate ValidSampleRate(rate: nat) {
    0 < rate < 0x4000_0000
  }

  predicate ValidChannelCount(channels: nat) {
    1 <= channels <= MAX_CHANNELS
  }

  /** `audio_format_valid()` */
  predicate Valid(af: AudioFormat) {
    ValidSampleRate(af.sampleRate) && af.format != Undefined && ValidChannelCount(af.channels)
  }

  /** `audio_format_mask_valid()` */
  predicate MaskValid(af: AudioFormat) {
    && (af.sampleRate == 0 || ValidSampleRate(af.sampleRate))
    && (af.channels == 0 || ValidChannelCount(af.channels))
  }

  /** `sample_format_to_string()` */
  function FormatName(f: SampleFormat): string {
    match f
    case Undefined => "?"
    case S8 => "8"
    case S16 => "16"
    case S24P32 => "24"
    case S32 => "32"
    case Float => "f"
    case Dsd => "dsd"
  }

  function FullText(af: AudioFormat): string {
    Digits(af.sampleRate) + (":" + FormatName(af.format) + (":" + Digits(af.channels)))
  }

  /** `audio_format_to_string()`: what fits into the buffer. */
  function ToString(af: AudioFormat): (s: string)
    ensures |s| < BUFFER_SIZE
  {
    var text := FullText(af);
    if |text| < BUFFER_SIZE then text else text[..BUFFER_SIZE - 1]
  }

  /** A parsed field and the text after it. */
  datatype Field<+T> = Field(field: T, rest: string)

  /** `parse_sample_rate()` */
  function ParseSampleRate(src: string, mask: bool): Result<Field<nat>> {
    if mask && src != "" && src[0] == '*' then Ok(Field(0, src[1..]))
    else
      var (value, end) := StrToUl(src);
      var rate := value % 0x1_0000_0000;
      if end == 0 then Err(Invalid)
      else if !ValidSampleRate(rate) then Err(Invalid)
      else Ok(Field(rate, src[end..]))
  }

  /** `parse_sample_format()` */
  function ParseSampleFormat(src: string, mask: bool): Result<Field<SampleFormat>> {
    if mask && src != "" && src[0] == '*' then Ok(Field(Undefined, src[1..]))
    else if src != "" && src[0] == 'f' then Ok(Field(Float, src[1..]))
    else if "dsd" <= src then Ok(Field(Dsd, src[3..]))
    else
      var (value, end) := StrToUl(src);
      if end == 0 then Err(Invalid)
      else if value == 8 then Ok(Field(S8, src[end..]))
      else if value == 16 then Ok(Field(S16, src[end..]))
      else if value == 24 then
        var rest := src[end..];
        Ok(Field(S24P32, if "_3" <= rest then rest[2..] else rest))
      else if value == 32 then Ok(Field(S32, src[end..]))
      else Err(Invalid)
  }

  /** `parse_channel_count()` */
  function ParseChannelCount(src: string, mask: bool): Result<Field<nat>> {
    if mask && src != "" && src[0] == '*' then Ok(Field(0, src[1..]))
    else
      var (value, end) := StrToUl(src);
      if end == 0 then Err(Invalid)
      else if !ValidChannelCount(value % 0x1_0000_0000) then Err(Invalid)
      else Ok(Field(value % 0x100, src[end..]))
  }

  /** `audio_format_parse()` */
  function Parse(src: string, mask: bool): Result<AudioFormat> {
    match ParseSampleRate(src, mask)
    case Err(e) => Err(e)
    case Ok(rate) =>
      if rate.rest == "" || rate.rest[0] != ':' then Err(MissingValue)
      else ParseAfterRate(rate.field, rate.rest[1..], mask)
  }

  function ParseAfterRate(rate: nat, src: string, mask: bool): Result<AudioFormat> {
    match ParseSampleFormat(src, mask)
    case Err(e) => Err(e)
    case Ok(format) =>
      if format.rest == "" || format.rest[0] != ':' then Err(MissingValue)
      else ParseAfterFormat(rate, format.field, format.rest[1..], mask)
  }

  function ParseAfterFormat(rate: nat, format: SampleFormat, src: string, mask: bool): Result<AudioFormat> {
    match ParseChannelCount(src, mask)
    case Err(e) => Err(e)
    case Ok(channels) =>
      if channels.rest != "" then Err(Invalid) else Ok(AudioFormat(rate, format, channels.field))
  }

  lemma SmallRemainder(k: nat, r: nat)
    requires r < 0x100
    ensures (0x100 * k + r) % 0x100 == r
  {
    var x := 0x100 * k + r;
    assert x == 0x100 * (x / 0x100) + x % 0x100;
    assert x / 0x100 == k;
  }

  /** Truncating to 8 bits does not change a channel count that is valid at 32 bits. */
  lemma ChannelCountKept(value: nat)
    requires ValidChannelCount(value % 0x1_0000_0000)
    ensures value % 0x100 == value % 0x1_0000_0000
  {
    var k := value / 0x1_0000_0000;
    var r := value % 0x1_0000_0000;
    assert value == 0x1_0000_0000 * k + r;
    SmallRemainder(0x100_0000 * k, r);
  }

  lemma ParsedChannels(src: string, mask: bool)
    ensures var r := ParseChannelCount(src, mask);
            r.Ok? ==> ValidChannelCount(r.value.field) || (mask && r.value.field == 0)
  {
    hide StrToUl;
    var (value, end) := StrToUl(src);
    if ValidChannelCount(value % 0x1_0000_0000) { ChannelCountKept(value); }
  }

  lemma ParsedRate(src: string, mask: bool)
    ensures var r := ParseSampleRate(src, mask);
            r.Ok? ==> ValidSampleRate(r.value.field) || (mask && r.value.field == 0)
  {
  }

  lemma ParsedFormat(src: string, mask: bool)
    ensures var r := ParseSampleFormat(src, mask);
            r.Ok? ==> r.value.field != Undefined || mask
  {
  }

  /** Every success is a valid format, or a valid mask if masks are allowed. */
  lemma ParsedIsValid(src: string, mask: bool)
    ensures var r := Parse(src, mask);
            r.Ok? ==> r.value.Representable() && if mask then MaskValid(r.value) else Valid(r.value)
  {
    hide ParseSampleRate, ParseSampleFormat, ParseChannelCount;
    ParsedRate(src, mask);
    var rate := ParseSampleRate(src, mask);
    if rate.Ok? && rate.value.rest != "" {
      ParsedFormat(rate.value.rest[1..], mask);
      var format := ParseSampleFormat(rate.value.rest[1..], mask);
      if format.Ok? && format.value.rest != "" {
        ParsedChannels(format.value.rest[1..], mask);
      }
    }
  }

  // ---- the round trip ----

  lemma PrintedRate(rate: nat, rest: string, mask: bool)
    requires rate <= 0xffff_ffff && (rest == "" || !IsDigit(rest[0]))
    ensures ParseSampleRate(Digits(rate) + rest, mask) ==
            if ValidSampleRate(rate) then Ok(Field(rate, rest)) else Err(Invalid)
  {
    hide Digits, ScanNumber;
    ScanDigits(rate, rest);
    var s := Digits(rate) + rest;
    assert IsDigit(s[0]) && s[|Digits(rate)|..] == rest;
  }

  lemma PrintedChannels(channels: nat, mask: bool)
    requires channels <= 0xff
    ensures ParseChannelCount(Digits(channels), mask) ==
            if ValidChannelCount(channels) then Ok(Field(channels, "")) else Err(Invalid)
  {
    hide Digits, ScanNumber;
    ScanDigits(channels, "");
    var s := Digits(channels);
    assert s + "" == s && IsDigit(s[0]) && s[|s|..] == "";
    assert StrToUl(s) == (channels, |s|);
    assert channels % 0x1_0000_0000 == channels && channels % 0x100 == channels;
    hide StrToUl;
  }

  lemma SmallDigits()
    ensures Digits(8) == "8" && Digits(16) == "16" && Digits(24) == "24" && Digits(32) == "32"
  {
  }

  lemma PrintedNumberFormat(n: nat, rest: string, mask: bool)
    requires n <= 32 && (rest == "" || (!IsDigit(rest[0]) && rest[0] != '_'))
    ensures ParseSampleFormat(Digits(n) + rest, mask) ==
            if n == 8 then Ok(Field(S8, rest))
            else if n == 16 then Ok(Field(S16, rest))
            else if n == 24 then Ok(Field(S24P32, rest))
            else if n == 32 then Ok(Field(S32, rest))
            else Err(Invalid)
  {
    hide Digits, ScanNumber;
    ScanDigits(n, rest);
    var s := Digits(n) + rest;
    assert IsDigit(s[0]) && s[|Digits(n)|..] == rest;
  }

  lemma PrintedFormat(f: SampleFormat, rest: string, mask: bool)
    requires rest == "" || (!IsDigit(rest[0]) && rest[0] != '_')
    ensures ParseSampleFormat(FormatName(f) + rest, mask) ==
            if f == Undefined then Err(Invalid) else Ok(Field(f, rest))
  {
    SmallDigits();
    match f
    case S8 => PrintedNumberFormat(8, rest, mask);
    case S16 => PrintedNumberFormat(16, rest, mask);
    case S24P32 => PrintedNumberFormat(24, rest, mask);
    case S32 => PrintedNumberFormat(32, rest, mask);
    case Undefined =>
      var s := "?" + rest;
      assert SpaceCount(s) == 0 && DigitCount(s[0..]) == 0;
    case Float => assert ("f" + rest)[1..] == rest;
    case Dsd => assert ("dsd" + rest)[3..] == rest;
  }

  /** The text of every representable format fits into the buffer. */
  lemma TextFits(af: AudioFormat)
    requires af.Representable()
    ensures ToString(af) == FullText(af)
  {
    assert PowerOfTen(3) == 1000;
    assert PowerOfTen(10) == 10_000_000_000 by {
      assert PowerOfTen(5) == 100_000 && PowerOfTen(7) == 10_000_000 && PowerOfTen(9) == 1_000_000_000;
    }
    DigitsLength(af.sampleRate, 10);
    DigitsLength(af.channels, 3);
  }

  lemma PrintedAfterFormat(af: AudioFormat, mask: bool)
    requires af.channels <= 0xff
    ensures ParseAfterFormat(af.sampleRate, af.format, Digits(af.channels), mask) ==
            if ValidChannelCount(af.channels) then Ok(af) else Err(Invalid)
  {
    hide Digits, ParseChannelCount;
    PrintedChannels(af.channels, mask);
  }

  lemma PrintedAfterRate(af: AudioFormat, mask: bool)
    requires af.channels <= 0xff
    ensures ParseAfterRate(af.sampleRate, FormatName(af.format) + (":" + Digits(af.channels)), mask) ==
            if af.format != Undefined && ValidChannelCount(af.channels) then Ok(af) else Err(Invalid)
  {
    hide Digits, ParseSampleFormat, ParseAfterFormat, FormatName;
    var rest := ":" + Digits(af.channels);
    PrintedFormat(af.format, rest, mask);
    assert rest[1..] == Digits(af.channels);
    PrintedAfterFormat(af, mask);
  }

  /** A format is read back from its text exactly when it is valid; otherwise it is rejected. */
  lemma RoundTripExactlyWhen(af: AudioFormat, mask: bool)
    requires af.Representable()
    ensures Parse(ToString(af), mask) == if Valid(af) then Ok(af) else Err(Invalid)
  {
    TextFits(af);
    hide Digits, ParseSampleRate, ParseAfterRate, FormatName, ToString;
    var format := FormatName(af.format) + (":" + Digits(af.channels));
    var rest := ":" + format;
    assert FullText(af) == Digits(af.sampleRate) + rest;
    PrintedRate(af.sampleRate, rest, mask);
    assert rest[1..] == format;
    PrintedAfterRate(af, mask);
  }

  /** `audio_format_mask_apply()` */
  function MaskApply(af: AudioFormat, mask: AudioFormat): (r: AudioFormat)
    requires Valid(af) && MaskValid(mask)
    ensures Valid(r)
  {
    AudioFormat(if mask.sampleRate != 0 then mask.sampleRate else af.sampleRate,
                if mask.format != Undefined then mask.format else af.format,
                if mask.channels != 0 then mask.channels else af.channels)
  }

  /** The format has the parts that the mask prescribes. */
  predicate Follows(af: AudioFormat, mask: AudioFormat) {
    && (mask.sampleRate != 0 ==> af.sampleRate == mask.sampleRate)
    && (mask.format != Undefined ==> af.format == mask.format)
    && (mask.channels != 0 ==> af.channels == mask.channels)
  }

  /** The two formats have the same parts where the mask prescribes nothing. */
  predicate SameOtherwise(a: AudioFormat, b: AudioFormat, mask: AudioFormat) {
    && (mask.sampleRate == 0 ==> a.sampleRate == b.sampleRate)
    && (mask.format == Undefined ==> a.format == b.format)
    && (mask.channels == 0 ==> a.channels == b.channels)
  }

  /** Applying a mask gives the one format that follows it and is otherwise unchanged. */
  lemma MaskApplied(af: AudioFormat, mask: AudioFormat, r: AudioFormat)
    requires Valid(af) && MaskValid(mask)
    ensures r == MaskApply(af, mask) <==> Follows(r, mask) && SameOtherwise(r, af, mask)
    ensures MaskApply(af, mask) == af <==> Follows(af, mask)
  {
  }

  // ---- masks as text ----

  function RateText(rate: nat): string {
    if rate == 0 then "*" else Digits(rate)
  }

  function FormatText(f: SampleFormat): string {
    if f == Undefined then "*" else FormatName(f)
  }

  function ChannelsText(channels: nat): string {
    if channels == 0 then "*" else Digits(channels)
  }

  /** The notation of the configuration file, with an asterisk for each part left open. */
  function MaskText(af: AudioFormat): string {
    RateText(af.sampleRate) + (":" + (FormatText(af.format) + (":" + ChannelsText(af.channels))))
  }

  predicate GoodRate(rate: nat, mask: bool) {
    ValidSampleRate(rate) || (mask && rate == 0)
  }

  predicate GoodFormat(f: SampleFormat, mask: bool) {
    f != Undefined || mask
  }

  predicate GoodChannels(channels: nat, mask: bool) {
    ValidChannelCount(channels) || (mask && channels == 0)
  }

  lemma StarIsNoNumber(rest: string)
    ensures StrToUl("*" + rest) == (0, 0)
  {
    var s := "*" + rest;
    assert SpaceCount(s) == 0 && s[0..] == s && DigitCount(s) == 0;
  }

  lemma RateRead(rate: nat, rest: string, mask: bool)
    requires rate <= 0xffff_ffff && (rest == "" || !IsDigit(rest[0]))
    ensures ParseSampleRate(RateText(rate) + rest, mask) ==
            if GoodRate(rate, mask) then Ok(Field(rate, rest)) else Err(Invalid)
  {
    hide Digits, StrToUl;
    StarIsNoNumber(rest);
    PrintedRate(rate, rest, mask);
    assert ("*" + rest)[1..] == rest;
  }

  lemma FormatRead(f: SampleFormat, rest: string, mask: bool)
    requires rest == "" || (!IsDigit(rest[0]) && rest[0] != '_')
    ensures ParseSampleFormat(FormatText(f) + rest, mask) ==
            if GoodFormat(f, mask) then Ok(Field(f, rest)) else Err(Invalid)
  {
    hide Digits, StrToUl, FormatName;
    StarIsNoNumber(rest);
    if f != Undefined {
      hide ParseSampleFormat;
      PrintedFormat(f, rest, mask);
    } else {
      assert ("*" + rest)[1..] == rest;
    }
  }

  lemma ChannelsRead(channels: nat, rest: string, mask: bool)
    requires channels <= 0xff && (rest == "" || !IsDigit(rest[0]))
    ensures ParseChannelCount(ChannelsText(channels) + rest, mask) ==
            if GoodChannels(channels, mask) then Ok(Field(channels, rest)) else Err(Invalid)
  {
    hide Digits, ScanNumber;
    StarIsNoNumber(rest);
    assert ("*" + rest)[1..] == rest;
    ScanDigits(channels, rest);
    var s := Digits(channels) + rest;
    assert IsDigit(s[0]) && s[|Digits(channels)|..] == rest;
    assert StrToUl(s) == (channels, |Digits(channels)|);
    assert channels % 0x1_0000_0000 == channels && channels % 0x100 == channels;
  }

  /** What follows the sample rate. */
  lemma RestRead(af: AudioFormat, extra: string, mask: bool)
    requires af.channels <= 0xff && (extra == "" || !IsDigit(extra[0]))
    ensures ParseAfterRate(af.sampleRate, FormatText(af.format) + (":" + (ChannelsText(af.channels) + extra)), mask) ==
            if GoodFormat(af.format, mask) && GoodChannels(af.channels, mask) && extra == ""
            then Ok(af) else Err(Invalid)
  {
    hide ParseSampleFormat, ParseChannelCount, FormatText, ChannelsText;
    var channels := ChannelsText(af.channels) + extra;
    FormatRead(af.format, ":" + channels, mask);
    assert (":" + channels)[1..] == channels;
    ChannelsRead(af.channels, extra, mask);
  }

  /**
   Every text of this form is read as what it says, exactly if each part is valid, or left
   open where that is allowed, and nothing follows; otherwise it is rejected.
   */
  lemma MaskRoundTrip(af: AudioFormat, extra: string, mask: bool)
    requires af.Representable() && (extra == "" || !IsDigit(extra[0]))
    ensures Parse(MaskText(af) + extra, mask) ==
            if (if mask then MaskValid(af) else Valid(af)) && extra == "" then Ok(af) else Err(Invalid)
  {
    hide ParseSampleRate, ParseAfterRate, RateText, FormatText, ChannelsText;
    var more := FormatText(af.format) + (":" + (ChannelsText(af.channels) + extra));
    assert MaskText(af) + extra == RateText(af.sampleRate) + (":" + more);
    RateRead(af.sampleRate, ":" + more, mask);
    assert (":" + more)[1..] == more;
    RestRead(af, extra, mask);
  }

  /** A text that ends too early is told apart from one with a wrong part. */
  lemma MissingParts(af: AudioFormat, mask: bool)
    requires af.Representable() && GoodRate(af.sampleRate, mask)
    ensures Parse(RateText(af.sampleRate), mask) == Err(MissingValue)
    ensures Parse(RateText(af.sampleRate) + (":" + FormatText(af.format)), mask) ==
            Err(if GoodFormat(af.format, mask) then MissingValue else Invalid)
  {
    hide ParseSampleRate, ParseSampleFormat, RateText, FormatText;
    var rate, format := RateText(af.sampleRate), FormatText(af.format);
    RateRead(af.sampleRate, "", mask);
    assert rate + "" == rate;
    RateRead(af.sampleRate, ":" + format, mask);
    assert (":" + format)[1..] == format && format + "" == format;
    FormatRead(af.format, "", mask);
  }

  /** The former name of the 24 bit format is still understood. */
  lemma FormerName(rest: string, mask: bool)
    ensures ParseSampleFormat("24_3" + rest, mask) == Ok(Field(S24P32, rest))
  {
    hide Digits, ScanNumber;
    SmallDigits();
    ScanDigits(24, "_3" + rest);
    var s := "24_3" + rest;
    assert s == Digits(24) + ("_3" + rest) && s[2..] == "_3" + rest && s[2..][2..] == rest;
  }
}
