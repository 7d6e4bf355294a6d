/** The segment value and its wire codec: the header of section 3.1 of RFC 9293 with TCP/FIPS options. */
module Wire {
  import opened Numbers

  const HEADER_LEN: nat := 20
  const MAX_HEADER_LEN: nat := 60
  const FIPS_OPTION_KIND: u8 := 254
  const FIPS_VERSION: u8 := 1

  /** The supported flag bits. The program's `Flags` can hold no other bit. */
  datatype Flags = Flags(fin: bool, syn: bool, rst: bool, psh: bool, ack: bool, ece: bool, cwr: bool) {
    function Bits(): (r: nat)
      ensures r < 0x100
    {
      Bit(fin) + 2 * Bit(syn) + 4 * Bit(rst) + 8 * Bit(psh) + 16 * Bit(ack) + 64 * Bit(ece) + 128 * Bit(cwr)
    }
  }

  const NO_FLAGS := Flags(false, false, false, false, false, false, false)
  const SYN_FLAG := NO_FLAGS.(syn := true)
  const SYN_ACK := NO_FLAGS.(syn := true, ack := true)
  const ACK_FLAG := NO_FLAGS.(ack := true)
  const DATA_FLAGS := NO_FLAGS.(ack := true, psh := true)
  const FIN_FLAGS := NO_FLAGS.(fin := true, ack := true)
  const RST_FLAG := NO_FLAGS.(rst := true)
  const RST_ACK := NO_FLAGS.(rst := true, ack := true)

  datatype TcpOption =
    | EndOfList
    | NoOperation
    | MaxSegmentSize(mss: u16)
    | FipsVersion(version: u8, reserved: u8)
    | Unknown(kind: u8, data: seq<byte>)

  datatype Segment = Segment(
    srcPort: u16,
    dstPort: u16,
    seqNo: u32,
    ack: Option<u32>,
    flags: Flags,
    window: u16,
    options: seq<TcpOption>,
    payload: seq<byte>)

  datatype WireError =
    | Truncated
    | InvalidHeaderLength
    | NonZeroChecksum
    | UrgentUnsupported
    | UnsupportedFlags(bits: nat)
    | ZeroPort
    | AckFlagMismatch
    | HeaderTooLong
    | OptionTooLong
    | MalformedOption

  function SequenceLen(s: Segment): nat {
    |s.payload| + Bit(s.flags.syn) + Bit(s.flags.fin)
  }

  predicate SupportsFipsVersion(s: Segment, expected: u8) {
    FipsVersion(expected, 0) in s.options
  }

  /** The value of the first MSS option. */
  function FirstMss(options: seq<TcpOption>): Option<u16> {
    if options == [] then None
    else if options[0].MaxSegmentSize? then Some(options[0].mss)
    else FirstMss(options[1..])
  }

  // ---------------------------------------------------------------- options

  function EncodedLen(option: TcpOption): nat {
    match option
    case EndOfList => 1
    case NoOperation => 1
    case MaxSegmentSize(_) => 4
    case FipsVersion(_, _) => 4
    case Unknown(_, data) => |data| + 2
  }

  function OptionsLen(options: seq<TcpOption>): nat {
    if options == [] then 0 else EncodedLen(options[0]) + OptionsLen(options[1..])
  }

  function EncodeOption(option: TcpOption): Result<seq<byte>, WireError> {
    match option
    case EndOfList => Ok([0])
    case NoOperation => Ok([1])
    case MaxSegmentSize(mss) => Ok([2, 4] + BigEndian16(mss))
    case FipsVersion(version, reserved) => Ok([FIPS_OPTION_KIND, 4, version, reserved])
    case Unknown(kind, data) =>
      if |data| + 2 > 255 then Err(OptionTooLong)
      else if kind <= 1 then Err(MalformedOption)
      else Ok([kind, |data| + 2] + data)
  }

  function EncodeOptions(options: seq<TcpOption>): Result<seq<byte>, WireError> {
    if options == [] then Ok([]) else
      match EncodeOption(options[0])
      case Err(e) => Err(e)
      case Ok(first) => Append(first, EncodeOptions(options[1..]))
  }

  /** The option of this kind and length byte, for a kind above 1. */
  function DecodeOption(kind: u8, data: seq<byte>): Result<TcpOption, WireError> {
    if kind == 2 && |data| == 2 then Ok(MaxSegmentSize(FromBigEndian16(data[0], data[1])))
    else if kind == FIPS_OPTION_KIND && |data| == 2 then Ok(FipsVersion(data[0], data[1]))
    else if kind == 2 || kind == FIPS_OPTION_KIND then Err(MalformedOption)
    else Ok(Unknown(kind, data))
  }

  function DecodeOptions(bytes: seq<byte>): Result<seq<TcpOption>, WireError> {
    if bytes == [] || bytes[0] == 0 then Ok([])
    else if bytes[0] == 1 then Prepend([NoOperation], DecodeOptions(bytes[1..]))
    else if |bytes| < 2 then Err(MalformedOption)
    else
      var len := bytes[1];
      if len < 2 || len > |bytes| then Err(MalformedOption)
      else
        match DecodeOption(bytes[0], bytes[2..len])
        case Err(e) => Err(e)
        case Ok(option) => Prepend([option], DecodeOptions(bytes[len..]))
  }

  function Prepend(front: seq<TcpOption>, rest: Result<seq<TcpOption>, WireError>): Result<seq<TcpOption>, WireError> {
    if rest.Err? then rest else Ok(front + rest.value)
  }

  // ---------------------------------------------------------------- segments

  function BigEndian16(n: u16): seq<byte> {
    [n / 0x100, n % 0x100]
  }

  function FromBigEndian16(hi: byte, lo: byte): u16 {
    hi * 0x100 + lo
  }

  function FromBigEndian32(a: byte, b: byte, c: byte, d: byte): u32 {
    a * 0x100_0000 + b * 0x1_0000 + c * 0x100 + d
  }

  function Zeros(n: nat): seq<byte> {
    seq(n, _ => 0)
  }

  function PaddedLen(n: nat): nat {
    (n + 3) / 4 * 4
  }

  function HeaderLen(s: Segment): nat {
    HEADER_LEN + PaddedLen(OptionsLen(s.options))
  }

  /** The fixed part of the header, with checksum and urgent pointer zero. */
  function FixedHeader(s: Segment, headerLen: nat): (r: seq<byte>)
    requires headerLen <= MAX_HEADER_LEN
    ensures |r| == HEADER_LEN
  {
    var ack := if s.ack.Some? then s.ack.value else 0;
    var offsetAndFlags := headerLen / 4 * 0x1000 + s.flags.Bits();
    [ s.srcPort / 0x100, s.srcPort % 0x100, s.dstPort / 0x100, s.dstPort % 0x100,
      s.seqNo / 0x100_0000, s.seqNo / 0x1_0000 % 0x100, s.seqNo / 0x100 % 0x100, s.seqNo % 0x100,
      ack / 0x100_0000, ack / 0x1_0000 % 0x100, ack / 0x100 % 0x100, ack % 0x100,
      offsetAndFlags / 0x100, offsetAndFlags % 0x100, s.window / 0x100, s.window % 0x100, 0, 0, 0, 0 ]
  }

  function Encode(s: Segment): Result<seq<byte>, WireError> {
    if s.srcPort == 0 || s.dstPort == 0 then Err(ZeroPort)
    else if s.flags.ack != s.ack.Some? then Err(AckFlagMismatch)
    else if HeaderLen(s) > MAX_HEADER_LEN then Err(HeaderTooLong)
    else
      match EncodeOptions(s.options)
      case Err(e) => Err(e)
      case Ok(options) =>
        Ok(FixedHeader(s, HeaderLen(s)) + options
           + Zeros(SatSub(HeaderLen(s) - HEADER_LEN, |options|)) + s.payload)
  }

  /** Bits 0x020 and 0x100 of the nine flag bits are not supported. */
  function FlagsFromWire(bits: nat): Result<Flags, WireError> {
    if bits / 0x20 % 2 == 1 || bits / 0x100 % 2 == 1 then Err(UnsupportedFlags(bits))
    else Ok(Flags(bits % 2 == 1, bits / 2 % 2 == 1, bits / 4 % 2 == 1, bits / 8 % 2 == 1,
                  bits / 16 % 2 == 1, bits / 64 % 2 == 1, bits / 128 % 2 == 1))
  }

  function Decode(bytes: seq<byte>): Result<Segment, WireError> {
    if |bytes| < HEADER_LEN then Err(Truncated)
    else
      var srcPort := FromBigEndian16(bytes[0], bytes[1]);
      var dstPort := FromBigEndian16(bytes[2], bytes[3]);
      if srcPort == 0 || dstPort == 0 then Err(ZeroPort)
      else
        var offsetAndFlags := FromBigEndian16(bytes[12], bytes[13]);
        var headerLen := offsetAndFlags / 0x1000 * 4;
        if headerLen < HEADER_LEN || headerLen > MAX_HEADER_LEN || headerLen > |bytes| then Err(InvalidHeaderLength)
        else if FromBigEndian16(bytes[16], bytes[17]) != 0 then Err(NonZeroChecksum)
        else if FromBigEndian16(bytes[18], bytes[19]) != 0 then Err(UrgentUnsupported)
        else DecodeBody(bytes, srcPort, dstPort, offsetAndFlags, headerLen)
  }

  function DecodeBody(bytes: seq<byte>, srcPort: u16, dstPort: u16, offsetAndFlags: u16, headerLen: nat)
      : Result<Segment, WireError>
    requires HEADER_LEN <= headerLen <= |bytes|
  {
    match FlagsFromWire(offsetAndFlags % 0x200)
    case Err(e) => Err(e)
    case Ok(flags) =>
      match DecodeOptions(bytes[HEADER_LEN..headerLen])
      case Err(e) => Err(e)
      case Ok(options) =>
        Ok(Segment(
          srcPort, dstPort,
          FromBigEndian32(bytes[4], bytes[5], bytes[6], bytes[7]),
          if flags.ack then Some(FromBigEndian32(bytes[8], bytes[9], bytes[10], bytes[11])) else None,
          flags,
          FromBigEndian16(bytes[14], bytes[15]),
          options,
          bytes[headerLen..]))
  }

  // ---------------------------------------------------------------- properties

  /** An option that means itself on the wire. */
  predicate CanonicalOption(option: TcpOption) {
    && !option.EndOfList?
    && (option.Unknown? ==> option.kind > 1 && option.kind != 2 && option.kind != FIPS_OPTION_KIND)
  }

  predicate Canonical(options: seq<TcpOption>) {
    forall i :: 0 <= i < |options| ==> CanonicalOption(options[i])
  }

  /** What `encode` demands: everything but the payload can be refused. */
  predicate Encodable(s: Segment) {
    && s.srcPort != 0 && s.dstPort != 0
    && (s.flags.ack <==> s.ack.Some?)
    && HeaderLen(s) <= MAX_HEADER_LEN
    && (forall i :: 0 <= i < |s.options| && s.options[i].Unknown? ==> s.options[i].kind > 1)
  }

  lemma {:induction false} EncodeOptionsLen(options: seq<TcpOption>)
    requires OptionsLen(options) <= 40
    ensures EncodeOptions(options).Ok?
       <==> forall i :: 0 <= i < |options| && options[i].Unknown? ==> options[i].kind > 1
    ensures EncodeOptions(options).Ok? ==> |EncodeOptions(options).value| == OptionsLen(options)
  {
    if options != [] {
      EncodeOptionsLen(options[1..]);
      assert options == [options[0]] + options[1..];
    }
  }

  lemma EncodeSucceeds(s: Segment)
    ensures Encode(s).Ok? <==> Encodable(s)
    ensures Encode(s).Ok? ==> |Encode(s).value| == HeaderLen(s) + |s.payload|
  {
    if HeaderLen(s) <= MAX_HEADER_LEN {
      EncodeOptionsLen(s.options);
    }
  }

  /** Decoding stops at padding, so a canonical option list survives the round trip. */
  lemma {:induction false} OptionsRoundTrip(options: seq<TcpOption>, padding: nat)
    requires EncodeOptions(options).Ok? && Canonical(options)
    ensures DecodeOptions(EncodeOptions(options).value + Zeros(padding)) == Ok(options)
  {
    if options != [] {
      var first, rest := EncodeOption(options[0]).value, EncodeOptions(options[1..]).value;
      var bytes := EncodeOptions(options).value + Zeros(padding);
      OptionsRoundTrip(options[1..], padding);
      assert bytes == first + (rest + Zeros(padding));
      assert bytes[|first|..] == rest + Zeros(padding);
      assert [options[0]] + options[1..] == options;
      OneOptionRoundTrip(options[0], bytes);
    }
  }

  lemma OneOptionRoundTrip(option: TcpOption, bytes: seq<byte>)
    requires EncodeOption(option).Ok? && CanonicalOption(option)
    requires EncodeOption(option).value <= bytes
    ensures DecodeOptions(bytes) == Prepend([option], DecodeOptions(bytes[|EncodeOption(option).value|..]))
  {
    var first := EncodeOption(option).value;
    assert bytes[..|first|] == first;
    assert bytes[0] == first[0] && (|first| > 1 ==> bytes[1] == first[1] == |first|);
    if |first| > 1 {
      assert bytes[2..|first|] == first[2..];
      if option.Unknown? {
        assert first[2..] == option.data;
      }
    }
  }

  /** The decoder only makes canonical options, and they fit the bytes they were read from. */
  lemma {:induction false} DecodedOptions(bytes: seq<byte>)
    requires DecodeOptions(bytes).Ok?
    ensures Canonical(DecodeOptions(bytes).value)
    ensures OptionsLen(DecodeOptions(bytes).value) <= |bytes|
    decreases |bytes|
  {
    var options := DecodeOptions(bytes).value;
    if bytes != [] && bytes[0] != 0 {
      var len := if bytes[0] == 1 then 1 else bytes[1];
      DecodedOptions(bytes[len..]);
      assert options[1..] == DecodeOptions(bytes[len..]).value;
    }
  }

  lemma FlagsRoundTrip(flags: Flags, headerLen: nat)
    requires headerLen % 4 == 0 && headerLen <= MAX_HEADER_LEN
    ensures FlagsFromWire((headerLen / 4 * 0x1000 + flags.Bits()) % 0x200) == Ok(flags)
  {
    hide FlagsFromWire, Flags.Bits;
    LowBits(headerLen / 4, flags.Bits());
    FlagBits(flags);
  }

  lemma LowBits(offset: nat, bits: nat)
    requires bits < 0x100
    ensures (offset * 0x1000 + bits) % 0x200 == bits && (offset * 0x1000 + bits) / 0x1000 == offset
  {
    Remainder(offset * 0x1000 + bits, 8 * offset, bits);
    Quotient(offset * 0x1000 + bits, offset, bits);
  }

  lemma Remainder(n: nat, q: nat, r: nat)
    requires n == 0x200 * q + r && r < 0x200
    ensures n % 0x200 == r
  {
  }

  lemma Quotient(n: nat, q: nat, r: nat)
    requires n == 0x1000 * q + r && r < 0x1000
    ensures n / 0x1000 == q
  {
  }

  lemma FlagBits(f: Flags)
    ensures FlagsFromWire(f.Bits()) == Ok(f)
  {
    var d0, d1, d2, d3, d4, d6, d7 :=
      Bit(f.fin), Bit(f.syn), Bit(f.rst), Bit(f.psh), Bit(f.ack), Bit(f.ece), Bit(f.cwr);
    BinaryDigits(f.Bits(), d0, d1, d2, d3, d4, d6, d7);
  }

  /** The binary digits of a number are the parities of its halves. */
  lemma BinaryDigits(n: nat, d0: nat, d1: nat, d2: nat, d3: nat, d4: nat, d6: nat, d7: nat)
    requires d0 <= 1 && d1 <= 1 && d2 <= 1 && d3 <= 1 && d4 <= 1 && d6 <= 1 && d7 <= 1
    requires n == d0 + 2 * d1 + 4 * d2 + 8 * d3 + 16 * d4 + 64 * d6 + 128 * d7
    ensures FlagsFromWire(n) == Ok(Flags(d0 == 1, d1 == 1, d2 == 1, d3 == 1, d4 == 1, d6 == 1, d7 == 1))
  {
    var q6 := d6 + 2 * d7;
    var q4 := d4 + 4 * q6;
    var q2 := d2 + 2 * d3 + 4 * q4;
    assert n == d0 + 2 * d1 + 4 * q2;
    Digits(n, d0, d1, q2);
    Digits(q2, d2, d3, q4);
    Digits(q4, d4, 0, q6);
    Digits(q6, d6, d7, 0);
    Halves(n);
    Halves(q2);
    Halves(q4);
    Halves(q6);
    assert n / 16 == q4 && n / 64 == q6;
  }

  lemma Digits(n: nat, d0: nat, d1: nat, rest: nat)
    requires d0 <= 1 && d1 <= 1 && n == d0 + 2 * d1 + 4 * rest
    ensures n % 2 == d0 && n / 2 % 2 == d1 && n / 4 == rest
  {
    var half := d1 + 2 * rest;
    LowDigit(n, d0, half);
    LowDigit(half, d1, rest);
  }

  lemma LowDigit(n: nat, d: nat, rest: nat)
    requires d <= 1 && n == d + 2 * rest
    ensures n % 2 == d && n / 2 == rest
  {
  }

  lemma Halves(n: nat)
    ensures n / 4 == n / 2 / 2 && n / 8 == n / 4 / 2 && n / 16 == n / 8 / 2 && n / 0x20 == n / 16 / 2
    ensures n / 64 == n / 0x20 / 2 && n / 128 == n / 64 / 2 && n / 0x100 == n / 128 / 2
  {
  }

  /** What a segment becomes on its way to the peer, or why it does not get there. */
  function Echo(s: Segment): Result<Segment, WireError> {
    match Encode(s)
    case Err(e) => Err(e)
    case Ok(bytes) => Decode(bytes)
  }

  /** A segment that encodes comes back as itself exactly when its options are canonical. */
  lemma SegmentRoundTrip(s: Segment)
    ensures Echo(s) == Ok(s) <==> Encodable(s) && Canonical(s.options)
  {
    EncodeSucceeds(s);
    if Encodable(s) {
      EncodedComesBack(s);
    }
  }

  lemma EncodedComesBack(s: Segment)
    requires Encodable(s)
    ensures Echo(s) == Ok(s) <==> Canonical(s.options)
  {
    EncodeSucceeds(s);
    var bytes := Encode(s).value;
    var headerLen := HeaderLen(s);
    var options := EncodeOptions(s.options).value;
    EncodeOptionsLen(s.options);
    var padding := headerLen - HEADER_LEN - |options|;
    assert bytes == FixedHeader(s, headerLen) + (options + Zeros(padding)) + s.payload;
    HeaderFieldsRoundTrip(s, bytes);
    assert bytes[HEADER_LEN..headerLen] == options + Zeros(padding);
    assert bytes[headerLen..] == s.payload;
    if Canonical(s.options) {
      OptionsRoundTrip(s.options, padding);
    }
    if Decode(bytes) == Ok(s) {
      DecodedOptions(bytes[HEADER_LEN..headerLen]);
    }
  }

  lemma HeaderFieldsRoundTrip(s: Segment, bytes: seq<byte>)
    requires Encodable(s)
    requires HeaderLen(s) <= |bytes| && bytes[..HEADER_LEN] == FixedHeader(s, HeaderLen(s))
    ensures Decode(bytes) ==
      match DecodeOptions(bytes[HEADER_LEN..HeaderLen(s)])
      case Err(e) => Err(e)
      case Ok(options) => Ok(s.(options := options, payload := bytes[HeaderLen(s)..]))
  {
    var h := FixedHeader(s, HeaderLen(s));
    assert forall i :: 0 <= i < HEADER_LEN ==> bytes[i] == bytes[..HEADER_LEN][i] == h[i];
    FixedHeaderFields(s, h);
    FlagsRoundTrip(s.flags, HeaderLen(s));
  }

  lemma FixedHeaderFields(s: Segment, h: seq<byte>)
    requires HeaderLen(s) <= MAX_HEADER_LEN && h == FixedHeader(s, HeaderLen(s))
    ensures FromBigEndian16(h[0], h[1]) == s.srcPort && FromBigEndian16(h[2], h[3]) == s.dstPort
    ensures FromBigEndian32(h[4], h[5], h[6], h[7]) == s.seqNo
    ensures s.ack.Some? ==> FromBigEndian32(h[8], h[9], h[10], h[11]) == s.ack.value
    ensures FromBigEndian16(h[12], h[13]) == HeaderLen(s) / 4 * 0x1000 + s.flags.Bits()
    ensures FromBigEndian16(h[12], h[13]) / 0x1000 * 4 == HeaderLen(s)
    ensures FromBigEndian16(h[14], h[15]) == s.window
    ensures h[16] == h[17] == h[18] == h[19] == 0
  {
    var offset, bits := HeaderLen(s) / 4, s.flags.Bits();
    assert HeaderLen(s) == offset * 4 by { hide OptionsLen; }
    hide Flags.Bits, FromBigEndian32, FromBigEndian16, OptionsLen, HeaderLen;
    LowBits(offset, bits);
    BigEndian16RoundTrip(s.srcPort);
    BigEndian16RoundTrip(s.dstPort);
    BigEndian16RoundTrip(s.window);
    BigEndian16RoundTrip(offset * 0x1000 + bits);
    BigEndian32RoundTrip(s.seqNo);
    if s.ack.Some? { BigEndian32RoundTrip(s.ack.value); }
  }

  lemma BigEndian16RoundTrip(n: u16)
    ensures FromBigEndian16(n / 0x100, n % 0x100) == n
  {
  }

  lemma BigEndian32RoundTrip(n: u32)
    ensures FromBigEndian32(n / 0x100_0000, n / 0x1_0000 % 0x100, n / 0x100 % 0x100, n % 0x100) == n
  {
    Bytes32(n);
    var b, c := n / 0x100, n / 0x1_0000;
    assert n == b * 0x100 + n % 0x100;
    assert b == c * 0x100 + b % 0x100;
    assert c == n / 0x100_0000 * 0x100 + c % 0x100;
  }

  lemma Bytes32(n: u32)
    ensures n / 0x1_0000 == n / 0x100 / 0x100 && n / 0x100_0000 == n / 0x1_0000 / 0x100
  {
  }

  /** Every byte string that decodes re-encodes, to bytes that decode to the same segment. */
  lemma DecodedReencodes(bytes: seq<byte>, s: Segment)
    requires Decode(bytes) == Ok(s)
    ensures Echo(s) == Ok(s)
  {
    DecodedIsEncodable(bytes);
    SegmentRoundTrip(s);
  }

  lemma DecodedIsEncodable(bytes: seq<byte>)
    requires Decode(bytes).Ok?
    ensures Encodable(Decode(bytes).value) && Canonical(Decode(bytes).value.options)
  {
    hide DecodeOptions, FlagsFromWire, DecodeBody, OptionsLen, Encodable, Canonical;
    var offsetAndFlags := FromBigEndian16(bytes[12], bytes[13]);
    DecodedBodyIsEncodable(bytes, FromBigEndian16(bytes[0], bytes[1]), FromBigEndian16(bytes[2], bytes[3]),
                           offsetAndFlags, offsetAndFlags / 0x1000 * 4);
  }

  lemma DecodedBodyIsEncodable(bytes: seq<byte>, srcPort: u16, dstPort: u16, offsetAndFlags: u16, headerLen: nat)
    requires HEADER_LEN <= headerLen <= MAX_HEADER_LEN && headerLen <= |bytes| && headerLen % 4 == 0
    requires srcPort != 0 && dstPort != 0
    requires DecodeBody(bytes, srcPort, dstPort, offsetAndFlags, headerLen).Ok?
    ensures var s := DecodeBody(bytes, srcPort, dstPort, offsetAndFlags, headerLen).value;
            Encodable(s) && Canonical(s.options)
  {
    hide DecodeOptions, FlagsFromWire, OptionsLen, PaddedLen, FromBigEndian16, FromBigEndian32;
    var s := DecodeBody(bytes, srcPort, dstPort, offsetAndFlags, headerLen).value;
    DecodedOptions(bytes[HEADER_LEN..headerLen]);
    PaddingFits(OptionsLen(s.options), headerLen - HEADER_LEN);
  }

  lemma PaddingFits(n: nat, room: nat)
    requires n <= room && room % 4 == 0
    ensures PaddedLen(n) <= room
  {
  }

  // ---------------------------------------------------------------- the program's loops

  /** Appends one option to the output buffer. */
  method EncodeInto(option: TcpOption, output: seq<byte>) returns (r: Result<seq<byte>, WireError>)
    ensures r == match EncodeOption(option) case Err(e) => Err(e) case Ok(bytes) => Ok(output + bytes)
  {
    match option
    case EndOfList => r := Ok(output + [0]);
    case NoOperation => r := Ok(output + [1]);
    case MaxSegmentSize(mss) =>
      var grown := output + [2, 4];
      assert grown + BigEndian16(mss) == output + ([2, 4] + BigEndian16(mss));
      r := Ok(grown + BigEndian16(mss));
    case FipsVersion(version, reserved) => r := Ok(output + [FIPS_OPTION_KIND, 4, version, reserved]);
    case Unknown(kind, data) =>
      var len := |data| + 2;
      if len > 255 { return Err(OptionTooLong); }
      if kind <= 1 { return Err(MalformedOption); }
      var grown := output + [kind, len];
      assert grown + data == output + ([kind, len] + data);
      r := Ok(grown + data);
  }

  method EncodeSegment(s: Segment) returns (r: Result<seq<byte>, WireError>)
    ensures r == Encode(s)
  {
    if s.srcPort == 0 || s.dstPort == 0 { return Err(ZeroPort); }
    if s.flags.ack != s.ack.Some? { return Err(AckFlagMismatch); }
    var headerLen := HeaderLen(s);
    if headerLen > MAX_HEADER_LEN { return Err(HeaderTooLong); }
    var fixed := FixedHeader(s, headerLen);
    hide FixedHeader, HeaderLen, OptionsLen, EncodeOption, BigEndian16, Flags.Bits;
    var output := fixed;
    ghost var body: seq<byte> := [];
    assert s.options[0..] == s.options;
    AppendEmpty(EncodeOptions(s.options));
    for i := 0 to |s.options|
      invariant EncodeOptions(s.options) == Append(body, EncodeOptions(s.options[i..]))
      invariant output == fixed + body
    {
      var next := EncodeInto(s.options[i], output);
      assert s.options[i..][1..] == s.options[i + 1..];
      if next.Err? { return next; }
      ghost var first := EncodeOption(s.options[i]).value;
      AppendTwice(body, first, EncodeOptions(s.options[i + 1..]));
      assert output + first == fixed + (body + first);
      output, body := next.value, body + first;
    }
    assert EncodeOptions(s.options[|s.options|..]) == Ok([]);
    assert body + [] == body;
    r := Ok(output + Zeros(SatSub(headerLen, |output|)) + s.payload);
  }

  function Append(front: seq<byte>, rest: Result<seq<byte>, WireError>): Result<seq<byte>, WireError> {
    if rest.Err? then rest else Ok(front + rest.value)
  }

  lemma AppendEmpty(rest: Result<seq<byte>, WireError>)
    ensures Append([], rest) == rest
  {
    if rest.Ok? {
      assert [] + rest.value == rest.value;
    }
  }

  lemma AppendTwice(front: seq<byte>, next: seq<byte>, rest: Result<seq<byte>, WireError>)
    ensures Append(front, Append(next, rest)) == Append(front + next, rest)
  {
    if rest.Ok? {
      assert front + (next + rest.value) == (front + next) + rest.value;
    }
  }

  method DecodeOptionList(input: seq<byte>) returns (r: Result<seq<TcpOption>, WireError>)
    ensures r == DecodeOptions(input)
  {
    var bytes, options: seq<TcpOption> := input, [];
    assert DecodeOptions(input).Ok? ==> [] + DecodeOptions(input).value == DecodeOptions(input).value;
    while bytes != []
      invariant DecodeOptions(input) == Prepend(options, DecodeOptions(bytes))
      decreases |bytes|
    {
      var kind, rest := bytes[0], bytes[1..];
      if kind == 0 {
        assert options + [] == options;
        return Ok(options);
      }
      if kind == 1 {
        PrependTwice(options, NoOperation, DecodeOptions(rest));
        options, bytes := options + [NoOperation], rest;
      } else {
        if rest == [] { return Err(MalformedOption); }
        var len := rest[0];
        if len < 2 || len > |bytes| { return Err(MalformedOption); }
        var option := DecodeOption(kind, bytes[2..len]);
        if option.Err? { return Err(option.error); }
        PrependTwice(options, option.value, DecodeOptions(bytes[len..]));
        options, bytes := options + [option.value], bytes[len..];
      }
    }
    assert options + [] == options;
    r := Ok(options);
  }

  lemma PrependTwice(options: seq<TcpOption>, next: TcpOption, rest: Result<seq<TcpOption>, WireError>)
    ensures Prepend(options, Prepend([next], rest)) == Prepend(options + [next], rest)
  {
    if rest.Ok? {
      assert options + ([next] + rest.value) == (options + [next]) + rest.value;
    }
  }
}
