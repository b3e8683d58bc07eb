/** The inbound call protocol as the session sees it: frames of a kind and a payload, and the
    check `getCallID` applies to the first frame of a call. */
module CallProtocol {
  import opened Wrappers
  import opened Pcm

  /** A tag byte that names none of the four kinds the session acts on. */
  type OtherTag = t: Byte | t != 0x00 && t != 0x01 && t != 0x10 && t != 0xff witness 0x02

  /** Frame kinds: the call's identifier, 16-bit linear audio, hangup, an error report,
      and any other tag the session does not act on. */
  datatype Kind = KindId | KindSlin | KindHangup | KindError | KindOther(tag: OtherTag)

  datatype Frame = Frame(kind: Kind, payload: seq<Byte>)

  /** The kind's tag byte in the AudioSocket framing. */
  function Tag(k: Kind): Byte {
    match k
    case KindHangup => 0x00
    case KindId => 0x01
    case KindSlin => 0x10
    case KindError => 0xff
    case KindOther(t) => t
  }

  /** The kind a tag byte announces. */
  function KindOf(t: Byte): (r: Kind)
    ensures Tag(r) == t
  {
    if t == 0x00 then KindHangup
    else if t == 0x01 then KindId
    else if t == 0x10 then KindSlin
    else if t == 0xff then KindError
    else KindOther(t)
  }

  /** Every kind has its own tag, so reading a kind back from its tag gives it again. */
  lemma KindOfTag(k: Kind)
    ensures KindOf(Tag(k)) == k
  {
  }

  /** No two kinds share a tag. */
  lemma TagInjective(a: Kind, b: Kind)
    requires Tag(a) == Tag(b)
    ensures a == b
  {
    KindOfTag(a);
    KindOfTag(b);
  }

  const DecimalDigits := "0123456789"

  /** `%d`: the decimal text of a number, most significant digit first, no leading zeros. */
  function Decimal(n: nat): (r: string)
    ensures |r| >= 1
    ensures forall i :: 0 <= i < |r| ==> r[i] in DecimalDigits
    ensures n < 10 <==> |r| == 1
  {
    if n < 10 then [DecimalDigits[n]] else Decimal(n / 10) + [DecimalDigits[n % 10]]
  }

  /** The number a string of decimal digits denotes. */
  function DecimalValue(r: string): nat
    requires forall i :: 0 <= i < |r| ==> r[i] in DecimalDigits
    decreases |r|
  {
    if r == [] then 0 else 10 * DecimalValue(r[..|r| - 1]) + (r[|r| - 1] as int - '0' as int)
  }

  /** The decimal text reads back as the number, and starts with a zero only for zero itself. */
  lemma {:induction false} DecimalRoundTrip(n: nat)
    ensures DecimalValue(Decimal(n)) == n
    ensures Decimal(n)[0] == '0' <==> n == 0
    decreases n
  {
    var r := Decimal(n);
    DigitValue(n % 10);
    if n >= 10 {
      DecimalRoundTrip(n / 10);
      assert r[..|r| - 1] == Decimal(n / 10);
      assert r[0] == Decimal(n / 10)[0];
    }
  }

  lemma DigitValue(d: nat)
    requires d < 10
    ensures DecimalDigits[d] as int - '0' as int == d
    ensures DecimalDigits[d] == '0' <==> d == 0
  {
  }

  /** One call of `audiosocket.NextMessage`: a frame, end of stream, or another read error. */
  datatype ReadResult = Read(frame: Frame) | ReadEof | ReadFailed(error: string)

  const UuidSize := 16

  type Uuid = s: seq<Byte> | |s| == UuidSize witness seq(16, _ => 0)

  /** The frame a call opens with. */
  function IdFrame(id: Uuid): Frame {
    Frame(KindId, id)
  }

  const WrongKindPrefix := "invalid message type "
  const WrongKindSuffix := " getting CallID"

  /** The error for a first frame of the wrong kind, which names the kind's tag. */
  function WrongKindText(k: Kind): string {
    WrongKindPrefix + Decimal(Tag(k)) + WrongKindSuffix
  }

  /** Why no call identifier was obtained. The texts of the end-of-stream and wrong-length errors
      belong to the I/O and UUID libraries and are kept abstract. */
  datatype CallIdError =
    | EndOfStream
    | ReadError(error: string)
    | WrongKind(message: string)
    | WrongLength(length: nat)

  datatype CallIdResult = CallId(id: Uuid) | NoCallId(reason: CallIdError)

  /** `getCallID`: the first read must succeed and be an identifier frame whose payload is
      exactly the 16 bytes of a UUID (`uuid.FromBytes`); anything else is an error. */
  function GetCallId(first: ReadResult): (r: CallIdResult)
    ensures r.CallId? <==> first.Read? && first.frame.kind == KindId && |first.frame.payload| == UuidSize
    ensures r.CallId? ==> r.id == first.frame.payload
    ensures first.ReadEof? ==> r == NoCallId(EndOfStream)
    ensures first.ReadFailed? ==> r == NoCallId(ReadError(first.error))
    ensures first.Read? && first.frame.kind == KindId && |first.frame.payload| != UuidSize ==>
      r == NoCallId(WrongLength(|first.frame.payload|))
  {
    match first
    case ReadEof => NoCallId(EndOfStream)
    case ReadFailed(e) => NoCallId(ReadError(e))
    case Read(f) =>
      if f.kind != KindId then NoCallId(WrongKind(WrongKindText(f.kind)))
      else if |f.payload| != UuidSize then NoCallId(WrongLength(|f.payload|))
      else CallId(f.payload)
  }

  /** The identifier a call announces is the identifier the session obtains. */
  lemma GetCallIdOfIdFrame(id: Uuid)
    ensures GetCallId(Read(IdFrame(id))) == CallId(id)
  {
  }

  /** No frame of another kind gives a call identifier; the error names the kind's tag. */
  lemma GetCallIdRejectsOtherKinds(f: Frame)
    requires f.kind != KindId
    ensures GetCallId(Read(f)) == NoCallId(WrongKind(WrongKindText(f.kind)))
  {
  }

  const HexDigits := "0123456789abcdef"

  /** Lower-case hexadecimal, two digits per byte, high nibble first. */
  function Hex(bytes: seq<Byte>): (r: string)
    ensures |r| == 2 * |bytes|
    ensures forall i :: 0 <= i < |bytes| ==> r[2 * i] == HexDigits[bytes[i] / 16] && r[2 * i + 1] == HexDigits[bytes[i] % 16]
    decreases |bytes|
  {
    if bytes == [] then ""
    else
      [HexDigits[bytes[0] / 16], HexDigits[bytes[0] % 16]] + Hex(bytes[1..])
  }

  /** Distinct nibbles have distinct digits. */
  lemma HexDigitsDistinct(x: nat, y: nat)
    requires x < 16 && y < 16 && HexDigits[x] == HexDigits[y]
    ensures x == y
  {
  }

  /** Where the two digits of byte `i` of an identifier stand in its text, after the dashes before it. */
  function HexPos(i: nat): nat {
    2 * i + (if i < 4 then 0 else if i < 6 then 1 else if i < 8 then 2 else if i < 10 then 3 else 4)
  }

  /** The canonical 8-4-4-4-12 text of a UUID, which the session uses as the chat identifier. */
  function UuidString(id: Uuid): (r: string)
    ensures |r| == 36
    ensures r[8] == '-' && r[13] == '-' && r[18] == '-' && r[23] == '-'
  {
    Hex(id[0..4]) + "-" + Hex(id[4..6]) + "-" + Hex(id[6..8]) + "-" + Hex(id[8..10]) + "-" + Hex(id[10..])
  }

  /** Byte `i` of the identifier is written as its high and then its low hexadecimal digit. */
  lemma UuidStringAt(id: Uuid, i: nat)
    requires i < UuidSize
    ensures UuidString(id)[HexPos(i)] == HexDigits[id[i] / 16]
    ensures UuidString(id)[HexPos(i) + 1] == HexDigits[id[i] % 16]
  {
    var r := UuidString(id);
    if i < 4 {
      var h := Hex(id[0..4]);
      assert id[0..4][i] == id[i];
      assert r[HexPos(i)] == h[2 * i] && r[HexPos(i) + 1] == h[2 * i + 1];
    } else if i < 6 {
      var h := Hex(id[4..6]);
      assert id[4..6][i - 4] == id[i];
      assert r[HexPos(i)] == h[2 * (i - 4)] && r[HexPos(i) + 1] == h[2 * (i - 4) + 1];
    } else if i < 8 {
      var h := Hex(id[6..8]);
      assert id[6..8][i - 6] == id[i];
      assert r[HexPos(i)] == h[2 * (i - 6)] && r[HexPos(i) + 1] == h[2 * (i - 6) + 1];
    } else if i < 10 {
      var h := Hex(id[8..10]);
      assert id[8..10][i - 8] == id[i];
      assert r[HexPos(i)] == h[2 * (i - 8)] && r[HexPos(i) + 1] == h[2 * (i - 8) + 1];
    } else {
      var h := Hex(id[10..]);
      assert id[10..][i - 10] == id[i];
      assert r[HexPos(i)] == h[2 * (i - 10)] && r[HexPos(i) + 1] == h[2 * (i - 10) + 1];
    }
  }

  /** Distinct calls get distinct chat identifiers: the text determines the identifier. */
  lemma UuidStringInjective(a: Uuid, b: Uuid)
    requires UuidString(a) == UuidString(b)
    ensures a == b
  {
    forall i | 0 <= i < UuidSize ensures a[i] == b[i] {
      UuidStringAt(a, i);
      UuidStringAt(b, i);
      HexDigitsDistinct(a[i] / 16, b[i] / 16);
      HexDigitsDistinct(a[i] % 16, b[i] % 16);
    }
  }
}
