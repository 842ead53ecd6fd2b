/**
 * The RDM6300 reader (util/tag_reader.py): a resumable parser that takes the
 * bytes waiting on the serial port and reads one fixed 14-byte frame
 *
 *   0x02, ten hex digits of payload, two hex digits of checksum, 0x03
 *
 * The Python parser is a generator; its local variables (the byte index, the
 * list of stored values and the decimal tag text) live on across calls of
 * `done()`. Here they are fields of the reader, and `active` says whether the
 * generator can still run (it cannot once it has returned or raised).
 */
module TagReader {
  import opened Wrappers
  import opened Numerals

  const START_CODE: int := 0x02
  const END_CODE: int := 0x03
  const FRAME_LENGTH: nat := 14

  type Byte = b: int | 0 <= b < 256

  /** The exceptions `__read` raises on a malformed frame. */
  datatype FrameError =
    | NotHex(position: nat)   // `int(b, 16)` fails on a byte at positions 1..12
    | BadMarkers              // 'Invalid start/stop bytes!'
    | BadChecksum             // 'Invalid checksum!'

  /** A completed frame as `__read` stores it: raw values at 0 and 13, nibbles at 1..12. */
  predicate IsFrame(f: seq<int>) {
    |f| == FRAME_LENGTH && forall i :: 1 <= i <= 12 ==> 0 <= f[i] < 16
  }

  /** `(f[i] << 4) | f[i + 1]` for two nibbles: the byte they spell. */
  function PairByte(f: seq<int>, i: nat): (b: nat)
    requires i + 1 < |f| && 0 <= f[i] < 16 && 0 <= f[i + 1] < 16
    ensures b < 256
  {
    f[i] * 16 + f[i + 1]
  }

  /** XOR of the first k payload bytes, spelled by the nibble pairs at 1, 3, 5, ... */
  function XorOfPairs(f: seq<int>, k: nat): nat
    requires IsFrame(f) && k <= 5
  {
    if k == 0 then 0 else Xor(XorOfPairs(f, k - 1), PairByte(f, 2 * k - 1))
  }

  /** The transmitted checksum (positions 11 and 12) equals the XOR of the five payload bytes. */
  predicate ChecksumOk(f: seq<int>)
    requires IsFrame(f)
  {
    XorOfPairs(f, 5) == PairByte(f, 11)
  }

  predicate MarkersOk(f: seq<int>)
    requires |f| == FRAME_LENGTH
  {
    f[0] == START_CODE && f[13] == END_CODE
  }

  /**
   * `tagID`: "000" followed by the decimal value of the six nibbles at
   * positions 5..10 read as one hexadecimal number.
   */
  function TagIdOf(f: seq<int>): (id: string)
    requires IsFrame(f)
    ensures 4 <= |id| <= 11 && id[..3] == "000"
    ensures ParseInt(id[3..]) == Some(HexNumber(f[5..11]))
    ensures IsDigits(id[3..]) && (|id| > 4 ==> id[3] != '0')
  {
    var value := HexNumber(f[5..11]);
    assert Pow(16, 6) < Pow(10, 8);
    NatToStringLength(value, 8);
    ParseIntOfNatToString(value);
    assert ("000" + NatToString(value))[3..] == NatToString(value);
    "000" + NatToString(value)
  }

  /** The value `__read` keeps for byte b received at position pos (0..13). */
  predicate Storable(pos: nat, b: Byte) {
    pos == 0 || pos == 13 || IsHexByte(b)
  }

  function StoredValue(pos: nat, b: Byte): (v: int)
    requires Storable(pos, b)
    ensures 1 <= pos <= 12 ==> 0 <= v < 16
  {
    if pos == 0 || pos == 13 then b else HexValue(b)
  }

  /** The generator's local variables between two calls of `done()`. */
  datatype Locals = Locals(index: nat, received: seq<int>, tag: string)

  /** Fewer than 14 values stored so far, nibbles after the first. */
  predicate LocalsOk(l: Locals) {
    l.index == |l.received| < FRAME_LENGTH
    && forall i :: 1 <= i < |l.received| ==> 0 <= l.received[i] < 16
  }

  const Start := Locals(0, [], "")

  /** How a frame ends: a validated frame with its decimal tag text, or an exception. */
  datatype Verdict = Accept(frame: seq<int>, tag: string) | Reject(error: FrameError)

  datatype StepResult = Continue(locals: Locals) | Finish(verdict: Verdict)

  /** The checks made once the 14th value is stored: markers first, then the checksum. */
  function Complete(f: seq<int>, tag: string): (v: Verdict)
    requires IsFrame(f)
  {
    if !MarkersOk(f) then Reject(BadMarkers)
    else if !ChecksumOk(f) then Reject(BadChecksum)
    else Accept(f, tag)
  }

  /** One pass of `__read`'s loop body when a byte b is waiting. */
  function StepByte(l: Locals, b: Byte): (r: StepResult)
    requires LocalsOk(l)
    ensures r.Continue? ==> LocalsOk(r.locals) && r.locals.index == l.index + 1
    ensures r.Finish? && r.verdict.Accept? ==> IsFrame(r.verdict.frame)
  {
    var tag := if l.index == 0 || l.index == 13 then l.tag else l.tag + NatToString(b);
    if !Storable(l.index, b) then Finish(Reject(NotHex(l.index)))
    else
      var received := l.received + [StoredValue(l.index, b)];
      if |received| == FRAME_LENGTH then Finish(Complete(received, tag))
      else Continue(Locals(|received|, received, tag))
  }

  /** Where the parser stands after the bytes of `input` were offered to it in order. */
  datatype FeedResult = FeedResult(verdict: Option<Verdict>, locals: Locals, rest: seq<Byte>)

  /** `__read` run over `input`: it stops at the end of the input or when the frame ends. */
  function Feed(l: Locals, input: seq<Byte>): (r: FeedResult)
    requires LocalsOk(l)
    ensures r.verdict.None? ==> r.rest == [] && LocalsOk(r.locals)
    ensures r.verdict.Some? && r.verdict.value.Accept? ==> IsFrame(r.verdict.value.frame)
    decreases |input|
  {
    if input == [] then FeedResult(None, l, [])
    else match StepByte(l, input[0])
      case Continue(next) => Feed(next, input[1..])
      case Finish(v) => FeedResult(Some(v), l, input[1..])
  }

  /** Offering the input in two pieces, with a pause between, ends where offering it at once does. */
  lemma {:induction false} FeedSplit(l: Locals, a: seq<Byte>, b: seq<Byte>)
    requires LocalsOk(l)
    ensures var first := Feed(l, a);
            Feed(l, a + b) ==
              if first.verdict.None? then Feed(first.locals, b)
              else FeedResult(first.verdict, first.locals, first.rest + b)
    decreases |a|
  {
    if a != [] {
      assert (a + b)[0] == a[0] && (a + b)[1..] == a[1..] + b;
      match StepByte(l, a[0])
      case Continue(next) => FeedSplit(next, a[1..], b);
      case Finish(v) =>
    } else {
      assert a + b == b;
    }
  }

  // ----- The frame as a whole, stated without the byte-by-byte parser -----

  /** The first position from `from` up to 12 whose byte `int(b, 16)` rejects. */
  function FirstNonHex(raw: seq<Byte>, from: nat): (p: Option<nat>)
    requires |raw| == FRAME_LENGTH && from >= 1
    ensures p.None? ==> forall i :: from <= i <= 12 ==> IsHexByte(raw[i])
    ensures p.Some? ==> from <= p.value <= 12 && !IsHexByte(raw[p.value])
                        && forall i :: from <= i < p.value ==> IsHexByte(raw[i])
    decreases 13 - from
  {
    if from > 12 then None
    else if !IsHexByte(raw[from]) then Some(from)
    else FirstNonHex(raw, from + 1)
  }

  /** The values stored for a run of raw bytes received from position 0 on. */
  function Converted(raw: seq<Byte>): (f: seq<int>)
    requires |raw| <= FRAME_LENGTH && forall i :: 0 <= i < |raw| ==> Storable(i, raw[i])
    ensures |f| == |raw| && forall i :: 0 <= i < |raw| ==> f[i] == StoredValue(i, raw[i])
  {
    seq(|raw|, i requires 0 <= i < |raw| => StoredValue(i, raw[i]))
  }

  /** The decimal text `str(b)` of each byte, concatenated. */
  function DecimalConcat(bytes: seq<Byte>): string
  {
    if bytes == [] then "" else DecimalConcat(bytes[..|bytes| - 1]) + NatToString(bytes[|bytes| - 1])
  }

  /** The locals after the first |p| bytes of a frame were stored. */
  function LocalsOf(p: seq<Byte>): (l: Locals)
    requires |p| < FRAME_LENGTH && forall i :: 0 <= i < |p| ==> Storable(i, p[i])
    ensures LocalsOk(l)
  {
    Locals(|p|, Converted(p), if p == [] then "" else DecimalConcat(p[1..]))
  }

  /** The verdict on 14 raw bytes: hex digits at 1..12, then markers, then the checksum. */
  function FrameVerdict(raw: seq<Byte>): Verdict
    requires |raw| == FRAME_LENGTH
  {
    match FirstNonHex(raw, 1)
    case Some(p) => Reject(NotHex(p))
    case None => Complete(Converted(raw), DecimalConcat(raw[1..13]))
  }

  /** A frame is accepted exactly when its digits are hex, its markers are 0x02/0x03 and its checksum matches. */
  lemma FrameVerdictAccepts(raw: seq<Byte>)
    requires |raw| == FRAME_LENGTH
    ensures FrameVerdict(raw).Accept? <==>
              (forall i :: 1 <= i <= 12 ==> IsHexByte(raw[i]))
              && raw[0] == START_CODE && raw[13] == END_CODE
              && ChecksumOk(Converted(raw))
    ensures FrameVerdict(raw).Accept? ==> FrameVerdict(raw).frame == Converted(raw)
  {
  }

  lemma ConvertedSnoc(p: seq<Byte>, b: Byte)
    requires |p| < FRAME_LENGTH && forall i :: 0 <= i < |p| ==> Storable(i, p[i])
    requires Storable(|p|, b)
    ensures Converted(p + [b]) == Converted(p) + [StoredValue(|p|, b)]
  {
  }

  lemma DecimalConcatSnoc(p: seq<Byte>, b: Byte)
    requires |p| >= 1
    ensures DecimalConcat((p + [b])[1..]) == DecimalConcat(p[1..]) + NatToString(b)
  {
    assert (p + [b])[1..] == p[1..] + [b];
    assert (p[1..] + [b])[..|p[1..] + [b]| - 1] == p[1..];
  }

  /** One byte offered to the parser that holds the first k bytes of a frame. */
  lemma StepInsideFrame(raw: seq<Byte>, k: nat)
    requires |raw| >= FRAME_LENGTH && k < FRAME_LENGTH
    requires forall i :: 1 <= i < k && i <= 12 ==> IsHexByte(raw[i])
    ensures 1 <= k <= 12 && !IsHexByte(raw[k]) ==>
              StepByte(LocalsOf(raw[..k]), raw[k]) == Finish(Reject(NotHex(k)))
    ensures k == 13 ==>
              StepByte(LocalsOf(raw[..k]), raw[k])
                == Finish(Complete(Converted(raw[..FRAME_LENGTH]), DecimalConcat(raw[1..13])))
    ensures (k == 0 || (k < 13 && IsHexByte(raw[k]))) ==>
              StepByte(LocalsOf(raw[..k]), raw[k]) == Continue(LocalsOf(raw[..k + 1]))
  {
    var p := raw[..k];
    var b := raw[k];
    assert raw[..k + 1] == p + [b];
    if Storable(k, b) {
      ConvertedSnoc(p, b);
      if k >= 1 {
        DecimalConcatSnoc(p, b);
      }
      if k == 13 {
        assert p[1..] == raw[1..13];
      }
    }
  }

  /** From any point inside a frame, the parser reaches the whole-frame verdict after byte 13. */
  lemma {:induction false} FeedReachesVerdict(raw: seq<Byte>, k: nat)
    requires |raw| >= FRAME_LENGTH && k < FRAME_LENGTH
    requires forall i :: 1 <= i < k && i <= 12 ==> IsHexByte(raw[i])
    ensures var r := Feed(LocalsOf(raw[..k]), raw[k..]);
            r.verdict == Some(FrameVerdict(raw[..FRAME_LENGTH]))
            && (r.verdict.value.Accept? ==> r.rest == raw[FRAME_LENGTH..])
    decreases FRAME_LENGTH - k
  {
    if 1 <= k <= 12 && !IsHexByte(raw[k]) {
      FeedAtNonHex(raw, k);
    } else if k == 13 {
      FeedAtLastByte(raw);
    } else {
      FeedInsideFrame(raw, k);
      FeedReachesVerdict(raw, k + 1);
    }
  }

  /** A byte at 1..12 that is not a hex digit ends the frame with the first-non-hex verdict. */
  lemma FeedAtNonHex(raw: seq<Byte>, k: nat)
    requires |raw| >= FRAME_LENGTH && 1 <= k <= 12 && !IsHexByte(raw[k])
    requires forall i :: 1 <= i < k ==> IsHexByte(raw[i])
    ensures var r := Feed(LocalsOf(raw[..k]), raw[k..]);
            r.verdict == Some(FrameVerdict(raw[..FRAME_LENGTH]))
  {
    var input := raw[k..];
    assert input[0] == raw[k];
    StepInsideFrame(raw, k);
    FirstNonHexFinds(raw[..FRAME_LENGTH], 1, k);
  }

  /** Byte 13 completes the frame with the whole-frame verdict; the bytes after it stay waiting. */
  lemma FeedAtLastByte(raw: seq<Byte>)
    requires |raw| >= FRAME_LENGTH
    requires forall i :: 1 <= i <= 12 ==> IsHexByte(raw[i])
    ensures var r := Feed(LocalsOf(raw[..13]), raw[13..]);
            r.verdict == Some(FrameVerdict(raw[..FRAME_LENGTH]))
            && r.rest == raw[FRAME_LENGTH..]
  {
    var frame := raw[..FRAME_LENGTH];
    var input := raw[13..];
    assert input[0] == raw[13] && input[1..] == raw[14..];
    StepInsideFrame(raw, 13);
    FirstNonHexNone(frame, 1);
    assert frame[1..13] == raw[1..13];
  }

  /** A byte that the frame accepts leaves the parser holding one more byte of it. */
  lemma FeedInsideFrame(raw: seq<Byte>, k: nat)
    requires |raw| >= FRAME_LENGTH && k < 13
    requires forall i :: 1 <= i < k ==> IsHexByte(raw[i])
    requires k == 0 || IsHexByte(raw[k])
    ensures Feed(LocalsOf(raw[..k]), raw[k..]) == Feed(LocalsOf(raw[..k + 1]), raw[k + 1..])
  {
    var input := raw[k..];
    assert input[0] == raw[k] && input[1..] == raw[k + 1..];
    StepInsideFrame(raw, k);
  }

  lemma {:induction false} FirstNonHexFinds(raw: seq<Byte>, from: nat, k: nat)
    requires |raw| == FRAME_LENGTH && 1 <= from <= k <= 12
    requires !IsHexByte(raw[k]) && forall i :: from <= i < k ==> IsHexByte(raw[i])
    ensures FirstNonHex(raw, from) == Some(k)
    decreases k - from
  {
    if from < k {
      FirstNonHexFinds(raw, from + 1, k);
    }
  }

  lemma {:induction false} FirstNonHexNone(raw: seq<Byte>, from: nat)
    requires |raw| == FRAME_LENGTH && from >= 1
    requires forall i :: from <= i <= 12 ==> IsHexByte(raw[i])
    ensures FirstNonHex(raw, from) == None
    decreases 13 - from
  {
    if from <= 12 {
      FirstNonHexNone(raw, from + 1);
    }
  }

  /**
   * Fed to a fresh parser, bytes that start with a whole frame yield the
   * whole-frame verdict, and on acceptance every byte after the frame stays waiting.
   */
  lemma DecodeFromStart(raw: seq<Byte>)
    requires |raw| >= FRAME_LENGTH
    ensures var r := Feed(Start, raw);
            r.verdict == Some(FrameVerdict(raw[..FRAME_LENGTH]))
            && (r.verdict.value.Accept? ==> r.rest == raw[FRAME_LENGTH..])
  {
    assert raw[..0] == [] && raw[0..] == raw;
    assert LocalsOf(raw[..0]) == Start;
    FeedReachesVerdict(raw, 0);
  }

  // ----- A frame as a reader sends it, for the round trip -----

  function XorAll(payload: seq<int>): (x: nat)
    requires forall i :: 0 <= i < |payload| ==> 0 <= payload[i] < 256
    ensures x < 256
  {
    if payload == [] then 0
    else
      var init := XorAll(payload[..|payload| - 1]);
      XorBound(init, payload[|payload| - 1], 8);
      Xor(init, payload[|payload| - 1])
  }

  /** The twelve nibbles a reader sends: each payload byte, then the checksum, high nibble first. */
  function FrameNibbles(payload: seq<int>): (n: seq<int>)
    requires |payload| == 5 && forall i :: 0 <= i < 5 ==> 0 <= payload[i] < 256
    ensures |n| == 12 && forall i :: 0 <= i < 12 ==> 0 <= n[i] < 16
  {
    seq(12, i requires 0 <= i < 12 => Nibble(if i < 10 then payload[i / 2] else XorAll(payload), i % 2 == 0))
  }

  /** The high or the low nibble of a byte. */
  function Nibble(v: int, high: bool): (d: int)
    requires 0 <= v < 256
    ensures 0 <= d < 16
  {
    if high then v / 16 else v % 16
  }

  /** The 14 bytes a reader sends for a five-byte card payload: the nibbles as upper-case hex digits between the markers. */
  function EncodeFrame(payload: seq<int>): (raw: seq<Byte>)
    requires |payload| == 5 && forall i :: 0 <= i < 5 ==> 0 <= payload[i] < 256
    ensures |raw| == FRAME_LENGTH
  {
    var n := FrameNibbles(payload);
    [START_CODE as Byte] + seq(12, i requires 0 <= i < 12 => HexDigitByte(n[i]) as Byte) + [END_CODE as Byte]
  }

  lemma HexNumberAppendPair(s: seq<int>, x: int)
    requires 0 <= x < 256 && forall i :: 0 <= i < |s| ==> 0 <= s[i] < 16
    ensures HexNumber(s + [x / 16, x % 16]) == HexNumber(s) * 256 + x
  {
    var t := s + [x / 16];
    assert (s + [x / 16, x % 16])[..|s| + 1] == t;
    assert t[..|s|] == s;
  }

  lemma EncodedDigits(payload: seq<int>)
    requires |payload| == 5 && forall i :: 0 <= i < 5 ==> 0 <= payload[i] < 256
    ensures var raw := EncodeFrame(payload);
            (forall i :: 1 <= i <= 12 ==> IsHexByte(raw[i]))
            && (forall j :: 0 <= j < 5 ==>
                  HexValue(raw[2 * j + 1]) == payload[j] / 16 && HexValue(raw[2 * j + 2]) == payload[j] % 16)
            && HexValue(raw[11]) == XorAll(payload) / 16
            && HexValue(raw[12]) == XorAll(payload) % 16
  {
    var raw := EncodeFrame(payload);
    var n := FrameNibbles(payload);
    forall i | 1 <= i <= 12
      ensures IsHexByte(raw[i]) && HexValue(raw[i]) == n[i - 1]
    {
    }
    forall j | 0 <= j < 5
      ensures n[2 * j] == payload[j] / 16 && n[2 * j + 1] == payload[j] % 16
    {
      assert (2 * j) / 2 == j && (2 * j + 1) / 2 == j && (2 * j) % 2 == 0 && (2 * j + 1) % 2 == 1;
    }
  }


  lemma {:induction false} XorOfPairsIsXorAll(f: seq<int>, payload: seq<int>, k: nat)
    requires IsFrame(f) && |payload| == 5 && k <= 5
    requires forall i :: 0 <= i < 5 ==> 0 <= payload[i] < 256
    requires forall j :: 0 <= j < 5 ==> PairByte(f, 2 * j + 1) == payload[j]
    ensures XorOfPairs(f, k) == XorAll(payload[..k])
  {
    if k > 0 {
      XorOfPairsIsXorAll(f, payload, k - 1);
      assert payload[..k][..k - 1] == payload[..k - 1];
    }
  }

  /** The values `__read` stores for a frame a reader sends: the nibbles of each payload byte, then of the checksum. */
  lemma EncodedNibbles(payload: seq<int>)
    requires |payload| == 5 && forall i :: 0 <= i < 5 ==> 0 <= payload[i] < 256
    ensures var raw := EncodeFrame(payload);
            (forall i :: 1 <= i <= 12 ==> IsHexByte(raw[i]))
            && var f := Converted(raw);
            IsFrame(f)
            && (forall j :: 0 <= j < 5 ==> f[2 * j + 1] == payload[j] / 16 && f[2 * j + 2] == payload[j] % 16)
            && f[11] == XorAll(payload) / 16 && f[12] == XorAll(payload) % 16
  {
    EncodedDigits(payload);
  }

  /** The checksum a reader sends matches the one `__read` computes. */
  lemma EncodedChecksumOk(payload: seq<int>)
    requires |payload| == 5 && forall i :: 0 <= i < 5 ==> 0 <= payload[i] < 256
    ensures var f := Converted(EncodeFrame(payload));
            IsFrame(f) && ChecksumOk(f)
  {
    EncodedNibbles(payload);
    var f := Converted(EncodeFrame(payload));
    forall j | 0 <= j < 5 ensures PairByte(f, 2 * j + 1) == payload[j] {
      assert f[2 * j + 1] == payload[j] / 16 && f[2 * j + 2] == payload[j] % 16;
    }
    assert PairByte(f, 11) == XorAll(payload);
    XorOfPairsIsXorAll(f, payload, 5);
    assert payload[..5] == payload;
  }

  lemma EncodedChecksum(payload: seq<int>)
    requires |payload| == 5 && forall i :: 0 <= i < 5 ==> 0 <= payload[i] < 256
    ensures var raw := EncodeFrame(payload);
            var f := Converted(raw);
            IsFrame(f) && ChecksumOk(f) && FrameVerdict(raw) == Accept(f, DecimalConcat(raw[1..13]))
  {
    var raw := EncodeFrame(payload);
    EncodedNibbles(payload);
    EncodedChecksumOk(payload);
    FirstNonHexNone(raw, 1);
  }

  /** The six nibbles at positions 5..10 of a sent frame spell the last three payload bytes. */
  lemma EncodedTagValue(payload: seq<int>)
    requires |payload| == 5 && forall i :: 0 <= i < 5 ==> 0 <= payload[i] < 256
    ensures var f := Converted(EncodeFrame(payload));
            IsFrame(f) && HexNumber(f[5..11]) == payload[2] * 65536 + payload[3] * 256 + payload[4]
  {
    EncodedNibbles(payload);
    var f := Converted(EncodeFrame(payload));
    assert f[5] == payload[2] / 16 && f[6] == payload[2] % 16;
    assert f[7] == payload[3] / 16 && f[8] == payload[3] % 16;
    assert f[9] == payload[4] / 16 && f[10] == payload[4] % 16;
    NibblesOfThreeBytes(f, payload[2], payload[3], payload[4]);
  }

  /** Six nibbles at positions 5..10 that spell bytes a, b, c read as one hexadecimal number. */
  lemma NibblesOfThreeBytes(f: seq<int>, a: int, b: int, c: int)
    requires IsFrame(f) && 0 <= a < 256 && 0 <= b < 256 && 0 <= c < 256
    requires f[5] == a / 16 && f[6] == a % 16 && f[7] == b / 16
    requires f[8] == b % 16 && f[9] == c / 16 && f[10] == c % 16
    ensures HexNumber(f[5..11]) == a * 65536 + b * 256 + c
  {
    var ab := [a / 16, a % 16] + [b / 16, b % 16];
    assert f[5..11] == ab + [c / 16, c % 16];
    HexNumberAppendPair([], a);
    assert [] + [a / 16, a % 16] == [a / 16, a % 16];
    HexNumberAppendPair([a / 16, a % 16], b);
    HexNumberAppendPair(ab, c);
  }

  /**
   * Every frame a reader sends is accepted, and its tag ID is "000" followed by
   * the decimal value of the last three payload bytes.
   */
  lemma EncodedFrameAccepted(payload: seq<int>)
    requires |payload| == 5 && forall i :: 0 <= i < 5 ==> 0 <= payload[i] < 256
    ensures var v := FrameVerdict(EncodeFrame(payload));
            v.Accept? && IsFrame(v.frame)
            && ParseInt(TagIdOf(v.frame)[3..]) == Some(payload[2] * 65536 + payload[3] * 256 + payload[4])
  {
    EncodedChecksum(payload);
    EncodedTagValue(payload);
  }

  // ----- The reader object -----

  /** The checksum loop of `__read`: XOR the five payload bytes and compare. */
  method VerifyChecksum(f: seq<int>) returns (ok: bool)
    requires IsFrame(f)
    ensures ok <==> ChecksumOk(f)
  {
    var calculated := 0;
    var i := 1;
    ghost var pairs := 0;
    while i < 11
      invariant 0 <= pairs <= 5 && i == 2 * pairs + 1
      invariant calculated == XorOfPairs(f, pairs)
    {
      calculated := Xor(calculated, PairByte(f, i));
      i := i + 2;
      pairs := pairs + 1;
    }
    var receivedChecksum := PairByte(f, 11);
    ok := calculated == receivedChecksum;
  }

  datatype PollResult = NoByte | Consumed | Finished(verdict: Verdict)

  /**
   * The reader's contents as values: the bytes waiting, the generator's
   * locals while it can still run, `__raw_tag_data` and `__tag`.
   */
  datatype ReaderState = ReaderState(pending: seq<Byte>, parser: Option<Locals>, rawTagData: Option<string>, lastFrame: Option<seq<int>>)

  predicate ReaderOk(r: ReaderState) {
    (r.parser.Some? ==> LocalsOk(r.parser.value))
    && (r.lastFrame.Some? ==> IsFrame(r.lastFrame.value))
    && (r.rawTagData.Some? ==> r.lastFrame.Some?)
  }

  /**
   * `done()` on a reader holding `r`: True while a tag is held; a finished
   * generator restarted with False; otherwise the waiting bytes fed to the
   * generator until the frame ends or none is left.
   */
  function DoneStep(r: ReaderState): (d: (Result<bool, FrameError>, ReaderState))
    requires ReaderOk(r)
    ensures ReaderOk(d.1)
    ensures d.0 == Success(true) <==> d.1.rawTagData.Some?
    ensures d.0.Failure? ==> d.1.parser.None? && d.1.lastFrame == r.lastFrame
    ensures d.0 == Success(false) ==> d.1.parser.Some? && d.1.rawTagData.None? && d.1.lastFrame == r.lastFrame
  {
    if r.rawTagData.Some? then (Success(true), r)
    else if r.parser.None? then (Success(false), ReaderState([], Some(Start), None, r.lastFrame))
    else
      var f := Feed(r.parser.value, r.pending);
      match f.verdict
      case None => (Success(false), ReaderState(f.rest, Some(f.locals), None, r.lastFrame))
      case Some(Accept(frame, text)) => (Success(true), ReaderState(f.rest, None, Some(text), Some(frame)))
      case Some(Reject(e)) => (Failure(e), ReaderState(f.rest, None, None, r.lastFrame))
  }

  class Rdm6300 {
    /** Bytes received by the serial port and not read yet (`in_waiting`). */
    var pending: seq<Byte>
    /** The read generator can still run: it has neither returned nor raised. */
    var active: bool
    /** The generator's locals. */
    var index: nat
    var receivedData: seq<int>
    var tag: string
    /** `__raw_tag_data`: the decimal text of a validated frame, None while reading. */
    var rawTagData: Option<string>
    /** `__tag`: the last validated frame; `reset` leaves it alone. */
    var lastFrame: Option<seq<int>>

    ghost predicate Valid()
      reads this
    {
      (active ==> LocalsOk(CurrentLocals()))
      && (lastFrame.Some? ==> IsFrame(lastFrame.value))
      && (rawTagData.Some? ==> lastFrame.Some?)
    }

    function CurrentLocals(): Locals
      reads this
    {
      Locals(index, receivedData, tag)
    }

    /** What the reader holds; the locals of a generator that has ended are never read again. */
    function Snapshot(): (r: ReaderState)
      reads this
      ensures Valid() ==> ReaderOk(r)
    {
      ReaderState(pending, if active then Some(CurrentLocals()) else None, rawTagData, lastFrame)
    }

    /** Opens the port, on which `portBytes` may already be waiting; no read has started. */
    constructor (portBytes: seq<Byte>)
      ensures Valid() && pending == portBytes && !active
      ensures rawTagData == None && lastFrame == None
    {
      pending := portBytes;
      active := false;
      index, receivedData, tag := 0, [], "";
      rawTagData := None;
      lastFrame := None;
    }

    /** More bytes arrive on the serial line. */
    method Receive(bytes: seq<Byte>)
      modifies this`pending
      ensures pending == old(pending) + bytes
    {
      pending := pending + bytes;
    }

    /** `__clear`: read and drop bytes while any are waiting. */
    method Clear()
      modifies this`pending
      ensures pending == []
    {
      while pending != []
        decreases |pending|
      {
        pending := pending[1..];
      }
    }

    /** `reset`: drop every waiting byte and forget the validated tag text. */
    method Reset()
      requires Valid()
      modifies this`pending, this`rawTagData
      ensures Valid() && pending == [] && rawTagData == None
    {
      Clear();
      rawTagData := None;
    }

    /** `readTag`: start a new read generator, then `reset`. */
    method ReadTag()
      requires Valid()
      modifies this
      ensures Valid() && active && CurrentLocals() == Start
      ensures pending == [] && rawTagData == None && lastFrame == old(lastFrame)
    {
      active := true;
      index, receivedData, tag := 0, [], "";
      Reset();
    }

    /**
     * One pass of `__read`'s loop: with no byte waiting it yields (nothing
     * changes); otherwise it consumes exactly one byte and stores it, and
     * after the 14th byte checks the markers and the checksum.
     */
    method Poll() returns (r: PollResult)
      requires Valid() && active
      modifies this
      ensures Valid()
      ensures old(pending) == [] ==> r == NoByte && unchanged(this)
      ensures old(pending) != [] ==>
                pending == old(pending)[1..] &&
                var s := StepByte(old(CurrentLocals()), old(pending)[0]);
                match s
                case Continue(l) =>
                  r == Consumed && active && CurrentLocals() == l
                  && rawTagData == old(rawTagData) && lastFrame == old(lastFrame)
                case Finish(v) =>
                  r == Finished(v) && !active
                  && (v.Accept? ==> rawTagData == Some(v.tag) && lastFrame == Some(v.frame))
                  && (v.Reject? ==> rawTagData == old(rawTagData) && lastFrame == old(lastFrame))
    {
      if pending == [] {
        return NoByte;
      }
      var b := pending[0];
      pending := pending[1..];
      var value: int;
      if index == 0 || index == 13 {
        value := b;
      } else {
        tag := tag + NatToString(b);
        if !IsHexByte(b) {
          active := false;
          return Finished(Reject(NotHex(index)));
        }
        value := HexValue(b);
      }
      receivedData := receivedData + [value];
      index := index + 1;
      if index < FRAME_LENGTH {
        return Consumed;
      }
      active := false;
      if receivedData[0] != START_CODE || receivedData[13] != END_CODE {
        return Finished(Reject(BadMarkers));
      }
      var matches := VerifyChecksum(receivedData);
      if !matches {
        return Finished(Reject(BadChecksum));
      }
      rawTagData := Some(tag);
      lastFrame := Some(receivedData);
      return Finished(Accept(receivedData, tag));
    }

    /**
     * `done()`: True at once while a validated tag is held; a finished
     * generator is replaced through `readTag` and the answer is False;
     * otherwise the generator consumes the waiting bytes until the frame ends
     * (True, or the exception it raised) or none is left (False).
     */
    method Done() returns (r: Result<bool, FrameError>)
      requires Valid()
      modifies this
      ensures Valid()
      ensures old(rawTagData).Some? ==> r == Success(true) && unchanged(this)
      ensures old(rawTagData).None? && !old(active) ==>
                r == Success(false) && active && CurrentLocals() == Start
                && pending == [] && rawTagData == None && lastFrame == old(lastFrame)
      ensures old(rawTagData).None? && old(active) ==>
                var f := Feed(old(CurrentLocals()), old(pending));
                pending == f.rest &&
                match f.verdict
                case None =>
                  r == Success(false) && active && CurrentLocals() == f.locals
                  && rawTagData == None && lastFrame == old(lastFrame)
                case Some(Accept(frame, text)) =>
                  r == Success(true) && !active && rawTagData == Some(text) && lastFrame == Some(frame)
                case Some(Reject(e)) =>
                  r == Failure(e) && !active && rawTagData == None && lastFrame == old(lastFrame)
    ensures (r, Snapshot()) == DoneStep(old(Snapshot()))
    {
      if rawTagData.Some? {
        return Success(true);
      }
      if !active {
        ReadTag();
        return Success(false);
      }
      ghost var goal := Feed(CurrentLocals(), pending);
      while true
        invariant Valid() && active && rawTagData == None && lastFrame == old(lastFrame)
        invariant Feed(CurrentLocals(), pending) == goal
        decreases |pending|
      {
        var p := Poll();
        match p
        case NoByte =>
          return Success(false);
        case Consumed =>
        case Finished(v) =>
          if v.Accept? {
            return Success(true);
          }
          return Failure(v.error);
      }
    }

    /** `tagID`: the ID of the last validated frame; None where Python raises AttributeError. */
    function TagID(): (id: Option<string>)
      reads this
      requires Valid()
      ensures id.Some? <==> lastFrame.Some?
      ensures id.Some? ==> |id.value| >= 4 && ParseInt(id.value[3..]) == Some(HexNumber(lastFrame.value[5..11]))
    {
      if lastFrame.Some? then Some(TagIdOf(lastFrame.value)) else None
    }
  }
}
