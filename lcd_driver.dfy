/**
 * The HD44780 character display behind an I2C backpack (util/lcd_driver.py).
 *
 * Each 8-bit command or character goes over the bus as two 4-bit transfers,
 * high nibble first; each transfer is three bus bytes (plain, enable set,
 * enable cleared), and every bus byte carries the backlight bit. The driver
 * object keeps the backlight setting and, here, the ordered log of every byte
 * written to the bus.
 */
module Lcd {
  import opened Wrappers
  import opened Numerals

  const LCD_CMD_MODE: bv8 := 0
  const LCD_DATA_MODE: bv8 := 1

  const LCD_CLEAR_DISPLAY: int := 0x01
  const LCD_RETURN_HOME: int := 0x02
  const LCD_ENTRY_MODE: int := 0x04
  const LCD_DISPLAY_CTRL: int := 0x08
  const LCD_FUNCTION_SET: int := 0x20
  const LCD_SET_CGRAM: int := 0x40
  const ENTRY_MODE_RIGHT: int := 0x02
  const DISPLAY_CTRL_ON: int := 0x04
  const FUNCTION_SET_4BIT: int := 0x00
  const FUNCTION_SET_2LINE: int := 0x08
  const FUNCTION_SET_5x8_DOTS: int := 0x00

  const LCD_BACKLIGHT_ON: bv8 := 0x08
  const LCD_BACKLIGHT_OFF: bv8 := 0x00
  const ENABLE_BIT: bv8 := 0x04

  /** DDRAM addresses of the first column of rows 1..4. */
  const LCD_LINES: seq<int> := [0x80, 0xC0, 0x94, 0xD4]

  /** The commands `__init__` sends, in order. */
  const INIT_COMMANDS: seq<int> := [
    0x33, 0x32,
    LCD_ENTRY_MODE + ENTRY_MODE_RIGHT,
    LCD_DISPLAY_CTRL + DISPLAY_CTRL_ON,
    LCD_FUNCTION_SET + FUNCTION_SET_2LINE + FUNCTION_SET_4BIT + FUNCTION_SET_5x8_DOTS,
    LCD_CLEAR_DISPLAY
  ]

  predicate IsMode(mode: bv8) {
    mode == LCD_CMD_MODE || mode == LCD_DATA_MODE
  }

  predicate IsBacklight(backlight: bv8) {
    backlight == LCD_BACKLIGHT_ON || backlight == LCD_BACKLIGHT_OFF
  }

  /**
   * The low eight bits of a Python integer (two's complement for negative
   * ones): `data & 0xF0` and `(data << 4) & 0xF0` only ever see these.
   */
  function LowByte(data: int): bv8 {
    (data % 256) as bv8
  }

  /** `data & 0xF0`: bits 4..7 in place. */
  function HighBits(data: int): bv8 {
    LowByte(data) & 0xF0
  }

  /** `(data << 4) & 0xF0`: bits 0..3 moved up to 4..7. */
  function LowBits(data: int): bv8 {
    LowByte(data) << 4
  }

  /** `__send_4_bits(v)`: `v | backlight` plain, then latched with enable set and cleared. */
  function NibbleBytes(v: bv8, backlight: bv8): seq<bv8> {
    var x := v | backlight;
    [x, x | ENABLE_BIT, x & !ENABLE_BIT]
  }

  /** `__send(data, mode)`: the high nibble, then the low nibble, each OR-ed with the mode bit. */
  function SendBytes(data: int, mode: bv8, backlight: bv8): seq<bv8> {
    NibblePair(HighBits(data), LowBits(data), mode, backlight)
  }

  /** The two nibbles of one send, each OR-ed with the mode bit. */
  function NibblePair(hi: bv8, lo: bv8, mode: bv8, backlight: bv8): seq<bv8> {
    NibbleBytes(mode | hi, backlight) + NibbleBytes(mode | lo, backlight)
  }

  /** One `__send`: the value, the register it goes to (mode) and the backlight at the time. */
  datatype Transfer = Transfer(data: int, mode: bv8, backlight: bv8)

  /** The bus bytes of a run of sends, in order. */
  function Wire(sends: seq<Transfer>): seq<bv8>
    decreases |sends|
  {
    if sends == [] then []
    else
      var last := sends[|sends| - 1];
      Wire(sends[..|sends| - 1]) + SendBytes(last.data, last.mode, last.backlight)
  }

  /** The codes sent one after another in one mode with one backlight. */
  function Sends(codes: seq<int>, mode: bv8, backlight: bv8): (r: seq<Transfer>)
    ensures |r| == |codes|
  {
    seq(|codes|, i requires 0 <= i < |codes| => Transfer(codes[i], mode, backlight))
  }

  /**
   * One send is six bus bytes: each nibble goes out plain, with enable set,
   * then with enable cleared; every byte carries the mode bit and the
   * backlight bit, and the send ends with enable cleared.
   */
  lemma SendBytesShape(data: int, mode: bv8, backlight: bv8)
    requires IsMode(mode) && IsBacklight(backlight)
    ensures var b := SendBytes(data, mode, backlight);
            |b| == 6
            && b[1] == b[0] | ENABLE_BIT && b[2] == b[0] && b[0] & ENABLE_BIT == 0
            && b[4] == b[3] | ENABLE_BIT && b[5] == b[3] && b[3] & ENABLE_BIT == 0
            && (forall k :: 0 <= k < 6 ==> b[k] & 0x01 == mode && b[k] & 0x08 == backlight)
  {
    NibblesClear(data);
    PairShape(HighBits(data), LowBits(data), mode, backlight);
  }

  /** The shape of one send, for any two nibbles that keep out of bits 0..3. */
  lemma PairShape(hi: bv8, lo: bv8, mode: bv8, backlight: bv8)
    requires IsMode(mode) && IsBacklight(backlight) && hi & 0x0F == 0 && lo & 0x0F == 0
    ensures var b := NibblePair(hi, lo, mode, backlight);
            |b| == 6
            && b[1] == b[0] | ENABLE_BIT && b[2] == b[0] && b[0] & ENABLE_BIT == 0
            && b[4] == b[3] | ENABLE_BIT && b[5] == b[3] && b[3] & ENABLE_BIT == 0
            && (forall k :: 0 <= k < 6 ==> b[k] & 0x01 == mode && b[k] & 0x08 == backlight)
  {
    NibbleShape(hi, mode, backlight);
    NibbleShape(lo, mode, backlight);
  }

  /** Both nibbles travel in bits 4..7, leaving bits 0..3 for the control lines. */
  lemma NibblesClear(data: int)
    ensures HighBits(data) & 0x0F == 0 && LowBits(data) & 0x0F == 0
  {
  }

  /** Three bytes of one nibble: the mode and backlight bits survive, the enable bit toggles. */
  lemma NibbleShape(v: bv8, mode: bv8, backlight: bv8)
    requires IsMode(mode) && IsBacklight(backlight) && v & 0x0F == 0
    ensures var b := NibbleBytes(mode | v, backlight);
            b[1] == b[0] | ENABLE_BIT && b[2] == b[0] && b[0] & ENABLE_BIT == 0
            && (forall k :: 0 <= k < 3 ==> b[k] & 0x01 == mode && b[k] & 0x08 == backlight)
  {
  }

  /** What a receiver reads back from the six bytes of one send: the byte, the mode and the backlight. */
  function DecodeSend(b: seq<bv8>): (bv8, bv8, bv8)
    requires |b| == 6
  {
    ((b[0] & 0xF0) | ((b[3] & 0xF0) >> 4), b[0] & 0x01, b[0] & 0x08)
  }

  /** The two nibble transfers of one send carry the low byte of the data, its mode and the backlight. */
  lemma DecodeSendRoundTrip(data: int, mode: bv8, backlight: bv8)
    requires IsMode(mode) && IsBacklight(backlight)
    ensures DecodeSend(SendBytes(data, mode, backlight)) == (LowByte(data), mode, backlight)
  {
    var x := LowByte(data);
    assert (x & 0xF0) | ((x << 4) >> 4) == x;
  }

  /** Sending n codes puts 6n bytes on the bus. */
  lemma {:induction false} WireLength(sends: seq<Transfer>)
    ensures |Wire(sends)| == 6 * |sends|
    decreases |sends|
  {
    if sends != [] {
      WireLength(sends[..|sends| - 1]);
    }
  }

  /** The bytes of two runs of sends are the bytes of the first, then those of the second. */
  lemma {:induction false} WireAppend(a: seq<Transfer>, b: seq<Transfer>)
    ensures Wire(a + b) == Wire(a) + Wire(b)
    decreases |b|
  {
    if b == [] {
      assert a + b == a;
    } else {
      var last := b[|b| - 1];
      assert (a + b)[..|a + b| - 1] == a + b[..|b| - 1];
      WireAppend(a, b[..|b| - 1]);
      ConcatAssoc(Wire(a), Wire(b[..|b| - 1]), SendBytes(last.data, last.mode, last.backlight));
    }
  }

  /** One more send adds its six bytes at the end. */
  lemma WireSnoc(sends: seq<Transfer>, t: Transfer)
    ensures Wire(sends + [t]) == Wire(sends) + SendBytes(t.data, t.mode, t.backlight)
  {
    assert (sends + [t])[..|sends|] == sends;
  }

  lemma ConcatAssoc<T>(a: seq<T>, b: seq<T>, c: seq<T>)
    ensures (a + b) + c == a + (b + c)
  {
  }

  lemma SendsAppend(a: seq<int>, b: seq<int>, mode: bv8, backlight: bv8)
    ensures Sends(a + b, mode, backlight) == Sends(a, mode, backlight) + Sends(b, mode, backlight)
  {
  }

  lemma SendsSnoc(codes: seq<int>, c: int, mode: bv8, backlight: bv8)
    ensures Sends(codes + [c], mode, backlight) == Sends(codes, mode, backlight) + [Transfer(c, mode, backlight)]
  {
  }

  /** switchOn and switchOff send the same command; only the backlight bit of each bus byte differs. */
  lemma BacklightOnlyDiffers()
    ensures var on := SendBytes(0, LCD_CMD_MODE, LCD_BACKLIGHT_ON);
            var off := SendBytes(0, LCD_CMD_MODE, LCD_BACKLIGHT_OFF);
            |on| == |off| == 6
            && forall k :: 0 <= k < 6 ==> on[k] == off[k] | 0x08 && off[k] & 0x08 == 0
  {
  }

  // ----- PrintLine's escape syntax -----

  datatype LcdError = IndexError | ValueError

  /** The data codes a line sends, and the exception that ends it early, if any. */
  datatype ScanResult = ScanResult(codes: seq<int>, error: Option<LcdError>)

  function Prepend(c: int, r: ScanResult): ScanResult {
    ScanResult([c] + r.codes, r.error)
  }

  function Join(prefix: seq<int>, r: ScanResult): ScanResult {
    ScanResult(prefix + r.codes, r.error)
  }

  /** `s.find(c)`: the index of the first c in s, or -1. */
  function Find(s: string, c: char): (k: int)
    ensures -1 <= k < |s|
    decreases |s|
  {
    if s == [] then -1
    else if s[0] == c then 0
    else
      var k := Find(s[1..], c);
      if k == -1 then -1 else k + 1
  }

  /** `Find` gives the first occurrence, and -1 only when there is none. */
  lemma {:induction false} FindFirst(s: string, c: char)
    ensures var k := Find(s, c);
            (k >= 0 ==> s[k] == c && forall j :: 0 <= j < k ==> s[j] != c)
            && (k == -1 ==> forall j :: 0 <= j < |s| ==> s[j] != c)
    decreases |s|
  {
    if s != [] && s[0] != c {
      FindFirst(s[1..], c);
      var k := Find(s[1..], c);
      if k == -1 {
        forall j | 0 <= j < |s|
          ensures s[j] != c
        {
          if j > 0 {
            assert s[j] == s[1..][j - 1];
          }
        }
      } else {
        forall j | 0 <= j < k + 1
          ensures s[j] != c
        {
          if j > 0 {
            assert s[j] == s[1..][j - 1];
          }
        }
      }
    }
  }

  function Drop(s: string, n: nat): string {
    if n <= |s| then s[n..] else []
  }

  /**
   * The codes `PrintLine` sends for the text t, left to right: `&<number>&`
   * is one code (the number), `&&` is one '&' that also swallows the next
   * character, and every other character is its own code. A trailing '&'
   * raises IndexError; an '&' with no closing '&', or a non-number between
   * the two, raises ValueError.
   */
  function Scan(t: string): ScanResult
    decreases |t|
  {
    if t == [] then ScanResult([], None)
    else if t[0] != '&' then Prepend(t[0] as int, Scan(t[1..]))
    else if |t| == 1 then ScanResult([], Some(IndexError))
    else if t[1] == '&' then Prepend('&' as int, Scan(Drop(t, 3)))
    else
      var fin := Find(t[1..], '&');
      if fin < 0 then ScanResult([], Some(ValueError))
      else match ParseInt(t[1..1 + fin])
        case None => ScanResult([], Some(ValueError))
        case Some(c) => Prepend(c, Scan(t[2 + fin..]))
  }

  function Codes(t: string): seq<int> {
    seq(|t|, i requires 0 <= i < |t| => t[i] as int)
  }

  /** Text without '&' is sent character by character, in order, every character of it. */
  lemma {:induction false} PlainTextVerbatim(t: string)
    requires forall i :: 0 <= i < |t| ==> t[i] != '&'
    ensures Scan(t) == ScanResult(Codes(t), None) && |Scan(t).codes| == |t|
    decreases |t|
  {
    if t != [] {
      PlainTextVerbatim(t[1..]);
      assert Codes(t) == [t[0] as int] + Codes(t[1..]);
    }
  }

  /** Text without '&' in front of any other text is sent verbatim before whatever that text sends. */
  lemma {:induction false} PlainPrefix(plain: string, rest: string)
    requires forall i :: 0 <= i < |plain| ==> plain[i] != '&'
    ensures Scan(plain + rest) == Join(Codes(plain), Scan(rest))
    decreases |plain|
  {
    if plain == [] {
      assert plain + rest == rest;
    } else {
      assert (plain + rest)[1..] == plain[1..] + rest;
      PlainPrefix(plain[1..], rest);
      assert Codes(plain) == [plain[0] as int] + Codes(plain[1..]);
    }
  }

  /** `&` + the decimal text of n + `&` sends exactly the one code n, and the text after it follows. */
  lemma EscapeRoundTrip(n: nat, rest: string)
    ensures Scan("&" + NatToString(n) + "&" + rest) == Prepend(n, Scan(rest))
  {
    var digits := NatToString(n);
    var t := "&" + digits + "&" + rest;
    assert t[1..] == digits + "&" + rest;
    FindAfterDigits(digits, rest);
    assert t[1..1 + |digits|] == digits;
    ParseIntOfNatToString(n);
    assert t[2 + |digits|..] == rest;
  }

  lemma FindAfterDigits(digits: string, rest: string)
    requires IsDigits(digits)
    ensures Find(digits + "&" + rest, '&') == |digits|
    decreases |digits|
  {
    if |digits| > 1 {
      assert (digits + "&" + rest)[1..] == digits[1..] + "&" + rest;
      FindAfterDigits(digits[1..], rest);
    }
  }

  /** `&&` sends one '&' and the character right after the pair is never sent. */
  lemma DoubleAmpersandSwallows(x: char, rest: string)
    requires x != '&' && forall i :: 0 <= i < |rest| ==> rest[i] != '&'
    ensures Scan(['&', '&', x] + rest) == ScanResult(['&' as int] + Codes(rest), None)
  {
    assert Drop(['&', '&', x] + rest, 3) == rest;
    PlainTextVerbatim(rest);
  }

  lemma ScanPlainStep(t: string)
    requires t != [] && t[0] != '&'
    ensures Scan(t) == Prepend(t[0] as int, Scan(t[1..]))
  {
  }

  lemma ScanDoubleStep(t: string)
    requires |t| >= 2 && t[0] == '&' && t[1] == '&'
    ensures Scan(t) == Prepend('&' as int, Scan(Drop(t, 3)))
  {
  }

  lemma ScanEscapeStep(t: string, fin: int, c: int)
    requires |t| >= 2 && t[0] == '&' && t[1] != '&'
    requires fin == Find(t[1..], '&') && fin >= 0 && ParseInt(t[1..1 + fin]) == Some(c)
    ensures Scan(t) == Prepend(c, Scan(t[2 + fin..]))
  {
  }

  lemma ScanBadEscape(t: string, fin: int)
    requires |t| >= 2 && t[0] == '&' && t[1] != '&' && fin == Find(t[1..], '&')
    requires ParseInt(if fin >= 0 then t[1..1 + fin] else "").None?
    ensures Scan(t) == ScanResult([], Some(ValueError))
  {
  }

  lemma JoinPrepend(emitted: seq<int>, c: int, r: ScanResult)
    ensures Join(emitted, Prepend(c, r)) == Join(emitted + [c], r)
  {
  }

  /** One pass of `PrintLine`'s loop body before the send: the code and the index it ends on, or the exception. */
  datatype CodeStep = Code(code: int, last: nat) | Fail(error: LcdError)

  /**
   * The code that starts at index i of the text: a plain character, an
   * escape `&<number>&` ending on its closing '&', or `&&` ending one past
   * the second '&'.
   */
  function NextCode(text: string, i: nat): (step: CodeStep)
    requires i < |text|
    ensures step.Code? ==> i <= step.last <= |text|
  {
    if text[i] != '&' then Code(text[i] as int, i)
    else if i + 1 >= |text| then Fail(IndexError)
    else if text[i + 1] == '&' then Code('&' as int, i + 2)
    else
      var codeFin := Find(text[i + 1..], '&');
      var literal := if codeFin >= 0 then text[i + 1..i + 1 + codeFin] else "";
      match ParseInt(literal)
      case None => Fail(ValueError)
      case Some(c) => Code(c, i + 1 + codeFin)
  }

  /** The codes `PrintLine`'s loop sends from index i on, one NextCode at a time. */
  function ScanFrom(text: string, i: nat): ScanResult
    decreases |text| - i
  {
    if i >= |text| then ScanResult([], None)
    else match NextCode(text, i)
      case Fail(e) => ScanResult([], Some(e))
      case Code(c, last) => Prepend(c, ScanFrom(text, last + 1))
  }

  lemma ScanFromCode(text: string, i: nat)
    requires i < |text| && NextCode(text, i).Code?
    ensures ScanFrom(text, i) == Prepend(NextCode(text, i).code, ScanFrom(text, NextCode(text, i).last + 1))
  {
  }

  /** One NextCode is one step of Scan on the remaining text. */
  ghost predicate StepAgrees(text: string, i: nat)
    requires i < |text|
  {
    Agrees(text, i, NextCode(text, i))
  }

  /** Scanning from i gives the step's code and then the scan after it, or the step's error alone. */
  ghost predicate Agrees(text: string, i: nat, step: CodeStep) {
    (step.Code? ==> Scan(Drop(text, i)) == Prepend(step.code, Scan(Drop(text, step.last + 1))))
    && (step.Fail? ==> Scan(Drop(text, i)) == ScanResult([], Some(step.error)))
  }

  lemma NextCodeIsScanStep(text: string, i: nat)
    requires i < |text|
    ensures StepAgrees(text, i)
  {
    if text[i] != '&' {
      PlainAt(text, i);
    } else if i + 1 >= |text| {
      TrailingAt(text, i);
    } else if text[i + 1] == '&' {
      DoubleAt(text, i);
    } else {
      var fin := Find(text[i + 1..], '&');
      var literal := if fin >= 0 then text[i + 1..i + 1 + fin] else "";
      if ParseInt(literal).None? {
        BadEscapeCode(text, i, fin);
        BadEscapeAt(text, i, fin);
      } else {
        EscapeCode(text, i, fin, ParseInt(literal).value);
        EscapeAt(text, i, fin, ParseInt(literal).value);
      }
    }
  }

  lemma PlainAt(text: string, i: nat)
    requires i < |text| && text[i] != '&'
    ensures StepAgrees(text, i)
  {
    var t := Drop(text, i);
    assert t[0] == text[i];
    ScanPlainStep(t);
    assert t[1..] == Drop(text, i + 1);
  }

  lemma TrailingAt(text: string, i: nat)
    requires i + 1 == |text| && text[i] == '&'
    ensures StepAgrees(text, i)
  {
    assert Drop(text, i) == ['&'];
  }

  lemma DoubleAt(text: string, i: nat)
    requires i + 1 < |text| && text[i] == '&' && text[i + 1] == '&'
    ensures StepAgrees(text, i)
  {
    var t := Drop(text, i);
    assert t[0] == text[i] && t[1] == text[i + 1];
    ScanDoubleStep(t);
    assert Drop(t, 3) == Drop(text, i + 3);
  }

  lemma BadEscapeCode(text: string, i: nat, fin: int)
    requires i + 1 < |text| && text[i] == '&' && text[i + 1] != '&'
    requires fin == Find(text[i + 1..], '&')
    requires ParseInt(if fin >= 0 then text[i + 1..i + 1 + fin] else "").None?
    ensures NextCode(text, i) == Fail(ValueError)
  {
  }

  lemma BadEscapeAt(text: string, i: nat, fin: int)
    requires i + 1 < |text| && text[i] == '&' && text[i + 1] != '&'
    requires fin == Find(text[i + 1..], '&')
    requires ParseInt(if fin >= 0 then text[i + 1..i + 1 + fin] else "").None?
    ensures Agrees(text, i, Fail(ValueError))
  {
    var t := text[i..];
    assert Drop(text, i) == t;
    assert t[1..] == text[i + 1..];
    if fin >= 0 {
      assert t[1..1 + fin] == text[i + 1..i + 1 + fin];
    }
    ScanBadEscape(t, fin);
  }

  lemma EscapeCode(text: string, i: nat, fin: int, c: int)
    requires i + 1 < |text| && text[i] == '&' && text[i + 1] != '&'
    requires fin == Find(text[i + 1..], '&') && fin >= 0
    requires ParseInt(text[i + 1..i + 1 + fin]) == Some(c)
    ensures NextCode(text, i) == Code(c, i + 1 + fin)
  {
  }

  lemma EscapeAt(text: string, i: nat, fin: int, c: int)
    requires i + 1 < |text| && text[i] == '&' && text[i + 1] != '&'
    requires fin == Find(text[i + 1..], '&') && fin >= 0
    requires ParseInt(text[i + 1..i + 1 + fin]) == Some(c)
    ensures Agrees(text, i, Code(c, i + 1 + fin))
  {
    var t := text[i..];
    assert Drop(text, i) == t;
    assert t[1..] == text[i + 1..];
    assert t[1..1 + fin] == text[i + 1..i + 1 + fin];
    ScanEscapeStep(t, fin, c);
    assert t[2 + fin..] == Drop(text, i + 2 + fin);
  }

  /** The loop's index-based walk agrees with the escape syntax read on the remaining text. */
  lemma {:induction false} ScanFromIsScan(text: string, i: nat)
    ensures ScanFrom(text, i) == Scan(Drop(text, i))
    decreases |text| - i
  {
    if i < |text| {
      NextCodeIsScanStep(text, i);
      if NextCode(text, i).Code? {
        ScanFromIsScan(text, NextCode(text, i).last + 1);
      }
    }
  }

  /** One pass of `PrintLine`'s loop, on the codes sent so far and the codes still to come. */
  lemma ScanFromStep(text: string, i: nat, emitted: seq<int>)
    requires i < |text|
    ensures var step := NextCode(text, i);
            step.Code? ==> Join(emitted, ScanFrom(text, i)) == Join(emitted + [step.code], ScanFrom(text, step.last + 1))
    ensures var step := NextCode(text, i);
            step.Fail? ==> Join(emitted, ScanFrom(text, i)) == ScanResult(emitted, Some(step.error))
  {
    var step := NextCode(text, i);
    if step.Code? {
      ScanFromCode(text, i);
      JoinPrepend(emitted, step.code, ScanFrom(text, step.last + 1));
    } else {
      assert emitted + [] == emitted;
    }
  }

  /** The outcome of `PrintLine` as the caller sees it. */
  datatype PrintOutcome =
    | Printed           // returned None
    | Refused           // returned False: line above 4
    | Raised(error: LcdError)

  /** `LCD_LINES[line - 1]` with Python's negative indexing; None for the IndexError. */
  function RowAddress(line: int): (a: Option<int>)
    ensures 1 <= line <= 4 ==> a == Some(LCD_LINES[line - 1])
    ensures a.None? <==> line < -3 || line > 4
  {
    if 1 <= line <= 4 then Some(LCD_LINES[line - 1])
    else if -3 <= line <= 0 then Some(LCD_LINES[line + 3])
    else None
  }

  /** The sends and the outcome of `PrintLine(text, line)` with the given backlight. */
  function LineEffect(text: string, line: int, backlight: bv8): (seq<Transfer>, PrintOutcome)
  {
    if line > 4 then ([], Refused)
    else match RowAddress(line)
      case None => ([], Raised(IndexError))
      case Some(row) =>
        var s := ScanFrom(text, 0);
        ([Transfer(row, LCD_CMD_MODE, backlight)] + Sends(s.codes, LCD_DATA_MODE, backlight),
         if s.error.Some? then Raised(s.error.value) else Printed)
  }

  /**
   * A line number above 4 or below -3 writes nothing; otherwise the row's
   * address goes out as a command, then the codes of Scan as data, and an
   * escape error in the text is raised after the codes before it were sent.
   */
  lemma LineEffectSpec(text: string, line: int, backlight: bv8)
    ensures line > 4 ==> LineEffect(text, line, backlight) == ([], Refused)
    ensures line < -3 ==> LineEffect(text, line, backlight) == ([], Raised(IndexError))
    ensures 1 <= line <= 4 ==>
              var s := Scan(text);
              LineEffect(text, line, backlight)
                == ([Transfer(LCD_LINES[line - 1], LCD_CMD_MODE, backlight)] + Sends(s.codes, LCD_DATA_MODE, backlight),
                    if s.error.Some? then Raised(s.error.value) else Printed)
              && |Wire(LineEffect(text, line, backlight).0)| == 6 * (1 + |s.codes|)
  {
    ScanFromIsScan(text, 0);
    assert Drop(text, 0) == text;
    if 1 <= line <= 4 {
      WireLength(LineEffect(text, line, backlight).0);
    }
  }

  /** The sends and the outcome of `Print(lines)`, the first of them on row `first`. */
  function PrintEffect(lines: seq<string>, first: int, backlight: bv8): (seq<Transfer>, PrintOutcome)
    decreases |lines|
  {
    if lines == [] then ([], Printed)
    else
      var (sends, outcome) := LineEffect(lines[0], first, backlight);
      if outcome.Raised? then (sends, outcome)
      else
        var (more, final) := PrintEffect(lines[1..], first + 1, backlight);
        (sends + more, final)
  }

  /** Sends already made, followed by the effect of the rest. */
  function Follow(done: seq<Transfer>, rest: (seq<Transfer>, PrintOutcome)): (seq<Transfer>, PrintOutcome) {
    (done + rest.0, rest.1)
  }

  lemma FollowFollow(a: seq<Transfer>, b: seq<Transfer>, rest: (seq<Transfer>, PrintOutcome))
    ensures Follow(a, Follow(b, rest)) == Follow(a + b, rest)
  {
    ConcatAssoc(a, b, rest.0);
  }

  lemma PrintEffectStep(lines: seq<string>, k: nat, first: int, backlight: bv8)
    requires k < |lines|
    ensures var (sends, outcome) := LineEffect(lines[k], first + k, backlight);
            PrintEffect(lines[k..], first + k, backlight)
              == if outcome.Raised? then (sends, outcome)
                 else Follow(sends, PrintEffect(lines[k + 1..], first + k + 1, backlight))
  {
    assert lines[k..][0] == lines[k] && lines[k..][1..] == lines[k + 1..];
  }

  /** Lines meant for rows past the fourth are refused one by one and write nothing. */
  lemma {:induction false} RowsPastFourWriteNothing(lines: seq<string>, first: int, backlight: bv8)
    requires first > 4
    ensures PrintEffect(lines, first, backlight) == ([], Printed)
    decreases |lines|
  {
    if lines != [] {
      var nothing: seq<Transfer> := [];
      assert LineEffect(lines[0], first, backlight) == (nothing, Refused);
      RowsPastFourWriteNothing(lines[1..], first + 1, backlight);
      assert PrintEffect(lines[1..], first + 1, backlight) == (nothing, Printed);
      assert nothing + nothing == nothing;
    }
  }

  /** Only the lines that land on rows up to the fourth matter: the rest of the list changes nothing. */
  lemma {:induction false} PrintKeepsRowsUpToFour(lines: seq<string>, first: int, backlight: bv8)
    requires 1 <= first <= 5 && |lines| >= 5 - first
    ensures PrintEffect(lines, first, backlight) == PrintEffect(lines[..5 - first], first, backlight)
    decreases 5 - first
  {
    var kept := lines[..5 - first];
    if first == 5 {
      RowsPastFourWriteNothing(lines, first, backlight);
    } else {
      assert kept[0] == lines[0] && kept[1..] == lines[1..][..5 - (first + 1)];
      PrintKeepsRowsUpToFour(lines[1..], first + 1, backlight);
    }
  }

  /** Glyph rows one after another. */
  function Flatten(font: seq<seq<int>>): seq<int>
    decreases |font|
  {
    if font == [] then [] else Flatten(font[..|font| - 1]) + font[|font| - 1]
  }

  lemma FlattenSnoc(font: seq<seq<int>>, g: nat)
    requires g < |font|
    ensures Flatten(font[..g + 1]) == Flatten(font[..g]) + font[g]
  {
    assert font[..g + 1][..g] == font[..g];
  }

  /** The four custom glyphs loaded at start-up: left arrow, right arrow, down, up. */
  const GLYPHS: seq<seq<int>> := [
    [0x00, 0x04, 0x02, 0x1F, 0x02, 0x04, 0x00, 0x00],
    [0x00, 0x04, 0x08, 0x1F, 0x08, 0x04, 0x00, 0x00],
    [0x00, 0x00, 0x00, 0x1F, 0x0E, 0x04, 0x00, 0x00],
    [0x00, 0x00, 0x04, 0x0E, 0x1F, 0x00, 0x00, 0x00]
  ]

  /** The start-up commands as sends, one by one. */
  lemma InitSends()
    ensures Sends(INIT_COMMANDS, LCD_CMD_MODE, LCD_BACKLIGHT_ON)
         == [] + [Transfer(0x33, LCD_CMD_MODE, LCD_BACKLIGHT_ON)]
               + [Transfer(0x32, LCD_CMD_MODE, LCD_BACKLIGHT_ON)]
               + [Transfer(LCD_ENTRY_MODE + ENTRY_MODE_RIGHT, LCD_CMD_MODE, LCD_BACKLIGHT_ON)]
               + [Transfer(LCD_DISPLAY_CTRL + DISPLAY_CTRL_ON, LCD_CMD_MODE, LCD_BACKLIGHT_ON)]
               + [Transfer(LCD_FUNCTION_SET + FUNCTION_SET_2LINE + FUNCTION_SET_4BIT + FUNCTION_SET_5x8_DOTS, LCD_CMD_MODE, LCD_BACKLIGHT_ON)]
               + [Transfer(LCD_CLEAR_DISPLAY, LCD_CMD_MODE, LCD_BACKLIGHT_ON)]
  {
  }

  class LcdDriver {
    /** `__backlight`: OR-ed into every bus byte. */
    var backlight: bv8
    /** Every byte written to the backpack, oldest first. */
    var bus: seq<bv8>
    /** Every `__send` so far, oldest first. */
    ghost var sends: seq<Transfer>

    ghost predicate Valid()
      reads this
    {
      IsBacklight(backlight) && bus == Wire(sends)
    }

    /** `__init__`: backlight on, then the start-up commands. */
    constructor ()
      ensures Valid() && backlight == LCD_BACKLIGHT_ON
      ensures sends == Sends(INIT_COMMANDS, LCD_CMD_MODE, LCD_BACKLIGHT_ON)
    {
      backlight := LCD_BACKLIGHT_ON;
      bus := [];
      sends := [];
      new;
      Start();
    }

    /** The start-up command sequence of `__init__`, on a driver that has sent nothing yet. */
    method Start()
      requires Valid() && backlight == LCD_BACKLIGHT_ON && sends == []
      modifies this`bus, this`sends
      ensures Valid()
      ensures sends == Sends(INIT_COMMANDS, LCD_CMD_MODE, LCD_BACKLIGHT_ON)
    {
      Send(0x33, LCD_CMD_MODE);
      Send(0x32, LCD_CMD_MODE);
      Send(LCD_ENTRY_MODE + ENTRY_MODE_RIGHT, LCD_CMD_MODE);
      Send(LCD_DISPLAY_CTRL + DISPLAY_CTRL_ON, LCD_CMD_MODE);
      Send(LCD_FUNCTION_SET + FUNCTION_SET_2LINE + FUNCTION_SET_4BIT + FUNCTION_SET_5x8_DOTS, LCD_CMD_MODE);
      Send(LCD_CLEAR_DISPLAY, LCD_CMD_MODE);
      InitSends();
    }

    method WriteToBus(v: bv8)
      modifies this`bus
      ensures bus == old(bus) + [v]
    {
      bus := bus + [v];
    }

    /** `__latch`: the byte with enable set, then with enable cleared. */
    method Latch(v: bv8)
      modifies this`bus
      ensures bus == old(bus) + [v | ENABLE_BIT, v & !ENABLE_BIT]
    {
      WriteToBus(v | ENABLE_BIT);
      WriteToBus(v & !ENABLE_BIT);
    }

    method SendFourBits(v: bv8)
      modifies this`bus
      ensures bus == old(bus) + NibbleBytes(v, backlight)
    {
      WriteToBus(v | backlight);
      Latch(v | backlight);
    }

    method Send(data: int, mode: bv8)
      requires Valid()
      modifies this`bus, this`sends
      ensures Valid()
      ensures sends == old(sends) + [Transfer(data, mode, backlight)]
      ensures backlight == old(backlight)
    {
      SendFourBits(mode | HighBits(data));
      SendFourBits(mode | LowBits(data));
      ConcatAssoc(old(bus), NibbleBytes(mode | HighBits(data), backlight), NibbleBytes(mode | LowBits(data), backlight));
      WireSnoc(sends, Transfer(data, mode, backlight));
      sends := sends + [Transfer(data, mode, backlight)];
    }

    method SwitchOn()
      requires Valid()
      modifies this
      ensures Valid() && backlight == LCD_BACKLIGHT_ON
      ensures sends == old(sends) + [Transfer(0, LCD_CMD_MODE, LCD_BACKLIGHT_ON)]
    {
      backlight := LCD_BACKLIGHT_ON;
      Send(0, LCD_CMD_MODE);
    }

    method SwitchOff()
      requires Valid()
      modifies this
      ensures Valid() && backlight == LCD_BACKLIGHT_OFF
      ensures sends == old(sends) + [Transfer(0, LCD_CMD_MODE, LCD_BACKLIGHT_OFF)]
    {
      backlight := LCD_BACKLIGHT_OFF;
      Send(0, LCD_CMD_MODE);
    }

    method Clear()
      requires Valid()
      modifies this`bus, this`sends
      ensures Valid()
      ensures sends == old(sends) + Sends([LCD_CLEAR_DISPLAY, LCD_RETURN_HOME], LCD_CMD_MODE, backlight)
    {
      Send(LCD_CLEAR_DISPLAY, LCD_CMD_MODE);
      Send(LCD_RETURN_HOME, LCD_CMD_MODE);
    }

    /**
     * One pass of `PrintLine`'s loop at index i: the next code is sent and
     * the index moves past it, or the escape there is malformed and nothing
     * is sent.
     */
    method SendNext(text: string, i: nat, ghost base: seq<Transfer>, ghost emitted: seq<int>)
      returns (error: Option<LcdError>, next: nat, ghost emitted': seq<int>)
      requires Valid() && i < |text|
      requires ScanFrom(text, 0) == Join(emitted, ScanFrom(text, i))
      requires sends == base + Sends(emitted, LCD_DATA_MODE, backlight)
      modifies this`bus, this`sends
      ensures Valid() && backlight == old(backlight)
      ensures sends == base + Sends(emitted', LCD_DATA_MODE, backlight)
      ensures error.None? ==> i < next <= |text| + 1 && ScanFrom(text, 0) == Join(emitted', ScanFrom(text, next))
      ensures error.Some? ==> next == i && ScanFrom(text, 0) == ScanResult(emitted', error)
    {
      var step := NextCode(text, i);
      ScanFromStep(text, i, emitted);
      if step.Fail? {
        error, next, emitted' := Some(step.error), i, emitted;
      } else {
        SendsSnoc(emitted, step.code, LCD_DATA_MODE, backlight);
        Send(step.code, LCD_DATA_MODE);
        error, next, emitted' := None, step.last + 1, emitted + [step.code];
      }
    }

    /**
     * The loop of `PrintLine` after the row address: walk the text left to
     * right sending one data code per character or escape, stopping at the
     * first malformed escape.
     */
    method SendText(text: string) returns (error: Option<LcdError>)
      requires Valid()
      modifies this`bus, this`sends
      ensures Valid() && backlight == old(backlight)
      ensures sends == old(sends) + Sends(ScanFrom(text, 0).codes, LCD_DATA_MODE, backlight)
      ensures error == ScanFrom(text, 0).error
    {
      ghost var emitted: seq<int> := [];
      var i := 0;
      error := None;
      assert Join(emitted, ScanFrom(text, i)) == ScanFrom(text, 0);
      while i < |text| && error.None?
        invariant Valid() && backlight == old(backlight)
        invariant 0 <= i <= |text| + 1
        invariant error.None? ==> ScanFrom(text, 0) == Join(emitted, ScanFrom(text, i))
        invariant error.Some? ==> ScanFrom(text, 0) == ScanResult(emitted, error)
        invariant sends == old(sends) + Sends(emitted, LCD_DATA_MODE, backlight)
        decreases |text| + 1 - i, if error.None? then 1 else 0
      {
        error, i, emitted := SendNext(text, i, old(sends), emitted);
      }
      if error.None? {
        assert ScanFrom(text, i) == ScanResult([], None);
        assert emitted + [] == emitted;
      }
    }

    /** `PrintLine`: refuse rows above 4, send the row address, then the text. */
    method PrintLine(text: string, line: int) returns (r: PrintOutcome)
      requires Valid()
      modifies this`bus, this`sends
      ensures Valid()
      ensures sends == old(sends) + LineEffect(text, line, backlight).0
      ensures r == LineEffect(text, line, backlight).1
    {
      var row := RowAddress(line);
      if line > 4 {
        r := Refused;
      } else if row.None? {
        r := Raised(IndexError);
      } else {
        Send(row.value, LCD_CMD_MODE);
        var error := SendText(text);
        r := if error.Some? then Raised(error.value) else Printed;
        ConcatAssoc(old(sends), [Transfer(row.value, LCD_CMD_MODE, backlight)],
                    Sends(ScanFrom(text, 0).codes, LCD_DATA_MODE, backlight));
      }
    }

    /** `Print`: the lines on rows 1, 2, ..., stopping at the first exception. */
    method Print(lines: seq<string>) returns (r: PrintOutcome)
      requires Valid()
      modifies this`bus, this`sends
      ensures Valid()
      ensures sends == old(sends) + PrintEffect(lines, 1, backlight).0
      ensures r == PrintEffect(lines, 1, backlight).1
    {
      r := PrintRows(lines, 1);
    }

    /**
     * The loop `for i, line in enumerate(lines): PrintLine(line, first + i)`,
     * shared by `Print` (from row 1) and the message screen (from row 2).
     */
    method PrintRows(lines: seq<string>, first: int) returns (r: PrintOutcome)
      requires Valid()
      modifies this`bus, this`sends
      ensures Valid()
      ensures sends == old(sends) + PrintEffect(lines, first, backlight).0
      ensures r == PrintEffect(lines, first, backlight).1
    {
      ghost var done: seq<Transfer> := [];
      var k := 0;
      r := Printed;
      assert lines[k..] == lines && [] + PrintEffect(lines, first, backlight).0 == PrintEffect(lines, first, backlight).0;
      while k < |lines| && !r.Raised?
        invariant Valid()
        invariant 0 <= k <= |lines|
        invariant !r.Raised? ==>
                    r == Printed && sends == old(sends) + done
                    && PrintEffect(lines, first, backlight) == Follow(done, PrintEffect(lines[k..], first + k, backlight))
        invariant r.Raised? ==>
                    sends == old(sends) + PrintEffect(lines, first, backlight).0
                    && r == PrintEffect(lines, first, backlight).1
        decreases |lines| - k
      {
        r, k, done := PrintNext(lines, first, k, old(sends), done);
      }
      if !r.Raised? {
        assert lines[k..] == [];
      }
    }

    /** One pass of the loop of `PrintRows`: line k goes to row first + k. */
    method PrintNext(lines: seq<string>, first: int, k: nat, ghost base: seq<Transfer>, ghost done: seq<Transfer>)
      returns (r: PrintOutcome, next: nat, ghost done': seq<Transfer>)
      requires Valid() && k < |lines| && sends == base + done
      requires PrintEffect(lines, first, backlight) == Follow(done, PrintEffect(lines[k..], first + k, backlight))
      modifies this`bus, this`sends
      ensures Valid() && next == k + 1
      ensures !r.Raised? ==>
                r == Printed && sends == base + done'
                && PrintEffect(lines, first, backlight) == Follow(done', PrintEffect(lines[next..], first + next, backlight))
      ensures r.Raised? ==>
                sends == base + PrintEffect(lines, first, backlight).0
                && r == PrintEffect(lines, first, backlight).1
    {
      PrintEffectStep(lines, k, first, backlight);
      ghost var effect := LineEffect(lines[k], first + k, backlight);
      ConcatAssoc(base, done, effect.0);
      var o := PrintLine(lines[k], first + k);
      next := k + 1;
      done' := done + effect.0;
      if o.Raised? {
        r := o;
      } else {
        FollowFollow(done, effect.0, PrintEffect(lines[k + 1..], first + k + 1, backlight));
        r := Printed;
      }
    }

    /** The inner loop of `LoadCustom`: every byte of one glyph, in order, as data. */
    method SendGlyph(glyph: seq<int>)
      requires Valid()
      modifies this`bus, this`sends
      ensures Valid()
      ensures sends == old(sends) + Sends(glyph, LCD_DATA_MODE, backlight)
    {
      var j := 0;
      while j < |glyph|
        invariant Valid()
        invariant 0 <= j <= |glyph|
        invariant sends == old(sends) + Sends(glyph[..j], LCD_DATA_MODE, backlight)
      {
        assert glyph[..j + 1] == glyph[..j] + [glyph[j]];
        SendsSnoc(glyph[..j], glyph[j], LCD_DATA_MODE, backlight);
        ConcatAssoc(old(sends), Sends(glyph[..j], LCD_DATA_MODE, backlight), [Transfer(glyph[j], LCD_DATA_MODE, backlight)]);
        Send(glyph[j], LCD_DATA_MODE);
        j := j + 1;
      }
      assert glyph[..j] == glyph;
    }

    /** One pass of `LoadCustom`'s loop: glyph g follows the glyphs before it. */
    method LoadGlyph(font: seq<seq<int>>, g: nat, ghost start: seq<Transfer>)
      requires Valid() && g < |font|
      requires sends == start + Sends(Flatten(font[..g]), LCD_DATA_MODE, backlight)
      modifies this`bus, this`sends
      ensures Valid()
      ensures sends == start + Sends(Flatten(font[..g + 1]), LCD_DATA_MODE, backlight)
    {
      FlattenSnoc(font, g);
      SendsAppend(Flatten(font[..g]), font[g], LCD_DATA_MODE, backlight);
      ConcatAssoc(start, Sends(Flatten(font[..g]), LCD_DATA_MODE, backlight), Sends(font[g], LCD_DATA_MODE, backlight));
      SendGlyph(font[g]);
    }

    /** `LoadCustom`: the CGRAM address command once, then every glyph row byte as data. */
    method LoadCustom(font: seq<seq<int>>)
      requires Valid()
      modifies this`bus, this`sends
      ensures Valid()
      ensures sends == old(sends) + [Transfer(LCD_SET_CGRAM, LCD_CMD_MODE, backlight)]
                       + Sends(Flatten(font), LCD_DATA_MODE, backlight)
    {
      Send(LCD_SET_CGRAM, LCD_CMD_MODE);
      ghost var start := sends;
      var g := 0;
      while g < |font|
        invariant Valid()
        invariant 0 <= g <= |font|
        invariant sends == start + Sends(Flatten(font[..g]), LCD_DATA_MODE, backlight)
      {
        LoadGlyph(font, g, start);
        g := g + 1;
      }
      assert font[..g] == font;
    }
  }
}
