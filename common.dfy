/**
 * The pieces both variants of the state machine share (common/code.py):
 * the debounced button read, the idle budget every state starts with and
 * the clock arithmetic it is measured with; also the "Scan card..." dots
 * animation and the centred message layout, which both variants write out
 * identically.
 */
module Common {
  /** `State.__init__`'s default idle budget, in seconds. */
  const DEFAULT_BUDGET: nat := 10

  const MICROS_PER_SECOND: int := 1_000_000
  const SECONDS_PER_DAY: int := 86_400

  // ----- read(button) -----

  /**
   * A pin sampled twice, a millisecond apart. The buttons are pulled up, so
   * True is the released level.
   */
  datatype Samples = Samples(first: bool, second: bool)

  /** `read(button)`: the level when both samples agree, False when they differ. */
  function Read(s: Samples): (level: bool)
    ensures s.first == s.second ==> level == s.first
    ensures s.first != s.second ==> !level
  {
    s.second == s.first && s.first
  }

  /** The callers' `not read(button)`. */
  predicate Pressed(s: Samples) {
    !Read(s)
  }

  /**
   * A button counts as pressed unless both samples are high: a bounce
   * (samples that disagree) is a press.
   */
  lemma PressedUnlessBothHigh(s: Samples)
    ensures Pressed(s) <==> !s.first || !s.second
    ensures s.first != s.second ==> Pressed(s)
  {
  }

  /** `pressed and pressed != last`: pressed now, not pressed at the stored level. */
  predicate RisingEdge(pressed: bool, last: bool) {
    pressed && pressed != last
  }

  // ----- timedelta.seconds -----

  /**
   * `(later - earlier).seconds` for two clock readings in microseconds: the
   * whole seconds of the difference once whole days are taken out, so it
   * wraps after a day and a negative difference counts back from a day.
   */
  function WholeSeconds(elapsed: int): (s: int)
    ensures 0 <= s < SECONDS_PER_DAY
    ensures s * MICROS_PER_SECOND <= elapsed % (SECONDS_PER_DAY * MICROS_PER_SECOND) < (s + 1) * MICROS_PER_SECOND
  {
    (elapsed / MICROS_PER_SECOND) % SECONDS_PER_DAY
  }

  /** The check the main loop and the Idle animation make: whole elapsed seconds against a budget. */
  predicate TimedOut(startTime: int, now: int, budget: int) {
    WholeSeconds(now - startTime) >= budget
  }

  /**
   * Within a day of the start, the budget runs out exactly when that many
   * whole seconds have passed; a budget of 0 runs out at once.
   */
  lemma TimedOutWithinADay(startTime: int, now: int, budget: int)
    requires 0 <= now - startTime < SECONDS_PER_DAY * MICROS_PER_SECOND
    requires 0 <= budget <= SECONDS_PER_DAY
    ensures TimedOut(startTime, now, budget) <==> now - startTime >= budget * MICROS_PER_SECOND
  {
    var elapsed := now - startTime;
    assert elapsed % (SECONDS_PER_DAY * MICROS_PER_SECOND) == elapsed;
    var s := WholeSeconds(elapsed);
    if s >= budget {
      assert s * MICROS_PER_SECOND >= budget * MICROS_PER_SECOND;
    } else {
      assert (s + 1) * MICROS_PER_SECOND <= budget * MICROS_PER_SECOND;
    }
  }

  lemma ZeroBudgetTimesOut(startTime: int, now: int)
    ensures TimedOut(startTime, now, 0)
  {
  }

  // ----- the Idle screen's dots -----

  /** `__dots` and `__fillChar`: how many fill characters follow the prompt, and which. */
  datatype Dots = Dots(count: int, fill: char)

  const DOTS_START: Dots := Dots(0, '.')

  predicate DotsOk(d: Dots) {
    0 <= d.count <= 4 && (d.fill == '.' || d.fill == ' ')
  }

  /** One more fill character; past four, dots give way to four blanks and blanks to one dot. */
  function Advance(d: Dots): (r: Dots)
    ensures DotsOk(d) ==> DotsOk(r)
    ensures d.count < 4 ==> r == Dots(d.count + 1, d.fill)
    ensures d.count >= 4 ==> r == if d.fill == ' ' then Dots(1, '.') else Dots(4, ' ')
  {
    var n := d.count + 1;
    if n > 4 then
      if d.fill == ' ' then Dots(1, '.') else Dots(4, ' ')
    else Dots(n, d.fill)
  }

  /** The dots after k advances. */
  function AdvanceTimes(d: Dots, k: nat): Dots
    decreases k
  {
    if k == 0 then d else Advance(AdvanceTimes(d, k - 1))
  }

  /**
   * One update of the animation at time `now`: it advances only when a
   * whole second has passed since the last advance, which then becomes now.
   */
  function Animate(d: Dots, lastUpdate: int, now: int): (r: (Dots, int))
    ensures r.0 == d || r.0 == Advance(d)
    ensures r.0 != d ==> r.1 == now && WholeSeconds(now - lastUpdate) >= 1
    ensures WholeSeconds(now - lastUpdate) < 1 ==> r == (d, lastUpdate)
    ensures WholeSeconds(now - lastUpdate) >= 1 ==> r == (Advance(d), now)
  {
    if WholeSeconds(now - lastUpdate) >= 1 then (Advance(d), now) else (d, lastUpdate)
  }

  /** After the first step the animation runs in a cycle of five: . .. ... .... then four blanks. */
  lemma {:induction false} DotsCycle(k: nat)
    requires k >= 1
    ensures AdvanceTimes(DOTS_START, k + 5) == AdvanceTimes(DOTS_START, k)
    ensures DotsOk(AdvanceTimes(DOTS_START, k))
    decreases k
  {
    if k == 1 {
      assert AdvanceTimes(DOTS_START, 1) == Dots(1, '.');
      assert AdvanceTimes(DOTS_START, 2) == Dots(2, '.');
      assert AdvanceTimes(DOTS_START, 3) == Dots(3, '.');
      assert AdvanceTimes(DOTS_START, 4) == Dots(4, '.');
      assert AdvanceTimes(DOTS_START, 5) == Dots(4, ' ');
    } else {
      DotsCycle(k - 1);
    }
  }

  /** Every state the animation passes through keeps the count in 0..4 and the fill a dot or a blank. */
  lemma {:induction false} DotsStayOk(d: Dots, k: nat)
    requires DotsOk(d)
    ensures DotsOk(AdvanceTimes(d, k))
    decreases k
  {
    if k > 0 {
      DotsStayOk(d, k - 1);
    }
  }

  // ----- centred message lines -----

  function Spaces(n: nat): (s: string)
    ensures |s| == n && forall i :: 0 <= i < n ==> s[i] == ' '
  {
    seq(n, _ => ' ')
  }

  /** `f"{line:^width}"`: padded with blanks to the width, the odd blank going right; longer text is kept whole. */
  function Center(line: string, width: nat): (r: string)
    ensures |line| >= width ==> r == line
    ensures |line| < width ==>
              var left := (width - |line|) / 2;
              |r| == width && r[left..left + |line|] == line
              && (forall i :: 0 <= i < left ==> r[i] == ' ')
              && (forall i :: left + |line| <= i < width ==> r[i] == ' ')
              && left <= width - |line| - left <= left + 1
  {
    if |line| >= width then line
    else
      var left := (width - |line|) / 2;
      var r := Spaces(left) + line + Spaces(width - |line| - left);
      assert r[left..left + |line|] == line;
      r
  }

  /** `f"{text: >width}"`: blanks before the text up to the width; longer text is kept whole. */
  function RightAlign(text: string, width: nat): (r: string)
    ensures |text| >= width ==> r == text
    ensures |text| < width ==>
              |r| == width && r[width - |text|..] == text
              && forall i :: 0 <= i < width - |text| ==> r[i] == ' '
  {
    if |text| >= width then text else Spaces(width - |text|) + text
  }

  /** `s.split(sep)`: the pieces between the separators, one more than there are separators. */
  function Split(s: string, sep: char): (pieces: seq<string>)
    ensures |pieces| >= 1
    decreases |s|
  {
    if s == [] then [[]]
    else
      var rest := Split(s[1..], sep);
      if s[0] == sep then [[]] + rest
      else [[s[0]] + rest[0]] + rest[1..]
  }

  /** `sep.join(pieces)`. */
  function JoinWith(pieces: seq<string>, sep: char): string
    decreases |pieces|
  {
    if |pieces| <= 1 then (if pieces == [] then [] else pieces[0])
    else pieces[0] + [sep] + JoinWith(pieces[1..], sep)
  }

  /** Splitting loses nothing: the pieces joined back with the separator are the text. */
  lemma {:induction false} SplitJoin(s: string, sep: char)
    ensures JoinWith(Split(s, sep), sep) == s
    ensures forall k, i :: 0 <= k < |Split(s, sep)| && 0 <= i < |Split(s, sep)[k]| ==> Split(s, sep)[k][i] != sep
    decreases |s|
  {
    if s != [] {
      SplitJoin(s[1..], sep);
      var rest := Split(s[1..], sep);
      if s[0] == sep {
        assert Split(s, sep) == [[]] + rest;
        assert Split(s, sep)[1..] == rest;
      } else {
        var pieces := Split(s, sep);
        assert pieces[1..] == rest[1..];
        if |rest| > 1 {
          assert JoinWith(rest, sep) == rest[0] + [sep] + JoinWith(rest[1..], sep);
        }
        assert s == [s[0]] + s[1..];
      }
    }
  }

  /**
   * BackToIdle's lines: the message cut at each newline, every piece
   * centred to the display's 20 columns; they go to rows 2, 3, ... in order.
   */
  function CenteredLines(msg: string): (lines: seq<string>)
    ensures |lines| == |Split(msg, '\n')|
    ensures forall i :: 0 <= i < |lines| ==> lines[i] == Center(Split(msg, '\n')[i], 20)
  {
    var pieces := Split(msg, '\n');
    seq(|pieces|, i requires 0 <= i < |pieces| => Center(pieces[i], 20))
  }
}
