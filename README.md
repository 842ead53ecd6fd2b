# Time-tracking box: card reader, display and workflow

The time-tracking box is a small board with a 125 kHz card reader (RDM6300),
a 20x4 character display behind an I2C backpack, and three push buttons. A
worker holds a card to the reader. The box asks a server what the card is
doing. If work is running, it offers to end it. If not, it offers the card's
projects, and the chosen one is assigned. Every path ends on a message
screen and then goes back to waiting for a card.

This project models the core of that program and proves its properties:

- `TagReader` (util/tag_reader.py): the resumable frame parser. A class
  holds the waiting serial bytes, the parser's index, its stored values and
  decimal tag text, and the last validated frame. It is proved against a
  pure whole-frame verdict (`FrameVerdict`) and the round trip from a card
  payload to an accepted frame.
- `Lcd` (util/lcd_driver.py): the display driver as a class that logs every
  bus byte. `PrintLine`'s escape walk is a loop proved against the escape
  syntax `Scan`. `Print`, `LoadCustom`, `clear` and the backlight switches
  are modelled as well.
- `Common` (common/code.py, plus text layout both variants share): the
  debounced button read, the state budget and its clock arithmetic, the
  Idle dots animation, centring and right alignment.
- `Strings` (common/strings.py): the English and Romanian message table.
- `Numerals`: Python's `str(n)`, `int(s)` and `int(b, 16)` on the inputs the
  program gives them.
- `Machine` (machine.py): the workflow main/main.py runs. Each `on_event` is
  a pure decision. The `run` steps that keep state between calls are
  classes.
- `Driver` (main/main.py): the main loop over the states of `Machine`. It
  builds each state with its display output, injects TIME_OUT when a
  state's budget runs out, runs `run` once and hands the result to
  `on_event`. On Ctrl-C it clears the display and switches it off. What
  the current state object holds is read as a value (`Snap`). Each pass
  on the objects is proved against a pure pass (`PassOf`) over those
  values, and the whole loop against `Walk`, the passes over the ticks,
  each from where the one before left the state.
- `States` (the states/ package): the second, simpler variant of the
  workflow, which main/main.py does not run. It has its own records,
  status-code branching and a list that scrolls both ways.

Where the code and the project's own description disagree, the model
follows the code:

- A button read whose two samples disagree returns False, and callers
  negate it. So a bounce counts as a press, not as a release.
- In machine.py, QueryTag turns every failed response of either lookup into
  500, so an unknown card answered with 404 shows "server error".
  "Invalid card" appears only when the card lookup answers ok with null
  data.
- The frame start and end markers are checked only once all 14 bytes are
  in, not as each marker arrives. A non-hex byte at positions 1..12 raises
  at once.
- A `&&` in a display line sends one '&' and skips the character after the
  pair.
- In the states/ package, BackToIdle shows its message for 1 second (0 for
  an empty one). Its budget stays the default 10 seconds, and any event
  goes back to Idle.

## Model

| member | source | states |
|---|---|---|
| Numerals.ParseInt | util/lcd_driver.py:164-170 | `int(s)` succeeds exactly on an optional sign followed by ASCII digits |
| Numerals.ParseIntOfNatToString | util/tag_reader.py:200 | `int(str(n)) == n` for every natural n |
| Numerals.DigitsValueOfNatToString | util/tag_reader.py:200 | the decimal digits `str(n)` prints have the value n |
| Numerals.NatToStringLength | util/tag_reader.py:200 | a number below 10^k prints with at most k digits |
| Numerals.HexDigitByte | util/tag_reader.py:95 | every nibble has an upper-case hex digit that `int(b, 16)` reads back as that nibble |
| Numerals.HexNumber | util/tag_reader.py:200 | k nibbles read as one hex number give a value below 16^k |
| Numerals.XorBound | util/tag_reader.py:104-109 | the XOR of two values below 2^k is below 2^k, so the computed checksum is a byte |
| TagReader.PairByte | util/tag_reader.py:105 | two nibbles spell a byte below 256 |
| TagReader.TagIdOf | util/tag_reader.py:189-200 | "000" followed by decimal digits with no leading zero, whose value is the six nibbles at positions 5..10 read as hex; 4 to 11 characters |
| TagReader.StoredValue | util/tag_reader.py:90-95 | positions 1..12 store a nibble value 0..15 |
| TagReader.StepByte | util/tag_reader.py:86-117 | a byte that does not end the frame advances the index by exactly one and keeps the locals well formed |
| TagReader.Feed | util/tag_reader.py:85-121 | while no verdict is reached the whole input is consumed and the locals stay well formed |
| TagReader.FeedSplit | util/tag_reader.py:85-119 | offering the bytes in two batches, with a `yield False` between, ends where offering them at once does |
| TagReader.FirstNonHex | util/tag_reader.py:95 | the first position from `from` to 12 holding a byte `int(b, 16)` rejects, or none when all are hex |
| TagReader.Converted | util/tag_reader.py:90-97 | the stored list has one value per byte, each the value `__read` keeps for its position |
| TagReader.LocalsOf | util/tag_reader.py:79-98 | the locals after part of a frame are well formed |
| TagReader.FrameVerdictAccepts | util/tag_reader.py:100-117 | a frame is accepted iff bytes 1..12 are hex, byte 0 is 0x02, byte 13 is 0x03 and the XOR of the five payload bytes equals the transmitted checksum; the accepted frame is the stored list |
| TagReader.StepInsideFrame | util/tag_reader.py:89-117 | a byte inside a frame either raises at a non-hex position, completes the verdict at position 13, or extends the stored prefix by one |
| TagReader.FeedReachesVerdict | util/tag_reader.py:85-121 | from any point inside a frame the parser reaches the whole-frame verdict, and after an accepted frame every later byte stays waiting |
| TagReader.DecodeFromStart | util/tag_reader.py:79-121 | a fresh parser fed a whole frame gives the whole-frame verdict and leaves the bytes after it waiting |
| TagReader.XorAll | util/tag_reader.py:104-107 | the XOR of the payload bytes is a byte |
| TagReader.EncodeFrame | util/tag_reader.py:85-117 | a reader's frame for a five-byte payload is 14 bytes |
| TagReader.EncodedDigits | util/tag_reader.py:90-95 | the 12 inner bytes of a sent frame are hex digits spelling the payload's and the checksum's nibbles |
| TagReader.EncodedNibbles | util/tag_reader.py:90-98 | the values stored for a sent frame are the nibbles of each payload byte and then of the checksum |
| TagReader.EncodedChecksumOk | util/tag_reader.py:104-112 | the checksum of a sent frame matches the XOR of its payload bytes |
| TagReader.EncodedTagValue | util/tag_reader.py:189-200 | the nibbles at positions 5..10 of a sent frame spell the last three payload bytes as one number |
| TagReader.EncodedChecksum | util/tag_reader.py:104-112 | the checksum of a sent frame matches, and the verdict accepts the stored list with its decimal text |
| TagReader.EncodedFrameAccepted | util/tag_reader.py:100-200 | every frame a reader sends is accepted, and its tag ID reads as the last three payload bytes as one number |
| TagReader.VerifyChecksum | util/tag_reader.py:104-112 | the checksum loop answers true exactly when the checksum matches |
| TagReader.Rdm6300.constructor | util/tag_reader.py:34-47 | a new reader holds the waiting bytes, no running parser and no tag |
| TagReader.Rdm6300.Receive | util/tag_reader.py:86-87 | bytes arriving on the line are appended to the waiting bytes |
| TagReader.Rdm6300.Clear | util/tag_reader.py:60-62 | every waiting byte is dropped |
| TagReader.Rdm6300.Reset | util/tag_reader.py:154-157 | every waiting byte and the validated tag text are dropped |
| TagReader.Rdm6300.ReadTag | util/tag_reader.py:124-134 | a new parser starts at index 0 with nothing stored, no byte waits and the last frame is kept |
| TagReader.Rdm6300.Poll | util/tag_reader.py:85-119 | with no byte waiting nothing changes; otherwise exactly one byte is consumed and stored, and the 14th byte ends the parser with the tag stored on acceptance |
| TagReader.Rdm6300.Done | util/tag_reader.py:137-151 | True with nothing consumed while a validated tag is held; a finished parser is restarted and the answer is False; otherwise the waiting bytes are fed until the verdict (True, or the exception) or until none is left (False) |
| TagReader.Rdm6300.TagID | util/tag_reader.py:189-202 | an ID exists exactly when a frame has been validated, and it reads back as that frame's nibbles 5..10 |
| Lcd.Sends | util/lcd_driver.py:117-134 | one send per code, in order |
| Lcd.SendBytesShape | util/lcd_driver.py:99-134 | one send is six bus bytes: each nibble plain, with enable set, then with enable cleared, all carrying the mode and backlight bits |
| Lcd.DecodeSendRoundTrip | util/lcd_driver.py:117-134 | the two nibble transfers carry the low byte of the data, high nibble first, with its mode and backlight |
| Lcd.WireLength | util/lcd_driver.py:117-134 | n sends put 6n bytes on the bus |
| Lcd.WireAppend | util/lcd_driver.py:89-134 | the bus bytes of two runs of sends are those of the first followed by those of the second |
| Lcd.BacklightOnlyDiffers | util/lcd_driver.py:137-146 | `switchOn` and `switchOff` write the same bytes except the backlight bit |
| Lcd.FindFirst | util/lcd_driver.py:164-166 | `str.find`: the first index of the character, or -1 when it is absent |
| Lcd.PlainTextVerbatim | util/lcd_driver.py:160-175 | text without '&' is sent character by character, every character, with no truncation |
| Lcd.PlainPrefix | util/lcd_driver.py:160-175 | text without '&' is sent verbatim before whatever follows it sends |
| Lcd.EscapeRoundTrip | util/lcd_driver.py:164-175 | `&<n>&` sends exactly the one code n, and the text after the closing '&' follows |
| Lcd.DoubleAmpersandSwallows | util/lcd_driver.py:164-175 | `&&` sends one '&' and the character right after the pair is never sent |
| Lcd.ScanBadEscape | util/lcd_driver.py:164-170 | an '&' with no closing '&', or with a non-number before it, raises ValueError |
| Lcd.NextCode | util/lcd_driver.py:160-172 | one pass of the loop ends within the text |
| Lcd.ScanFromIsScan | util/lcd_driver.py:154-175 | the loop's index walk sends the codes the escape syntax defines on the remaining text |
| Lcd.RowAddress | util/lcd_driver.py:155-158 | rows 1..4 address `LCD_LINES[line-1]`; Python's negative indexing serves -3..0 and every other row raises |
| Lcd.LineEffectSpec | util/lcd_driver.py:154-175 | a line above 4 writes nothing and is refused; otherwise the row address goes out as a command, then the codes as data, and an escape error is raised after the codes before it |
| Lcd.RowsPastFourWriteNothing | util/lcd_driver.py:154-158 | lines meant for rows past the fourth write nothing |
| Lcd.PrintKeepsRowsUpToFour | util/lcd_driver.py:178-180 | only the lines that land on rows 1..4 change what `Print` writes |
| Lcd.LcdDriver.constructor | util/lcd_driver.py:61-86 | the backlight is on and the start-up commands go out in order |
| Lcd.LcdDriver.WriteToBus | util/lcd_driver.py:89-96 | one byte is appended to the bus |
| Lcd.LcdDriver.Latch | util/lcd_driver.py:99-109 | the byte with enable set, then with enable cleared |
| Lcd.LcdDriver.SendFourBits | util/lcd_driver.py:112-114 | the nibble with the backlight bit, plain and then latched |
| Lcd.LcdDriver.Send | util/lcd_driver.py:117-134 | one transfer is logged with the current backlight, which does not change |
| Lcd.LcdDriver.SwitchOn | util/lcd_driver.py:137-140 | the backlight becomes 0x08 and command 0 is sent with it |
| Lcd.LcdDriver.SwitchOff | util/lcd_driver.py:143-146 | the backlight becomes 0x00 and command 0 is sent with it |
| Lcd.LcdDriver.Clear | util/lcd_driver.py:149-151 | clear-display, then return-home, as commands |
| Lcd.LcdDriver.PrintLine | util/lcd_driver.py:154-175 | the sends and the outcome are exactly those of the line's effect |
| Lcd.LcdDriver.Print | util/lcd_driver.py:178-180 | each line on its own row from row 1, stopping at the first exception |
| Lcd.LcdDriver.PrintRows | util/lcd_driver.py:179-180 | each line on its own row from a given first row, stopping at the first exception |
| Lcd.LcdDriver.SendText | util/lcd_driver.py:160-175 | the walk over a line sends exactly the codes the escape syntax reads from it, as data, and raises exactly its error |
| Lcd.LcdDriver.SendGlyph | util/lcd_driver.py:187-188 | every byte of one glyph, in order, as data |
| Lcd.LcdDriver.LoadCustom | util/lcd_driver.py:183-188 | the CGRAM command once, then every byte of every glyph row, in order, as data |
| Common.Read | common/code.py:26-31 | the level when both samples agree, False when they differ |
| Common.PressedUnlessBothHigh | common/code.py:31 | a button counts as pressed unless both samples are high, so a bounce is a press |
| Common.WholeSeconds | main/main.py:9 | `timedelta.seconds`: whole seconds of the difference within a day, 0 to 86399 |
| Common.TimedOutWithinADay | main/main.py:9-10 | within a day of the start, the budget runs out exactly when that many whole seconds have passed |
| Common.ZeroBudgetTimesOut | main/main.py:9-10 | a budget of 0 runs out on the next check |
| Common.Advance | machine.py:82-90 | one advance keeps the count in 0..4 and the fill a dot or a blank; below 4 it adds one fill character; at 4 a row of blanks restarts at one dot and a row of dots becomes four blanks |
| Common.Animate | machine.py:80-92 | once a whole second has passed the dots advance once and the second count restarts now; before that nothing moves |
| Common.DotsCycle | machine.py:82-90 | after the first step the animation cycles through five shapes |
| Common.DotsStayOk | states/Idle.py:36-47 | every shape the animation passes through keeps the count in 0..4 and the fill a dot or a blank |
| Common.Center | machine.py:647 | `f"{line:^20}"`: padded to the width with the text in place and the odd blank on the right; longer text is kept whole |
| Common.RightAlign | machine.py:284 | `f"{text: >20}"`: blanks before the text up to the width; longer text is kept whole |
| Common.SplitJoin | machine.py:645 | `msg.split("\n")` loses nothing: the pieces joined back are the message, and no piece holds a newline |
| Strings.Text | common/strings.py:1-29 | every table entry is non-empty text |
| Machine.Sentinel | machine.py:355 | the "Back" entry has id -1 and the BACK text as its name |
| Machine.OnlyBlankIsEmpty | machine.py:632-641 | only the blank message has no text |
| Machine.Fetch | machine.py:217-230 | the connect timeout and other connection errors by name, a failed answer as 500, an ok answer's data, and any other exception escapes `run` |
| Machine.QueryTagRun | machine.py:142-169 | 500 iff a lookup that is made failed; INVALID iff the card lookup answered ok with null data; for a known card the work lookup's outcome unchanged; the exception escapes iff a lookup that is made raises |
| Machine.UnassignRun | machine.py:594-600 | the response itself, the connection errors by name, or the exception, which escapes |
| Machine.FailureKey | machine.py:172-188 | a message exactly for the timeout, the connection error, INVALID and 500 |
| Machine.Take | machine.py:249 | `s[0:n]`: the prefix of s of length n, or all of s when it is shorter |
| Machine.DisplayName | machine.py:249 | `"<F>. <lname>"` cut to 19 characters: the first name's initial, ". ", then a prefix of the last name, 3 + |lname| characters up to 19; None exactly where `fname[0]` raises on an empty first name |
| Machine.IdleOnEvent | machine.py:97-110 | TIME_OUT switches the display off and stays; OK switches it on and goes to QueryTag with the card read, or raises without one |
| Machine.QueryTagOnEvent | machine.py:172-188 | a failure shows its message; an empty work list goes to QueryProjects for the card, a non-empty one to EndWork with its first entry |
| Machine.QueryProjectsOnEvent | machine.py:233-254 | a failure shows its message, no projects shows NO_PROJ, one project goes to AcceptProject and two or more to SelectProject, with the first record's display name; an empty first name raises |
| Machine.AcceptProjectOnEvent | machine.py:315-325 | WAIT stays, TIME_OUT goes back silently, CANCEL shows CANCELED, and the picked project is assigned |
| Machine.SelectProjectOnEvent | machine.py:411-421 | WAIT stays, TIME_OUT goes back silently, the "Back" entry shows CANCELED and any other entry is assigned |
| Machine.AssignOnEvent | machine.py:485-495 | a failure shows its message and any data confirms the assignment |
| Machine.EndWorkOnEvent | machine.py:553-563 | WAIT stays, TIME_OUT goes back silently, CANCEL shows CANCELED and OK goes to Unassign for the card |
| Machine.UnassignOnEvent | machine.py:603-617 | a failed 500 shows the server's text, a failed 404 INVALID, any other answer PROJ_UA; connection failures show their messages |
| Machine.BackToIdleOnEvent | machine.py:657-661 | TIME_OUT goes to a fresh Idle, anything else stays |
| Machine.Budget | machine.py:632-649 | Idle 30 seconds, BackToIdle the configured time (0 for the blank message), every other state the default; BackToIdle's is 0 exactly for the blank message or a configured 0 |
| Machine.TimeOutGoesBack | machine.py:97-661 | every state accepts TIME_OUT: Idle stays and switches off, BackToIdle goes to Idle, a prompt goes back silently and a request shows REQ_TO |
| Machine.CardIsKept | machine.py:97-617 | every state built along a card's workflow holds that same card |
| Machine.BlankReturnsAtOnce | machine.py:638-641 | the blank message has budget 0, so the next pass times it out and goes to Idle |
| Machine.FailedLookupShowsServerError | machine.py:148-163 | a failed card lookup, 404 included, shows SRV_INT |
| Machine.QueryTagAlwaysMoves | machine.py:142-188 | unless its `run` raises, QueryTag answers something its `on_event` accepts, and that decision leaves QueryTag |
| Machine.IdleScreen.constructor | machine.py:37-54 | a reader opened at the start of a frame with nothing waiting and no tag, no dots yet, and the budget starts now |
| Machine.IdleScreen.Run | machine.py:57-94 | OK at once while a validated tag is held; a stopped reader is restarted and answers WAIT; otherwise the waiting and arriving bytes are fed to the parser: OK exactly on an accepting verdict, which stores the tag and frame, a rejected frame restarts the reader, and the locals and remaining bytes are those of that feed; the dots move as the animation says |
| Machine.AcceptPrompt.constructor | machine.py:272-294 | the project, card and user are kept and no button counts as held |
| Machine.AcceptPrompt.Run | machine.py:297-312 | a new left press picks the project, else a new right press cancels; the levels are stored only on WAIT |
| Machine.EndWorkPrompt.constructor | machine.py:513-534 | the card and project are kept and no button counts as held |
| Machine.EndWorkPrompt.Run | machine.py:537-550 | a new left press is OK, else a new right press is CANCEL; the levels are stored only on WAIT |
| Machine.MenuEntries | machine.py:355-356 | the list is the records, then "Back", then all of that again |
| Machine.FollowingCycles | machine.py:397-402 | from the first entry, k right presses select entry k and N+1 presses come back to the first |
| Machine.ProjectMenu.constructor | machine.py:343-365 | the doubled list with "Back", the cursor on the first entry |
| Machine.ProjectMenu.Run | machine.py:368-408 | a new left press picks the entry under the cursor; else a new right press moves the cursor on and restarts the budget, and the levels are stored |
| Driver.Abs | machine.py:37-661 | the loop's state read as values: the view, start time, budget and card are those of the state object, and what it holds is well formed |
| Driver.Fresh | machine.py:37-650 | what a constructor leaves at `now`: the target's view and budget, started now, no card, a reader at the start of a frame, no button held, the cursor on the first entry |
| Driver.Answer | main/main.py:12 | `state.run()` answers an event the same state's `on_event` accepts, or an exception, which only the four request states raise |
| Driver.Ran | machine.py:57-550 | `run` keeps the state's view and budget, and its start time except for SelectProject's cursor move; Idle's OK comes with a card held |
| Driver.Run | main/main.py:12 | `state.run()` on the state object: the answer is Answer of what it held, and its new reader, dots, levels, cursor and start time are Ran's |
| Driver.FreshAnswer | machine.py:37-94 | a new Idle answers OK exactly when this pass's bytes, fed to a parser at the start of a frame, reach an accepting verdict; a new BackToIdle answers "" |
| Driver.ShowMessage | machine.py:645-647 | the message's centred lines on rows 2, 3, ..., stopping at an exception |
| Driver.AcceptLines | machine.py:278-288 | AcceptProject's rows: the user right-aligned to 20, the first 17 characters of "<order> <operation>" between glyphs 0 and 1, a blank row, then "OK" and BACK right-aligned |
| Driver.Announcement | machine.py:134-647 | the screen after the clear: nothing for Idle, QueryProjects, Assign and EndWork; for QueryTag and Unassign row 2's address and 20 characters, never raising |
| Driver.ProcessingIsPlain | machine.py:135 | "Processing..." never raises: the row address, then the 20 characters of the centred text |
| Driver.FooterCodes | machine.py:363 | the footer sends "OK", seventeen blanks and glyph 2 as a single code |
| Driver.Announce | machine.py:45-647 | each constructor's display: nothing for QueryProjects and Assign; the clear, then the target's screen with its exception, for every other state |
| Driver.AnnounceEntry | machine.py:133-649 | a constructor's display output is exactly that of entering its target: nothing for QueryProjects and Assign, else the clear and the screen, with its exception |
| Driver.Build | common/code.py:12-15 | a new state object whose contents are those a constructor leaves: the target's view and budget, started now |
| Driver.Enter | machine.py:133-649 | the display output of entering the target, then, unless it raised, a new state object holding what its constructor leaves |
| Driver.React | main/main.py:10-12 | the state `on_event` returns has the view its decision names, and only Idle's TIME_OUT and OK change the backlight |
| Driver.IdleSleeps | machine.py:97-101 | Idle's TIME_OUT sends only command 0 with the backlight off, and Idle stays |
| Driver.CardReadShowsProcessing | machine.py:102-140 | a card read in Idle: backlight on, clear, row 2's address, then "Processing..." centred, and QueryTag takes the card |
| Driver.BackToIdleClears | machine.py:657-661 | BackToIdle's TIME_OUT clears the display for a new Idle and sends nothing else |
| Driver.IdleEntryClears | machine.py:45 | building Idle sends only the two clear commands and cannot raise |
| Driver.Outcome | main/main.py:12 | when `run` raises, nothing is sent and the exception escapes with no `on_event` call |
| Driver.Switch | machine.py:97-110 | the backlight call: the new backlight, and command 0 sent under it |
| Driver.Apply | main/main.py:10-12 | the returned state: the same object on Stay, the exception on Raise, on Enter the display output of the constructor and a new object holding what it leaves |
| Driver.Respond | main/main.py:10-12 | the backlight call, then the decision's reaction under the new backlight, the sends in that order; the same object unless a state is entered |
| Driver.Deliver | main/main.py:10-12 | `state = state.on_event(e)`: display, backlight, exception and view are React's; the same object on Stay, a new object holding what its constructor leaves on Enter |
| Driver.TimeOutLeadsBack | machine.py:97-661 | after TIME_OUT the state is Idle or BackToIdle, and Idle exactly when it came from Idle or BackToIdle |
| Driver.Settle | main/main.py:10-12 | what the loop holds after `on_event`: a new object started now with the successor's view when a state is entered, else the same contents as before |
| Driver.Handle | main/main.py:12 | nothing sent and the exception escapes when `run` raised, else Deliver; the loop then holds Settle's contents, in the same object unless a state was entered |
| Driver.Expired | main/main.py:9-10 | TIME_OUT is handed over exactly when the whole elapsed seconds reach the state's budget; otherwise nothing is sent or raised and the contents and backlight stay |
| Driver.Expire | main/main.py:9-10 | the first half of a pass on the state object: display, backlight, exception and new contents are Expired's; the same object unless a state was entered |
| Driver.Once | main/main.py:12 | `run`'s answer is read from the state as it stands and handed to that state as `run` left it; the view stays unless a state is entered, which starts now |
| Driver.RunOnce | main/main.py:12 | `state.on_event(state.run())` on the state object: display, backlight, exception and new contents are Once's; the same object unless a state was entered |
| Driver.PassOf | main/main.py:8-12 | one pass makes one or two `on_event` calls unless TIME_OUT raised, and ends at the view of what the state then holds |
| Driver.Step | main/main.py:8-12 | one pass on the state object: the calls, display, backlight, exception and new contents are PassOf's; the object is kept unless a state was entered |
| Driver.Walk | main/main.py:7-12 | the passes over the ticks, each from the contents and backlight the one before left, stopping at an exception: at most two calls per pass, and at least one while nothing raised |
| Driver.WalkStops | main/main.py:7-12 | the loop ends when the ticks run out or an exception escapes; the ticks after that change nothing |
| Driver.WalkReplays | main/main.py:5-12 | the walk from a new Idle makes a chain of calls, each on the state the one before returned, and replaying them sends what the walk sent, with the same backlight, exception and state |
| Driver.Loop | main/main.py:8-12 | the `while True` loop on the state object: the calls, exception, display and backlight are those of the walk from what the state held |
| Driver.ReplayExtend | main/main.py:8-12 | replaying one more call adds its `on_event` reaction after the earlier ones, unless an earlier call already raised |
| Driver.ReplayLast | main/main.py:12 | a replay that raised nothing ended with an `on_event` call, and is at the state that call returned |
| Driver.ChainedExtend | main/main.py:8-12 | a call on the state the replay has reached, with nothing raised, extends a chained trace |
| Driver.AnswerReplay | main/main.py:12 | replaying `run`'s answer after calls that raised nothing appends `on_event`'s sends and leaves its backlight and state |
| Driver.PassReplay | main/main.py:8-12 | replaying one pass's calls after a chain that raised nothing keeps the chain and appends that pass's display sends |
| Driver.ShutDown | main/main.py:13-15 | on Ctrl-C: clear-display, return-home, then command 0 with the backlight off |
| Driver.Drive | main/main.py:5-15 | the trace of `on_event` calls is the walk over the ticks from a new Idle; the display receives Idle's clear, then the sends of replaying that trace; the program ends crashed exactly when an exception escaped; on Ctrl-C the clear and backlight-off follow |
| Machine.IdleStep | machine.py:57-94 | Idle's `run` on what its reader holds: OK exactly when a tag is held afterwards, with the dots unmoved; otherwise WAIT with the parser running and the dots animated |
| Machine.IdleStepFresh | machine.py:37-94 | a new Idle's reader reads a card on its first pass exactly when the bytes hold an accepted frame |
| TagReader.DoneStep | util/tag_reader.py:137-151 | `done()` on what the reader holds: True exactly when a tag is held afterwards; an exception ends the generator; False leaves it running with no tag; the last frame is kept unless a new one is accepted |
| Lcd.LcdDriver.LoadGlyph | util/lcd_driver.py:186-188 | one more glyph's bytes, in order, as data, after those of the glyphs before it |
| States.BackEntry | states/SelectProject.py:16 | the "Back" entry has ID -1 and the BACK text |
| States.RequestsDiffer | states/Assign.py:13-22 | Assign's body carries only the project's ID; the four requests are told apart by path and body |
| States.CatchingBoth | states/QueryTag.py:21-27 | the connect timeout and other connection errors by name, else the response; any other exception escapes |
| States.CatchingTimeout | states/QueryProjects.py:18-22 | only the connect timeout is caught; a connection error or any other exception escapes |
| States.FailureKey | states/QueryTag.py:37-42 | a failed response shows SRV_INT for 500 and INVALID for 404, and other codes fall through |
| States.IdleOnEvent | states/Idle.py:52-62 | TIME_OUT switches off and stays; OK switches on and goes to QueryTag; anything else stays |
| States.QueryTagOnEvent | states/QueryTag.py:30-47 | the connection errors and failed 500/404 show messages, 202 goes to QueryProjects and any other response to EndWork with its body |
| States.QueryProjectsOnEvent | states/QueryProjects.py:25-39 | failed 500/404 show messages, 202 shows NO_PROJ and any other response goes to SelectProject, never to a single-project accept |
| States.SelectProjectOnEvent | states/SelectProject.py:62-72 | TIME_OUT goes back silently, WAIT stays, ID -1 shows CANCELED and any other entry is assigned |
| States.AssignOnEvent | states/Assign.py:27-38 | TIME_OUT shows REQ_TO, failed 500/404 their messages, everything else PROJ_A |
| States.EndWorkOnEvent | states/EndWork.py:44-54 | TIME_OUT goes back silently, WAIT stays, CANCEL shows CANCELED and OK goes to Unassign |
| States.UnassignOnEvent | states/Unassign.py:28-39 | TIME_OUT shows REQ_TO, a failed 500 the response text, a failed 404 INVALID, anything else PROJ_UA |
| States.BackToIdleOnEvent | states/BackToIdle.py:32-33 | a fresh Idle for every event |
| States.Budget | states/Idle.py:20 | 30 seconds for Idle, the default 10 for every other state |
| States.DisplayTime | states/BackToIdle.py:11-14 | 1 second, or 0 exactly for the empty message |
| States.RequestStatesMove | states/QueryTag.py:21-47 | unless its `run` raises, no request state answers self, whatever its request brings back |
| States.BackToIdleBudget | states/BackToIdle.py:11-22 | BackToIdle keeps the default budget; only its display time depends on the message |
| States.ListEntries | states/SelectProject.py:16-17 | the list is the records, then "Back", then all of that again |
| States.StepsUndo | states/SelectProject.py:40-50 | left and middle steps undo each other and keep the cursor in the first copy |
| States.BothStepsCancel | states/SelectProject.py:40-50 | both edges in one pass leave the cursor where it was |
| States.PrecedingCycles | states/SelectProject.py:46-50 | from the first entry, k middle presses reach entry half-k, and half presses come back |
| States.IdleState.constructor | states/Idle.py:10-20 | a reader opened at the start of a frame with nothing waiting and no tag, no dots yet |
| States.IdleState.Run | states/Idle.py:23-49 | OK at once while a validated tag is held; a stopped reader is restarted and answers "Not done"; otherwise the bytes are fed to the parser: OK exactly on an accepting verdict, which stores the tag and frame, the exception exactly on a rejected frame, and the locals and remaining bytes are those of that feed |
| States.SelectProjectState.constructor | states/SelectProject.py:10-22 | the doubled list with "Back", the cursor on the first entry |
| States.SelectProjectState.MoveCursor | states/SelectProject.py:40-50 | the left step, then the middle step, each wrapping within the first copy |
| States.SelectProjectState.Run | states/SelectProject.py:25-59 | the cursor moves for left and middle edges; a right edge returns the entry under it without storing levels, else WAIT stores all three |
| States.EndWorkState.constructor | states/EndWork.py:10-23 | the work and card are kept and no button counts as held |
| States.EndWorkState.Run | states/EndWork.py:26-41 | a new left press is OK, else a new right press is CANCEL; the levels are stored only on WAIT |
| States.BackToIdleScreen | states/BackToIdle.py:10-22 | the display time, then the display cleared and the message's centred lines from row 2 |

## Left out

- Serial port setup and teardown: waiting bytes are a sequence the model appends to; `rawTag` and `tagType` are not modelled, since no caller uses them.
- The I2C transport and every `sleep`: the display is the ordered log of bus bytes, and timing is not modelled.
- HTTP and JSON: each request's outcome is a `Reply` value given to the pass that makes it; a `requests` exception other than a connection error (a read timeout, say) or a body `run` cannot read is the `Failed` reply, and the exception it raises is modelled only as ending the program.
- Faults that crash a request before any outcome exists: the undefined `serverIP` (machine.py:149, 158, 219) and the missing `json` import in Assign (machine.py:471).
- `get_display_text` in SelectProject's `run` (machine.py:372, 376) is called as a bare name, so that `run` raises NameError before any button is read; the model's `ProjectMenu.Run` reads the buttons and never raises.
- AcceptProject passes already-unwrapped fields to Assign, which unwraps them again: the model passes the project record.
- EndWork's constructor display is not modelled, because formatting `project['text']` fails on the record it is given; EndWork's state and decisions are.
- The clock line and the menu display that `run` prints each pass; the prompts' and the list's screens in `run` are not modelled.
- Wall-clock time: each pass sees one reading in microseconds, and readings within a pass are taken as equal.
- GPIO set-up, pin constants and logging: a button is two samples per pass.
- Python's `int()` also accepts surrounding whitespace, underscores and non-ASCII digits; the model's `ParseInt` accepts ASCII digits with an optional sign only.
- The states/ package has no main loop: its states are modelled one by one, and the constructor display of its QueryTag and Unassign (the same "Processing..." line as machine.py's) is not modelled.
- The states/ package's other constructor display is not modelled either: EndWork's STOP prompt with the work text and the right-aligned minutes (states/EndWork.py:11-17), and the `lcd.clear()` of Idle (states/Idle.py:11) and of SelectProject (states/SelectProject.py:11).
- BackToIdle's `run` in the states/ package only sleeps for the display time and returns `""`; the model keeps the display time and not the sleep.
- Driver.Drive: Ctrl-C is modelled only after the last pass, not in the middle of one.
- Driver.Drive: a run with no Ctrl-C is modelled as a finite list of passes, not as an endless loop.
