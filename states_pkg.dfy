/**
 * The states/ package: a second, simpler version of the same workflow,
 * not the one main/main.py runs. Its records are `{"ID", "text"}`
 * dictionaries, it tells outcomes apart by HTTP status (202 for "nothing
 * there"), its selection list scrolls both ways, and its request states
 * catch fewer exceptions.
 *
 * As in Machine, each `on_event` is a pure decision (Stay, Enter a new
 * state, or Raise), the `run` steps that keep state are class methods and
 * the ones that only make a request are functions of the request's outcome.
 */
module States {
  import opened Wrappers
  import opened Common
  import opened Strings
  import TagReader
  import Lcd
  import Machine
  import Driver

  /** One entry of the project list: `{"ID": id, "text": text}`. */
  datatype Record = Record(id: int, text: string)

  /** The "Back" entry SelectProject appends. */
  function BackEntry(lang: Lang): (r: Record)
    ensures r.id == -1 && r.text == Text(lang, BACK)
  {
    Record(-1, Text(lang, BACK))
  }

  /** The started work QueryTag hands to EndWork: `{"text": ..., "time": ...}`. */
  datatype WorkEntry = WorkEntry(text: string, minutes: int)

  /** What `response.json()` gives: a list of records, one work entry, or an exception. */
  datatype Json = Listing(items: seq<Record>) | Started(work: WorkEntry) | Malformed

  /**
   * How one HTTP request ended: the connect timeout, another connection
   * error, an answer, or any other `requests` exception (a read timeout, say).
   */
  datatype Reply = ConnectTimeout | ConnectionFailed | Answered(status: int, text: string, json: Json) | Failed

  /** What `run` hands to `on_event`, and the TIME_OUT of the main loop. */
  datatype Event =
    | TimeOut                                      // "TIME_OUT"
    | ConnErr                                      // "CONN_ERR"
    | Response(status: int, text: string, json: Json)  // the response object
    | Ok                                           // "OK"
    | NotDone                                      // "Not done"
    | Wait                                         // "WAIT"
    | Cancel                                       // "CANCEL"
    | Chosen(entry: Record)                        // the record SelectProject returns
    | Shown                                        // BackToIdle's ""

  /** A state to build next, with its constructor's arguments. */
  datatype Target =
    | ToIdle
    | ToQueryTag(tagId: string)
    | ToQueryProjects(tagId: string)
    | ToSelectProject(records: seq<Record>, tagId: string)
    | ToAssign(entry: Record, tagId: string)
    | ToEndWork(work: WorkEntry, tagId: string)
    | ToUnassign(tagId: string)
    | ToBackToIdle(msg: Machine.Message)

  /** What `on_event` returns: self, a new state, or it raises. */
  datatype Next = Stay | Enter(target: Target) | Raise

  // ----- requests -----

  /** The request a state makes, without the server's address. */
  datatype Request = Get(path: string) | Post(path: string, projectId: Option<int>)

  function QueryTagRequest(tagId: string): Request {
    Get("/" + tagId)
  }

  function QueryProjectsRequest(tagId: string): Request {
    Get("/" + tagId + "/projects")
  }

  /** Assign's POST: the body is `{"projectID": ID}` and nothing else of the record. */
  function AssignRequest(entry: Record, tagId: string): Request {
    Post("/" + tagId, Some(entry.id))
  }

  /** Unassign's POST: the same path with no body. */
  function UnassignRequest(tagId: string): Request {
    Post("/" + tagId, None)
  }

  /**
   * The four requests are told apart by the server: the two GETs by path,
   * Assign and Unassign by the body; two records with the same ID make the
   * same assignment whatever their text.
   */
  lemma RequestsDiffer(tagId: string, entry: Record, other: Record)
    ensures QueryTagRequest(tagId) != QueryProjectsRequest(tagId)
    ensures AssignRequest(entry, tagId) != UnassignRequest(tagId)
    ensures AssignRequest(entry, tagId) == AssignRequest(other, tagId) <==> entry.id == other.id
    ensures AssignRequest(entry, tagId).path == UnassignRequest(tagId).path == QueryTagRequest(tagId).path
  {
    assert |QueryTagRequest(tagId).path| < |QueryProjectsRequest(tagId).path|;
  }

  /**
   * QueryTag's `run`: the connect timeout and every other connection error
   * by name, else the response; None is any other exception, which escapes.
   */
  function CatchingBoth(reply: Reply): (e: Option<Event>)
    ensures e.None? <==> reply.Failed?
    ensures e.Some? ==> (e.value.TimeOut? <==> reply.ConnectTimeout?)
    ensures e.Some? ==> (e.value.ConnErr? <==> reply.ConnectionFailed?)
    ensures e.Some? ==> (e.value.Response? <==> reply.Answered?)
    ensures reply.Answered? ==> e == Some(Response(reply.status, reply.text, reply.json))
  {
    match reply
    case ConnectTimeout => Some(TimeOut)
    case ConnectionFailed => Some(ConnErr)
    case Answered(status, text, json) => Some(Response(status, text, json))
    case Failed => None
  }

  /**
   * The `run` of QueryProjects, Assign and Unassign: only the connect
   * timeout is caught; None is any other exception, a connection error
   * included, which escapes.
   */
  function CatchingTimeout(reply: Reply): (e: Option<Event>)
    ensures e.None? <==> reply.ConnectionFailed? || reply.Failed?
    ensures e.Some? ==> e == CatchingBoth(reply) && !e.value.ConnErr?
  {
    if reply.ConnectionFailed? then None else CatchingBoth(reply)
  }

  // ----- on_event -----

  /** The message a failed response shows where the state catches it: 500 and 404 only. */
  function FailureKey(status: int): (k: Option<Key>)
    ensures k.Some? <==> !Machine.IsOk(status) && (status == 500 || status == 404)
    ensures k == Some(SRV_INT) <==> status == 500
    ensures k == Some(INVALID) <==> status == 404
  {
    if !Machine.IsOk(status) && status == 500 then Some(SRV_INT)
    else if !Machine.IsOk(status) && status == 404 then Some(INVALID)
    else None
  }

  /** Idle: TIME_OUT switches the display off and stays; OK switches it on and queries the card. */
  function IdleOnEvent(e: Event, tagId: Option<string>): (r: (Next, Machine.Light))
    ensures e.TimeOut? <==> r.1 == Machine.SwitchOff
    ensures e.Ok? <==> r.1 == Machine.SwitchOn
    ensures r.0.Enter? <==> e.Ok? && tagId.Some?
    ensures r.0.Enter? ==> r.0.target == ToQueryTag(tagId.value)
    ensures r.0.Raise? <==> e.Ok? && tagId.None?
    ensures r.0.Stay? <==> !e.Ok?
  {
    if e.TimeOut? then (Stay, Machine.SwitchOff)
    else if e.Ok? then
      (if tagId.Some? then Enter(ToQueryTag(tagId.value)) else Raise, Machine.SwitchOn)
    else (Stay, Machine.Unchanged)
  }

  /**
   * QueryTag: the connection errors show their messages, a failed 500 or
   * 404 its own; then 202 (no work running) asks for the projects and any
   * other response, failed ones with other codes included, offers to end
   * the work its body describes.
   */
  function QueryTagOnEvent(tagId: string, e: Event): (n: Next)
    requires e.TimeOut? || e.ConnErr? || e.Response?
    ensures e.TimeOut? ==> n == Enter(ToBackToIdle(Machine.Say(REQ_TO)))
    ensures e.ConnErr? ==> n == Enter(ToBackToIdle(Machine.Say(SRV_UNREACH)))
    ensures e.Response? && FailureKey(e.status).Some? ==>
              n == Enter(ToBackToIdle(Machine.Say(FailureKey(e.status).value)))
    ensures n == Enter(ToQueryProjects(tagId)) <==> e.Response? && e.status == 202
    ensures n.Enter? && n.target.ToEndWork? <==>
              e.Response? && FailureKey(e.status).None? && e.status != 202 && e.json.Started?
    ensures n.Enter? && n.target.ToEndWork? ==> n.target == ToEndWork(e.json.work, tagId)
    ensures n.Raise? <==> e.Response? && FailureKey(e.status).None? && e.status != 202 && !e.json.Started?
  {
    if e.TimeOut? then Enter(ToBackToIdle(Machine.Say(REQ_TO)))
    else if e.ConnErr? then Enter(ToBackToIdle(Machine.Say(SRV_UNREACH)))
    else if FailureKey(e.status).Some? then Enter(ToBackToIdle(Machine.Say(FailureKey(e.status).value)))
    else if e.status == 202 then Enter(ToQueryProjects(tagId))
    else if e.json.Started? then Enter(ToEndWork(e.json.work, tagId))
    else Raise
  }

  /**
   * QueryProjects: a failed 500 or 404 shows its message, 202 shows
   * NO_PROJ, and any other response goes to the selection list, whatever
   * the number of projects; a body that is not a list raises.
   */
  function QueryProjectsOnEvent(tagId: string, e: Event): (n: Next)
    requires e.TimeOut? || e.Response?
    ensures e.TimeOut? ==> n == Enter(ToBackToIdle(Machine.Say(REQ_TO)))
    ensures e.Response? && FailureKey(e.status).Some? ==>
              n == Enter(ToBackToIdle(Machine.Say(FailureKey(e.status).value)))
    ensures e.Response? && FailureKey(e.status).None? && e.status == 202 ==>
              n == Enter(ToBackToIdle(Machine.Say(NO_PROJ)))
    ensures n.Enter? && n.target.ToSelectProject? <==>
              e.Response? && FailureKey(e.status).None? && e.status != 202 && e.json.Listing?
    ensures n.Enter? && n.target.ToSelectProject? ==> n.target == ToSelectProject(e.json.items, tagId)
    ensures n.Raise? <==> e.Response? && FailureKey(e.status).None? && e.status != 202 && !e.json.Listing?
  {
    if e.TimeOut? then Enter(ToBackToIdle(Machine.Say(REQ_TO)))
    else if FailureKey(e.status).Some? then Enter(ToBackToIdle(Machine.Say(FailureKey(e.status).value)))
    else if e.status == 202 then Enter(ToBackToIdle(Machine.Say(NO_PROJ)))
    else if e.json.Listing? then Enter(ToSelectProject(e.json.items, tagId))
    else Raise
  }

  /** SelectProject: TIME_OUT goes back silently, the "Back" entry (ID -1) cancels, any other entry is assigned. */
  function SelectProjectOnEvent(tagId: string, e: Event): (n: Next)
    requires e.TimeOut? || e.Wait? || e.Chosen?
    ensures n.Stay? <==> e.Wait?
    ensures e.TimeOut? ==> n == Enter(ToBackToIdle(Machine.BLANK))
    ensures e.Chosen? ==> (n == Enter(ToBackToIdle(Machine.Say(CANCELED))) <==> e.entry.id == -1)
    ensures e.Chosen? && e.entry.id != -1 ==> n == Enter(ToAssign(e.entry, tagId))
  {
    if e.TimeOut? then Enter(ToBackToIdle(Machine.BLANK))
    else if e.Wait? then Stay
    else if e.entry.id == -1 then Enter(ToBackToIdle(Machine.Say(CANCELED)))
    else Enter(ToAssign(e.entry, tagId))
  }

  /** Assign: a failed 500 or 404 shows its message; every other outcome confirms the assignment. */
  function AssignOnEvent(e: Event): (n: Next)
    requires e.TimeOut? || e.Response?
    ensures n.Enter? && n.target.ToBackToIdle? && n.target.msg.Say?
    ensures e.TimeOut? ==> n.target.msg.key == REQ_TO
    ensures e.Response? ==>
              n.target.msg.key == if FailureKey(e.status).Some? then FailureKey(e.status).value else PROJ_A
  {
    if e.TimeOut? then Enter(ToBackToIdle(Machine.Say(REQ_TO)))
    else if FailureKey(e.status).Some? then Enter(ToBackToIdle(Machine.Say(FailureKey(e.status).value)))
    else Enter(ToBackToIdle(Machine.Say(PROJ_A)))
  }

  /** EndWork: OK ends the work, CANCEL cancels, TIME_OUT goes back silently. */
  function EndWorkOnEvent(tagId: string, e: Event): (n: Next)
    requires e.TimeOut? || e.Ok? || e.Cancel? || e.Wait?
    ensures n.Stay? <==> e.Wait?
    ensures e.TimeOut? ==> n == Enter(ToBackToIdle(Machine.BLANK))
    ensures e.Cancel? ==> n == Enter(ToBackToIdle(Machine.Say(CANCELED)))
    ensures e.Ok? <==> n == Enter(ToUnassign(tagId))
  {
    if e.TimeOut? then Enter(ToBackToIdle(Machine.BLANK))
    else if e.Wait? then Stay
    else if e.Cancel? then Enter(ToBackToIdle(Machine.Say(CANCELED)))
    else Enter(ToUnassign(tagId))
  }

  /** Unassign: a failed 500 shows the server's own text, a failed 404 INVALID, anything else PROJ_UA. */
  function UnassignOnEvent(e: Event): (n: Next)
    requires e.TimeOut? || e.Response?
    ensures n.Enter? && n.target.ToBackToIdle?
    ensures e.TimeOut? ==> n.target.msg == Machine.Say(REQ_TO)
    ensures e.Response? ==>
              (n.target.msg == Machine.Verbatim(e.text) <==> e.status == 500)
              && (n.target.msg == Machine.Say(INVALID) <==> e.status == 404)
              && (n.target.msg == Machine.Say(PROJ_UA) <==> e.status != 500 && e.status != 404)
  {
    if e.TimeOut? then Enter(ToBackToIdle(Machine.Say(REQ_TO)))
    else if FailureKey(e.status) == Some(SRV_INT) then Enter(ToBackToIdle(Machine.Verbatim(e.text)))
    else if FailureKey(e.status) == Some(INVALID) then Enter(ToBackToIdle(Machine.Say(INVALID)))
    else Enter(ToBackToIdle(Machine.Say(PROJ_UA)))
  }

  /** BackToIdle: whatever it is handed, a fresh Idle. */
  function BackToIdleOnEvent(e: Event): (n: Next)
    ensures n == Enter(ToIdle)
  {
    Enter(ToIdle)
  }

  /** The budget a new state starts with: 30 for Idle, the default 10 for all others, BackToIdle included. */
  function Budget(t: Target): (b: nat)
    ensures b == 30 <==> t.ToIdle?
    ensures !t.ToIdle? ==> b == DEFAULT_BUDGET
  {
    if t.ToIdle? then 30 else DEFAULT_BUDGET
  }

  /** BackToIdle's `self.timeout`: how long `run` shows the message before returning. */
  function DisplayTime(msg: string): (t: nat)
    ensures t <= 1
    ensures t == 0 <==> msg == ""
  {
    if msg == "" then 0 else 1
  }

  /**
   * Every request state decides at once: whatever its request brings back,
   * `on_event` never answers self; only an exception `run` does not catch
   * (for QueryProjects, Assign and Unassign a connection error among them),
   * or a body of the wrong shape, stops the program.
   */
  lemma RequestStatesMove(tagId: string, reply: Reply)
    ensures CatchingBoth(reply).Some? ==> !QueryTagOnEvent(tagId, CatchingBoth(reply).value).Stay?
    ensures CatchingTimeout(reply).Some? ==>
              !QueryProjectsOnEvent(tagId, CatchingTimeout(reply).value).Stay?
              && AssignOnEvent(CatchingTimeout(reply).value).Enter?
              && UnassignOnEvent(CatchingTimeout(reply).value).Enter?
  {
  }

  /** The display time and the budget are separate: BackToIdle keeps the default budget whatever its message. */
  lemma BackToIdleBudget(msg: Machine.Message, lang: Lang)
    ensures Budget(ToBackToIdle(msg)) == DEFAULT_BUDGET
    ensures DisplayTime(Machine.MessageText(msg, lang)) == 0 <==> msg == Machine.BLANK
  {
    Machine.OnlyBlankIsEmpty(msg, lang);
  }

  // ----- the selection list -----

  /** The list SelectProject works on: the records, "Back", and all of that once more. */
  function ListOf(records: seq<Record>, lang: Lang): seq<Record> {
    var once := records + [BackEntry(lang)];
    once + once
  }

  /** The middle button's step: one entry back, to the last entry of the first copy before the first. */
  function Preceding(selected: int, half: int): int {
    if selected - 1 < 0 then half - 1 else selected - 1
  }

  /** Entry i of the first copy is record i or "Back", and the second copy repeats the first. */
  lemma ListEntries(records: seq<Record>, lang: Lang, i: int)
    requires 0 <= i <= |records|
    ensures |ListOf(records, lang)| == 2 * (|records| + 1)
    ensures ListOf(records, lang)[i] == if i < |records| then records[i] else BackEntry(lang)
    ensures ListOf(records, lang)[i + |records| + 1] == ListOf(records, lang)[i]
  {
  }

  /**
   * Left and middle undo each other within the first copy, and each keeps
   * the cursor there; so pressing both in one pass leaves the cursor where
   * it was.
   */
  lemma StepsUndo(selected: int, half: int)
    requires 0 <= selected < half
    ensures 0 <= Machine.Following(selected, half) < half
    ensures 0 <= Preceding(selected, half) < half
    ensures Preceding(Machine.Following(selected, half), half) == selected
    ensures Machine.Following(Preceding(selected, half), half) == selected
  {
  }

  /** Where one pass leaves the cursor: the left step if the left button was newly pressed, then the middle one. */
  function Cursor(selected: int, half: int, leftEdge: bool, middleEdge: bool): int {
    var afterLeft := if leftEdge then Machine.Following(selected, half) else selected;
    if middleEdge then Preceding(afterLeft, half) else afterLeft
  }

  /** Both buttons newly pressed in the same pass leave the cursor where it was. */
  lemma BothStepsCancel(selected: int, half: int)
    requires 0 <= selected < half
    ensures Cursor(selected, half, true, true) == selected
    ensures forall l: bool, m: bool :: 0 <= Cursor(selected, half, l, m) < half
  {
    StepsUndo(selected, half);
  }

  function PrecedingTimes(selected: int, half: int, k: nat): int
    decreases k
  {
    if k == 0 then selected else Preceding(PrecedingTimes(selected, half, k - 1), half)
  }

  /** From the first entry, k presses of the middle button reach entry half - k, and half presses come back. */
  lemma {:induction false} PrecedingCycles(half: int, k: nat)
    requires 1 <= k <= half
    ensures PrecedingTimes(0, half, k) == half - k
    decreases k
  {
    if k > 1 {
      PrecedingCycles(half, k - 1);
    }
  }

  // ----- the states whose `run` keeps state -----

  /** Idle: its tag reader and the dots after the prompt. */
  class IdleState {
    const reader: TagReader.Rdm6300
    const startTime: int
    var dots: int
    var fillChar: char
    var lastUpdate: int

    ghost predicate Valid()
      reads this, reader
    {
      reader.Valid() && DotsOk(Dots(dots, fillChar))
    }

    /** `Idle()`: open the reader and start reading a tag. */
    constructor (now: int)
      ensures Valid() && fresh(reader)
      ensures reader.active && reader.CurrentLocals() == TagReader.Start && reader.pending == [] && reader.rawTagData == None
      ensures Dots(dots, fillChar) == DOTS_START && lastUpdate == now && startTime == now
    {
      reader := new TagReader.Rdm6300([]);
      startTime := now;
      dots := 0;
      fillChar := '.';
      lastUpdate := now;
      new;
      reader.ReadTag();
    }

    /**
     * `run`: the reader sees the bytes that arrived; a validated tag answers
     * OK, a malformed frame raises out of `run` (None), and otherwise the
     * dots move on if a whole second has passed and the answer is "Not done".
     */
    method Run(now: int, arriving: seq<TagReader.Byte>) returns (r: Option<Event>)
      requires Valid()
      modifies this`dots, this`fillChar, this`lastUpdate, reader
      ensures Valid()
      ensures r == None || r == Some(Ok) || r == Some(NotDone)
      ensures r == Some(Ok) <==> reader.rawTagData.Some?
      ensures r == Some(Ok) ==> reader.TagID().Some?
      ensures r == None ==> !reader.active && reader.rawTagData == None
      ensures r != Some(NotDone) ==> dots == old(dots) && fillChar == old(fillChar) && lastUpdate == old(lastUpdate)
      ensures r == Some(NotDone) ==> reader.active
      ensures r == Some(NotDone) ==>
                (Dots(dots, fillChar), lastUpdate) == Animate(Dots(old(dots), old(fillChar)), old(lastUpdate), now)
      ensures old(reader.rawTagData).Some? ==> r == Some(Ok) && reader.pending == old(reader.pending) + arriving
      ensures old(reader.rawTagData).None? && !old(reader.active) ==>
                r == Some(NotDone) && reader.CurrentLocals() == TagReader.Start && reader.pending == []
      ensures old(reader.rawTagData).None? && old(reader.active) ==>
                var f := TagReader.Feed(old(reader.CurrentLocals()), old(reader.pending) + arriving);
                (r == Some(Ok) <==> f.verdict.Some? && f.verdict.value.Accept?)
                && (r == None <==> f.verdict.Some? && f.verdict.value.Reject?)
                && (f.verdict.None? ==> reader.CurrentLocals() == f.locals && reader.pending == f.rest)
                && (f.verdict.Some? ==> reader.pending == f.rest)
                && (f.verdict.Some? && f.verdict.value.Accept? ==>
                      reader.rawTagData == Some(f.verdict.value.tag) && reader.lastFrame == Some(f.verdict.value.frame))
    {
      reader.Receive(arriving);
      var done := reader.Done();
      if done.Failure? {
        return None;
      }
      if done.value {
        return Some(Ok);
      }
      if WholeSeconds(now - lastUpdate) >= 1 {
        dots := dots + 1;
        if dots > 4 {
          if fillChar == ' ' {
            fillChar := '.';
            dots := 1;
          } else {
            fillChar := ' ';
            dots := 4;
          }
        }
        lastUpdate := now;
      }
      return Some(NotDone);
    }
  }

  /** SelectProject: the list, the cursor and the button levels seen at the last WAIT. */
  class SelectProjectState {
    const tagId: string
    const startTime: int
    var projects: seq<Record>
    var selected: int
    /** `__last_states`: left, middle, right. */
    var lastStates: seq<bool>

    ghost predicate Valid()
      reads this
    {
      |lastStates| == 3 && |projects| >= 2 && |projects| % 2 == 0 && 0 <= selected < |projects| / 2
    }

    /** `SelectProject(projects, tagID)`: append "Back", then the list to itself; the cursor on the first entry. */
    constructor (records: seq<Record>, tagId: string, lang: Lang, now: int)
      ensures Valid()
      ensures projects == ListOf(records, lang) && selected == 0
      ensures lastStates == [false, false, false] && startTime == now && this.tagId == tagId
    {
      this.tagId := tagId;
      startTime := now;
      projects := records;
      selected := 0;
      lastStates := [false, false, false];
      new;
      projects := projects + [BackEntry(lang)];
      projects := projects + projects;
    }

    /** The cursor part of `run`: the left step, then the middle step, each wrapping within the first copy. */
    method MoveCursor(leftEdge: bool, middleEdge: bool)
      requires Valid()
      modifies this`selected
      ensures Valid()
      ensures selected == Cursor(old(selected), |projects| / 2, leftEdge, middleEdge)
    {
      var half := |projects| / 2;
      if leftEdge {
        selected := selected + 1;
        if selected >= half {
          selected := 0;
        }
      }
      if middleEdge {
        selected := selected - 1;
        if selected < 0 {
          selected := half - 1;
        }
      }
    }

    /**
     * `run`: a new left press moves the cursor on, then a new middle press
     * moves it back; a new right press returns the entry under the cursor
     * without storing the levels, otherwise all three levels are stored and
     * the answer is WAIT.
     */
    method Run(left: Samples, middle: Samples, right: Samples) returns (e: Event)
      requires Valid()
      modifies this`selected, this`lastStates
      ensures Valid()
      ensures selected == Cursor(old(selected), |projects| / 2,
                                 RisingEdge(Pressed(left), old(lastStates[0])),
                                 RisingEdge(Pressed(middle), old(lastStates[1])))
      ensures RisingEdge(Pressed(right), old(lastStates[2])) ==>
                e == Chosen(projects[selected]) && lastStates == old(lastStates)
      ensures !RisingEdge(Pressed(right), old(lastStates[2])) ==>
                e == Wait && lastStates == [Pressed(left), Pressed(middle), Pressed(right)]
    {
      var leftPressed := !Read(left);
      var middlePressed := !Read(middle);
      var rightPressed := !Read(right);
      MoveCursor(leftPressed && leftPressed != lastStates[0], middlePressed && middlePressed != lastStates[1]);
      if rightPressed && rightPressed != lastStates[2] {
        return Chosen(projects[selected]);
      }
      lastStates := lastStates[0 := leftPressed];
      lastStates := lastStates[1 := middlePressed];
      lastStates := lastStates[2 := rightPressed];
      return Wait;
    }
  }

  /** EndWork: the card whose work may be ended and the button levels seen at the last WAIT. */
  class EndWorkState {
    const work: WorkEntry
    const tagId: string
    const startTime: int
    /** `__last_states`: left, middle, right; the middle level is never read or stored. */
    var lastStates: seq<bool>

    ghost predicate Valid()
      reads this
    {
      |lastStates| == 3
    }

    constructor (work: WorkEntry, tagId: string, now: int)
      ensures Valid() && lastStates == [false, false, false]
      ensures this.work == work && this.tagId == tagId && startTime == now
    {
      this.work := work;
      this.tagId := tagId;
      startTime := now;
      lastStates := [false, false, false];
    }

    /** `run`: a new left press is OK, else a new right press is CANCEL; the levels are stored only on WAIT. */
    method Run(left: Samples, right: Samples) returns (e: Event)
      requires Valid()
      modifies this`lastStates
      ensures Valid()
      ensures e == Ok <==> RisingEdge(Pressed(left), old(lastStates[0]))
      ensures e == Cancel <==> !RisingEdge(Pressed(left), old(lastStates[0])) && RisingEdge(Pressed(right), old(lastStates[2]))
      ensures e == Ok || e == Cancel || e == Wait
      ensures e == Wait ==> lastStates == [Pressed(left), old(lastStates[1]), Pressed(right)]
      ensures e != Wait ==> lastStates == old(lastStates)
    {
      var leftPressed := !Read(left);
      var rightPressed := !Read(right);
      if leftPressed && leftPressed != lastStates[0] {
        return Ok;
      }
      if rightPressed && rightPressed != lastStates[2] {
        return Cancel;
      }
      lastStates := lastStates[0 := leftPressed];
      lastStates := lastStates[2 := rightPressed];
      return Wait;
    }
  }

  /**
   * BackToIdle's constructor: the display time (0 for an empty message),
   * then the display cleared and the message's lines centred from row 2
   * on. `raised` is an exception from printing.
   */
  method BackToIdleScreen(msg: string, lcd: Lcd.LcdDriver) returns (displayTime: nat, raised: bool)
    requires lcd.Valid()
    modifies lcd`bus, lcd`sends
    ensures lcd.Valid()
    ensures displayTime == DisplayTime(msg)
    ensures var screen := Lcd.PrintEffect(CenteredLines(msg), 2, lcd.backlight);
            lcd.sends == old(lcd.sends) + Driver.ClearSends(lcd.backlight) + screen.0
            && (raised <==> screen.1.Raised?)
  {
    displayTime := 1;
    if msg == "" {
      displayTime := 0;
    }
    lcd.Clear();
    raised := Driver.ShowMessage(lcd, msg);
  }
}
