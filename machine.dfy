/**
 * The workflow of machine.py, the variant main/main.py runs.
 *
 * A card is read (Idle), the server is asked about it (QueryTag): a card
 * with work running is offered to end it (EndWork, then Unassign), one
 * without is offered its projects (QueryProjects, then AcceptProject for a
 * single project or SelectProject for several, then Assign). Every path ends
 * in BackToIdle, which shows a message and goes back to Idle.
 *
 * Each state's `on_event` is a pure decision here: it answers Stay (return
 * self), Enter(target) (build a new state from these arguments) or Raise
 * (the handler raises). The `run` steps that keep state between calls are
 * methods of the classes below; the ones that only make a request are
 * functions of the request's outcome.
 */
module Machine {
  import opened Wrappers
  import opened Common
  import opened Strings
  import TagReader

  /** Idle's budget: `super().__init__(30)`. */
  const IDLE_BUDGET: nat := 30

  /** A project record: the "attributes" of one element of the server's `data` list. */
  datatype Project = Project(id: int, orderName: string, opName: string, fname: string, lname: string)

  /** The "Back" entry SelectProject adds to its list: id -1, the table's BACK text as its name. */
  function Sentinel(lang: Lang): (p: Project)
    ensures p.id == -1 && p.orderName == Text(lang, BACK)
  {
    Project(-1, Text(lang, BACK), "", "", "")
  }

  /** The `data` member of a JSON reply: null or a list of records. */
  datatype Body = Null | Records(items: seq<Project>)

  /** Python's truth of `data`: a list with something in it. */
  predicate Truthy(b: Body) {
    b.Records? && b.items != []
  }

  /**
   * How one HTTP request ended: the connect timeout, another connection
   * error, an answer, or any other exception (a read timeout, or an ok
   * answer whose body is not JSON with a `data` member where `run` reads it).
   */
  datatype Reply = ConnectTimeout | ConnectionFailed | Answered(status: int, text: string, body: Body) | Failed

  /** `bool(response)`: a status below 400. */
  predicate IsOk(status: int) {
    status < 400
  }

  /** What BackToIdle is given to show: a table entry, or text as it is ("" for nothing). */
  datatype Message = Say(key: Key) | Verbatim(text: string)

  const BLANK: Message := Verbatim("")

  function MessageText(m: Message, lang: Lang): string {
    match m
    case Say(k) => Text(lang, k)
    case Verbatim(t) => t
  }

  /** Only the blank message has no text: every table entry is non-empty. */
  lemma OnlyBlankIsEmpty(m: Message, lang: Lang)
    ensures MessageText(m, lang) == "" <==> m == BLANK
  {
  }

  /** What `run` hands to `on_event`, and the TIME_OUT the main loop injects. */
  datatype Event =
    | TimeOut                           // "TIME_OUT"
    | ConnErr                           // "CONN_ERR"
    | Invalid                           // "INVALID"
    | ServerError                       // 500
    | Data(body: Body)                  // resp.json()["data"]
    | Ok                                // "OK"
    | Wait                              // "WAIT"
    | Cancel                            // "CANCEL"
    | Picked(project: Project)          // the project record a prompt returns
    | Responded(status: int, text: string)  // Unassign's response object
    | Shown                             // BackToIdle's ""
    | Escaped                           // `run` raised: no `on_event` call follows

  // ----- the requests' outcomes as `run` reports them -----

  /**
   * One GET or POST as QueryProjects and Assign report it: the connect
   * timeout and other connection errors by name, any answer that is not ok
   * as 500, and the `data` of an ok answer.
   */
  function Fetch(reply: Reply): (e: Event)
    ensures e.TimeOut? <==> reply.ConnectTimeout?
    ensures e.ConnErr? <==> reply.ConnectionFailed?
    ensures e.ServerError? <==> reply.Answered? && !IsOk(reply.status)
    ensures e.Data? <==> reply.Answered? && IsOk(reply.status)
    ensures e.Data? ==> e.body == reply.body
    ensures e.Escaped? <==> reply.Failed?
  {
    match reply
    case ConnectTimeout => TimeOut
    case ConnectionFailed => ConnErr
    case Answered(status, _, body) => if !IsOk(status) then ServerError else Data(body)
    case Failed => Escaped
  }

  /**
   * QueryTag's `run`: the card lookup, then, for a known card, the lookup of
   * its started work. A lookup that is not ok becomes 500 whatever its
   * status; INVALID only means the card lookup answered with null data.
   */
  function QueryTagRun(cardLookup: Reply, workLookup: Reply): (e: Event)
    ensures e.ServerError? <==>
              (cardLookup.Answered? && !IsOk(cardLookup.status))
              || (Fetch(cardLookup).Data? && Fetch(cardLookup).body.Records?
                  && workLookup.Answered? && !IsOk(workLookup.status))
    ensures e.Invalid? <==> Fetch(cardLookup) == Data(Null)
    ensures e.Data? ==> Fetch(cardLookup).Data? && e == Fetch(workLookup)
    ensures Fetch(cardLookup).Data? && Fetch(cardLookup).body.Records? ==> e == Fetch(workLookup)
    ensures !Fetch(cardLookup).Data? ==> e == Fetch(cardLookup)
    ensures e.Escaped? <==>
              cardLookup.Failed?
              || (Fetch(cardLookup).Data? && Fetch(cardLookup).body.Records? && workLookup.Failed?)
  {
    match Fetch(cardLookup)
    case Data(Null) => Invalid
    case Data(_) => Fetch(workLookup)
    case other => other
  }

  /** Unassign's `run`: the response object itself, or the connection error by name. */
  function UnassignRun(reply: Reply): (e: Event)
    ensures e.TimeOut? <==> reply.ConnectTimeout?
    ensures e.ConnErr? <==> reply.ConnectionFailed?
    ensures e.Responded? <==> reply.Answered?
    ensures e.Responded? ==> e.status == reply.status && e.text == reply.text
    ensures e.Escaped? <==> reply.Failed?
  {
    match reply
    case ConnectTimeout => TimeOut
    case ConnectionFailed => ConnErr
    case Answered(status, text, _) => Responded(status, text)
    case Failed => Escaped
  }

  // ----- on_event -----

  /** A state to build next, with its constructor's arguments. */
  datatype Target =
    | ToIdle
    | ToQueryTag(tagId: string)
    | ToQueryProjects(tagId: string)
    | ToAcceptProject(project: Project, tagId: string, user: string)
    | ToSelectProject(records: seq<Project>, tagId: string, user: string)
    | ToAssign(project: Project, tagId: string)
    | ToEndWork(tagId: string, project: Project)
    | ToUnassign(tagId: string)
    | ToBackToIdle(msg: Message)

  /** What `on_event` returns: self, a new state, or it raises. */
  datatype Next = Stay | Enter(target: Target) | Raise

  /** The display backlight call an `on_event` makes first. */
  datatype Light = Unchanged | SwitchOn | SwitchOff

  /** What `on_event` reads of the state it is called on. */
  datatype View =
    | IdleView
    | QueryTagView(tagId: string)
    | QueryProjectsView(tagId: string)
    | AcceptProjectView(tagId: string)
    | SelectProjectView(tagId: string)
    | AssignView
    | EndWorkView(tagId: string)
    | UnassignView
    | BackToIdleView

  /** The events a state can be handed: TIME_OUT, or what its own `run` returns. */
  predicate Receives(v: View, e: Event) {
    e.TimeOut? ||
    match v
    case IdleView => e.Ok? || e.Wait?
    case QueryTagView(_) => e.ConnErr? || e.Invalid? || e.ServerError? || e.Data?
    case QueryProjectsView(_) => e.ConnErr? || e.ServerError? || e.Data?
    case AcceptProjectView(_) => e.Picked? || e.Cancel? || e.Wait?
    case SelectProjectView(_) => e.Picked? || e.Wait?
    case AssignView => e.ConnErr? || e.ServerError? || e.Data?
    case EndWorkView(_) => e.Ok? || e.Cancel? || e.Wait?
    case UnassignView => e.ConnErr? || e.Responded?
    case BackToIdleView => e.Shown?
  }

  /** The table entry a failed request shows; the same in every state that makes requests. */
  function FailureKey(e: Event): (k: Option<Key>)
    ensures k.Some? <==> e.TimeOut? || e.ConnErr? || e.Invalid? || e.ServerError?
  {
    match e
    case TimeOut => Some(REQ_TO)
    case ConnErr => Some(SRV_UNREACH)
    case Invalid => Some(INVALID)
    case ServerError => Some(SRV_INT)
    case _ => None
  }

  /** `s[0:n]`. */
  function Take(s: string, n: nat): (r: string)
    ensures |r| <= n && r <= s
    ensures |s| <= n ==> r == s
    ensures |r| == if |s| <= n then |s| else n
  {
    if |s| <= n then s else s[..n]
  }

  /** `f"{fname[0]}. {lname}"[0:19]`; `fname[0]` raises on an empty first name. */
  function DisplayName(p: Project): (name: Option<string>)
    ensures name.None? <==> p.fname == ""
    ensures name.Some? ==> |name.value| == if |p.lname| <= 16 then 3 + |p.lname| else 19
    ensures name.Some? ==> name.value[0] == p.fname[0] && name.value[1..3] == ". "
    ensures name.Some? ==> name.value[3..] <= p.lname
  {
    if p.fname == "" then None
    else
      var full := [p.fname[0]] + ". " + p.lname;
      assert full[1..3] == ". ";
      Some(Take(full, 19))
  }

  /** Idle: TIME_OUT switches the display off and stays; OK switches it on and queries the card. */
  function IdleOnEvent(e: Event, tagId: Option<string>): (r: (Next, Light))
    ensures e.TimeOut? <==> r.1 == SwitchOff
    ensures e.Ok? <==> r.1 == SwitchOn
    ensures r.0.Enter? <==> e.Ok? && tagId.Some?
    ensures r.0.Enter? ==> r.0.target == ToQueryTag(tagId.value)
    ensures r.0.Raise? <==> e.Ok? && tagId.None?
  {
    if e.TimeOut? then (Stay, SwitchOff)
    else if e.Ok? then
      (if tagId.Some? then Enter(ToQueryTag(tagId.value)) else Raise, SwitchOn)
    else (Stay, Unchanged)
  }

  /**
   * QueryTag: a failure shows its message; an empty (or null) list of
   * started work goes on to the card's projects, a non-empty one offers to
   * end the first entry.
   */
  function QueryTagOnEvent(tagId: string, e: Event): (n: Next)
    requires Receives(QueryTagView(tagId), e)
    ensures n.Enter?
    ensures FailureKey(e).Some? <==> n.target.ToBackToIdle?
    ensures FailureKey(e).Some? ==> n.target.msg == Say(FailureKey(e).value)
    ensures n.target.ToQueryProjects? <==> e.Data? && !Truthy(e.body)
    ensures n.target.ToEndWork? <==> e.Data? && Truthy(e.body)
    ensures n.target.ToEndWork? ==> n.target == ToEndWork(tagId, e.body.items[0])
    ensures n.target.ToQueryProjects? ==> n.target.tagId == tagId
  {
    if e.TimeOut? then Enter(ToBackToIdle(Say(REQ_TO)))
    else if e.ConnErr? then Enter(ToBackToIdle(Say(SRV_UNREACH)))
    else if e.Invalid? then Enter(ToBackToIdle(Say(INVALID)))
    else if e.ServerError? then Enter(ToBackToIdle(Say(SRV_INT)))
    else if !Truthy(e.body) then Enter(ToQueryProjects(tagId))
    else Enter(ToEndWork(tagId, e.body.items[0]))
  }

  /**
   * QueryProjects: a failure shows its message, no projects shows NO_PROJ,
   * exactly one is offered for acceptance and more go to the selection
   * list, each with the first record's display name.
   */
  function QueryProjectsOnEvent(tagId: string, e: Event): (n: Next)
    requires Receives(QueryProjectsView(tagId), e)
    ensures FailureKey(e).Some? ==> n == Enter(ToBackToIdle(Say(FailureKey(e).value)))
    ensures e.Data? && !Truthy(e.body) ==> n == Enter(ToBackToIdle(Say(NO_PROJ)))
    ensures n.Raise? <==> e.Data? && Truthy(e.body) && e.body.items[0].fname == ""
    ensures n.Enter? && n.target.ToAcceptProject? <==> e.Data? && Truthy(e.body) && |e.body.items| == 1 && !n.Raise?
    ensures n.Enter? && n.target.ToAcceptProject? ==>
              n.target == ToAcceptProject(e.body.items[0], tagId, DisplayName(e.body.items[0]).value)
    ensures n.Enter? && n.target.ToSelectProject? ==>
              n.target == ToSelectProject(e.body.items, tagId, DisplayName(e.body.items[0]).value)
              && |e.body.items| >= 2
    ensures e.Data? && Truthy(e.body) && |e.body.items| >= 2 && e.body.items[0].fname != "" ==>
              n.Enter? && n.target.ToSelectProject?
  {
    if e.TimeOut? then Enter(ToBackToIdle(Say(REQ_TO)))
    else if e.ConnErr? then Enter(ToBackToIdle(Say(SRV_UNREACH)))
    else if e.ServerError? then Enter(ToBackToIdle(Say(SRV_INT)))
    else if !Truthy(e.body) then Enter(ToBackToIdle(Say(NO_PROJ)))
    else
      var records := e.body.items;
      match DisplayName(records[0])
      case None => Raise
      case Some(name) =>
        if |records| == 1 then Enter(ToAcceptProject(records[0], tagId, name))
        else Enter(ToSelectProject(records, tagId, name))
  }

  /** AcceptProject: the picked project is assigned; CANCEL and the timeout go back without a request. */
  function AcceptProjectOnEvent(tagId: string, e: Event): (n: Next)
    requires Receives(AcceptProjectView(tagId), e)
    ensures n.Stay? <==> e.Wait?
    ensures e.TimeOut? ==> n == Enter(ToBackToIdle(BLANK))
    ensures e.Cancel? ==> n == Enter(ToBackToIdle(Say(CANCELED)))
    ensures n.Enter? && n.target.ToAssign? <==> e.Picked?
    ensures e.Picked? ==> n == Enter(ToAssign(e.project, tagId))
  {
    if e.TimeOut? then Enter(ToBackToIdle(BLANK))
    else if e.Wait? then Stay
    else if e.Cancel? then Enter(ToBackToIdle(Say(CANCELED)))
    else Enter(ToAssign(e.project, tagId))
  }

  /** SelectProject: picking the "Back" entry (id -1) cancels, any other entry is assigned. */
  function SelectProjectOnEvent(tagId: string, e: Event): (n: Next)
    requires Receives(SelectProjectView(tagId), e)
    ensures n.Stay? <==> e.Wait?
    ensures e.TimeOut? ==> n == Enter(ToBackToIdle(BLANK))
    ensures e.Picked? ==> (n == Enter(ToBackToIdle(Say(CANCELED))) <==> e.project.id == -1)
    ensures e.Picked? && e.project.id != -1 ==> n == Enter(ToAssign(e.project, tagId))
  {
    if e.TimeOut? then Enter(ToBackToIdle(BLANK))
    else if e.Wait? then Stay
    else if e.project.id == -1 then Enter(ToBackToIdle(Say(CANCELED)))
    else Enter(ToAssign(e.project, tagId))
  }

  /** Assign: a failure shows its message, anything else confirms the assignment. */
  function AssignOnEvent(e: Event): (n: Next)
    requires Receives(AssignView, e)
    ensures n.Enter? && n.target.ToBackToIdle? && n.target.msg.Say?
    ensures FailureKey(e).Some? ==> n.target.msg.key == FailureKey(e).value
    ensures e.Data? ==> n.target.msg.key == PROJ_A
  {
    if e.TimeOut? then Enter(ToBackToIdle(Say(REQ_TO)))
    else if e.ConnErr? then Enter(ToBackToIdle(Say(SRV_UNREACH)))
    else if e.ServerError? then Enter(ToBackToIdle(Say(SRV_INT)))
    else Enter(ToBackToIdle(Say(PROJ_A)))
  }

  /** EndWork: OK ends the running work; CANCEL and the timeout go back without a request. */
  function EndWorkOnEvent(tagId: string, e: Event): (n: Next)
    requires Receives(EndWorkView(tagId), e)
    ensures n.Stay? <==> e.Wait?
    ensures e.TimeOut? ==> n == Enter(ToBackToIdle(BLANK))
    ensures e.Cancel? ==> n == Enter(ToBackToIdle(Say(CANCELED)))
    ensures e.Ok? <==> n == Enter(ToUnassign(tagId))
  {
    if e.TimeOut? then Enter(ToBackToIdle(BLANK))
    else if e.Wait? then Stay
    else if e.Cancel? then Enter(ToBackToIdle(Say(CANCELED)))
    else Enter(ToUnassign(tagId))
  }

  /**
   * Unassign: a failed 500 shows the server's own text, a failed 404 shows
   * INVALID, and every other answer (ok, or failed with another status)
   * confirms that the work ended.
   */
  function UnassignOnEvent(e: Event): (n: Next)
    requires Receives(UnassignView, e)
    ensures n.Enter? && n.target.ToBackToIdle?
    ensures e.TimeOut? ==> n.target.msg == Say(REQ_TO)
    ensures e.ConnErr? ==> n.target.msg == Say(SRV_UNREACH)
    ensures e.Responded? ==>
              (n.target.msg == Verbatim(e.text) <==> e.status == 500)
              && (n.target.msg == Say(INVALID) <==> e.status == 404)
              && (n.target.msg == Say(PROJ_UA) <==> e.status != 500 && e.status != 404)
  {
    if e.TimeOut? then Enter(ToBackToIdle(Say(REQ_TO)))
    else if e.ConnErr? then Enter(ToBackToIdle(Say(SRV_UNREACH)))
    else if !IsOk(e.status) && e.status == 500 then Enter(ToBackToIdle(Verbatim(e.text)))
    else if !IsOk(e.status) && e.status == 404 then Enter(ToBackToIdle(Say(INVALID)))
    else Enter(ToBackToIdle(Say(PROJ_UA)))
  }

  /** BackToIdle: the timeout goes to a fresh Idle, anything else stays. */
  function BackToIdleOnEvent(e: Event): (n: Next)
    ensures n == Enter(ToIdle) <==> e.TimeOut?
    ensures n.Stay? <==> !e.TimeOut?
  {
    if e.TimeOut? then Enter(ToIdle) else Stay
  }

  /** `state.on_event(e)` for any state: the decision and the backlight call it makes. */
  function OnEvent(v: View, e: Event, tagId: Option<string>): (Next, Light)
    requires Receives(v, e)
  {
    match v
    case IdleView => IdleOnEvent(e, tagId)
    case QueryTagView(id) => (QueryTagOnEvent(id, e), Unchanged)
    case QueryProjectsView(id) => (QueryProjectsOnEvent(id, e), Unchanged)
    case AcceptProjectView(id) => (AcceptProjectOnEvent(id, e), Unchanged)
    case SelectProjectView(id) => (SelectProjectOnEvent(id, e), Unchanged)
    case AssignView => (AssignOnEvent(e), Unchanged)
    case EndWorkView(id) => (EndWorkOnEvent(id, e), Unchanged)
    case UnassignView => (UnassignOnEvent(e), Unchanged)
    case BackToIdleView => (BackToIdleOnEvent(e), Unchanged)
  }

  /** The budget a new state starts with: 30 for Idle, 0 or the configured time for BackToIdle, else 10. */
  function Budget(t: Target, lang: Lang, backToIdleTimeout: nat): (b: nat)
    ensures t.ToIdle? ==> b == IDLE_BUDGET
    ensures t.ToBackToIdle? && t.msg == BLANK ==> b == 0
    ensures t.ToBackToIdle? && t.msg != BLANK ==> b == backToIdleTimeout
    ensures !t.ToIdle? && !t.ToBackToIdle? ==> b == DEFAULT_BUDGET
    ensures t.ToBackToIdle? ==> (b == 0 <==> t.msg == BLANK || backToIdleTimeout == 0)
  {
    match t
    case ToIdle => IDLE_BUDGET
    case ToBackToIdle(msg) =>
      OnlyBlankIsEmpty(msg, lang);
      if MessageText(msg, lang) == "" then 0 else backToIdleTimeout
    case _ => DEFAULT_BUDGET
  }

  /** What `on_event` will read of the state a target builds. */
  function ViewOf(t: Target): View {
    match t
    case ToIdle => IdleView
    case ToQueryTag(id) => QueryTagView(id)
    case ToQueryProjects(id) => QueryProjectsView(id)
    case ToAcceptProject(_, id, _) => AcceptProjectView(id)
    case ToSelectProject(_, id, _) => SelectProjectView(id)
    case ToAssign(_, _) => AssignView
    case ToEndWork(id, _) => EndWorkView(id)
    case ToUnassign(_) => UnassignView
    case ToBackToIdle(_) => BackToIdleView
  }

  /** The card a state is working for, where it keeps one. */
  function CardOf(t: Target): Option<string> {
    match t
    case ToQueryTag(id) => Some(id)
    case ToQueryProjects(id) => Some(id)
    case ToAcceptProject(_, id, _) => Some(id)
    case ToSelectProject(_, id, _) => Some(id)
    case ToAssign(_, id) => Some(id)
    case ToEndWork(id, _) => Some(id)
    case ToUnassign(id) => Some(id)
    case _ => None
  }

  function CardOfView(v: View): Option<string> {
    match v
    case QueryTagView(id) => Some(id)
    case QueryProjectsView(id) => Some(id)
    case AcceptProjectView(id) => Some(id)
    case SelectProjectView(id) => Some(id)
    case EndWorkView(id) => Some(id)
    case _ => None
  }

  /**
   * The timeout never leaves a state hanging: Idle stays and switches the
   * display off, BackToIdle goes to Idle, a prompt goes back without a
   * message and a request shows "request timed out".
   */
  lemma TimeOutGoesBack(v: View, tagId: Option<string>)
    ensures Receives(v, TimeOut)
    ensures var (n, light) := OnEvent(v, TimeOut, tagId);
            match v
            case IdleView => n == Stay && light == SwitchOff
            case BackToIdleView => n == Enter(ToIdle)
            case AcceptProjectView(_) => n == Enter(ToBackToIdle(BLANK))
            case SelectProjectView(_) => n == Enter(ToBackToIdle(BLANK))
            case EndWorkView(_) => n == Enter(ToBackToIdle(BLANK))
            case _ => n == Enter(ToBackToIdle(Say(REQ_TO)))
  {
  }

  /**
   * A card's workflow keeps the card: every state a card-holding state
   * builds that holds a card holds the same one, and Idle's successor holds
   * the card just read.
   */
  lemma CardIsKept(v: View, e: Event, tagId: Option<string>)
    requires Receives(v, e)
    ensures var n := OnEvent(v, e, tagId).0;
            n.Enter? && CardOf(n.target).Some? ==>
              CardOf(n.target) == (if v.IdleView? then tagId else CardOfView(v))
  {
  }

  /**
   * The blank message is shown for no time at all: BackToIdle("") has a
   * budget of 0, so the next tick times it out and goes to Idle.
   */
  lemma BlankReturnsAtOnce(lang: Lang, backToIdleTimeout: nat, startTime: int, now: int)
    ensures Budget(ToBackToIdle(BLANK), lang, backToIdleTimeout) == 0
    ensures TimedOut(startTime, now, Budget(ToBackToIdle(BLANK), lang, backToIdleTimeout))
    ensures OnEvent(BackToIdleView, TimeOut, None).0 == Enter(ToIdle)
  {
  }

  /** A card lookup answered 404 (or any failed status) shows "server error", not "invalid card". */
  lemma FailedLookupShowsServerError(tagId: string, status: int, text: string, body: Body, workLookup: Reply)
    requires !IsOk(status)
    ensures QueryTagOnEvent(tagId, QueryTagRun(Answered(status, text, body), workLookup))
              == Enter(ToBackToIdle(Say(SRV_INT)))
  {
  }

  /**
   * Whatever the lookups bring, QueryTag's `run` either raises or answers
   * something its decision accepts, and that decision leaves QueryTag.
   */
  lemma QueryTagAlwaysMoves(tagId: string, cardLookup: Reply, workLookup: Reply)
    ensures var e := QueryTagRun(cardLookup, workLookup);
            !e.Escaped? ==> Receives(QueryTagView(tagId), e) && QueryTagOnEvent(tagId, e).Enter?
  {
  }

  // ----- the states whose `run` keeps state -----

  /** What Idle's `run` leaves: its answer, the reader, the dots and their last update. */
  datatype IdleRun = IdleRun(answer: Event, reader: TagReader.ReaderState, dots: Dots, lastUpdate: int)

  /**
   * Idle's `run` on a reader holding `r` when the bytes `arriving` have come
   * in: OK as soon as `done()` is True; otherwise the reader restarted if it
   * raised, and the dots animated.
   */
  function IdleStep(r: TagReader.ReaderState, d: Dots, lastUpdate: int, now: int, arriving: seq<TagReader.Byte>): (x: IdleRun)
    requires TagReader.ReaderOk(r)
    ensures TagReader.ReaderOk(x.reader)
    ensures x.answer == Ok || x.answer == Wait
    ensures x.answer == Ok <==> x.reader.rawTagData.Some?
    ensures x.answer == Ok ==> x.dots == d && x.lastUpdate == lastUpdate
    ensures x.answer == Wait ==> x.reader.parser.Some? && (x.dots, x.lastUpdate) == Animate(d, lastUpdate, now)
    ensures x.reader.lastFrame.None? ==> r.lastFrame.None?
  {
    var done := TagReader.DoneStep(r.(pending := r.pending + arriving));
    if done.0 == Success(true) then IdleRun(Ok, done.1, d, lastUpdate)
    else
      var reader := if done.0.Failure? then TagReader.ReaderState([], Some(TagReader.Start), None, done.1.lastFrame) else done.1;
      var moved := Animate(d, lastUpdate, now);
      IdleRun(Wait, reader, moved.0, moved.1)
  }

  /** A reader at the start of a frame, fed one pass's bytes, reads a card exactly when they hold a valid frame. */
  lemma IdleStepFresh(d: Dots, lastUpdate: int, now: int, arriving: seq<TagReader.Byte>)
    ensures var f := TagReader.Feed(TagReader.Start, arriving);
            IdleStep(TagReader.ReaderState([], Some(TagReader.Start), None, None), d, lastUpdate, now, arriving).answer
            == if f.verdict.Some? && f.verdict.value.Accept? then Ok else Wait
  {
    var r := TagReader.ReaderState([], Some(TagReader.Start), None, None);
    assert r.(pending := r.pending + arriving) == TagReader.ReaderState(arriving, Some(TagReader.Start), None, None);
  }

  /**
   * Idle: the tag reader it opened, the dots after the prompt and when they
   * last moved.
   */
  class IdleScreen {
    const reader: TagReader.Rdm6300
    const startTime: int
    var dots: int
    var fillChar: char
    var lastUpdate: int

    ghost predicate Valid()
      reads this, reader
    {
      reader.Valid() && DotsOk(Dots(dots, fillChar))
    }

    /** `Idle()`: open the reader and start reading a tag; no dots yet. */
    constructor (now: int)
      ensures Valid() && fresh(reader)
      ensures reader.active && reader.CurrentLocals() == TagReader.Start && reader.pending == [] && reader.rawTagData == None
      ensures reader.lastFrame == None
      ensures Dots(dots, fillChar) == DOTS_START && lastUpdate == now && startTime == now
    {
      reader := new TagReader.Rdm6300([]);
      startTime := now;
      dots := 0;
      fillChar := '.';
      lastUpdate := now;
      new;
      reader.ReadTag();
    }

    /**
     * `run`: bytes that arrived since the last call reach the reader; a
     * validated tag answers OK at once; otherwise (after restarting the
     * reader if it raised) the dots move on if a whole second has passed.
     */
    method Run(now: int, arriving: seq<TagReader.Byte>) returns (e: Event)
      requires Valid()
      modifies this`dots, this`fillChar, this`lastUpdate, reader
      ensures Valid()
      ensures e == Ok || e == Wait
      ensures e == Ok <==> reader.rawTagData.Some?
      ensures e == Ok ==> reader.TagID().Some?
      ensures e == Ok ==> dots == old(dots) && fillChar == old(fillChar) && lastUpdate == old(lastUpdate)
      ensures e == Wait ==> reader.active
      ensures e == Wait ==> (Dots(dots, fillChar), lastUpdate) == Animate(Dots(old(dots), old(fillChar)), old(lastUpdate), now)
      ensures old(reader.rawTagData).Some? ==> e == Ok && reader.pending == old(reader.pending) + arriving
      ensures old(reader.rawTagData).None? && !old(reader.active) ==>
                e == Wait && reader.CurrentLocals() == TagReader.Start && reader.pending == []
      ensures old(reader.rawTagData).None? && old(reader.active) ==>
                var f := TagReader.Feed(old(reader.CurrentLocals()), old(reader.pending) + arriving);
                (e == Ok <==> f.verdict.Some? && f.verdict.value.Accept?)
                && (f.verdict.None? ==> reader.CurrentLocals() == f.locals && reader.pending == f.rest)
                && (f.verdict.Some? && f.verdict.value.Accept? ==>
                      reader.rawTagData == Some(f.verdict.value.tag) && reader.lastFrame == Some(f.verdict.value.frame)
                      && reader.pending == f.rest)
                && (f.verdict.Some? && f.verdict.value.Reject? ==>
                      reader.CurrentLocals() == TagReader.Start && reader.pending == [])
    ensures IdleRun(e, reader.Snapshot(), Dots(dots, fillChar), lastUpdate)
            == IdleStep(old(reader.Snapshot()), Dots(old(dots), old(fillChar)), old(lastUpdate), now, arriving)
    {
      reader.Receive(arriving);
      var done := reader.Done();
      if done == Success(true) {
        return Ok;
      }
      if done.Failure? {
        reader.ReadTag();
      }
      if WholeSeconds(now - lastUpdate) >= 1 {
        dots := dots + 1;
        if dots > 4 {
          if fillChar == ' ' {
            fillChar := '.';
            dots := 1;
          } else {
            fillChar := ' ';
            dots := 4;
          }
        }
        lastUpdate := now;
      }
      return Wait;
    }
  }

  /** AcceptProject: the offered project and the button levels seen at the last WAIT. */
  class AcceptPrompt {
    const project: Project
    const tagId: string
    const user: string
    const startTime: int
    /** `__last_states`: left, middle, right. */
    var lastStates: seq<bool>

    ghost predicate Valid()
      reads this
    {
      |lastStates| == 3
    }

    constructor (project: Project, tagId: string, user: string, now: int)
      ensures Valid() && lastStates == [false, false, false]
      ensures this.project == project && this.tagId == tagId && this.user == user && startTime == now
    {
      this.project := project;
      this.tagId := tagId;
      this.user := user;
      startTime := now;
      lastStates := [false, false, false];
    }

    /**
     * `run`: a new press of the left button picks the project, else a new
     * press of the right one cancels; only when neither happens are the
     * three levels stored.
     */
    method Run(left: Samples, middle: Samples, right: Samples) returns (e: Event)
      requires Valid()
      modifies this`lastStates
      ensures Valid()
      ensures e == Picked(project) <==> RisingEdge(Pressed(left), old(lastStates[0]))
      ensures e == Cancel <==> !RisingEdge(Pressed(left), old(lastStates[0])) && RisingEdge(Pressed(right), old(lastStates[2]))
      ensures e == Picked(project) || e == Cancel || e == Wait
      ensures e == Wait ==> lastStates == [Pressed(left), Pressed(middle), Pressed(right)]
      ensures e != Wait ==> lastStates == old(lastStates)
    {
      var leftPressed := !Read(left);
      var middlePressed := !Read(middle);
      var rightPressed := !Read(right);
      if leftPressed && leftPressed != lastStates[0] {
        return Picked(project);
      }
      if rightPressed && rightPressed != lastStates[2] {
        return Cancel;
      }
      lastStates := lastStates[0 := leftPressed];
      lastStates := lastStates[1 := middlePressed];
      lastStates := lastStates[2 := rightPressed];
      return Wait;
    }
  }

  /** EndWork: the card whose work may be ended and the button levels seen at the last WAIT. */
  class EndWorkPrompt {
    const tagId: string
    const project: Project
    const startTime: int
    /** `__last_states`: left, middle, right; the middle level is never read or stored. */
    var lastStates: seq<bool>

    ghost predicate Valid()
      reads this
    {
      |lastStates| == 3
    }

    constructor (tagId: string, project: Project, now: int)
      ensures Valid() && lastStates == [false, false, false]
      ensures this.tagId == tagId && this.project == project && startTime == now
    {
      this.tagId := tagId;
      this.project := project;
      startTime := now;
      lastStates := [false, false, false];
    }

    /** `run`: a new left press is OK, else a new right press is CANCEL; levels are stored only on WAIT. */
    method Run(left: Samples, right: Samples) returns (e: Event)
      requires Valid()
      modifies this`lastStates
      ensures Valid()
      ensures e == Ok <==> RisingEdge(Pressed(left), old(lastStates[0]))
      ensures e == Cancel <==> !RisingEdge(Pressed(left), old(lastStates[0])) && RisingEdge(Pressed(right), old(lastStates[2]))
      ensures e == Ok || e == Cancel || e == Wait
      ensures e == Wait ==> lastStates == [Pressed(left), old(lastStates[1]), Pressed(right)]
      ensures e != Wait ==> lastStates == old(lastStates)
    {
      var leftPressed := !Read(left);
      var rightPressed := !Read(right);
      if leftPressed && leftPressed != lastStates[0] {
        return Ok;
      }
      if rightPressed && rightPressed != lastStates[2] {
        return Cancel;
      }
      lastStates := lastStates[0 := leftPressed];
      lastStates := lastStates[2 := rightPressed];
      return Wait;
    }
  }

  /** The selection list: the records, the "Back" entry, and all of that once more. */
  function MenuOf(records: seq<Project>, lang: Lang): seq<Project> {
    var once := records + [Sentinel(lang)];
    once + once
  }

  /** The right button's step: one entry on, back to the first past the end of the first copy. */
  function Following(selected: int, half: int): int {
    if selected + 1 >= half then 0 else selected + 1
  }

  function FollowingTimes(selected: int, half: int, k: nat): int
    decreases k
  {
    if k == 0 then selected else Following(FollowingTimes(selected, half, k - 1), half)
  }

  /** Entry i of the first copy is record i, and the entry after the records is "Back". */
  lemma MenuEntries(records: seq<Project>, lang: Lang, i: int)
    requires 0 <= i <= |records|
    ensures |MenuOf(records, lang)| == 2 * (|records| + 1)
    ensures MenuOf(records, lang)[i] == if i < |records| then records[i] else Sentinel(lang)
    ensures MenuOf(records, lang)[i + |records| + 1] == MenuOf(records, lang)[i]
  {
  }

  /**
   * From the first entry, k < N + 1 presses of the right button select
   * entry k (a record, or "Back" for k = N), and N + 1 presses come back
   * to the first entry.
   */
  lemma {:induction false} FollowingCycles(half: int, k: nat)
    requires k <= half
    ensures k < half ==> FollowingTimes(0, half, k) == k
    ensures k == half ==> FollowingTimes(0, half, k) == 0
    decreases k
  {
    if k > 0 {
      FollowingCycles(half, k - 1);
    }
  }

  /** SelectProject: the list, the cursor and the button levels seen at the last WAIT. */
  class ProjectMenu {
    const tagId: string
    const user: string
    var projects: seq<Project>
    var selected: int
    var lastStates: seq<bool>
    /** Pressing right restarts the idle budget. */
    var startTime: int

    ghost predicate Valid()
      reads this
    {
      |lastStates| == 3 && |projects| >= 2 && |projects| % 2 == 0 && 0 <= selected < |projects| / 2
    }

    /** `SelectProject(...)`: append "Back" to the records, then the list to itself; the cursor on the first entry. */
    constructor (records: seq<Project>, tagId: string, user: string, lang: Lang, now: int)
      ensures Valid()
      ensures projects == MenuOf(records, lang) && selected == 0
      ensures lastStates == [false, false, false] && startTime == now
      ensures this.tagId == tagId && this.user == user
    {
      this.tagId := tagId;
      this.user := user;
      projects := records;
      selected := 0;
      lastStates := [false, false, false];
      startTime := now;
      new;
      projects := projects + [Sentinel(lang)];
      projects := projects + projects;
    }

    /**
     * `run`: a new left press picks the entry under the cursor; otherwise a
     * new right press moves the cursor on and restarts the idle budget, and
     * the left and right levels are stored.
     */
    method Run(left: Samples, right: Samples, now: int) returns (e: Event)
      requires Valid()
      modifies this`selected, this`lastStates, this`startTime
      ensures Valid()
      ensures RisingEdge(Pressed(left), old(lastStates[0])) ==>
                e == Picked(projects[old(selected)]) && selected == old(selected)
                && lastStates == old(lastStates) && startTime == old(startTime)
      ensures !RisingEdge(Pressed(left), old(lastStates[0])) ==>
                e == Wait
                && lastStates == old(lastStates)[0 := Pressed(left)][2 := Pressed(right)]
                && (RisingEdge(Pressed(right), old(lastStates[2])) ==>
                      selected == Following(old(selected), |projects| / 2) && startTime == now)
                && (!RisingEdge(Pressed(right), old(lastStates[2])) ==>
                      selected == old(selected) && startTime == old(startTime))
    {
      var leftPressed := !Read(left);
      var rightPressed := !Read(right);
      if leftPressed && leftPressed != lastStates[0] {
        return Picked(projects[selected]);
      }
      if rightPressed && rightPressed != lastStates[2] {
        startTime := now;
        selected := selected + 1;
        if selected >= |projects| / 2 {
          selected := 0;
        }
      }
      lastStates := lastStates[0 := leftPressed];
      lastStates := lastStates[2 := rightPressed];
      return Wait;
    }
  }
}
