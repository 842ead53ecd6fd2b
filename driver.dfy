/**
 * main/main.py: start in Idle and, on every pass, hand the current state
 * TIME_OUT when its budget has run out, then hand it what its own `run`
 * returns; on Ctrl-C clear the display and switch it off.
 *
 * The loop runs until interrupted; here it is given the passes that happen
 * before the interrupt (or before the inputs end) as a finite list. Each
 * pass sees one clock reading, the bytes the card reader received, two
 * samples per button and the outcome of whichever request the state makes.
 */
module Driver {
  import opened Wrappers
  import opened Common
  import opened Strings
  import opened Machine
  import TagReader
  import Lcd
  import Numerals

  /** The settings machine.py reads from its configuration. */
  datatype Config = Config(lang: Lang, backToIdleTimeout: nat)

  /** The current state object. */
  datatype State =
    | Idle(screen: IdleScreen)
    | QueryTag(tagId: string, since: int)
    | QueryProjects(tagId: string, since: int)
    | AcceptProject(prompt: AcceptPrompt)
    | SelectProject(menu: ProjectMenu)
    | Assign(project: Project, tagId: string, since: int)
    | EndWork(work: EndWorkPrompt)
    | Unassign(tagId: string, since: int)
    | BackToIdle(msg: Message, since: int, budget: nat)

  function Objects(s: State): set<object> {
    match s
    case Idle(screen) => {screen, screen.reader}
    case AcceptProject(prompt) => {prompt}
    case SelectProject(menu) => {menu}
    case EndWork(work) => {work}
    case _ => {}
  }

  ghost predicate StateOk(s: State)
    reads Objects(s)
  {
    match s
    case Idle(screen) => screen.Valid()
    case AcceptProject(prompt) => prompt.Valid()
    case SelectProject(menu) => menu.Valid()
    case EndWork(work) => work.Valid()
    case _ => true
  }

  function ViewOfState(s: State): View {
    match s
    case Idle(_) => IdleView
    case QueryTag(id, _) => QueryTagView(id)
    case QueryProjects(id, _) => QueryProjectsView(id)
    case AcceptProject(prompt) => AcceptProjectView(prompt.tagId)
    case SelectProject(menu) => SelectProjectView(menu.tagId)
    case Assign(_, _, _) => AssignView
    case EndWork(work) => EndWorkView(work.tagId)
    case Unassign(_, _) => UnassignView
    case BackToIdle(_, _, _) => BackToIdleView
  }

  /** `state.startTime`. */
  function StartTime(s: State): int
    reads Objects(s)
  {
    match s
    case Idle(screen) => screen.startTime
    case QueryTag(_, since) => since
    case QueryProjects(_, since) => since
    case AcceptProject(prompt) => prompt.startTime
    case SelectProject(menu) => menu.startTime
    case Assign(_, _, since) => since
    case EndWork(work) => work.startTime
    case Unassign(_, since) => since
    case BackToIdle(_, since, _) => since
  }

  /** `state.timeout_seconds`. */
  function BudgetOf(s: State): nat {
    match s
    case Idle(_) => IDLE_BUDGET
    case BackToIdle(_, _, budget) => budget
    case _ => DEFAULT_BUDGET
  }

  /** The card Idle's reader holds, where `on_event` asks for it. */
  function TagOf(s: State): Option<string>
    requires StateOk(s)
    reads Objects(s)
  {
    if s.Idle? then s.screen.reader.TagID() else None
  }

  /**
   * What the current state holds, as values: the fields of its object (the
   * reader, the dots, the button levels, the list and cursor), or the
   * fields of a state that holds no object.
   */
  datatype Snap =
    | IdleSnap(reader: TagReader.ReaderState, dots: Dots, lastUpdate: int, since: int)
    | QueryTagSnap(tagId: string, since: int)
    | QueryProjectsSnap(tagId: string, since: int)
    | AcceptSnap(project: Project, tagId: string, user: string, since: int, levels: seq<bool>)
    | SelectSnap(tagId: string, user: string, projects: seq<Project>, selected: int, levels: seq<bool>, since: int)
    | AssignSnap(project: Project, tagId: string, since: int)
    | EndWorkSnap(tagId: string, project: Project, since: int, levels: seq<bool>)
    | UnassignSnap(tagId: string, since: int)
    | BackToIdleSnap(msg: Message, since: int, budget: nat)

  predicate SnapOk(a: Snap) {
    match a
    case IdleSnap(reader, dots, _, _) => TagReader.ReaderOk(reader) && DotsOk(dots)
    case AcceptSnap(_, _, _, _, levels) => |levels| == 3
    case SelectSnap(_, _, projects, selected, levels, _) =>
      |levels| == 3 && |projects| >= 2 && |projects| % 2 == 0 && 0 <= selected < |projects| / 2
    case EndWorkSnap(_, _, _, levels) => |levels| == 3
    case _ => true
  }

  function SnapView(a: Snap): View {
    match a
    case IdleSnap(_, _, _, _) => IdleView
    case QueryTagSnap(id, _) => QueryTagView(id)
    case QueryProjectsSnap(id, _) => QueryProjectsView(id)
    case AcceptSnap(_, id, _, _, _) => AcceptProjectView(id)
    case SelectSnap(id, _, _, _, _, _) => SelectProjectView(id)
    case AssignSnap(_, _, _) => AssignView
    case EndWorkSnap(id, _, _, _) => EndWorkView(id)
    case UnassignSnap(_, _) => UnassignView
    case BackToIdleSnap(_, _, _) => BackToIdleView
  }

  function SnapBudget(a: Snap): nat {
    match a
    case IdleSnap(_, _, _, _) => IDLE_BUDGET
    case BackToIdleSnap(_, _, budget) => budget
    case _ => DEFAULT_BUDGET
  }

  /** The card an Idle reader holds: the ID of its last validated frame. */
  function SnapTag(a: Snap): Option<string>
    requires SnapOk(a)
  {
    if a.IdleSnap? && a.reader.lastFrame.Some? then Some(TagReader.TagIdOf(a.reader.lastFrame.value)) else None
  }

  /** The contents of the current state object, read as they stand. */
  function Abs(s: State): (a: Snap)
    requires StateOk(s)
    reads Objects(s)
    ensures SnapOk(a)
    ensures SnapView(a) == ViewOfState(s) && a.since == StartTime(s) && SnapBudget(a) == BudgetOf(s) && SnapTag(a) == TagOf(s)
  {
    match s
    case Idle(screen) => IdleSnap(screen.reader.Snapshot(), Dots(screen.dots, screen.fillChar), screen.lastUpdate, screen.startTime)
    case QueryTag(id, since) => QueryTagSnap(id, since)
    case QueryProjects(id, since) => QueryProjectsSnap(id, since)
    case AcceptProject(prompt) => AcceptSnap(prompt.project, prompt.tagId, prompt.user, prompt.startTime, prompt.lastStates)
    case SelectProject(menu) => SelectSnap(menu.tagId, menu.user, menu.projects, menu.selected, menu.lastStates, menu.startTime)
    case Assign(project, id, since) => AssignSnap(project, id, since)
    case EndWork(work) => EndWorkSnap(work.tagId, work.project, work.startTime, work.lastStates)
    case Unassign(id, since) => UnassignSnap(id, since)
    case BackToIdle(msg, since, budget) => BackToIdleSnap(msg, since, budget)
  }

  /**
   * The contents of the state object a target names, as its constructor
   * leaves them at `now`: a new reader at the start of a frame with nothing
   * waiting, no dots, no button seen pressed, the cursor on the first entry.
   */
  function Fresh(target: Target, now: int, cfg: Config): (a: Snap)
    ensures SnapOk(a) && SnapView(a) == ViewOf(target) && a.since == now && SnapTag(a) == None
    ensures SnapBudget(a) == Budget(target, cfg.lang, cfg.backToIdleTimeout)
  {
    match target
    case ToIdle => IdleSnap(TagReader.ReaderState([], Some(TagReader.Start), None, None), DOTS_START, now, now)
    case ToQueryTag(id) => QueryTagSnap(id, now)
    case ToQueryProjects(id) => QueryProjectsSnap(id, now)
    case ToAcceptProject(project, id, user) => AcceptSnap(project, id, user, now, [false, false, false])
    case ToSelectProject(records, id, user) => SelectSnap(id, user, MenuOf(records, cfg.lang), 0, [false, false, false], now)
    case ToAssign(project, id) => AssignSnap(project, id, now)
    case ToEndWork(id, project) => EndWorkSnap(id, project, now, [false, false, false])
    case ToUnassign(id) => UnassignSnap(id, now)
    case ToBackToIdle(msg) => BackToIdleSnap(msg, now, Budget(target, cfg.lang, cfg.backToIdleTimeout))
  }

  /** What one pass of the loop sees. */
  datatype Tick = Tick(
    now: int,
    serial: seq<TagReader.Byte>,
    left: Samples, middle: Samples, right: Samples,
    cardLookup: Reply, workLookup: Reply, projectsLookup: Reply,
    assignReply: Reply, unassignReply: Reply)

  /** The answer of a two-button prompt: `pick` on a new left press, else CANCEL on a new right press. */
  function PromptAnswer(pick: Event, left: Samples, right: Samples, last: seq<bool>): Event
    requires |last| == 3
  {
    if RisingEdge(Pressed(left), last[0]) then pick
    else if RisingEdge(Pressed(right), last[2]) then Cancel
    else Wait
  }

  /** What `state.run()` answers on this pass, given what the state holds. */
  function Answer(a: Snap, t: Tick): (e: Event)
    requires SnapOk(a)
    ensures e.Escaped? || Receives(SnapView(a), e)
    ensures e.Escaped? ==> a.QueryTagSnap? || a.QueryProjectsSnap? || a.AssignSnap? || a.UnassignSnap?
  {
    match a
    case IdleSnap(reader, dots, lastUpdate, _) => IdleStep(reader, dots, lastUpdate, t.now, t.serial).answer
    case QueryTagSnap(_, _) => QueryTagRun(t.cardLookup, t.workLookup)
    case QueryProjectsSnap(_, _) => Fetch(t.projectsLookup)
    case AcceptSnap(project, _, _, _, levels) => PromptAnswer(Picked(project), t.left, t.right, levels)
    case SelectSnap(_, _, projects, selected, levels, _) =>
      if RisingEdge(Pressed(t.left), levels[0]) then Picked(projects[selected]) else Wait
    case AssignSnap(_, _, _) => Fetch(t.assignReply)
    case EndWorkSnap(_, _, _, levels) => PromptAnswer(Ok, t.left, t.right, levels)
    case UnassignSnap(_, _) => UnassignRun(t.unassignReply)
    case BackToIdleSnap(_, _, _) => Shown
  }

  /**
   * What the state holds after its `run` on this pass: Idle's reader and
   * dots as IdleStep leaves them, a prompt's levels stored on WAIT, the
   * menu's levels stored and its cursor moved (and clock restarted) by a
   * new right press; the other states hold nothing `run` changes.
   */
  function Ran(a: Snap, t: Tick): (r: Snap)
    requires SnapOk(a)
    ensures SnapOk(r) && SnapView(r) == SnapView(a) && SnapBudget(r) == SnapBudget(a)
    ensures !a.SelectSnap? ==> r.since == a.since
    ensures a.IdleSnap? && Answer(a, t).Ok? ==> SnapTag(r).Some?
  {
    match a
    case IdleSnap(reader, dots, lastUpdate, since) =>
      var x := IdleStep(reader, dots, lastUpdate, t.now, t.serial);
      IdleSnap(x.reader, x.dots, x.lastUpdate, since)
    case AcceptSnap(project, id, user, since, levels) =>
      AcceptSnap(project, id, user, since,
                 if Answer(a, t) == Wait then [Pressed(t.left), Pressed(t.middle), Pressed(t.right)] else levels)
    case SelectSnap(id, user, projects, selected, levels, since) =>
      if RisingEdge(Pressed(t.left), levels[0]) then a
      else
        var moved := RisingEdge(Pressed(t.right), levels[2]);
        SelectSnap(id, user, projects, if moved then Following(selected, |projects| / 2) else selected,
                   levels[0 := Pressed(t.left)][2 := Pressed(t.right)], if moved then t.now else since)
    case EndWorkSnap(id, project, since, levels) =>
      EndWorkSnap(id, project, since, if Answer(a, t) == Wait then [Pressed(t.left), levels[1], Pressed(t.right)] else levels)
    case _ => a
  }

  /** `state.run()`: the answer, and what the state holds afterwards. */
  method Run(s: State, t: Tick) returns (e: Event)
    requires StateOk(s)
    modifies Objects(s)
    ensures StateOk(s)
    ensures e == Answer(old(Abs(s)), t) && Abs(s) == Ran(old(Abs(s)), t)
    ensures e.Escaped? || Receives(ViewOfState(s), e)
  {
    match s
    case Idle(screen) =>
      e := screen.Run(t.now, t.serial);
    case QueryTag(_, _) =>
      e := QueryTagRun(t.cardLookup, t.workLookup);
    case QueryProjects(_, _) =>
      e := Fetch(t.projectsLookup);
    case AcceptProject(prompt) =>
      e := prompt.Run(t.left, t.middle, t.right);
    case SelectProject(menu) =>
      e := menu.Run(t.left, t.right, t.now);
    case Assign(_, _, _) =>
      e := Fetch(t.assignReply);
    case EndWork(work) =>
      e := work.Run(t.left, t.right);
    case Unassign(_, _) =>
      e := UnassignRun(t.unassignReply);
    case BackToIdle(_, _, _) =>
      e := Shown;
  }

  /**
   * The loop in BackToIdle's constructor: the message's centred lines on
   * rows 2, 3, ..., stopping at an exception.
   */
  method ShowMessage(lcd: Lcd.LcdDriver, text: string) returns (raised: bool)
    requires lcd.Valid()
    modifies lcd`bus, lcd`sends
    ensures lcd.Valid()
    ensures var screen := Lcd.PrintEffect(CenteredLines(text), 2, lcd.backlight);
            lcd.sends == old(lcd.sends) + screen.0 && (raised <==> screen.1.Raised?)
  {
    var outcome := lcd.PrintRows(CenteredLines(text), 2);
    raised := outcome.Raised?;
  }

  /** The two commands `LcdDriver.Clear` sends. */
  function ClearSends(backlight: bv8): seq<Lcd.Transfer> {
    Lcd.Sends([Lcd.LCD_CLEAR_DISPLAY, Lcd.LCD_RETURN_HOME], Lcd.LCD_CMD_MODE, backlight)
  }

  /** SelectProject's footer: OK under the left button, custom glyph 2 (down arrow) under the right one. */
  const SELECT_FOOTER: string := "OK" + Spaces(17) + "&2&"

  /**
   * AcceptProject's screen: the user right-aligned, the project's order and
   * operation names (17 characters at most) between glyphs 0 and 1, a blank
   * row, and OK and "Back" at the two ends of the last row.
   */
  function AcceptLines(project: Project, user: string, lang: Lang): (lines: seq<string>)
    ensures |lines| == 4 && lines[2] == ""
    ensures |user| < 20 ==> |lines[0]| == 20 && lines[0][20 - |user|..] == user
    ensures var name, row := project.orderName + " " + project.opName, lines[1];
            8 <= |row| <= 25 && row[..4] == "&0& " && row[|row| - 4..] == " &1&"
            && row[4..|row| - 4] <= name && (|name| <= 17 ==> row[4..|row| - 4] == name)
    ensures |lines[3]| >= 20 && lines[3][..2] == "OK"
  {
    [RightAlign(user, 20),
     "&0& " + Take(project.orderName + " " + project.opName, 17) + " &1&",
     "",
     "OK" + RightAlign(Text(lang, BACK), 18)]
  }

  /**
   * What the constructor of a target's state sends after clearing the
   * display, and how that printing ends: "Processing..." centred on row 2
   * for QueryTag and Unassign, the prompt for AcceptProject, the header and
   * footer rows for SelectProject, the message from row 2 for BackToIdle.
   */
  function Announcement(target: Target, lang: Lang, backlight: bv8): (r: (seq<Lcd.Transfer>, Lcd.PrintOutcome))
    ensures target.ToIdle? || target.ToQueryProjects? || target.ToAssign? || target.ToEndWork? ==> r == ([], Lcd.Printed)
    ensures target.ToQueryTag? || target.ToUnassign? ==>
              r.1 == Lcd.Printed && |r.0| == 21 && r.0[0] == Lcd.Transfer(Lcd.LCD_LINES[1], Lcd.LCD_CMD_MODE, backlight)
  {
    match target
    case ToQueryTag(_) =>
      ProcessingIsPlain(lang, backlight);
      Lcd.LineEffect(Center(Text(lang, PROC), 20), 2, backlight)
    case ToUnassign(_) =>
      ProcessingIsPlain(lang, backlight);
      Lcd.LineEffect(Center(Text(lang, PROC), 20), 2, backlight)
    case ToAcceptProject(project, _, user) => Lcd.PrintEffect(AcceptLines(project, user, lang), 1, backlight)
    case ToSelectProject(_, _, user) =>
      var header := Lcd.LineEffect(RightAlign(user, 20), 1, backlight);
      if header.1.Raised? then header
      else Lcd.Follow(header.0, Lcd.LineEffect(SELECT_FOOTER, 4, backlight))
    case ToBackToIdle(msg) => Lcd.PrintEffect(CenteredLines(MessageText(msg, lang)), 2, backlight)
    case _ => ([], Lcd.Printed)
  }

  /** No character of the centred text is an '&' unless the text had one. */
  lemma CenterKeepsPlain(line: string, width: nat)
    requires forall i :: 0 <= i < |line| ==> line[i] != '&'
    ensures forall i :: 0 <= i < |Center(line, width)| ==> Center(line, width)[i] != '&'
  {
    var r := Center(line, width);
    if |line| < width {
      var left := (width - |line|) / 2;
      forall i | 0 <= i < |r|
        ensures r[i] != '&'
      {
        if left <= i < left + |line| {
          assert r[i] == r[left..left + |line|][i - left];
        }
      }
    }
  }

  /**
   * "Processing..." never raises: the row address goes out, then every
   * character of the centred text, 20 of them, as data.
   */
  lemma ProcessingIsPlain(lang: Lang, backlight: bv8)
    ensures var line := Center(Text(lang, PROC), 20);
            Lcd.LineEffect(line, 2, backlight)
              == ([Lcd.Transfer(Lcd.LCD_LINES[1], Lcd.LCD_CMD_MODE, backlight)]
                  + Lcd.Sends(Lcd.Codes(line), Lcd.LCD_DATA_MODE, backlight), Lcd.Printed)
            && |line| == 20
  {
    var line := Center(Text(lang, PROC), 20);
    CenterKeepsPlain(Text(lang, PROC), 20);
    Lcd.PlainTextVerbatim(line);
    Lcd.LineEffectSpec(line, 2, backlight);
  }

  /** The footer sends 'O', 'K', seventeen blanks and then glyph 2 as one code. */
  lemma FooterCodes()
    ensures Lcd.Scan(SELECT_FOOTER) == Lcd.ScanResult(Lcd.Codes("OK" + Spaces(17)) + [2], None)
  {
    var plain := "OK" + Spaces(17);
    Lcd.EscapeRoundTrip(2, "");
    assert "&" + Numerals.NatToString(2) + "&" + "" == "&2&";
    assert Lcd.Scan("") == Lcd.ScanResult([], None);
    Lcd.PlainPrefix(plain, "&2&");
  }

  /**
   * The display output of the constructor of a target's state: nothing for
   * QueryProjects and Assign, the display cleared for the others and then
   * their Announcement. `raised` is an exception from that printing.
   */
  method Announce(target: Target, cfg: Config, lcd: Lcd.LcdDriver, ghost backlight: bv8) returns (raised: bool)
    requires lcd.Valid() && lcd.backlight == backlight
    modifies lcd`bus, lcd`sends
    ensures lcd.Valid()
    ensures (target.ToQueryProjects? || target.ToAssign?) ==> lcd.sends == old(lcd.sends) && !raised
    ensures !(target.ToQueryProjects? || target.ToAssign?) ==>
              var shown := Announcement(target, cfg.lang, backlight);
              lcd.sends == old(lcd.sends) + ClearSends(backlight) + shown.0
              && (raised <==> shown.1.Raised?)
  {
    raised := false;
    if target.ToQueryProjects? || target.ToAssign? {
      return;
    }
    lcd.Clear();
    ghost var cleared := lcd.sends;
    match target
    case ToQueryTag(_) =>
      var outcome := lcd.PrintLine(Center(Text(cfg.lang, PROC), 20), 2);
      raised := outcome.Raised?;
    case ToUnassign(_) =>
      var outcome := lcd.PrintLine(Center(Text(cfg.lang, PROC), 20), 2);
      raised := outcome.Raised?;
    case ToAcceptProject(project, _, user) =>
      var outcome := lcd.Print(AcceptLines(project, user, cfg.lang));
      raised := outcome.Raised?;
    case ToSelectProject(_, _, user) =>
      var header := lcd.PrintLine(RightAlign(user, 20), 1);
      if header.Raised? {
        raised := true;
      } else {
        ghost var headerSends := lcd.sends;
        var footer := lcd.PrintLine(SELECT_FOOTER, 4);
        raised := footer.Raised?;
        Lcd.ConcatAssoc(old(lcd.sends) + ClearSends(lcd.backlight),
                        Lcd.LineEffect(RightAlign(user, 20), 1, lcd.backlight).0,
                        Lcd.LineEffect(SELECT_FOOTER, 4, lcd.backlight).0);
      }
    case ToBackToIdle(msg) =>
      raised := ShowMessage(lcd, MessageText(msg, cfg.lang));
    case ToIdle =>
      assert lcd.sends == lcd.sends + [];
    case ToEndWork(_, _) =>
      assert lcd.sends == lcd.sends + [];
  }

  /** Announce, stated as the reaction to entering `target`. */
  method AnnounceEntry(target: Target, cfg: Config, lcd: Lcd.LcdDriver, ghost backlight: bv8) returns (raised: bool)
    requires lcd.Valid() && lcd.backlight == backlight
    modifies lcd`bus, lcd`sends
    ensures lcd.Valid()
    ensures var d := Entered(target, cfg.lang, backlight);
            lcd.sends == old(lcd.sends) + d.sends && raised == d.raised
  {
    raised := Announce(target, cfg, lcd, backlight);
    if target.ToQueryProjects? || target.ToAssign? {
      assert lcd.sends == old(lcd.sends) + [];
    } else {
      Lcd.ConcatAssoc(old(lcd.sends), ClearSends(backlight), Announcement(target, cfg.lang, backlight).0);
    }
  }

  /** The state object a target names, started at `now`. */
  method Build(target: Target, now: int, cfg: Config) returns (s: State)
    ensures StateOk(s) && fresh(Objects(s))
    ensures ViewOfState(s) == ViewOf(target) && Abs(s) == Fresh(target, now, cfg)
  {
    match target
    case ToIdle =>
      var screen := new IdleScreen(now);
      s := Idle(screen);
    case ToQueryTag(id) =>
      s := QueryTag(id, now);
    case ToQueryProjects(id) =>
      s := QueryProjects(id, now);
    case ToAcceptProject(project, id, user) =>
      var prompt := new AcceptPrompt(project, id, user, now);
      s := AcceptProject(prompt);
    case ToSelectProject(records, id, user) =>
      var menu := new ProjectMenu(records, id, user, cfg.lang, now);
      s := SelectProject(menu);
    case ToAssign(project, id) =>
      s := Assign(project, id, now);
    case ToEndWork(id, project) =>
      var work := new EndWorkPrompt(id, project, now);
      s := EndWork(work);
    case ToUnassign(id) =>
      s := Unassign(id, now);
    case ToBackToIdle(msg) =>
      s := BackToIdle(msg, now, Budget(target, cfg.lang, cfg.backToIdleTimeout));
  }

  /** Construct the state a target names: its display output, then the object. */
  method Enter(target: Target, now: int, cfg: Config, lcd: Lcd.LcdDriver, ghost backlight: bv8) returns (s: State, raised: bool)
    requires lcd.Valid() && lcd.backlight == backlight
    modifies lcd`bus, lcd`sends
    ensures lcd.Valid()
    ensures !raised ==> StateOk(s) && fresh(Objects(s)) && Abs(s) == Fresh(target, now, cfg)
    ensures ViewOfState(s) == ViewOf(target)
    ensures var d := Entered(target, cfg.lang, backlight);
            lcd.sends == old(lcd.sends) + d.sends && raised == d.raised
  {
    raised := AnnounceEntry(target, cfg, lcd, backlight);
    s := Build(target, now, cfg);
  }

  /** The backlight after an `on_event`'s backlight call. */
  function LightAfter(light: Light, backlight: bv8): bv8 {
    match light
    case SwitchOn => Lcd.LCD_BACKLIGHT_ON
    case SwitchOff => Lcd.LCD_BACKLIGHT_OFF
    case Unchanged => backlight
  }

  /** The command that backlight call sends: none, or command 0 under the new backlight. */
  function LightSends(light: Light, backlight: bv8): seq<Lcd.Transfer> {
    if light == Unchanged then [] else [Lcd.Transfer(0, Lcd.LCD_CMD_MODE, LightAfter(light, backlight))]
  }

  /** The view of the state `on_event` returns: the same one, or the one it enters. */
  function Successor(v: View, e: Event, tag: Option<string>): View
    requires Receives(v, e)
  {
    match OnEvent(v, e, tag).0
    case Enter(target) => ViewOf(target)
    case _ => v
  }

  /**
   * What `state = state.on_event(e)` leaves behind: what went to the
   * display, the backlight, whether an exception escaped, and the view of
   * the state that follows.
   */
  datatype Reaction = Reaction(sends: seq<Lcd.Transfer>, backlight: bv8, raised: bool, view: View)

  /** What the display and the loop hold after reaction `r`, given what had been sent before it. */
  function After(before: seq<Lcd.Transfer>, r: Reaction): Reaction {
    Reaction(before + r.sends, r.backlight, r.raised, r.view)
  }

  /** The reaction to entering the state `target` names, under the backlight it finds. */
  function Entered(target: Target, lang: Lang, backlight: bv8): Reaction {
    if target.ToQueryProjects? || target.ToAssign? then Reaction([], backlight, false, ViewOf(target))
    else
      var shown := Announcement(target, lang, backlight);
      Reaction(ClearSends(backlight) + shown.0, backlight, shown.1.Raised?, ViewOf(target))
  }

  /** The reaction to the decision `n` alone, under the backlight it finds. */
  function Decided(v: View, n: Next, lang: Lang, backlight: bv8): Reaction {
    match n
    case Stay => Reaction([], backlight, false, v)
    case Raise => Reaction([], backlight, true, v)
    case Enter(target) => Entered(target, lang, backlight)
  }

  /** The reaction to an `on_event` that makes backlight call `light` and then decides `n`. */
  function ReactTo(v: View, n: Next, light: Light, lang: Lang, backlight: bv8): Reaction {
    var d := Decided(v, n, lang, LightAfter(light, backlight));
    Reaction(LightSends(light, backlight) + d.sends, d.backlight, d.raised, d.view)
  }

  function React(v: View, e: Event, tag: Option<string>, lang: Lang, backlight: bv8): (r: Reaction)
    requires Receives(v, e)
    ensures r.view == Successor(v, e, tag)
    ensures r.backlight != backlight ==> v == IdleView && (e.TimeOut? || e.Ok?)
  {
    ReactTo(v, OnEvent(v, e, tag).0, OnEvent(v, e, tag).1, lang, backlight)
  }

  /**
   * `state.on_event(state.run())` as a reaction to `run`'s answer: the
   * exception `run` raised, with nothing sent, or `on_event`'s reaction.
   */
  function Outcome(v: View, e: Event, tag: Option<string>, lang: Lang, backlight: bv8): (r: Reaction)
    requires e.Escaped? || Receives(v, e)
    ensures e.Escaped? ==> r.raised && r.sends == [] && r.backlight == backlight
  {
    if e.Escaped? then Reaction([], backlight, true, v) else React(v, e, tag, lang, backlight)
  }

  /** Idle's TIME_OUT only switches the backlight off, and Idle stays. */
  lemma IdleSleeps(tag: Option<string>, lang: Lang, backlight: bv8)
    ensures React(IdleView, TimeOut, tag, lang, backlight)
            == Reaction([Lcd.Transfer(0, Lcd.LCD_CMD_MODE, Lcd.LCD_BACKLIGHT_OFF)], Lcd.LCD_BACKLIGHT_OFF, false, IdleView)
  {
  }

  /**
   * A card read in Idle switches the backlight on, clears the display and
   * shows "Processing..." on row 2 while QueryTag takes over.
   */
  lemma CardReadShowsProcessing(tag: string, lang: Lang, backlight: bv8)
    ensures var on := Lcd.LCD_BACKLIGHT_ON;
            var line := Center(Text(lang, PROC), 20);
            React(IdleView, Ok, Some(tag), lang, backlight)
              == Reaction([Lcd.Transfer(0, Lcd.LCD_CMD_MODE, on)] + ClearSends(on)
                          + ([Lcd.Transfer(Lcd.LCD_LINES[1], Lcd.LCD_CMD_MODE, on)]
                             + Lcd.Sends(Lcd.Codes(line), Lcd.LCD_DATA_MODE, on)),
                          on, false, QueryTagView(tag))
  {
    ProcessingIsPlain(lang, Lcd.LCD_BACKLIGHT_ON);
  }

  /** BackToIdle's TIME_OUT clears the display for a new Idle, which prints nothing of its own. */
  lemma BackToIdleClears(tag: Option<string>, lang: Lang, backlight: bv8)
    ensures React(BackToIdleView, TimeOut, tag, lang, backlight)
            == Reaction(ClearSends(backlight), backlight, false, IdleView)
  {
    assert OnEvent(BackToIdleView, TimeOut, tag) == (Next.Enter(ToIdle), Unchanged);
    IdleEntryClears(lang, backlight);
  }

  /** Building Idle clears the display and shows nothing else; it cannot raise. */
  lemma IdleEntryClears(lang: Lang, backlight: bv8)
    ensures Entered(ToIdle, lang, backlight) == Reaction(ClearSends(backlight), backlight, false, IdleView)
  {
    assert ClearSends(backlight) + [] == ClearSends(backlight);
  }

  /** The backlight call an `on_event` makes first. */
  method Switch(light: Light, lcd: Lcd.LcdDriver)
    requires lcd.Valid()
    modifies lcd
    ensures lcd.Valid()
    ensures lcd.sends == old(lcd.sends) + LightSends(light, old(lcd.backlight))
    ensures lcd.backlight == LightAfter(light, old(lcd.backlight))
  {
    if light == SwitchOn {
      lcd.SwitchOn();
    } else if light == SwitchOff {
      lcd.SwitchOff();
    } else {
      assert lcd.sends == lcd.sends + [];
    }
  }

  /** What `on_event` returns once it has decided `n`: the same state, a new one, or the exception. */
  method Apply(s: State, n: Next, now: int, cfg: Config, lcd: Lcd.LcdDriver, ghost backlight: bv8)
    returns (next: State, raised: bool)
    requires StateOk(s) && lcd.Valid() && lcd.backlight == backlight
    modifies lcd`bus, lcd`sends
    ensures lcd.Valid()
    ensures !raised ==> StateOk(next) && (next == s || fresh(Objects(next)))
    ensures Reaction(lcd.sends, backlight, raised, ViewOfState(next))
            == After(old(lcd.sends), Decided(ViewOfState(s), n, cfg.lang, backlight))
    ensures !n.Enter? ==> next == s
    ensures n.Enter? && !raised ==> fresh(Objects(next)) && Abs(next) == Fresh(n.target, now, cfg)
  {
    match n
    case Stay =>
      next, raised := s, false;
      assert lcd.sends == old(lcd.sends) + [];
    case Raise =>
      next, raised := s, true;
      assert lcd.sends == old(lcd.sends) + [];
    case Enter(target) =>
      next, raised := Enter(target, now, cfg, lcd, backlight);
  }

  /** The backlight call `light`, then the decision `n`. */
  method Respond(s: State, n: Next, light: Light, now: int, cfg: Config, lcd: Lcd.LcdDriver)
    returns (next: State, raised: bool)
    requires StateOk(s) && lcd.Valid()
    modifies lcd
    ensures lcd.Valid()
    ensures !raised ==> StateOk(next) && (next == s || fresh(Objects(next)))
    ensures Reaction(lcd.sends, lcd.backlight, raised, ViewOfState(next))
            == After(old(lcd.sends), ReactTo(ViewOfState(s), n, light, cfg.lang, old(lcd.backlight)))
    ensures !n.Enter? ==> next == s
    ensures n.Enter? && !raised ==> fresh(Objects(next)) && Abs(next) == Fresh(n.target, now, cfg)
  {
    Switch(light, lcd);
    ghost var lit := LightAfter(light, old(lcd.backlight));
    next, raised := Apply(s, n, now, cfg, lcd, lit);
    Lcd.ConcatAssoc(old(lcd.sends), LightSends(light, old(lcd.backlight)), Decided(ViewOfState(s), n, cfg.lang, lit).sends);
  }

  /**
   * `state = state.on_event(e)`: the backlight call, then the current state
   * again, a new one, or the exception.
   */
  method Deliver(s: State, ghost a: Snap, e: Event, now: int, cfg: Config, lcd: Lcd.LcdDriver) returns (next: State, raised: bool)
    requires StateOk(s) && a == Abs(s) && Receives(SnapView(a), e) && lcd.Valid()
    modifies lcd
    ensures lcd.Valid()
    ensures !raised ==> StateOk(next) && (next == s || fresh(Objects(next)))
    ensures Reaction(lcd.sends, lcd.backlight, raised, ViewOfState(next))
            == After(old(lcd.sends), React(SnapView(a), e, SnapTag(a), cfg.lang, old(lcd.backlight)))
    ensures var n := OnEvent(SnapView(a), e, SnapTag(a)).0;
            (!n.Enter? ==> next == s)
            && (n.Enter? && !raised ==> fresh(Objects(next)) && Abs(next) == Fresh(n.target, now, cfg))
  {
    var decision := OnEvent(ViewOfState(s), e, TagOf(s));
    next, raised := Respond(s, decision.0, decision.1, now, cfg, lcd);
  }

  /** The first half of a pass as a reaction: TIME_OUT's if the budget has run out, otherwise nothing. */
  function Expiry(timedOut: bool, v: View, tag: Option<string>, lang: Lang, backlight: bv8): Reaction {
    if timedOut then React(v, TimeOut, tag, lang, backlight) else Reaction([], backlight, false, v)
  }

  /** After TIME_OUT every state is Idle or on its way back to Idle. */
  lemma TimeOutLeadsBack(v: View, tag: Option<string>)
    ensures Receives(v, TimeOut)
    ensures Successor(v, TimeOut, tag) == IdleView || Successor(v, TimeOut, tag) == BackToIdleView
    ensures Successor(v, TimeOut, tag) == IdleView <==> v == IdleView || v == BackToIdleView
  {
    TimeOutGoesBack(v, tag);
  }

  /** Whether handing `e` to a state of view `v` builds a new state object. */
  predicate Renews(v: View, e: Event, tag: Option<string>)
    requires e.Escaped? || Receives(v, e)
  {
    !e.Escaped? && OnEvent(v, e, tag).0.Enter?
  }

  /**
   * What the loop's state holds after `on_event(e)` on a state of view `v`
   * holding `here`: a new object's contents when it enters a state, else
   * the same object, still holding `here`.
   */
  function Settle(v: View, e: Event, tag: Option<string>, here: Snap, now: int, cfg: Config): (r: Snap)
    requires e.Escaped? || Receives(v, e)
    requires SnapOk(here)
    ensures SnapOk(r)
    ensures Renews(v, e, tag) ==> SnapView(r) == Successor(v, e, tag) && r.since == now
    ensures !Renews(v, e, tag) ==> r == here
  {
    if Renews(v, e, tag) then Fresh(OnEvent(v, e, tag).0.target, now, cfg) else here
  }

  /**
   * The first half of a pass: TIME_OUT, handed to the state if its whole
   * elapsed seconds have reached its budget.
   */
  method Expire(s: State, ghost a: Snap, now: int, cfg: Config, lcd: Lcd.LcdDriver) returns (next: State, raised: bool)
    requires StateOk(s) && lcd.Valid() && a == Abs(s)
    modifies lcd
    ensures lcd.Valid()
    ensures var x := Expired(a, old(lcd.backlight), now, cfg);
            Reaction(lcd.sends, lcd.backlight, raised, ViewOfState(next)) == After(old(lcd.sends), x.reaction)
            && (!raised ==> StateOk(next) && Abs(next) == x.next)
            && (if x.renewed then !raised ==> fresh(Objects(next)) else next == s)
  {
    next, raised := s, false;
    if TimedOut(StartTime(s), now, BudgetOf(s)) {
      next, raised := Handle(s, a, TimeOut, now, cfg, lcd);
    } else {
      assert lcd.sends == old(lcd.sends) + [];
    }
  }

  /** A new Idle answers from an empty parser fed this pass's bytes; a new BackToIdle answers "". */
  lemma FreshAnswer(now: int, cfg: Config, msg: Message, t: Tick)
    ensures var f := TagReader.Feed(TagReader.Start, t.serial);
            Answer(Fresh(ToIdle, now, cfg), t) == if f.verdict.Some? && f.verdict.value.Accept? then Ok else Wait
    ensures Answer(Fresh(ToBackToIdle(msg), now, cfg), t) == Shown
  {
    IdleStepFresh(DOTS_START, now, t.now, t.serial);
  }

  /**
   * The `state.on_event(...)` half of `state.on_event(state.run())`: the
   * answer of `run` handed to the state, or nothing at all when `run` raised.
   */
  method Handle(s: State, ghost a: Snap, e: Event, now: int, cfg: Config, lcd: Lcd.LcdDriver) returns (next: State, raised: bool)
    requires StateOk(s) && lcd.Valid() && a == Abs(s) && (e.Escaped? || Receives(SnapView(a), e))
    modifies lcd
    ensures lcd.Valid()
    ensures Reaction(lcd.sends, lcd.backlight, raised, ViewOfState(next))
            == After(old(lcd.sends), Outcome(SnapView(a), e, SnapTag(a), cfg.lang, old(lcd.backlight)))
    ensures !raised ==> StateOk(next) && Abs(next) == Settle(SnapView(a), e, SnapTag(a), a, now, cfg)
    ensures if Renews(SnapView(a), e, SnapTag(a)) then !raised ==> fresh(Objects(next)) else next == s
  {
    if e.Escaped? {
      next, raised := s, true;
      assert lcd.sends == old(lcd.sends) + [];
    } else {
      next, raised := Deliver(s, a, e, now, cfg, lcd);
    }
  }

  /**
   * `state.on_event(state.run())`: `run` once, and its answer handed to the
   * same state, unless `run` raised.
   */
  method RunOnce(s: State, ghost a: Snap, t: Tick, cfg: Config, lcd: Lcd.LcdDriver) returns (next: State, raised: bool)
    requires StateOk(s) && lcd.Valid() && a == Abs(s)
    modifies lcd, Objects(s)
    ensures lcd.Valid()
    ensures var r := Once(a, old(lcd.backlight), t, cfg);
            Reaction(lcd.sends, lcd.backlight, raised, ViewOfState(next)) == After(old(lcd.sends), r.reaction)
            && (!raised ==> StateOk(next) && Abs(next) == r.next)
            && (if r.renewed then !raised ==> fresh(Objects(next)) else next == s)
  {
    var answer := Run(s, t);
    next, raised := Handle(s, Ran(a, t), answer, t.now, cfg, lcd);
  }

  /**
   * Some `on_event` calls of the loop: the calls made, in order (see
   * Handing below), their reaction, what the loop's state holds afterwards,
   * and whether a new state object was built.
   */
  datatype PassResult = PassResult(handings: seq<Handing>, reaction: Reaction, next: Snap, renewed: bool)

  /**
   * The first half of a pass on a state holding `a`, with the backlight at
   * `backlight`: TIME_OUT handed to the state if its budget has run out,
   * otherwise nothing.
   */
  function Expired(a: Snap, backlight: bv8, now: int, cfg: Config): (x: PassResult)
    requires SnapOk(a)
    ensures SnapOk(x.next) && |x.handings| <= 1
    ensures x.handings == [] <==> !TimedOut(a.since, now, SnapBudget(a))
    ensures x.handings == [] ==> x.reaction == Reaction([], backlight, false, SnapView(a)) && x.next == a && !x.renewed
    ensures !x.reaction.raised ==> x.reaction.view == SnapView(x.next)
  {
    var v, tag := SnapView(a), SnapTag(a);
    var timedOut := TimedOut(a.since, now, SnapBudget(a));
    PassResult(if timedOut then [Handing(v, TimeOut, tag)] else [],
               Expiry(timedOut, v, tag, cfg.lang, backlight),
               if timedOut then Settle(v, TimeOut, tag, a, now, cfg) else a,
               timedOut && Renews(v, TimeOut, tag))
  }

  /**
   * `state.on_event(state.run())` on a state holding `a`: the answer of
   * `run` handed to the state as `run` left it.
   */
  function Once(a: Snap, backlight: bv8, t: Tick, cfg: Config): (r: PassResult)
    requires SnapOk(a)
    ensures SnapOk(r.next) && |r.handings| == 1
    ensures r.handings[0].event == Answer(a, t) && r.handings[0].view == SnapView(a)
    ensures !r.reaction.raised ==> r.reaction.view == SnapView(r.next)
    ensures r.renewed ==> !r.reaction.raised ==> r.next.since == t.now
    ensures !r.renewed ==> SnapView(r.next) == SnapView(a)
  {
    var e := Answer(a, t);
    var ran := Ran(a, t);
    var h := Handing(SnapView(ran), e, SnapTag(ran));
    PassResult([h], Outcome(h.view, e, h.tag, cfg.lang, backlight), Settle(h.view, e, h.tag, ran, t.now, cfg), Renews(h.view, e, h.tag))
  }

  /**
   * One pass of main.py's loop on a state holding `a` with the backlight at
   * `backlight`: Expired, then, unless its reaction raised, Once on the
   * state that results.
   */
  function PassOf(a: Snap, backlight: bv8, t: Tick, cfg: Config): (p: PassResult)
    requires SnapOk(a)
    ensures SnapOk(p.next)
    ensures |p.handings| <= 2 && (!p.reaction.raised ==> 1 <= |p.handings|)
    ensures !p.reaction.raised ==> p.reaction.view == SnapView(p.next)
  {
    var x := Expired(a, backlight, t.now, cfg);
    if x.reaction.raised then x
    else
      var y := Once(x.next, x.reaction.backlight, t, cfg);
      PassResult(x.handings + y.handings, After(x.reaction.sends, y.reaction), y.next, x.renewed || y.renewed)
  }

  /**
   * One pass of the loop: Expire, then `run` once on the state that results
   * and its answer handed to that same state; the same object is carried
   * into the next pass unless a new state was entered.
   */
  method Step(s: State, ghost a: Snap, ghost lit: bv8, t: Tick, cfg: Config, lcd: Lcd.LcdDriver)
    returns (next: State, raised: bool, ghost handings: seq<Handing>)
    requires StateOk(s) && lcd.Valid() && a == Abs(s) && lit == lcd.backlight
    modifies lcd, Objects(s)
    ensures lcd.Valid()
    ensures var p := PassOf(a, lit, t, cfg);
            handings == p.handings
            && Reaction(lcd.sends, lcd.backlight, raised, ViewOfState(next)) == After(old(lcd.sends), p.reaction)
            && (!raised ==> StateOk(next) && Abs(next) == p.next)
            && (if p.renewed then !raised ==> fresh(Objects(next)) else next == s)
  {
    ghost var x := Expired(a, lit, t.now, cfg);
    var current;
    current, raised := Expire(s, a, t.now, cfg, lcd);
    handings := x.handings;
    next := current;
    if !raised {
      next, raised := RunOnce(current, x.next, t, cfg, lcd);
      ghost var y := Once(x.next, x.reaction.backlight, t, cfg);
      handings := handings + y.handings;
      Lcd.ConcatAssoc(old(lcd.sends), x.reaction.sends, y.reaction.sends);
    }
  }

  /** How the loop ended: still running when the inputs ran out, an uncaught exception, or Ctrl-C. */
  datatype Ending = Running | Crashed | Interrupted

  /** The last three sends are clear-display, return-home and the backlight switched off. */
  predicate EndsShutDown(sends: seq<Lcd.Transfer>) {
    |sends| >= 3
    && sends[|sends| - 3].data == Lcd.LCD_CLEAR_DISPLAY
    && sends[|sends| - 2].data == Lcd.LCD_RETURN_HOME
    && sends[|sends| - 1] == Lcd.Transfer(0, Lcd.LCD_CMD_MODE, Lcd.LCD_BACKLIGHT_OFF)
  }

  /** What the `KeyboardInterrupt` handler sends: the two clear commands, then the backlight off. */
  function ShutDownSends(backlight: bv8): seq<Lcd.Transfer> {
    ClearSends(backlight) + [Lcd.Transfer(0, Lcd.LCD_CMD_MODE, Lcd.LCD_BACKLIGHT_OFF)]
  }

  /** The `KeyboardInterrupt` handler: clear the display, then switch the backlight off. */
  method ShutDown(lcd: Lcd.LcdDriver)
    requires lcd.Valid()
    modifies lcd
    ensures lcd.Valid() && lcd.backlight == Lcd.LCD_BACKLIGHT_OFF
    ensures lcd.sends == old(lcd.sends) + ShutDownSends(old(lcd.backlight))
    ensures EndsShutDown(lcd.sends)
  {
    lcd.Clear();
    lcd.SwitchOff();
    Lcd.ConcatAssoc(old(lcd.sends), ClearSends(old(lcd.backlight)), [Lcd.Transfer(0, Lcd.LCD_CMD_MODE, Lcd.LCD_BACKLIGHT_OFF)]);
  }

  /**
   * One `state.on_event(...)` the loop evaluated: the view of the state,
   * the event, and the card that state held; an `Escaped` event records a
   * `run` that raised, so that `on_event` was never reached.
   */
  datatype Handing = Handing(view: View, event: Event, tag: Option<string>)

  /** Every recorded event is one its state receives, or `run`'s exception. */
  predicate Callable(trace: seq<Handing>) {
    forall i :: 0 <= i < |trace| ==> trace[i].event.Escaped? || Receives(trace[i].view, trace[i].event)
  }

  /**
   * Each call hands the state an event it can receive, and the next call
   * goes to the state the previous one returned, starting from Idle.
   */
  predicate Chained(trace: seq<Handing>) {
    Callable(trace)
    && (|trace| > 0 ==> trace[0].view == IdleView)
    && (forall i :: 0 <= i < |trace| - 1 ==>
          Receives(trace[i].view, trace[i].event)
          && trace[i + 1].view == Successor(trace[i].view, trace[i].event, trace[i].tag))
  }

  /**
   * The calls of a trace replayed from Idle with the backlight at
   * `backlight`: their sends in order, up to and including the first one
   * that raised, which ends the program.
   */
  function Replay(trace: seq<Handing>, lang: Lang, backlight: bv8): Reaction
    requires Callable(trace)
    decreases |trace|
  {
    if trace == [] then Reaction([], backlight, false, IdleView)
    else
      var h := trace[|trace| - 1];
      var before := Replay(trace[..|trace| - 1], lang, backlight);
      if before.raised then before
      else After(before.sends, Outcome(h.view, h.event, h.tag, lang, before.backlight))
  }

  /** One more call, replayed after the ones before it. */
  lemma ReplayExtend(trace: seq<Handing>, h: Handing, lang: Lang, backlight: bv8)
    requires Callable(trace) && (h.event.Escaped? || Receives(h.view, h.event))
    ensures Callable(trace + [h])
    ensures var before := Replay(trace, lang, backlight);
            Replay(trace + [h], lang, backlight)
            == if before.raised then before
               else After(before.sends, Outcome(h.view, h.event, h.tag, lang, before.backlight))
  {
    assert (trace + [h])[..|trace|] == trace;
  }

  /** When a replay has raised nothing, its last call was an `on_event`, and the replay is at the state it returned. */
  lemma ReplayLast(trace: seq<Handing>, lang: Lang, backlight: bv8)
    requires Callable(trace) && trace != [] && !Replay(trace, lang, backlight).raised
    ensures var last := trace[|trace| - 1];
            Receives(last.view, last.event) && Replay(trace, lang, backlight).view == Successor(last.view, last.event, last.tag)
  {
    var last := trace[|trace| - 1];
    ReplayExtend(trace[..|trace| - 1], last, lang, backlight);
    assert trace[..|trace| - 1] + [last] == trace;
  }

  /**
   * A call made from the view a replay has reached, with nothing raised
   * yet, extends a chained trace.
   */
  lemma ChainedExtend(trace: seq<Handing>, h: Handing, lang: Lang, backlight: bv8)
    requires Chained(trace) && (h.event.Escaped? || Receives(h.view, h.event))
    requires !Replay(trace, lang, backlight).raised && h.view == Replay(trace, lang, backlight).view
    ensures Chained(trace + [h])
  {
    var t := trace + [h];
    if trace != [] {
      ReplayLast(trace, lang, backlight);
    }
    forall i | 0 <= i < |t| - 1
      ensures Receives(t[i].view, t[i].event)
      ensures t[i + 1].view == Successor(t[i].view, t[i].event, t[i].tag)
    {
      if i + 1 < |trace| {
        assert t[i + 1] == trace[i + 1] && t[i] == trace[i];
      }
    }
  }

  /**
   * The TIME_OUT call if the budget ran out, then `run`'s answer if that
   * call did not raise, replayed after a trace that raised nothing.
   */
  lemma ReplayPair(trace: seq<Handing>, timedOut: bool, tag: Option<string>, handed: bool, second: Handing,
                   lang: Lang, backlight: bv8, base: seq<Lcd.Transfer>)
    requires Chained(trace) && !Replay(trace, lang, backlight).raised
    requires var before := Replay(trace, lang, backlight);
             var first := Expiry(timedOut, before.view, tag, lang, before.backlight);
             (handed <==> !first.raised)
             && (handed ==> second.view == first.view && (second.event.Escaped? || Receives(second.view, second.event)))
    ensures var before := Replay(trace, lang, backlight);
            var after := trace + (if timedOut then [Handing(before.view, TimeOut, tag)] else []) + (if handed then [second] else []);
            var first := Expiry(timedOut, before.view, tag, lang, before.backlight);
            Chained(after)
            && After(base, Replay(after, lang, backlight))
               == if first.raised then After(base + before.sends, first)
                  else After(base + before.sends + first.sends, Outcome(second.view, second.event, second.tag, lang, first.backlight))
  {
    var before := Replay(trace, lang, backlight);
    var first := Expiry(timedOut, before.view, tag, lang, before.backlight);
    var after := trace + (if timedOut then [Handing(before.view, TimeOut, tag)] else []) + (if handed then [second] else []);
    var middle := trace;
    if timedOut {
      var h := Handing(before.view, TimeOut, tag);
      TimeOutGoesBack(h.view, h.tag);
      ReplayExtend(trace, h, lang, backlight);
      ChainedExtend(trace, h, lang, backlight);
      middle := trace + [h];
    } else {
      assert before.sends + [] == before.sends;
      assert trace + [] == trace;
    }
    assert Replay(middle, lang, backlight) == After(before.sends, first);
    if handed {
      assert after == middle + [second];
      AnswerReplay(middle, second, lang, backlight, base);
      ChainedExtend(middle, second, lang, backlight);
      Lcd.ConcatAssoc(base, before.sends, first.sends);
      assert !first.raised;
      assert After(base, Replay(after, lang, backlight))
             == After(base + before.sends + first.sends, Outcome(second.view, second.event, second.tag, lang, first.backlight));
    } else {
      assert after == middle + [] == middle;
      Lcd.ConcatAssoc(base, before.sends, first.sends);
      assert first.raised;
      assert After(base, Replay(after, lang, backlight)) == After(base + before.sends, first);
    }
  }

  /** `run`'s answer, replayed after calls that raised nothing. */
  lemma AnswerReplay(trace: seq<Handing>, h: Handing, lang: Lang, backlight: bv8, base: seq<Lcd.Transfer>)
    requires Callable(trace) && !Replay(trace, lang, backlight).raised
    requires h.event.Escaped? || Receives(h.view, h.event)
    ensures var before := Replay(trace, lang, backlight);
            After(base, Replay(trace + [h], lang, backlight))
            == After(base + before.sends, Outcome(h.view, h.event, h.tag, lang, before.backlight))
  {
    var before := Replay(trace, lang, backlight);
    ReplayExtend(trace, h, lang, backlight);
    Lcd.ConcatAssoc(base, before.sends, Outcome(h.view, h.event, h.tag, lang, before.backlight).sends);
  }

  /**
   * A pass replayed: the calls PassOf lists, made from the view a replay
   * has reached with nothing raised, extend the chain and leave the display
   * as the pass's reaction says.
   */
  lemma PassReplay(trace: seq<Handing>, a: Snap, t: Tick, cfg: Config, backlight: bv8, base: seq<Lcd.Transfer>)
    requires Chained(trace) && SnapOk(a)
    requires var before := Replay(trace, cfg.lang, backlight); !before.raised && before.view == SnapView(a)
    ensures var before := Replay(trace, cfg.lang, backlight);
            var p := PassOf(a, before.backlight, t, cfg);
            Chained(trace + p.handings)
            && After(base, Replay(trace + p.handings, cfg.lang, backlight)) == After(base + before.sends, p.reaction)
  {
    var before := Replay(trace, cfg.lang, backlight);
    var timedOut := TimedOut(a.since, t.now, SnapBudget(a));
    var second := PassParts(a, before.backlight, t, cfg);
    var first := Expiry(timedOut, SnapView(a), SnapTag(a), cfg.lang, before.backlight);
    ReplayJoined(trace, timedOut, SnapTag(a), !first.raised, second, cfg.lang, backlight, base);
  }

  /** ReplayPair with the pass's calls and reactions each taken as one piece. */
  lemma ReplayJoined(trace: seq<Handing>, timedOut: bool, tag: Option<string>, handed: bool, second: Handing,
                     lang: Lang, backlight: bv8, base: seq<Lcd.Transfer>)
    requires Chained(trace) && !Replay(trace, lang, backlight).raised
    requires var before := Replay(trace, lang, backlight);
             var first := Expiry(timedOut, before.view, tag, lang, before.backlight);
             (handed <==> !first.raised)
             && (handed ==> second.view == first.view && (second.event.Escaped? || Receives(second.view, second.event)))
    ensures var before := Replay(trace, lang, backlight);
            var calls := (if timedOut then [Handing(before.view, TimeOut, tag)] else []) + (if handed then [second] else []);
            var first := Expiry(timedOut, before.view, tag, lang, before.backlight);
            Chained(trace + calls)
            && After(base, Replay(trace + calls, lang, backlight))
               == After(base + before.sends,
                        if first.raised then first else After(first.sends, Outcome(second.view, second.event, second.tag, lang, first.backlight)))
  {
    var before := Replay(trace, lang, backlight);
    var first := Expiry(timedOut, before.view, tag, lang, before.backlight);
    var hs := if timedOut then [Handing(before.view, TimeOut, tag)] else [];
    ReplayPair(trace, timedOut, tag, handed, second, lang, backlight, base);
    if handed {
      Lcd.ConcatAssoc(trace, hs, [second]);
      var o := Outcome(second.view, second.event, second.tag, lang, first.backlight);
      Lcd.ConcatAssoc(base + before.sends, first.sends, o.sends);
      assert After(base + before.sends + first.sends, o) == After(base + before.sends, After(first.sends, o));
    } else {
      Lcd.ConcatAssoc(trace, hs, []);
      assert first.raised;
    }
  }

  /**
   * PassOf taken apart: its calls are the TIME_OUT call if the budget ran
   * out, then, unless that raised, the call `second` on the state that
   * results, whose view is the one the first reaction leaves.
   */
  lemma PassParts(a: Snap, backlight: bv8, t: Tick, cfg: Config) returns (second: Handing)
    requires SnapOk(a)
    ensures var v, tag := SnapView(a), SnapTag(a);
            var timedOut := TimedOut(a.since, t.now, SnapBudget(a));
            var first := Expiry(timedOut, v, tag, cfg.lang, backlight);
            var p := PassOf(a, backlight, t, cfg);
            (second.event.Escaped? || Receives(second.view, second.event))
            && (!first.raised ==> second.view == first.view)
            && p.handings == (if timedOut then [Handing(v, TimeOut, tag)] else []) + (if first.raised then [] else [second])
            && p.reaction == if first.raised then first
                             else After(first.sends, Outcome(second.view, second.event, second.tag, cfg.lang, first.backlight))
  {
    var v, tag := SnapView(a), SnapTag(a);
    var timedOut := TimedOut(a.since, t.now, SnapBudget(a));
    TimeOutLeadsBack(v, tag);
    var mid := if timedOut then Settle(v, TimeOut, tag, a, t.now, cfg) else a;
    second := Handing(SnapView(Ran(mid, t)), Answer(mid, t), SnapTag(Ran(mid, t)));
    var hs := if timedOut then [Handing(v, TimeOut, tag)] else [];
    assert hs + [] == hs;
  }

  /**
   * Where the loop stands after some ticks: the calls made, what went to
   * the display, the backlight, whether it raised, and what the state holds.
   */
  datatype Walked = Walked(handings: seq<Handing>, sends: seq<Lcd.Transfer>, backlight: bv8, raised: bool, at: Snap)

  /**
   * The passes of the loop over `ticks`, from a state holding `a` with the
   * backlight at `backlight`, stopping at the first exception.
   */
  function Walk(a: Snap, backlight: bv8, ticks: seq<Tick>, cfg: Config): (w: Walked)
    requires SnapOk(a)
    ensures SnapOk(w.at)
    ensures |w.handings| <= 2 * |ticks| && (!w.raised ==> |ticks| <= |w.handings|)
    decreases |ticks|
  {
    if ticks == [] then Walked([], [], backlight, false, a)
    else
      var w := Walk(a, backlight, ticks[..|ticks| - 1], cfg);
      if w.raised then w
      else
        var p := PassOf(w.at, w.backlight, ticks[|ticks| - 1], cfg);
        Walked(w.handings + p.handings, w.sends + p.reaction.sends, p.reaction.backlight, p.reaction.raised, p.next)
  }

  /** One more tick: a pass from where the walk stands, unless it has raised. */
  lemma WalkNext(a: Snap, backlight: bv8, ticks: seq<Tick>, k: nat, cfg: Config)
    requires SnapOk(a) && k < |ticks|
    ensures var w := Walk(a, backlight, ticks[..k], cfg);
            var p := PassOf(w.at, w.backlight, ticks[k], cfg);
            Walk(a, backlight, ticks[..k + 1], cfg)
            == if w.raised then w
               else Walked(w.handings + p.handings, w.sends + p.reaction.sends, p.reaction.backlight, p.reaction.raised, p.next)
  {
    assert ticks[..k + 1][..k] == ticks[..k];
  }

  /** The loop stops when the ticks run out or a pass raises; once it has raised, later ticks change nothing. */
  lemma {:induction false} WalkStops(a: Snap, backlight: bv8, ticks: seq<Tick>, k: nat, cfg: Config)
    requires SnapOk(a) && k <= |ticks|
    requires k == |ticks| || Walk(a, backlight, ticks[..k], cfg).raised
    ensures Walk(a, backlight, ticks, cfg) == Walk(a, backlight, ticks[..k], cfg)
    decreases |ticks|
  {
    if k < |ticks| {
      var init := ticks[..|ticks| - 1];
      assert init[..k] == ticks[..k];
      WalkStops(a, backlight, init, k, cfg);
    } else {
      assert ticks[..k] == ticks;
    }
  }

  /**
   * The walk from a new Idle agrees with replaying its calls: they chain,
   * the replay sends what the walk sent, ends under the same backlight and
   * raised exactly when the walk did, and otherwise is at the walk's state.
   */
  lemma {:induction false} WalkReplays(start: int, backlight: bv8, ticks: seq<Tick>, cfg: Config)
    ensures Chained(Walk(Fresh(ToIdle, start, cfg), backlight, ticks, cfg).handings)
    ensures var w := Walk(Fresh(ToIdle, start, cfg), backlight, ticks, cfg);
            var run := Replay(w.handings, cfg.lang, backlight);
            run.sends == w.sends && run.backlight == w.backlight && run.raised == w.raised
            && (!w.raised ==> run.view == SnapView(w.at))
    decreases |ticks|
  {
    var a := Fresh(ToIdle, start, cfg);
    if ticks != [] {
      var init := ticks[..|ticks| - 1];
      WalkReplays(start, backlight, init, cfg);
      var w := Walk(a, backlight, init, cfg);
      if !w.raised {
        PassReplay(w.handings, w.at, ticks[|ticks| - 1], cfg, backlight, []);
        var p := PassOf(w.at, w.backlight, ticks[|ticks| - 1], cfg);
        var run := Replay(w.handings + p.handings, cfg.lang, backlight);
        assert [] + run.sends == run.sends;
        assert [] + w.sends == w.sends;
      }
    }
  }

  /** The pass for tick `k` of the loop, as one more step of the walk. */
  method Advance(s: State, ticks: seq<Tick>, k: nat, cfg: Config, lcd: Lcd.LcdDriver,
                 ghost a: Snap, ghost light: bv8, ghost base: seq<Lcd.Transfer>)
    returns (next: State, raised: bool, ghost handings: seq<Handing>)
    requires StateOk(s) && lcd.Valid() && SnapOk(a) && k < |ticks|
    requires var w := Walk(a, light, ticks[..k], cfg);
             !w.raised && Abs(s) == w.at && lcd.sends == base + w.sends && lcd.backlight == w.backlight
    modifies lcd, Objects(s)
    ensures lcd.Valid()
    ensures var w := Walk(a, light, ticks[..k + 1], cfg);
            w.handings == Walk(a, light, ticks[..k], cfg).handings + handings
            && raised == w.raised && lcd.sends == base + w.sends && lcd.backlight == w.backlight
            && (!raised ==> StateOk(next) && Abs(next) == w.at && (next == s || fresh(Objects(next))))
  {
    ghost var w := Walk(a, light, ticks[..k], cfg);
    WalkNext(a, light, ticks, k, cfg);
    next, raised, handings := Step(s, w.at, w.backlight, ticks[k], cfg, lcd);
    Lcd.ConcatAssoc(base, w.sends, PassOf(w.at, w.backlight, ticks[k], cfg).reaction.sends);
  }

  /**
   * The `while True` loop, one pass per tick until the ticks run out or a
   * pass raises: `trace` lists every `on_event` call in order, and the
   * trace, the display and the backlight are the walk's.
   */
  method Loop(state: State, ticks: seq<Tick>, cfg: Config, lcd: Lcd.LcdDriver)
    returns (raised: bool, ghost trace: seq<Handing>)
    requires StateOk(state) && lcd.Valid()
    modifies lcd, Objects(state)
    ensures lcd.Valid()
    ensures var w := Walk(old(Abs(state)), old(lcd.backlight), ticks, cfg);
            trace == w.handings && raised == w.raised && lcd.sends == old(lcd.sends) + w.sends && lcd.backlight == w.backlight
  {
    ghost var light := lcd.backlight;
    ghost var base := lcd.sends;
    ghost var a := Abs(state);
    assert base + [] == base;
    var s := state;
    raised := false;
    trace := [];
    var k := 0;
    while k < |ticks| && !raised
      invariant lcd.Valid()
      invariant 0 <= k <= |ticks|
      invariant !raised ==> StateOk(s) && (s == state || fresh(Objects(s)))
      invariant var w := Walk(a, light, ticks[..k], cfg);
                trace == w.handings && raised == w.raised && lcd.sends == base + w.sends && lcd.backlight == w.backlight
                && (!raised ==> Abs(s) == w.at)
    {
      ghost var handings;
      s, raised, handings := Advance(s, ticks, k, cfg, lcd, a, light, base);
      trace := trace + handings;
      k := k + 1;
    }
    WalkStops(a, light, ticks, k, cfg);
  }

  /**
   * The program: `state = Idle()` at time `start`, then the loop over the
   * ticks; an exception ends the program where it happens, and Ctrl-C
   * after the last tick clears the display and then switches it off.
   * `trace` lists every `on_event` call in order, it is the walk from a new
   * Idle, and the display receives Idle's clear, then what replaying the
   * trace sends.
   */
  method Drive(lcd: Lcd.LcdDriver, cfg: Config, start: int, ticks: seq<Tick>, interrupted: bool)
    returns (ending: Ending, ghost trace: seq<Handing>)
    requires lcd.Valid()
    modifies lcd
    ensures lcd.Valid() && Chained(trace)
    ensures var run := Replay(trace, cfg.lang, old(lcd.backlight));
            (ending == Crashed <==> run.raised)
            && lcd.sends == old(lcd.sends) + ClearSends(old(lcd.backlight)) + run.sends
                            + (if ending == Interrupted then ShutDownSends(run.backlight) else [])
            && (ending == Running ==> lcd.backlight == run.backlight)
    ensures var w := Walk(Fresh(ToIdle, start, cfg), old(lcd.backlight), ticks, cfg);
            trace == w.handings && (ending == Crashed <==> w.raised)
    ensures ending == Interrupted <==> interrupted && ending != Crashed
    ensures ending == Running ==> !interrupted
    ensures ending == Interrupted ==> EndsShutDown(lcd.sends) && lcd.backlight == Lcd.LCD_BACKLIGHT_OFF
  {
    ghost var light := lcd.backlight;
    IdleEntryClears(cfg.lang, light);
    var state, raised := Enter(ToIdle, start, cfg, lcd, light);
    raised, trace := Loop(state, ticks, cfg, lcd);
    WalkReplays(start, light, ticks, cfg);
    if raised {
      ending := Crashed;
      assert lcd.sends + [] == lcd.sends;
    } else if interrupted {
      ShutDown(lcd);
      ending := Interrupted;
    } else {
      ending := Running;
      assert lcd.sends + [] == lcd.sends;
    }
  }
}
