/** The operator actions of the swift-proxy charm: removing devices from the
    rings and setting their weights (leader only), pausing and resuming the
    services, reporting disk usage in whole gigabytes, running the dispersion
    tools, and the dispatch of an action name to its handler.

    Whatever the handlers learn from outside (leadership, action parameters,
    whether a ring helper or a service call succeeds, what a command prints)
    is part of the `World` record; their observable calls are effects appended
    to the unit's trace. */
module Actions {
  import opened Wrappers
  import opened HookEnv
  import opened Text

  /** Where the ring builder files live (SWIFT_CONF_DIR of the charm's utilities). */
  const SwiftConfDir := "/etc/swift"

  const ValidRings: seq<string> := ["account", "container", "object", "all"]

  const LeaderMessage := "Must run action on leader unit"
  const InvalidRingShort := "Invalid ring name."

  /** remove_devices' message for a ring name outside ValidRings. */
  function InvalidRingMessage(ring: string): string {
    "Invalid ring name '" + ring + "'. Should be one of: account, container, object, all"
  }

  /** `os.path.join(SWIFT_CONF_DIR, ring + '.builder')`. */
  function BuilderPath(ring: string): string {
    SwiftConfDir + "/" + ring + ".builder"
  }

  /** The rings an action touches: the three rings for 'all', else the one named. */
  function RingsToUpdate(ring: string): (rings: seq<string>)
    requires ring in ValidRings
    ensures forall k | 0 <= k < |rings| :: rings[k] in ValidRings && rings[k] != "all"
    ensures ring != "all" ==> rings == [ring]
  {
    if ring == "all" then ["account", "container", "object"] else [ring]
  }

  /** Python's `str(v)` for the values an action parameter can hold. */
  function PyStr(v: Value): string {
    match v
    case Null => "None"
    case Str(s) => s
    case Flag(b) => if b then "True" else "False"
    case Num(n) => IntText(n)
  }

  /** What a command run with check_output prints, and whether it exited non-zero. */
  datatype CommandResult = Ran(output: string) | Failed(output: string)

  /** Everything an action learns from outside the charm: leadership, the
      action's parameters, the --services list and the managed services among
      it, which ring helper calls raise (and with what message), which
      services stop and start cleanly, and the output of each command. */
  datatype World = World(
    isLeader: bool,
    ring: string,
    search: string,
    weight: Value,
    services: seq<string>,
    managed: seq<string>,
    raises: Effect -> Option<string>,
    stops: string -> bool,
    starts: string -> bool,
    recon: CommandResult,
    populate: CommandResult,
    report: CommandResult)

  // ---------------------------------------------------------------------------
  // Calls in a row, the first one that raises ending the action

  /** One call an action makes, and the message of the exception it raises, if it does. */
  datatype Call = Call(effect: Effect, raised: Option<string>)

  /** The calls made one after the other; the first that raises ends the run,
      and `finish` follows only when none raised. */
  function Sweep(calls: seq<Call>, finish: seq<Effect>): Reaction
  {
    if calls == [] then Reaction(finish, Done)
    else if calls[0].raised.Some? then Reaction([calls[0].effect], Raised(calls[0].raised.value))
    else
      var rest := Sweep(calls[1..], finish);
      Reaction([calls[0].effect] + rest.effects, rest.outcome)
  }

  /** The calls' effects, in order. */
  function CallEffects(calls: seq<Call>): (effects: seq<Effect>)
    ensures |effects| == |calls| && forall j | 0 <= j < |calls| :: effects[j] == calls[j].effect
  {
    if calls == [] then [] else [calls[0].effect] + CallEffects(calls[1..])
  }

  predicate NoneRaise(calls: seq<Call>) {
    forall j | 0 <= j < |calls| :: calls[j].raised.None?
  }

  /** When no call raises, every call is made in order and then `finish`. */
  lemma {:induction false} SweepCompletes(calls: seq<Call>, finish: seq<Effect>)
    requires NoneRaise(calls)
    ensures Sweep(calls, finish) == Reaction(CallEffects(calls) + finish, Done)
    decreases |calls|
  {
    if calls != [] {
      SweepCompletes(calls[1..], finish);
      assert [calls[0].effect] + (CallEffects(calls[1..]) + finish) == CallEffects(calls) + finish;
    }
  }

  /** When call `k` is the first to raise, the calls up to and including it
      are made, none after it, `finish` is never reached, and the run raises
      with that call's message. */
  lemma {:induction false} SweepFailsFast(calls: seq<Call>, finish: seq<Effect>, k: nat)
    requires k < |calls| && calls[k].raised.Some? && NoneRaise(calls[..k])
    ensures Sweep(calls, finish) == Reaction(CallEffects(calls[..k + 1]), Raised(calls[k].raised.value))
    decreases k
  {
    if k > 0 {
      assert calls[1..][..k - 1] == calls[..k][1..];
      assert calls[1..][..k] == calls[..k + 1][1..];
      SweepFailsFast(calls[1..], finish, k - 1);
    }
  }

  /** A closing call that none of the calls makes happens once when none
      raises, and not at all otherwise, after a prefix of the calls. */
  lemma SweepFinishesOnce(calls: seq<Call>, f: Effect)
    requires f !in CallEffects(calls)
    ensures var r := Sweep(calls, [f]);
            && (r.outcome.Done? <==> NoneRaise(calls))
            && (r.outcome.Done? ==> r.effects == CallEffects(calls) + [f] && Count(r.effects, f) == 1)
            && (r.outcome.Raised? ==> f !in r.effects && |r.effects| <= |calls| && r.effects == CallEffects(calls)[..|r.effects|])
  {
    if NoneRaise(calls) {
      SweepCompletes(calls, [f]);
      CountAppend(CallEffects(calls), [f], f);
    } else {
      SweepStopsShort(calls, [f]);
    }
  }

  /** When some call raises, the run raises and its effects are a strict prefix of the calls'. */
  lemma SweepStopsShort(calls: seq<Call>, finish: seq<Effect>)
    requires !NoneRaise(calls)
    ensures var r := Sweep(calls, finish);
            && r.outcome.Raised?
            && 0 < |r.effects| <= |calls| && r.effects == CallEffects(calls)[..|r.effects|]
  {
    var k := FirstRaise(calls);
    SweepFailsFast(calls, finish, k);
    assert CallEffects(calls[..k + 1]) == CallEffects(calls)[..k + 1];
  }

  /** Either no call raises or there is a first one that does. */
  lemma FirstRaise(calls: seq<Call>) returns (k: nat)
    requires !NoneRaise(calls)
    ensures k < |calls| && calls[k].raised.Some? && NoneRaise(calls[..k])
  {
    k := 0;
    while calls[k].raised.None?
      invariant k < |calls| && NoneRaise(calls[..k])
      decreases |calls| - k
    {
      assert calls[..k + 1] == calls[..k] + [calls[k]];
      k := k + 1;
    }
  }

  // ---------------------------------------------------------------------------
  // remove-devices and set-weight

  /** What an action does to each ring builder it updates. */
  datatype RingOp = RemoveOp(search: string) | WeightOp(search: string, weight: string)

  function RingEffect(op: RingOp, path: string): Effect {
    match op
    case RemoveOp(search) => RemoveFromRing(path, search)
    case WeightOp(search, weight) => SetWeightInRing(path, search, weight)
  }

  /** One update call per ring, on that ring's builder file, in order. */
  function RingCalls(op: RingOp, rings: seq<string>, raises: Effect -> Option<string>): (calls: seq<Call>)
    ensures |calls| == |rings|
    ensures forall j | 0 <= j < |rings| ::
              calls[j].effect == RingEffect(op, BuilderPath(rings[j])) && calls[j].raised == raises(calls[j].effect)
  {
    if rings == [] then []
    else
      var e := RingEffect(op, BuilderPath(rings[0]));
      [Call(e, raises(e))] + RingCalls(op, rings[1..], raises)
  }

  /** An effect that changes a ring or rebalances. */
  predicate RingMutation(e: Effect) {
    e.RemoveFromRing? || e.SetWeightInRing? || e.BalanceRings?
  }

  predicate NoRingMutation(effects: seq<Effect>) {
    forall j | 0 <= j < |effects| :: !RingMutation(effects[j])
  }

  /** The leader and ring-name checks both actions make before touching a ring. */
  function RingAction(w: World, op: RingOp, invalidMessage: string): Reaction {
    if !w.isLeader then Reaction([ActionFail(LeaderMessage)], Done)
    else if w.ring !in ValidRings then Reaction([ActionFail(invalidMessage)], Done)
    else Sweep(RingCalls(op, RingsToUpdate(w.ring), w.raises), [BalanceRings])
  }

  /** remove_devices */
  function RemoveDevicesReaction(w: World): Reaction {
    RingAction(w, RemoveOp(w.search), InvalidRingMessage(w.ring))
  }

  /** set_weight; the weight is passed on as `str(weight)`. */
  function SetWeightReaction(w: World): Reaction {
    RingAction(w, WeightOp(w.search, PyStr(w.weight)), InvalidRingShort)
  }

  /** Off the leader, or with a ring name outside ValidRings, the action only
      fails, with its message, and no ring is updated or rebalanced. */
  lemma RingActionRefused(w: World, op: RingOp, invalidMessage: string)
    requires !w.isLeader || w.ring !in ValidRings
    ensures var r := RingAction(w, op, invalidMessage);
            && r.effects == [ActionFail(if !w.isLeader then LeaderMessage else invalidMessage)]
            && r.outcome == Done
            && NoRingMutation(r.effects)
  {
  }

  /** On the leader with a valid ring name, every ring in RingsToUpdate is
      updated in order and then the rings are balanced exactly once; if an
      update raises, the later rings are not updated and the rings are never
      balanced. */
  lemma RingActionBalancesOnce(w: World, op: RingOp, invalidMessage: string)
    requires w.isLeader && w.ring in ValidRings
    ensures var calls := RingCalls(op, RingsToUpdate(w.ring), w.raises);
            var r := RingAction(w, op, invalidMessage);
            && (r.outcome.Done? <==> NoneRaise(calls))
            && (r.outcome.Done? ==> r.effects == CallEffects(calls) + [BalanceRings] && Count(r.effects, BalanceRings) == 1)
            && (r.outcome.Raised? ==> && BalanceRings !in r.effects
                                      && |r.effects| <= |calls| && r.effects == CallEffects(calls)[..|r.effects|])
  {
    var calls := RingCalls(op, RingsToUpdate(w.ring), w.raises);
    assert BalanceRings !in CallEffects(calls);
    SweepFinishesOnce(calls, BalanceRings);
  }

  /** 'all' stands for the account, container and object builders, in that
      order, whichever of the updates raise. */
  lemma AllRingsExpanded(op: RingOp, raises: Effect -> Option<string>)
    ensures CallEffects(RingCalls(op, RingsToUpdate("all"), raises)) == [
              RingEffect(op, BuilderPath("account")),
              RingEffect(op, BuilderPath("container")),
              RingEffect(op, BuilderPath("object"))]
  {
    var calls := RingCalls(op, RingsToUpdate("all"), raises);
    assert |calls| == 3;
  }

  /** 'all' updates the account, container and object builders, in that order. */
  lemma AllRingsInOrder(w: World, op: RingOp, invalidMessage: string)
    requires w.isLeader && w.ring == "all"
    requires NoneRaise(RingCalls(op, RingsToUpdate(w.ring), w.raises))
    ensures RingAction(w, op, invalidMessage).effects == [
              RingEffect(op, BuilderPath("account")),
              RingEffect(op, BuilderPath("container")),
              RingEffect(op, BuilderPath("object")),
              BalanceRings]
  {
    RingActionBalancesOnce(w, op, invalidMessage);
    AllRingsExpanded(op, w.raises);
  }

  // ---------------------------------------------------------------------------
  // pause and resume

  /** One service_pause (stopping) or service_resume call per service, raising
      when the service does not stop (or start) cleanly. */
  function ServiceCalls(stopping: bool, services: seq<string>, ok: string -> bool): (calls: seq<Call>)
    ensures |calls| == |services|
    ensures forall j | 0 <= j < |services| ::
              && calls[j].effect == (if stopping then ServicePause(services[j]) else ServiceResume(services[j]))
              && (calls[j].raised.None? <==> ok(services[j]))
              && (calls[j].raised.Some? ==> calls[j].raised.value == ServiceFailure(stopping, services[j]))
  {
    if services == [] then []
    else
      var s := services[0];
      [Call(if stopping then ServicePause(s) else ServiceResume(s),
            if ok(s) then None else Some(ServiceFailure(stopping, s)))]
      + ServiceCalls(stopping, services[1..], ok)
  }

  function ServiceFailure(stopping: bool, service: string): string {
    service + (if stopping then " didn't stop cleanly." else " didn't start cleanly.")
  }

  /** pause: stop each --services entry, then mark the unit paused and assess its status. */
  function PauseReaction(w: World): Reaction {
    Sweep(ServiceCalls(true, w.services, w.stops), [SetUnitPaused, AssessStatus(w.services)])
  }

  /** resume: start each managed service, then clear the paused mark and assess
      the status of the --services list. */
  function ResumeReaction(w: World): Reaction {
    Sweep(ServiceCalls(false, w.managed, w.starts), [ClearUnitPaused, AssessStatus(w.services)])
  }

  /** The first service that does not stop (or start) ends the action with its
      message; the services after it are not touched and the unit's paused
      mark and status are left alone. */
  lemma ServicesFailFast(stopping: bool, services: seq<string>, ok: string -> bool, finish: seq<Effect>, k: nat)
    requires k < |services| && !ok(services[k])
    requires forall j | 0 <= j < k :: ok(services[j])
    ensures var calls := ServiceCalls(stopping, services, ok);
            Sweep(calls, finish) == Reaction(CallEffects(calls[..k + 1]), Raised(ServiceFailure(stopping, services[k])))
  {
    var calls := ServiceCalls(stopping, services, ok);
    assert NoneRaise(calls[..k]);
    SweepFailsFast(calls, finish, k);
  }

  /** When every service stops (or starts), each is called once, in order, and
      then the unit is marked paused (or cleared) and its status assessed. */
  lemma ServicesComplete(stopping: bool, services: seq<string>, ok: string -> bool, finish: seq<Effect>)
    requires forall j | 0 <= j < |services| :: ok(services[j])
    ensures var calls := ServiceCalls(stopping, services, ok);
            Sweep(calls, finish) == Reaction(CallEffects(calls) + finish, Done)
  {
    SweepCompletes(ServiceCalls(stopping, services, ok), finish);
  }

  /** The unit is marked paused exactly when every service stopped, and the
      action raises otherwise. */
  lemma PauseMarksOnlyWhenAllStop(w: World)
    ensures PauseReaction(w).outcome.Done? <==> forall j | 0 <= j < |w.services| :: w.stops(w.services[j])
    ensures SetUnitPaused in PauseReaction(w).effects <==> PauseReaction(w).outcome.Done?
  {
    var calls := ServiceCalls(true, w.services, w.stops);
    var finish := [SetUnitPaused, AssessStatus(w.services)];
    if NoneRaise(calls) {
      SweepCompletes(calls, finish);
      assert PauseReaction(w).effects[|calls|] == SetUnitPaused;
    } else {
      SweepStopsShort(calls, finish);
    }
  }

  /** The unit's paused mark is cleared exactly when every managed service
      started, and the action raises otherwise. */
  lemma ResumeClearsOnlyWhenAllStart(w: World)
    ensures ResumeReaction(w).outcome.Done? <==> forall j | 0 <= j < |w.managed| :: w.starts(w.managed[j])
    ensures ClearUnitPaused in ResumeReaction(w).effects <==> ResumeReaction(w).outcome.Done?
  {
    var calls := ServiceCalls(false, w.managed, w.starts);
    var finish := [ClearUnitPaused, AssessStatus(w.services)];
    if NoneRaise(calls) {
      SweepCompletes(calls, finish);
      assert ResumeReaction(w).effects[|calls|] == ClearUnitPaused;
    } else {
      SweepStopsShort(calls, finish);
    }
  }

  // ---------------------------------------------------------------------------
  // diskusage

  const Gibibyte := 1024 * 1024 * 1024
  const ReconFailedMessage := "Failed to run swift-recon -d"

  /** str() of the IndexError a missing field raises. */
  const IndexErrorMessage := "list index out of range"

  /** str() of the ValueError int() raises on `s`. */
  function ValueErrorMessage(s: string): string {
    "invalid literal for int() with base 10: '" + s + "'"
  }

  /** The lines of the recon output that mention 'Disk', in order. */
  function DiskLines(lines: seq<string>): (disk: seq<string>)
    ensures |disk| <= |lines|
    ensures forall j | 0 <= j < |disk| :: Contains(disk[j], "Disk")
    ensures forall l :: l in disk <==> l in lines && Contains(l, "Disk")
  {
    if lines == [] then []
    else (if Contains(lines[0], "Disk") then [lines[0]] else []) + DiskLines(lines[1..])
  }

  /** The filter keeps the order of the lines: a line read after `lines` is
      kept, after the lines kept before it, exactly when it mentions 'Disk'. */
  lemma {:induction false} DiskLinesInOrder(lines: seq<string>, line: string)
    ensures DiskLines(lines + [line]) == DiskLines(lines) + (if Contains(line, "Disk") then [line] else [])
    decreases |lines|
  {
    if lines == [] {
      assert lines + [line] == [line];
    } else {
      assert (lines + [line])[1..] == lines[1..] + [line];
      DiskLinesInOrder(lines[1..], line);
    }
  }

  /** `line.strip().split(' ')` */
  function Fields(line: string): seq<string> {
    Split(Strip(line), ' ')
  }

  /** `str(int(field) // (1024 * 1024 * 1024)) + 'GB'`; None where int() raises.
      Python's `//` floors, as Dafny's `/` does for a positive divisor. */
  function InGb(field: string): Option<string> {
    match ParseInt(field)
    case None => None
    case Some(n) => Some(IntText(n / Gibibyte) + "GB")
  }

  /** One line's fields after the rewrite, or the message of what it raised. */
  datatype Converted = Converted(fields: seq<string>) | Failure(message: string)

  /** The fields of each line. */
  function FieldsOf(lines: seq<string>): (fields: seq<seq<string>>)
    ensures |fields| == |lines| && forall j | 0 <= j < |lines| :: fields[j] == Fields(lines[j])
  {
    if lines == [] then [] else [Fields(lines[0])] + FieldsOf(lines[1..])
  }

  /** A line with a field that is exactly 'space' gets fields 4 and 6 in whole
      gigabytes, field 4 first; other lines are kept. */
  function ConvertFields(fields: seq<string>): Converted {
    if "space" !in fields then Converted(fields)
    else if |fields| <= 4 then Failure(IndexErrorMessage)
    else
      match InGb(fields[4])
      case None => Failure(ValueErrorMessage(fields[4]))
      case Some(g4) =>
        if |fields| <= 6 then Failure(IndexErrorMessage)
        else
          match InGb(fields[6])
          case None => Failure(ValueErrorMessage(fields[6]))
          case Some(g6) => Converted(fields[4 := g4][6 := g6])
  }

  /** Every line's fields rewritten, or the message of the first line that raised. */
  datatype Report = Report(lines: seq<seq<string>>) | ReportFailure(message: string)

  function ConvertAll(lines: seq<seq<string>>): Report {
    if lines == [] then Report([])
    else
      match ConvertFields(lines[0])
      case Failure(m) => ReportFailure(m)
      case Converted(first) =>
        match ConvertAll(lines[1..])
        case ReportFailure(m) => ReportFailure(m)
        case Report(rest) => Report([first] + rest)
  }

  /** When every line converts, the report is the converted lines, in order. */
  lemma {:induction false} ConvertAllSucceeds(lines: seq<seq<string>>, out: seq<seq<string>>)
    requires |out| == |lines|
    requires forall j | 0 <= j < |lines| :: ConvertFields(lines[j]) == Converted(out[j])
    ensures ConvertAll(lines) == Report(out)
    decreases |lines|
  {
    if lines != [] {
      ConvertAllSucceeds(lines[1..], out[1..]);
      assert out == [out[0]] + out[1..];
    }
  }

  /** The first line that fails to convert decides the message. */
  lemma {:induction false} ConvertAllFails(lines: seq<seq<string>>, i: nat)
    requires i < |lines| && ConvertFields(lines[i]).Failure?
    requires forall j | 0 <= j < i :: ConvertFields(lines[j]).Converted?
    ensures ConvertAll(lines) == ReportFailure(ConvertFields(lines[i]).message)
    decreases i
  {
    if i > 0 {
      ConvertAllFails(lines[1..], i - 1);
    }
  }

  /** `' '.join(x)` for each line. */
  function JoinLines(lines: seq<seq<string>>): (joined: seq<string>)
    ensures |joined| == |lines| && forall j | 0 <= j < |lines| :: joined[j] == Join(lines[j], ' ')
  {
    if lines == [] then [] else [Join(lines[0], ' ')] + JoinLines(lines[1..])
  }

  /** diskusage: the converted 'Disk' lines as the action's output, or the
      command's output and a failure when swift-recon exits non-zero. */
  function DiskusageReaction(recon: CommandResult): Reaction {
    match recon
    case Failed(output) => Reaction([ActionSet(Text(output)), ActionFail(ReconFailedMessage)], Done)
    case Ran(output) =>
      var disk := DiskLines(SplitLines(output));
      match ConvertAll(FieldsOf(disk))
      case ReportFailure(m) => Reaction([], Raised(m))
      case Report(lines) => Reaction([ActionSet(Lines(JoinLines(lines)))], Done)
  }

  /** A 'Disk' line without a 'space' field is reported as the line stripped. */
  lemma LineWithoutSpaceKept(line: string)
    requires "space" !in Fields(line)
    ensures ConvertFields(Fields(line)) == Converted(Fields(line))
    ensures Join(Fields(line), ' ') == Strip(line)
  {
    JoinSplit(Strip(line), ' ');
  }

  /** A rewritten field reads back as the whole number of gigabytes in the
      original byte count, rounded down, followed by 'GB'. */
  lemma InGbMeaning(field: string)
    requires InGb(field).Some?
    ensures var g, n := InGb(field).value, ParseInt(field).value;
            && |g| > 2 && g[|g| - 2..] == "GB"
            && ParseInt(g[..|g| - 2]) == Some(n / Gibibyte)
            && (n / Gibibyte) * Gibibyte <= n < (n / Gibibyte + 1) * Gibibyte
  {
    var n := ParseInt(field).value;
    var t := IntText(n / Gibibyte);
    ParseIntText(n / Gibibyte);
    PrefixAndRest(t, "GB");
    FloorDivision(n);
  }

  /** `n // 1024**3` is the largest whole number of gibibytes not above `n`. */
  lemma FloorDivision(n: int)
    ensures (n / Gibibyte) * Gibibyte <= n < (n / Gibibyte + 1) * Gibibyte
  {
    var q, r := n / Gibibyte, n % Gibibyte;
    assert n == Gibibyte * q + r && 0 <= r < Gibibyte;
  }

  /** Only fields 4 and 6 of a line with a 'space' field change. */
  lemma SpaceLineConverted(fields: seq<string>)
    requires "space" in fields && ConvertFields(fields).Converted?
    ensures var out := ConvertFields(fields).fields;
            && |out| == |fields| > 6
            && Some(out[4]) == InGb(fields[4]) && Some(out[6]) == InGb(fields[6])
            && forall j | 0 <= j < |fields| && j != 4 && j != 6 :: out[j] == fields[j]
  {
    var g4, g6 := InGb(fields[4]).value, InGb(fields[6]).value;
    assert ConvertFields(fields).fields == fields[4 := g4][6 := g6];
  }

  // ---------------------------------------------------------------------------
  // dispersion-populate and dispersion-report

  /** Runs `cmd` and sets its output; a non-zero exit also fails the action. */
  function DispersionReaction(cmd: string, result: CommandResult): Reaction {
    match result
    case Ran(output) => Reaction([ActionSet(Text(output))], Done)
    case Failed(output) => Reaction([ActionSet(Text(output)), ActionFail("Failed to run " + cmd)], Done)
  }

  // ---------------------------------------------------------------------------
  // ACTIONS and main

  datatype Handler =
    | PauseHandler | ResumeHandler | DiskusageHandler | RemoveDevicesHandler
    | SetWeightHandler | DispersionPopulateHandler | DispersionReportHandler

  /** The action names and their handlers. */
  const ActionTable: map<string, Handler> := map[
    "pause" := PauseHandler,
    "resume" := ResumeHandler,
    "diskusage" := DiskusageHandler,
    "remove-devices" := RemoveDevicesHandler,
    "set-weight" := SetWeightHandler,
    "dispersion-populate" := DispersionPopulateHandler,
    "dispersion-report" := DispersionReportHandler
  ]

  function Handle(h: Handler, w: World): Reaction {
    match h
    case PauseHandler => PauseReaction(w)
    case ResumeHandler => ResumeReaction(w)
    case DiskusageHandler => DiskusageReaction(w.recon)
    case RemoveDevicesHandler => RemoveDevicesReaction(w)
    case SetWeightHandler => SetWeightReaction(w)
    case DispersionPopulateHandler => DispersionReaction("swift-dispersion-populate", w.populate)
    case DispersionReportHandler => DispersionReaction("swift-dispersion-report", w.report)
  }

  /** What main leaves behind: its effects and the value it returns. */
  datatype DispatchResult = DispatchResult(effects: seq<Effect>, returned: Option<string>)

  function UndefinedMessage(name: string): string {
    "Action " + name + " undefined"
  }

  /** main: an unknown name is reported in the return value; otherwise the
      handler runs and an exception it raises becomes action_fail(str(e)). */
  function Dispatch(name: string, w: World): DispatchResult {
    if name !in ActionTable then DispatchResult([], Some(UndefinedMessage(name)))
    else
      var r := Handle(ActionTable[name], w);
      DispatchResult(r.effects + (if r.outcome.Raised? then [ActionFail(r.outcome.message)] else []), None)
  }

  /** A service that does not stop makes pause fail the action with
      "<service> didn't stop cleanly." right after that service's call; the
      unit is not marked paused. */
  lemma PauseFailureReported(name: string, w: World, k: nat)
    requires name == "pause"
    requires k < |w.services| && !w.stops(w.services[k])
    requires forall j | 0 <= j < k :: w.stops(w.services[j])
    ensures var calls := ServiceCalls(true, w.services, w.stops);
            && Dispatch(name, w) == DispatchResult(CallEffects(calls[..k + 1]) + [ActionFail(w.services[k] + " didn't stop cleanly.")], None)
            && SetUnitPaused !in Dispatch(name, w).effects
  {
    var calls := ServiceCalls(true, w.services, w.stops);
    ServicesFailFast(true, w.services, w.stops, [SetUnitPaused, AssessStatus(w.services)], k);
    assert ActionTable[name] == PauseHandler;
    assert SetUnitPaused !in CallEffects(calls[..k + 1]);
  }

  /** A ring update that raises makes remove-devices fail the action with the
      exception's message, and the rings are never balanced. */
  lemma RingFailureReported(name: string, w: World)
    requires name == "remove-devices" && w.isLeader && w.ring in ValidRings
    requires !NoneRaise(RingCalls(RemoveOp(w.search), RingsToUpdate(w.ring), w.raises))
    ensures var d := RemoveDevicesReaction(w);
            && d.outcome.Raised?
            && Dispatch(name, w) == DispatchResult(d.effects + [ActionFail(d.outcome.message)], None)
            && BalanceRings !in Dispatch(name, w).effects
  {
    RingActionBalancesOnce(w, RemoveOp(w.search), InvalidRingMessage(w.ring));
  }

  // ---------------------------------------------------------------------------
  // The actions as handlers over the unit's trace

  /** The unit an action runs on, with every observable call made so far. */
  class ActionUnit {
    var trace: seq<Effect>

    constructor ()
      ensures trace == []
    {
      trace := [];
    }

    method Emit(e: Effect)
      modifies this
      ensures trace == old(trace) + [e]
    {
      trace := trace + [e];
    }

    /** Makes the calls in order, stopping at the first that raises; makes the
        `finish` calls when none raised. */
    method Perform(calls: seq<Call>, finish: seq<Effect>) returns (outcome: Outcome)
      modifies this
      ensures trace == old(trace) + Sweep(calls, finish).effects
      ensures outcome == Sweep(calls, finish).outcome
    {
      for i := 0 to |calls|
        invariant trace + Sweep(calls[i..], finish).effects == old(trace) + Sweep(calls, finish).effects
        invariant Sweep(calls[i..], finish).outcome == Sweep(calls, finish).outcome
      {
        trace := trace + [calls[i].effect];
        if calls[i].raised.Some? {
          return Raised(calls[i].raised.value);
        }
        assert calls[i..][1..] == calls[i + 1..];
      }
      assert calls[|calls|..] == [];
      trace := trace + finish;
      outcome := Done;
    }

    /** The checks remove_devices and set_weight share, then one update per
        ring and a single rebalance. */
    method UpdateRings(w: World, op: RingOp, invalidMessage: string) returns (outcome: Outcome)
      modifies this
      ensures trace == old(trace) + RingAction(w, op, invalidMessage).effects
      ensures outcome == RingAction(w, op, invalidMessage).outcome
    {
      if !w.isLeader {
        Emit(ActionFail(LeaderMessage));
        return Done;
      }
      if w.ring !in ValidRings {
        Emit(ActionFail(invalidMessage));
        return Done;
      }
      var rings := RingsToUpdate(w.ring);
      outcome := Perform(RingCalls(op, rings, w.raises), [BalanceRings]);
    }

    method RemoveDevices(w: World) returns (outcome: Outcome)
      modifies this
      ensures trace == old(trace) + RemoveDevicesReaction(w).effects
      ensures outcome == RemoveDevicesReaction(w).outcome
    {
      outcome := UpdateRings(w, RemoveOp(w.search), InvalidRingMessage(w.ring));
    }

    method SetWeight(w: World) returns (outcome: Outcome)
      modifies this
      ensures trace == old(trace) + SetWeightReaction(w).effects
      ensures outcome == SetWeightReaction(w).outcome
    {
      outcome := UpdateRings(w, WeightOp(w.search, PyStr(w.weight)), InvalidRingShort);
    }

    method Pause(w: World) returns (outcome: Outcome)
      modifies this
      ensures trace == old(trace) + PauseReaction(w).effects
      ensures outcome == PauseReaction(w).outcome
    {
      outcome := Perform(ServiceCalls(true, w.services, w.stops), [SetUnitPaused, AssessStatus(w.services)]);
    }

    method Resume(w: World) returns (outcome: Outcome)
      modifies this
      ensures trace == old(trace) + ResumeReaction(w).effects
      ensures outcome == ResumeReaction(w).outcome
    {
      outcome := Perform(ServiceCalls(false, w.managed, w.starts), [ClearUnitPaused, AssessStatus(w.services)]);
    }

    /** The rewrite of one line's fields: fields 4 and 6 assigned in place. */
    method ConvertLine(fields: seq<string>) returns (converted: Converted)
      ensures converted == ConvertFields(fields)
    {
      var line := fields;
      if "space" in line {
        if |line| <= 4 {
          return Failure(IndexErrorMessage);
        }
        var bytes := ParseInt(line[4]);
        if bytes.None? {
          return Failure(ValueErrorMessage(line[4]));
        }
        line := line[4 := IntText(bytes.value / Gibibyte) + "GB"];
        if |line| <= 6 {
          return Failure(IndexErrorMessage);
        }
        bytes := ParseInt(line[6]);
        if bytes.None? {
          return Failure(ValueErrorMessage(line[6]));
        }
        line := line[6 := IntText(bytes.value / Gibibyte) + "GB"];
      }
      converted := Converted(line);
    }

    /** diskusage: the fields of each 'Disk' line, rewritten line by line in place. */
    method Diskusage(recon: CommandResult) returns (outcome: Outcome)
      modifies this
      ensures trace == old(trace) + DiskusageReaction(recon).effects
      ensures outcome == DiskusageReaction(recon).outcome
    {
      if recon.Failed? {
        Emit(ActionSet(Text(recon.output)));
        Emit(ActionFail(ReconFailedMessage));
        return Done;
      }
      var disk := DiskLines(SplitLines(recon.output));
      var reconResult := FieldsOf(disk);
      ghost var original := reconResult;
      for i := 0 to |reconResult|
        invariant trace == old(trace)
        invariant |reconResult| == |original|
        invariant forall j | 0 <= j < i :: ConvertFields(original[j]) == Converted(reconResult[j])
        invariant forall j | i <= j < |original| :: reconResult[j] == original[j]
      {
        var converted := ConvertLine(reconResult[i]);
        if converted.Failure? {
          ConvertAllFails(original, i);
          return Raised(converted.message);
        }
        reconResult := reconResult[i := converted.fields];
      }
      ConvertAllSucceeds(original, reconResult);
      Emit(ActionSet(Lines(JoinLines(reconResult))));
      outcome := Done;
    }

    method Dispersion(cmd: string, result: CommandResult) returns (outcome: Outcome)
      modifies this
      ensures trace == old(trace) + DispersionReaction(cmd, result).effects
      ensures outcome == DispersionReaction(cmd, result).outcome
    {
      Emit(ActionSet(Text(result.output)));
      if result.Failed? {
        Emit(ActionFail("Failed to run " + cmd));
      }
      outcome := Done;
    }

    method RunHandler(h: Handler, w: World) returns (outcome: Outcome)
      modifies this
      ensures trace == old(trace) + Handle(h, w).effects
      ensures outcome == Handle(h, w).outcome
    {
      match h {
        case PauseHandler => outcome := Pause(w);
        case ResumeHandler => outcome := Resume(w);
        case DiskusageHandler => outcome := Diskusage(w.recon);
        case RemoveDevicesHandler => outcome := RemoveDevices(w);
        case SetWeightHandler => outcome := SetWeight(w);
        case DispersionPopulateHandler => outcome := Dispersion("swift-dispersion-populate", w.populate);
        case DispersionReportHandler => outcome := Dispersion("swift-dispersion-report", w.report);
      }
    }

    /** main: looks the action up, runs it, and turns an exception into action_fail. */
    method RunAction(name: string, w: World) returns (returned: Option<string>)
      modifies this
      ensures trace == old(trace) + Dispatch(name, w).effects
      ensures returned == Dispatch(name, w).returned
    {
      if name !in ActionTable {
        return Some(UndefinedMessage(name));
      }
      var outcome := RunHandler(ActionTable[name], w);
      if outcome.Raised? {
        Emit(ActionFail(outcome.message));
      }
      returned := None;
    }
  }
}
