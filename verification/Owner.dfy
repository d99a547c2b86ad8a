/** `_Owner`: the lifecycle owner without staged initialization. Adapters, children,
    the controller and signals answer as an environment value says. */
module Owner {
  import opened Base
  import D = Diagnostics

  // ---- Action results ----

  datatype Action = Start | Readiness | Shutdown
  datatype Mode = Work | Normal | Recovery
  datatype Status = Started | Ready | Stopped

  /** An adapter's answer; `bound` when schema, scope, UUID, nonce and digest match. */
  datatype ActionResult = ActionResult(bound: bool, action: Action, mode: Mode, status: Status, forcedStop: bool)

  function Done(action: Action): Status {
    match action case Start => Started case Readiness => Ready case Shutdown => Stopped
  }

  predicate ValidAction(v: ActionResult, action: Action) {
    && v.bound && v.action == action && v.status == Done(action)
    && (action == Shutdown || !v.forcedStop)
    && (if action == Shutdown then v.mode in {Normal, Recovery} else v.mode == Work)
  }

  // ---- Facts and their independent validator ----

  datatype Facts = Facts(attemptReady: bool, startAttempted: bool, start: Option<ActionResult>, readiness: Option<ActionResult>,
                         shutdownAttempted: bool, shutdown: Option<ActionResult>, transportRegistered: bool,
                         frozen: bool, errors: D.Errors, passed: bool)

  const FRESH: Facts := Facts(false, false, None, None, false, None, false, false, D.CLEAN, false)

  const LIFECYCLE_LIMIT: nat := 5 * 1024
  /** `encode(facts)` without its variable parts: every Boolean `false`, 24 digits of
      `total_seconds`, 32 of nonce and 64 of digest. */
  const SKELETON_BYTES: nat := 593
  /** No accepted action result has a longer encoding than recovery shutdown. */
  const ACTION_BYTES: nat := 320
  const NULL_BYTES: nat := 4

  function ActionBytes(v: Option<ActionResult>): nat { if v.None? then NULL_BYTES else ACTION_BYTES }

  /** An upper bound on the encoded size of accepted facts. */
  function FactsBytes(f: Facts): nat {
    SKELETON_BYTES + ActionBytes(f.start) + ActionBytes(f.readiness) + ActionBytes(f.shutdown)
    + (if f.errors.first.None? then NULL_BYTES else D.EncodedText(f.errors.first.value)) + D.EncodedList(f.errors.cleanup)
  }

  /** The error lists are within their limits and hold no empty text. */
  predicate Sound(e: D.Errors) { D.WithinLimits(e) && "" !in e.cleanup }

  lemma SoundNoFailure(e: D.Errors)
    requires Sound(e) && e.first.None?
    ensures e == D.CLEAN
  {
  }

  /** What a pass means to the validator. */
  predicate Complete(f: Facts, hostPassed: bool) {
    && hostPassed && f.attemptReady && f.startAttempted && f.start.Some? && f.readiness.Some? && f.shutdownAttempted
    && f.shutdown.Some? && f.shutdown.value.mode == Normal && !f.shutdown.value.forcedStop
    && f.transportRegistered && f.errors.sessionsReaped && f.errors.first.None? && f.errors.cleanup == [] && !f.errors.cleanupTruncated
  }

  /** `validate_lifecycle`; `hostPassed` is what the store concluded from the persisted host report. */
  predicate ValidLifecycle(f: Facts, hostPassed: bool) {
    && f.frozen
    && Sound(f.errors) && FactsBytes(f) <= LIFECYCLE_LIMIT
    && (f.start.Some? ==> ValidAction(f.start.value, Start))
    && (f.readiness.Some? ==> ValidAction(f.readiness.value, Readiness))
    && (f.shutdown.Some? ==> ValidAction(f.shutdown.value, Shutdown))
    && (f.startAttempted || (f.start.None? && f.readiness.None? && !f.shutdownAttempted && !f.transportRegistered))
    && (f.startAttempted ==> f.attemptReady)
    && (f.start.Some? || f.readiness.None?)
    && (f.transportRegistered ==> f.readiness.Some?)
    && (f.shutdownAttempted || f.shutdown.None?)
    && f.shutdownAttempted == f.startAttempted
    && (hostPassed ==> f.transportRegistered && f.start.Some? && f.readiness.Some?)
    && (f.shutdown.Some? && f.shutdown.value.mode == Normal ==> hostPassed)
    && f.passed == Complete(f, hostPassed)
    && (f.passed || f.errors.first.Some? || f.errors.cleanup != [])
  }

  lemma FactsFit(f: Facts)
    requires D.WithinLimits(f.errors)
    ensures FactsBytes(f) <= LIFECYCLE_LIMIT
  {
  }

  /** The facts as `run` freezes them, `passed` being its own judgement. */
  ghost predicate Frozen(f: Facts, ownPassed: bool, persistedPassed: bool) {
    && f.frozen && Sound(f.errors)
    && (f.start.Some? ==> f.startAttempted && ValidAction(f.start.value, Start))
    && (f.readiness.Some? ==> f.start.Some? && ValidAction(f.readiness.value, Readiness))
    && (f.shutdown.Some? ==> f.startAttempted && ValidAction(f.shutdown.value, Shutdown))
    && (f.startAttempted ==> f.attemptReady) && f.shutdownAttempted == f.startAttempted
    && (f.transportRegistered || persistedPassed ==> f.readiness.Some?)
    && (ownPassed ==> persistedPassed)
    && (f.shutdown.Some? && f.shutdown.value.mode == Normal ==> ownPassed)
    && (f.startAttempted && f.errors.first.None? ==> f.shutdown.Some? && !f.shutdown.value.forcedStop)
    && (f.startAttempted && f.errors.first.None? && ownPassed ==> f.shutdown.value.mode == Normal)
    && (ownPassed || f.errors.first.Some?)
    && f.passed == (ownPassed && f.errors.first.None? && f.errors.cleanup == [] && f.errors.sessionsReaped)
  }

  lemma Concluded(f: Facts, ownPassed: bool, persistedPassed: bool)
    requires Frozen(f, ownPassed, persistedPassed)
    ensures ValidLifecycle(f, persistedPassed) <==> (persistedPassed ==> f.transportRegistered)
    ensures f.passed ==> persistedPassed && f.shutdown.Some? && f.shutdown.value.mode == Normal
  {
  }

  // ---- Environment ----

  datatype Controller = Quiet | Byte | Eof

  /** What one checkpoint sees: the controller pipe, a pending signal, the absolute deadline. */
  datatype Look = Look(controller: Controller, signal: Option<string>, late: bool)

  /** What every reporting site passes on: a label followed by a text. */
  type Report = s: string | s != "" witness "?"

  datatype Reply = Answer(result: ActionResult) | Broken(why: string)

  /** One adapter call: a failure before its guarded part (no window, no pipe), one in it and before
      the fork, the checkpoints while waiting, the child's answer, and what reaping it reports. */
  datatype ActionEnv = ActionEnv(early: Option<string>, before: Option<string>, looks: seq<Look>, reply: Reply, settle: seq<Report>)

  datatype EvidenceEnv = EvidenceEnv(before: Option<string>, forked: bool, looks: seq<Look>, refused: Option<string>)

  /** One round of the `host` loop. */
  datatype HostEvent =
    | Poll(look: Look, activeOver: bool, badExit: Option<Report>)
    | Registration(look: Look, broken: Option<string>, running: bool)

  /** The watchdog's report as `validate_host_report` reads it. */
  datatype HostReport = HostReport(valid: bool, passed: bool, failure: Option<Report>)

  type Refusal = code: int | code != 0 witness 2

  /** The attached watchdog: whether its report arrives whole, how its watch ended, the exit code of
      its transport child once admitted, and the exit of a child whose permit never came. */
  datatype Watchdog = Watchdog(whole: bool, complete: bool, exit: Option<int>, refused: Option<Refusal>, cleanup: seq<Report>,
                               interrupted: bool, failure: Option<Report>)

  /** Whose bytes the owner reads: the attached watchdog's, or anyone's. */
  datatype Sender = Attached(watchdog: Watchdog) | Anyone(report: HostReport)

  /** The transport child runs only behind its permit. */
  function TransportExit(w: Watchdog, permitted: bool): Option<int> { if permitted then w.exit else w.refused }

  function Sent(sender: Sender, permitted: bool): HostReport {
    match sender
    case Anyone(report) => report
    case Attached(w) =>
      HostReport(w.whole, w.complete && TransportExit(w, permitted) == Some(0) && w.cleanup == [] && !w.interrupted, w.failure)
  }

  datatype HostEnv = HostEnv(before: Option<string>, events: seq<HostEvent>, broken: Option<string>,
                             sender: Sender, exit: Option<int>, settle: seq<Report>)

  datatype CommitEnv = CommitEnv(broken: Option<string>, settle: seq<Report>, exit: Option<int>, receiptMatches: bool, aborted: seq<Report>)

  datatype RunEnv = RunEnv(first: Look, evidence: EvidenceEnv, second: Look, start: ActionEnv, third: Look,
                           noReadyWindow: Option<string>, readiness: ActionEnv, fourth: Look, host: HostEnv,
                           noShutdownWindow: bool, shutdown: ActionEnv, last: Look, commit: CommitEnv)

  /** What the owner does to the outside, in order. */
  datatype Call = ForkEvidence | CallStart | CallReadiness | RunHost | CallShutdown(mode: Mode) | Commit(facts: Facts)

  const WORK: seq<Call> := [ForkEvidence, CallStart, CallReadiness, RunHost]

  class LifecycleOwner {
    var facts: Facts
    var frozen: bool
    var hostReport: HostReport
    var hostExit: Option<int>
    var hostPassed: bool
    /** The permit was written to the transport's admission pipe. */
    var permitted: bool
    var deliveryErrors: seq<string>
    var calls: seq<Call>
    /** A call of the work was made although a failure was on record. */
    ghost var troubled: bool

    /** What every step keeps until the freeze. */
    ghost predicate Open()
      reads this
    {
      && !frozen && !facts.frozen && !facts.passed && Sound(facts.errors) && deliveryErrors == []
    }

    /** What the store will conclude from the bytes and the exit code it is handed. */
    predicate PersistedPassed()
      reads this
    {
      hostReport.valid && hostReport.passed && hostExit == Some(0)
    }

    /** Errors may be added; nothing else of the facts changes. */
    twostate predicate OnlyErrors()
      reads this
    {
      && facts == old(facts).(errors := facts.errors)
      && (old(facts.errors.first).Some? ==> facts.errors.first == old(facts.errors.first))
    }

    constructor ()
      ensures facts == FRESH && Open() && !hostPassed && !permitted && !PersistedPassed() && deliveryErrors == []
          && calls == [] && !troubled
    {
      facts, frozen, hostPassed, permitted, deliveryErrors, calls, troubled := FRESH, false, false, false, [], [], false;
      hostReport, hostExit := HostReport(false, false, None), None;
    }

    method Fail(reason: string)
      requires Open()
      modifies `facts
      ensures Open() && OnlyErrors()
      ensures facts.errors == D.Failed(old(facts.errors), reason) && facts.errors.first.Some?
      ensures old(facts.errors.first).Some? ==> facts == old(facts)
    {
      D.FailedWithin(facts.errors, reason);
      if facts.errors.first.None? {
        var text, truncated := D.BoundedText(reason, D.FIRST_ERROR_BYTES);
        facts := facts.(errors := facts.errors.(first := Some(if text == "" then D.FALLBACK else text),
                                                firstTruncated := truncated || D.EndsTruncated(text)));
      }
    }

    method CleanupError(reason: Report)
      requires frozen || Open()
      modifies `facts, `deliveryErrors
      ensures frozen ==> facts == old(facts) && deliveryErrors != []
      ensures !frozen ==> Open() && OnlyErrors() && facts.errors == D.CleanupFailed(old(facts.errors), reason)
      ensures !frozen ==> deliveryErrors == old(deliveryErrors)
    {
      if frozen {
        if D.EncodedList(deliveryErrors) < D.ENTRY_BYTES {
          var text, _ := D.BoundedText(reason, D.ENTRY_BYTES);
          deliveryErrors := deliveryErrors + [text];
        }
        return;
      }
      D.CleanupWithin(facts.errors, reason);
      Fail(reason);
      var e := facts.errors;
      var text, truncated := D.BoundedText(reason, D.ENTRY_BYTES);
      if |e.cleanup| < 16 && D.EncodedList(e.cleanup + [text]) <= D.CLEANUP_BYTES {
        e := e.(cleanup := e.cleanup + [text]);
      } else {
        truncated := true;
      }
      facts := facts.(errors := e.(sessionsReaped := false,
                                   cleanupTruncated := e.cleanupTruncated || truncated || D.EndsTruncated(text)));
    }

    method Settle(reports: seq<Report>)
      requires frozen || Open()
      modifies `facts, `deliveryErrors
      ensures frozen ==> facts == old(facts) && (deliveryErrors == [] <==> old(deliveryErrors) == [] && reports == [])
      ensures !frozen ==> Open() && OnlyErrors() && (reports == [] ==> facts == old(facts))
    {
      hide Sound;
      hide D.Failed;
      hide D.CleanupFailed;
      for i := 0 to |reports|
        invariant frozen ==> facts == old(facts) && (deliveryErrors == [] <==> old(deliveryErrors) == [] && i == 0)
        invariant !frozen ==> Open() && OnlyErrors() && (i == 0 ==> facts == old(facts))
      {
        CleanupError(reports[i]);
      }
    }

    method Checkpoint(look: Look, abort: bool) returns (r: Result<()>)
      requires frozen || Open()
      modifies `facts
      ensures frozen ==> facts == old(facts)
      ensures !frozen ==> Open() && OnlyErrors()
      ensures !frozen ==> (facts.errors.first.None? <==> old(facts.errors.first).None? && look.controller == Quiet && look.signal.None?)
      ensures facts.errors.first == old(facts.errors.first) ==> facts == old(facts)
      ensures r.Ok? <==> !look.late && (abort ==> facts.errors.first.None?)
    {
      hide Sound;
      hide D.Failed;
      hide D.CleanupFailed;
      if !frozen {
        if look.controller == Byte { Fail("controller cancelled"); }
        if look.controller == Eof { Fail("controller liveness EOF"); }
        if look.signal.Some? { Fail("lifecycle owner cancelled by signal " + look.signal.value); }
      }
      if look.late { return Raised("lifecycle absolute deadline"); }
      if abort && facts.errors.first.Some? { return Raised(facts.errors.first.value); }
      return Ok(());
    }

    /** A call that meets nothing untoward. */
    static predicate Smooth(env: ActionEnv, action: Action, mode: Mode) {
      && env.early.None? && env.before.None? && env.settle == [] && AllCalm(env.looks)
      && env.reply.Answer? && ValidAction(env.reply.result, action) && env.reply.result.mode == mode
    }

    static predicate Calm(look: Look) { look.controller == Quiet && look.signal.None? && !look.late }

    static predicate AllQuiet(looks: seq<Look>) { forall i | 0 <= i < |looks| :: looks[i].controller == Quiet && looks[i].signal.None? }

    /** No checkpoint of the wait raises: none is late, and with `abort` nothing has failed before or meanwhile. */
    static predicate Passes(looks: seq<Look>, abort: bool, first: Option<string>) {
      (forall i | 0 <= i < |looks| :: !looks[i].late) && (abort && looks != [] ==> first.None? && AllQuiet(looks))
    }

    static lemma PassesMore(looks: seq<Look>, i: nat, abort: bool, first: Option<string>)
      requires i < |looks| && Passes(looks[..i], abort, first)
      ensures Passes(looks[..i + 1], abort, first) <==> !looks[i].late && (abort ==> first.None? && AllQuiet(looks[..i + 1]))
      ensures AllQuiet(looks[..i + 1]) <==> AllQuiet(looks[..i]) && looks[i].controller == Quiet && looks[i].signal.None?
      ensures Passes(looks, abort, first) ==> Passes(looks[..i + 1], abort, first)
    {
      assert looks[..i + 1] == looks[..i] + [looks[i]];
      assert forall j | 0 <= j < |looks[..i + 1]| :: looks[..i + 1][j] == looks[j];
    }

    static predicate AllCalm(looks: seq<Look>) { forall i | 0 <= i < |looks| :: Calm(looks[i]) }

    /** The checkpoints of a wait, up to the first that raises. */
    method Wait(looks: seq<Look>, abort: bool) returns (r: Result<()>)
      requires Open()
      modifies `facts
      ensures Open() && OnlyErrors()
      ensures AllCalm(looks) && old(facts.errors.first).None? ==> r.Ok? && facts == old(facts)
      ensures r.Ok? <==> Passes(looks, abort, old(facts.errors.first))
      ensures r.Ok? ==> (facts.errors.first.None? <==> old(facts.errors.first).None? && AllQuiet(looks))
    {
      for i := 0 to |looks|
        invariant Open() && OnlyErrors()
        invariant (forall j | 0 <= j < i :: Calm(looks[j])) && old(facts.errors.first).None? ==> facts == old(facts)
        invariant Passes(looks[..i], abort, old(facts.errors.first))
        invariant facts.errors.first.None? <==> old(facts.errors.first).None? && AllQuiet(looks[..i])
      {
        r := Checkpoint(looks[i], abort);
        PassesMore(looks, i, abort, old(facts.errors.first));
        if r.Raised? { return; }
      }
      assert looks[..|looks|] == looks;
      r := Ok(());
    }

    static function Label(action: Action): string {
      match action case Start => "start: " case Readiness => "readiness: " case Shutdown => "shutdown: "
    }

    /** What the answer of the child comes to once the wait is over. */
    static function Judge(reply: Reply, action: Action, mode: Mode): (r: Result<ActionResult>) {
      match reply
      case Broken(why) => Raised(why)
      case Answer(result) =>
        if ValidAction(result, action) && result.mode == mode then Ok(result) else Raised("lifecycle action binding/status")
    }

    /** The guarded part of a call up to its answer; whatever ends it is recorded. */
    method Await(action: Action, mode: Mode, env: ActionEnv) returns (r: Result<ActionResult>)
      requires Open()
      modifies `facts
      ensures Open() && OnlyErrors()
      ensures r.Ok? ==> Judge(env.reply, action, mode) == r
      ensures r.Ok? <==> env.before.None? && Passes(env.looks, action != Shutdown, old(facts.errors.first))
                         && Judge(env.reply, action, mode).Ok?
      ensures r.Raised? ==> facts.errors.first.Some?
      ensures Smooth(env, action, mode) && old(facts.errors.first).None? ==> r == Ok(env.reply.result) && facts == old(facts)
    {
      hide Sound, D.Failed, Open, Label, ValidAction, Passes;
      if env.before.Some? {
        r := Raised(env.before.value);
      } else {
        var waited := Wait(env.looks, action != Shutdown);
        r := if waited.Raised? then Raised(waited.message) else Judge(env.reply, action, mode);
      }
      if r.Raised? { Fail(Label(action) + r.message); }
    }

    method Call(action: Action, mode: Mode, env: ActionEnv) returns (r: Result<ActionResult>)
      requires Open()
      modifies `facts, `deliveryErrors
      ensures Open() && OnlyErrors()
      ensures r.Ok? ==> Judge(env.reply, action, mode) == r
      ensures r.Ok? <==> env.early.None? && env.before.None? && Passes(env.looks, action != Shutdown, old(facts.errors.first))
                         && Judge(env.reply, action, mode).Ok?
      ensures r.Raised? ==> if env.early.Some? then facts == old(facts) else facts.errors.first.Some?
      ensures Smooth(env, action, mode) && old(facts.errors.first).None? ==> r == Ok(env.reply.result) && facts == old(facts)
    {
      hide Sound, Judge, Passes;
      if env.early.Some? { return Raised(env.early.value); }
      r := Await(action, mode, env);
      if env.before.None? { Settle(env.settle); }
    }

    method EvidenceStart(env: EvidenceEnv) returns (r: Result<()>)
      requires Open() && !facts.attemptReady
      modifies `facts, `calls, `troubled
      ensures Open() && calls == old(calls) + [ForkEvidence]
      ensures OnlyErrors() || facts == old(facts).(attemptReady := true, errors := facts.errors)
      ensures r.Ok? <==> facts.attemptReady
      ensures r.Ok? <==> env.before.None? && Passes(env.looks, true, old(facts.errors.first)) && env.refused.None?
      ensures troubled == (old(troubled) || old(facts.errors.first).Some?)
      ensures old(facts.errors.first).Some? ==> facts.errors.first == old(facts.errors.first)
      ensures env.before.None? && env.refused.None? && AllCalm(env.looks) && old(facts.errors.first).None?
              ==> facts == old(facts).(attemptReady := true)
    {
      hide Sound;
      hide D.Failed;
      hide D.CleanupFailed;
      calls, troubled := calls + [ForkEvidence], troubled || facts.errors.first.Some?;
      if env.before.Some? { return Raised(env.before.value); }
      var waited := Wait(env.looks, true);
      if waited.Raised? { return Raised(waited.message); }
      if env.refused.Some? { return Raised("evidence initialization: " + env.refused.value); }
      facts := facts.(attemptReady := true);
      return Ok(());
    }

    /** One round of the `host` loop: a poll, or the transport's registration frame. */
    method Round(event: HostEvent) returns (r: Result<()>)
      requires Open()
      modifies `facts, `permitted
      ensures Open() && facts == old(facts).(errors := facts.errors,
          transportRegistered := old(facts.transportRegistered) || event.Registration?)
      ensures old(facts.errors.first).Some? ==> facts.errors.first == old(facts.errors.first)
      ensures Uneventful(event) && old(facts.errors.first).None? ==> r.Ok? && facts.errors == old(facts.errors)
      ensures r.Ok? <==> !event.look.late && (event.Registration? ==> event.broken.None?)
      ensures r.Ok? ==> (facts.errors.first.None? <==> old(facts.errors.first).None? && Untroubled(event))
      ensures permitted <==> old(permitted) || (event.Registration? && r.Ok? && event.running && facts.errors.first.None?)
    {
      hide Sound;
      hide D.Failed;
      match event {
        case Poll(look, activeOver, badExit) =>
          r := Checkpoint(look, false);
          if r.Raised? { return; }
          if activeOver { Fail("lifecycle active deadline"); }
          if badExit.Some? { Fail("watchdog exit/signal: " + badExit.value); }
        case Registration(look, broken, running) =>
          facts := facts.(transportRegistered := true);
          if broken.Some? { return Raised(broken.value); }
          r := Checkpoint(look, false);
          if r.Ok? && running && facts.errors.first.None? { permitted := true; }
      }
    }

    /** `host` between opening its pipes and the report. */
    method Watch(events: seq<HostEvent>) returns (r: Result<()>)
      requires Open() && (permitted ==> facts.transportRegistered)
      modifies `facts, `permitted
      ensures Open() && facts == old(facts).(errors := facts.errors, transportRegistered := facts.transportRegistered)
      ensures old(facts.errors.first).Some? ==> facts.errors.first == old(facts.errors.first)
      ensures AllUneventful(events) && old(facts.errors.first).None? ==> r.Ok? && facts.errors == old(facts.errors)
      ensures r.Ok? ==> forall i | 0 <= i < |events| :: events[i].Registration? ==> facts.transportRegistered
      ensures permitted ==> facts.transportRegistered
      ensures AllUneventful(events) && old(facts.errors.first).None?
          ==> forall i | 0 <= i < |events| :: events[i].Registration? ==> permitted
    {
      hide Sound;
      for i := 0 to |events|
        invariant Open() && facts == old(facts).(errors := facts.errors, transportRegistered := facts.transportRegistered)
        invariant old(facts.errors.first).Some? ==> facts.errors.first == old(facts.errors.first)
        invariant AllUneventful(events) && old(facts.errors.first).None? ==> facts.errors == old(facts.errors)
        invariant forall j | 0 <= j < i :: events[j].Registration? ==> facts.transportRegistered
        invariant permitted ==> facts.transportRegistered
        invariant AllUneventful(events) && old(facts.errors.first).None? ==> forall j | 0 <= j < i :: events[j].Registration? ==> permitted
      {
        r := Round(events[i]);
        if r.Raised? { return; }
      }
      r := Ok(());
    }

    static predicate Uneventful(event: HostEvent) {
      match event
      case Poll(look, activeOver, badExit) => Calm(look) && !activeOver && badExit.None?
      case Registration(look, broken, running) => Calm(look) && broken.None? && running
    }

    /** A round that gives no reason to fail. */
    static predicate Untroubled(event: HostEvent) {
      && event.look.controller == Quiet && event.look.signal.None?
      && (event.Poll? ==> !event.activeOver && event.badExit.None?)
    }

    static predicate AllUneventful(events: seq<HostEvent>) {
      forall i | 0 <= i < |events| :: Uneventful(events[i])
    }

    static predicate SmoothHost(env: HostEnv) {
      && env.before.None? && AllUneventful(env.events) && (exists i | 0 <= i < |env.events| :: env.events[i].Registration?)
      && env.broken.None? && Sent(env.sender, true).valid && Sent(env.sender, true).passed && env.exit == Some(0) && env.settle == []
    }

    /** The report is read once; only then does the owner know a verdict. */
    method Conclude() returns (r: Result<()>)
      requires Open() && !hostPassed
      modifies `facts, `hostPassed
      ensures Open() && OnlyErrors()
      ensures hostPassed == PersistedPassed() && (hostPassed ==> r.Ok? && facts == old(facts))
    {
      hide Sound;
      hide D.Failed;
      if !hostReport.valid { return Raised("host report binding"); }
      if hostExit != Some(if hostReport.passed then 0 else 2) { return Raised("watchdog report/exit mismatch"); }
      hostPassed := hostReport.passed;
      if !hostPassed { Fail(if hostReport.failure.Some? then hostReport.failure.value else "host preparation failed"); }
      r := Ok(());
    }

    /** The loop over host events, the report, and the verdict. */
    method Attend(env: HostEnv) returns (r: Result<()>)
      requires Open() && !hostPassed && !PersistedPassed() && !facts.transportRegistered && !permitted
      modifies `facts, `hostReport, `hostExit, `hostPassed, `permitted
      ensures Open() && facts == old(facts).(errors := facts.errors, transportRegistered := facts.transportRegistered)
      ensures old(facts.errors.first).Some? ==> facts.errors.first == old(facts.errors.first)
      ensures hostPassed ==> PersistedPassed()
      ensures env.sender.Attached? && PersistedPassed() ==> facts.transportRegistered
      ensures SmoothHost(env) && old(facts.errors.first).None? ==> r.Ok? && hostPassed && facts == old(facts).(transportRegistered := true)
    {
      hide Sound, D.Failed, AllUneventful;
      r := Watch(env.events);
      if r.Ok? && env.broken.Some? { r := Raised(env.broken.value); }
      hostReport, hostExit := Sent(env.sender, permitted), env.exit;
      if r.Ok? { r := Conclude(); }
    }

    method Host(env: HostEnv) returns (r: Result<()>)
      requires Open() && !hostPassed && !PersistedPassed() && !facts.transportRegistered && !permitted
      modifies `facts, `deliveryErrors, `hostReport, `hostExit, `hostPassed, `permitted, `calls, `troubled
      ensures Open() && facts == old(facts).(errors := facts.errors, transportRegistered := facts.transportRegistered)
      ensures old(facts.errors.first).Some? ==> facts.errors.first == old(facts.errors.first)
      ensures calls == old(calls) + [RunHost] && troubled == (old(troubled) || old(facts.errors.first).Some?)
      ensures hostPassed ==> PersistedPassed()
      ensures env.sender.Attached? && PersistedPassed() ==> facts.transportRegistered
      ensures SmoothHost(env) && old(facts.errors.first).None? ==> r.Ok? && hostPassed && facts == old(facts).(transportRegistered := true)
    {
      hide Sound;
      hide D.Failed;
      hide AllUneventful;
      calls, troubled := calls + [RunHost], troubled || facts.errors.first.Some?;
      if env.before.Some? { return Raised(env.before.value); }
      r := Attend(env);
      if r.Raised? { Fail("host: " + r.message); }
      Settle(env.settle);
    }

    /** How far the work got: `k` calls were made, and the facts say so. */
    ghost predicate Stage(k: nat)
      reads this
    {
      && k <= 4 && calls == WORK[..k]
      && (facts.attemptReady ==> k >= 1)
      && facts.startAttempted == (k >= 2) && (facts.startAttempted ==> facts.attemptReady)
      && (facts.start.Some? ==> k >= 2 && ValidAction(facts.start.value, Start))
      && (k >= 3 ==> facts.start.Some?)
      && (facts.readiness.Some? ==> k >= 3 && ValidAction(facts.readiness.value, Readiness))
      && (k == 4 ==> facts.readiness.Some?)
      && (facts.transportRegistered || PersistedPassed() ==> k == 4)
      && facts.shutdown.None? && !facts.shutdownAttempted
    }

    /** An environment in which nothing goes wrong. */
    static predicate SmoothRun(env: RunEnv) {
      && Calm(env.first) && Calm(env.second) && Calm(env.third) && Calm(env.fourth) && Calm(env.last)
      && env.evidence.before.None? && env.evidence.refused.None?
          && AllCalm(env.evidence.looks)
      && Smooth(env.start, Start, Work) && env.noReadyWindow.None? && Smooth(env.readiness, Readiness, Work)
      && SmoothHost(env.host) && !env.noShutdownWindow
      && Smooth(env.shutdown, Shutdown, Normal) && !env.shutdown.reply.result.forcedStop
    }

    /** The evidence attempt, before anything can be started. */
    method Begin(env: RunEnv) returns (r: Result<()>)
      requires Open() && facts == FRESH && !PersistedPassed() && calls == []
      modifies `facts, `calls, `troubled
      ensures Open() && (exists k :: k <= 1 && Stage(k)) && (r.Ok? ==> Stage(1) && facts.attemptReady && facts.errors.first.None?)
      ensures facts == FRESH.(attemptReady := facts.attemptReady, errors := facts.errors)
      ensures troubled == old(troubled)
      ensures SmoothRun(env) ==> r.Ok? && facts.errors == D.CLEAN
    {
      hide Sound;
      hide D.Failed;
      r := Checkpoint(env.first, true);
      assert Stage(0);
      if r.Raised? { return; }
      r := EvidenceStart(env.evidence);
      assert Stage(1);
      if r.Raised? { return; }
      r := Checkpoint(env.second, true);
      assert Stage(1);
    }

    /** One adapter call of the work and the checkpoint behind it. */
    method Perform(action: Action, env: ActionEnv, after: Look) returns (r: Result<()>)
      requires Open() && action != Shutdown
      modifies `facts, `deliveryErrors
      ensures Open()
      ensures facts == old(facts).(errors := facts.errors, start := facts.start, readiness := facts.readiness)
      ensures facts.start == old(facts.start) || (action == Start && facts.start.Some? && ValidAction(facts.start.value, Start))
      ensures facts.readiness == old(facts.readiness)
          || (action == Readiness && facts.readiness.Some? && ValidAction(facts.readiness.value, Readiness))
      ensures r.Ok? ==> facts.errors.first.None? && if action == Start then facts.start.Some? else facts.readiness.Some?
      ensures Smooth(env, action, Work) && Calm(after) && old(facts.errors.first).None? ==> r.Ok? && facts.errors == old(facts.errors)
    {
      hide Sound;
      var v := Call(action, Work, env);
      if v.Raised? { return Raised(v.message); }
      facts := if action == Start then facts.(start := Some(v.value)) else facts.(readiness := Some(v.value));
      r := Checkpoint(after, true);
    }

    /** `run` up to the end of the start call. */
    method Launch(env: RunEnv) returns (r: Result<()>, ghost reached: nat)
      requires Open() && facts == FRESH && !hostPassed && !permitted && !PersistedPassed() && calls == []
      modifies `facts, `deliveryErrors, `calls, `troubled
      ensures Open() && Stage(reached) && reached <= 2 && troubled == old(troubled) && !facts.transportRegistered
      ensures r.Ok? ==> reached == 2 && facts.start.Some? && facts.readiness.None? && facts.errors.first.None?
      ensures SmoothRun(env) ==> r.Ok? && facts.errors == D.CLEAN
    {
      hide Sound, D.Failed, Smooth, SmoothHost, Calm;
      r := Begin(env);
      reached :| reached <= 1 && Stage(reached);
      if r.Raised? { return; }
      reached := 2;
      facts := facts.(startAttempted := true);
      calls, troubled := calls + [CallStart], troubled || facts.errors.first.Some?;
      r := Perform(Start, env.start, env.third);
      if r.Ok? && env.noReadyWindow.Some? { r := Raised(env.noReadyWindow.value); }
    }

    /** The rest of `run` before its `finally`: where it stops, and what it leaves. */
    method Attempt(env: RunEnv) returns (r: Result<()>, ghost reached: nat)
      requires Open() && facts == FRESH && !hostPassed && !permitted && !PersistedPassed() && calls == []
      modifies this
      ensures Open() && Stage(reached) && troubled == old(troubled)
      ensures hostPassed ==> PersistedPassed()
      ensures env.host.sender.Attached? && PersistedPassed() ==> facts.transportRegistered
      ensures SmoothRun(env) ==> r.Ok? && hostPassed && facts.errors == D.CLEAN && facts.transportRegistered
    {
      hide Sound, D.Failed, Smooth, SmoothHost, Calm;
      r, reached := Launch(env);
      if r.Raised? { return; }
      reached := 3;
      calls, troubled := calls + [CallReadiness], troubled || facts.errors.first.Some?;
      r := Perform(Readiness, env.readiness, env.fourth);
      if r.Raised? { return; }
      reached := 4;
      r := Host(env.host);
    }

    static lemma JudgedValid(reply: Reply, action: Action, mode: Mode)
      ensures var r := Judge(reply, action, mode);
              r.Ok? ==> ValidAction(r.value, action) && r.value.mode == mode
    {
    }

    /** The shutdown call and what its failure or a forced stop records. */
    method Shut(mode: Mode, env: ActionEnv)
      requires Open() && facts.shutdown.None?
      modifies `facts, `deliveryErrors
      ensures Open() && facts == old(facts).(errors := facts.errors, shutdown := facts.shutdown)
      ensures facts.shutdown.Some? ==> ValidAction(facts.shutdown.value, Shutdown) && facts.shutdown.value.mode == mode
      ensures facts.errors.first.None? ==> facts.shutdown.Some? && !facts.shutdown.value.forcedStop
      ensures old(facts.errors.first).Some? ==> facts.errors.first.Some?
      ensures Smooth(env, Shutdown, mode) && !env.reply.result.forcedStop && old(facts.errors.first).None?
          ==> facts.errors == old(facts.errors)
    {
      hide D.Failed, D.CleanupFailed, Sound, Smooth, Judge, ValidAction;
      var stop := Call(Shutdown, mode, env);
      if stop.Ok? {
        JudgedValid(env.reply, Shutdown, mode);
        facts := facts.(shutdown := Some(stop.value));
        if stop.value.forcedStop { Fail("forced shutdown cannot pass"); }
      } else {
        Fail("shutdown: " + stop.message);
        CleanupError("shutdown: " + stop.message);
      }
    }

    /** The `finally` part up to the freeze: stop once if anything was started. */
    method Stop(env: RunEnv)
      requires Open() && !facts.shutdownAttempted && facts.shutdown.None?
      requires hostPassed ==> PersistedPassed()
      modifies `facts, `deliveryErrors, `calls
      ensures Open() && facts == old(facts).(errors := facts.errors, shutdownAttempted := old(facts.startAttempted),
          shutdown := facts.shutdown)
      ensures facts.startAttempted ==> exists m :: calls == old(calls) + [CallShutdown(m)] && m in {Normal, Recovery}
      ensures !facts.startAttempted ==> calls == old(calls) && facts.shutdown.None?
      ensures facts.shutdown.Some? ==> ValidAction(facts.shutdown.value, Shutdown)
      ensures facts.shutdown.Some? ==> calls == old(calls) + [CallShutdown(facts.shutdown.value.mode)]
      ensures facts.shutdown.Some? && facts.shutdown.value.mode == Normal ==> hostPassed
      ensures facts.startAttempted && facts.errors.first.None? ==> facts.shutdown.Some? && !facts.shutdown.value.forcedStop
      ensures facts.startAttempted && facts.errors.first.None? && hostPassed ==> facts.shutdown.value.mode == Normal
      ensures old(facts.errors.first).Some? ==> facts.errors.first.Some?
      ensures SmoothRun(env) && old(facts.errors) == D.CLEAN && hostPassed ==> facts.errors == D.CLEAN
    {
      hide D.Failed;
      hide D.CleanupFailed;
      hide SmoothHost;
      hide Calm;
      hide Sound;
      if env.noShutdownWindow { Fail("shutdown has no reserved work window"); }
      if facts.startAttempted {
        facts := facts.(shutdownAttempted := true);
        if facts.errors.first.None? { SoundNoFailure(facts.errors); }
        var mode := if hostPassed && facts.errors.first.None? && facts.errors.cleanup == [] then Normal else Recovery;
        calls := calls + [CallShutdown(mode)];
        Shut(mode, env.shutdown);
      }
    }

    /** The cancellation cut: the last look, then the verdict, then no more changes. */
    method Freeze(last: Look)
      requires Open()
      requires hostPassed ==> PersistedPassed()
      modifies `facts, `frozen
      ensures frozen && Sound(facts.errors) && deliveryErrors == []
      ensures facts == old(facts).(frozen := true, errors := facts.errors,
        passed := hostPassed && facts.errors.first.None? && facts.errors.cleanup == [] && facts.errors.sessionsReaped)
      ensures hostPassed || facts.errors.first.Some?
      ensures old(facts.errors.first).Some? ==> facts.errors.first.Some?
      ensures hostPassed && Calm(last) && old(facts.errors) == D.CLEAN ==> facts.errors == D.CLEAN
    {
      hide Sound;
      hide D.Failed;
      var r := Checkpoint(last, false);
      if r.Raised? { Fail(r.message); }
      if !hostPassed && facts.errors.first.None? { Fail("host result not accepted"); }
      frozen := true;
      facts := facts.(frozen := true, passed := hostPassed && facts.errors.first.None? && facts.errors.cleanup == []
          && facts.errors.sessionsReaped);
    }

    /** A commit that meets nothing untoward. */
    static predicate SmoothCommit(env: CommitEnv) {
      env.broken.None? && env.settle == [] && env.exit == Some(0) && env.receiptMatches
    }

    /** Persist the frozen facts, reap the evidence worker and report. */
    method Deliver(env: CommitEnv) returns (passed: bool)
      requires frozen && facts.frozen
      modifies `deliveryErrors, `calls, `facts
      ensures facts == old(facts) && calls == old(calls) + [Commit(facts)]
      ensures passed <==> facts.passed && SmoothCommit(env) && old(deliveryErrors) == []
    {
      calls := calls + [Commit(facts)];
      passed := false;
      if env.broken.None? {
        Settle(env.settle);
        passed := env.exit == Some(0) && deliveryErrors == [] && env.receiptMatches && facts.passed;
      } else {
        Settle(env.aborted);
      }
    }

    /** The first `k` calls of the work, one shutdown exactly if a start was attempted,
        and one commit, of the facts as they still are, exactly if there is an attempt to commit to. */
    ghost predicate CallOrder(k: nat, m: Mode)
      reads this
    {
      && k <= 4 && facts.startAttempted == (k >= 2)
      && var stop := if facts.startAttempted then [CallShutdown(m)] else [];
         calls == WORK[..k] + stop + (if facts.attemptReady then [Commit(facts)] else [])
    }

    /** The whole owner. The persisted facts are accepted by the independent validator, with the single
        exception it has no answer to: a passing host report whose transport was never registered.
        The attached watchdog never sends one, because its transport waits for the permit. */
    method Run(env: RunEnv) returns (passed: bool)
      requires Open() && facts == FRESH && !hostPassed && !permitted && !PersistedPassed() && calls == []
      modifies this
      ensures troubled == old(troubled)
      ensures frozen && facts.frozen
      ensures ValidLifecycle(facts, PersistedPassed()) <==> (PersistedPassed() ==> facts.transportRegistered)
      ensures env.host.sender.Attached? ==> ValidLifecycle(facts, PersistedPassed())
      ensures exists k: nat, m :: CallOrder(k, m)
      ensures passed <==> facts.passed && SmoothCommit(env.commit)
      ensures facts.passed ==> PersistedPassed() && facts.shutdown.Some? && facts.shutdown.value.mode == Normal
      ensures SmoothRun(env) ==> facts.passed && (SmoothCommit(env.commit) ==> passed)
    {
      hide Sound, D.Failed, Smooth, SmoothHost, Calm, ValidLifecycle, SmoothCommit;
      var r, reached := Attempt(env);
      if r.Raised? { Fail("ValueError: " + r.message); }
      Stop(env);
      ghost var m := if facts.startAttempted then calls[|calls| - 1].mode else Normal;
      Freeze(env.last);
      Concluded(facts, hostPassed, PersistedPassed());
      passed := false;
      if facts.attemptReady { passed := Deliver(env.commit); }
      assert CallOrder(reached, m);
    }
  }
}
