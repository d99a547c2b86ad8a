/** The retirement handshake between the invocation parent P (`run_native_guest`) and
    its owner child N (`_owner`), which forks, and alone may wait for, the task
    supervisor S. P signals S by PID; a PID that was waited for can be reused. */
module PidTicket {
  import opened Base

  /** Registration requests about S; `clean` when its report says reaped and empty. */
  datatype Request = Register | Unconfirmed | TaskStop | Retiring(clean: bool) | TaskReaped

  /** Where N is when it asks: inside `fork_supervisor`, its `except`, its `try`, its `finally`. */
  datatype Site = InFork | InExcept | InMain | InFinally

  /** The rest of N's program: `Written` and `Opened` lie behind the gate write, inside and behind
      its `try`; `Closing` is the head of the `except` of `fork_supervisor`; `Raising` is where the
      PID is put on the exception, and `Caught` where `_owner` takes it off again. */
  datatype Pc = Setup | Forked | Send(site: Site, request: Request) | Wait(site: Site, request: Request)
    | Gate | Written | Opened | Closing | Raising | Caught | Running | Poll(site: Site) | Settled

  /** `known` is `supervisor_pid is not None`, `retirement` is `task_retirement`, `reaped` whether
      N's own `waitpid` succeeded, `report` whether the report came and was clean; `lost` marks
      that an exception has taken the only copy of the PID with it. */
  datatype Owner = Owner(pc: Pc, known: bool, retirement: bool, reaped: bool, report: Option<bool>, lost: bool, up: bool)

  datatype ParentMode = Serving | Settling | Gone

  /** `ticket` is `"supervisor" in groups`. */
  datatype Parent = Parent(mode: ParentMode, ticket: bool, stopped: bool, retired: bool)

  datatype Supervisor = NotForked | Alive | Zombie | Reaped

  /** `gate`: S was admitted. `killed`: P sent its signals to S. `late`: it sent one after S had been waited for. */
  datatype State = State(n: Owner, p: Parent, s: Supervisor, gate: bool, requests: seq<Request>, acks: seq<Request>, killed: bool,
                         late: bool)

  const START: State :=
    State(Owner(Setup, false, false, false, None, false, true), Parent(Serving, false, false, false), NotForked, false,
        [], [], false, false)

  /** `Resume` goes on from one program point to the next; `Interrupt` is any exception at the
      current one, P's SIGTERM above all; `InterruptLate` is an interrupt after
      an ACK was read and before it is acted on; `Adopt` is a reaper taking over a dead N's child. */
  datatype Step =
    | Fork | Resume | SendNext | SendFails | TakeAck | WaitFails | OpenGate | GateFails | Report(clean: bool) | RunFails
    | WaitPid | GiveUp | Interrupt | InterruptLate | OwnerDies
    | Handle | HandleUnacknowledged | Overrun | ParentFails | Signal | ParentGone
    | Exit | Adopt

  /** `finally`: stop and retire what is known, unreaped and unretired. */
  function EnterFinally(s: State): Pc {
    if !s.n.known || s.n.reaped then Settled
    else if s.n.retirement then Poll(InFinally) else Send(InFinally, TaskStop)
  }

  function Goto(s: State, pc: Pc): (t: State)
    ensures t.n.lost == s.n.lost && t.p == s.p && t.late == s.late
  {
    s.(n := s.n.(pc := pc))
  }

  function ToFinally(s: State): (t: State)
    ensures t.n.lost == s.n.lost && t.p == s.p && t.late == s.late
  {
    Goto(s, EnterFinally(s))
  }

  /** What follows an acknowledged request. */
  function Acknowledged(s: State, site: Site, r: Request): (t: State)
    ensures t.n.lost == s.n.lost && t.p == s.p && t.late == s.late
  {
    match r
    case Register => Goto(s, Gate)
    case Unconfirmed => if site == InFork then Goto(s, Send(InFork, TaskStop)) else AfterUnconfirmed(s)
    case TaskStop => Goto(s, Send(site, Retiring(false)))
    case Retiring(_) => s.(n := s.n.(retirement := true, pc := Poll(site)))
    case TaskReaped => ToFinally(s)
  }

  function AfterUnconfirmed(s: State): (t: State)
    ensures t.n.lost == s.n.lost && t.p == s.p && t.late == s.late
  {
    if s.n.reaped then Goto(s, Send(InExcept, TaskReaped)) else ToFinally(s)
  }

  /** What follows a request that was not sent, not acknowledged or answered by something else. */
  function Refused(s: State, site: Site, r: Request): (t: State)
    ensures t.n.lost == s.n.lost && t.p == s.p && t.late == s.late
  {
    match site
    case InFork => Goto(s, if r == Register then Closing else Raising)
    case InExcept => if r == Unconfirmed then AfterUnconfirmed(s) else ToFinally(s)
    case InMain => ToFinally(s)
    case InFinally => Goto(s, Settled)
  }

  /** Where an exception finds the PID in no variable of `_owner` and on no exception. */
  predicate Exposed(pc: Pc) {
    pc.Forked? || pc.Opened? || pc.Closing? || pc.Raising? || pc.Caught? || (pc.Poll? && pc.site.InFork?)
  }

  /** P's SIGTERM raises in N's main thread until `finally` ignores it. */
  function Interrupted(s: State): (t: State)
    ensures (t.n.lost <==> s.n.lost || Exposed(s.n.pc)) && t.p == s.p && t.late == s.late
  {
    if Exposed(s.n.pc) then s.(n := s.n.(lost := true, pc := Settled))
    else match s.n.pc
      case Setup => Goto(s, Settled)
      case Send(site, r) => if site == InFinally then s else Refused(s, site, r)
      case Wait(site, r) => if site == InFinally then s else Refused(s, site, r)
      case Gate => Goto(s, Closing)
      case Written => Goto(s, Closing)
      case Running => ToFinally(s)
      case Poll(site) => if site == InMain then ToFinally(s) else s
      case _ => s
  }

  /** From one program point to the next. */
  function Resumed(s: State): (t: State)
    ensures t.n.lost == s.n.lost && t.p == s.p && t.late == s.late
  {
    match s.n.pc
    case Forked => Goto(s, Send(InFork, Register))
    case Written => Goto(s, Opened)
    case Opened => s.(n := s.n.(pc := Running, known := true))
    case Closing => Goto(s, Send(InFork, Unconfirmed))
    case Raising => Goto(s, Caught)
    case Caught => s.(n := s.n.(known := true, pc := Send(InExcept, Unconfirmed)))
    case _ => s
  }

  function OwnerStep(s: State, step: Step): State
    requires s.n.up
  {
    var pc := s.n.pc;
    match step
    case Fork => if pc == Setup then Goto(s, Forked).(s := Alive) else s
    case Resume => Resumed(s)
    case SendNext => if pc.Send? then Goto(s, Wait(pc.site, pc.request)).(requests := s.requests + [pc.request]) else s
    case SendFails => if pc.Send? then Refused(s, pc.site, pc.request) else s
    case TakeAck =>
      if !pc.Wait? || s.acks == [] then s
      else
        var rest := s.(acks := s.acks[1..]);
        if s.acks[0] == pc.request then Acknowledged(rest, pc.site, pc.request) else Refused(rest, pc.site, pc.request)
    case WaitFails => if pc.Wait? then Refused(s, pc.site, pc.request) else s
    case OpenGate => if pc == Gate then Goto(s, Written).(gate := true) else s
    case GateFails => if pc == Gate then Goto(s, Closing) else s
    case Report(clean) =>
      if pc == Running then s.(n := s.n.(report := Some(clean), pc := Send(InMain, if clean then Retiring(true) else TaskStop))) else s
    case RunFails => if pc == Running then ToFinally(s) else if pc == Setup then Goto(s, Settled) else s
    case WaitPid =>
      if !pc.Poll? || s.s != Zombie then s
      else
        var t := s.(s := Reaped, n := s.n.(reaped := true));
        Goto(t, match pc.site case InFork => Raising case InMain => Send(InMain, TaskReaped) case _ => Settled)
    case GiveUp =>
      if !pc.Poll? then s else if pc.site == InMain then ToFinally(s) else Goto(s, if pc.site == InFork then Raising else Settled)
    case Interrupt => Interrupted(s)
    case InterruptLate => if pc.Wait? && s.acks != [] then Interrupted(s.(acks := s.acks[1..])) else s
    case OwnerDies => s.(n := s.n.(up := false))
    case _ => s
  }

  /** P's registration branch: the new facts, or None when a binding check raises. */
  function Registered(p: Parent, r: Request): Option<Parent> {
    match r
    case Register => if p.ticket then None else Some(p.(ticket := true))
    case Unconfirmed => Some(p.(ticket := true))
    case TaskStop => if p.ticket && !p.retired && !p.stopped then Some(p.(stopped := true)) else None
    case Retiring(clean) => if p.ticket && (clean || p.stopped) then Some(p.(retired := true)) else None
    case TaskReaped => if p.ticket then Some(p) else None
  }

  /** P signals S's PID: SIGTERM, and SIGKILL behind it. */
  function Signalled(s: State): State { s.(killed := true, late := s.late || s.s == Reaped) }

  /** P takes one request; without an ACK, sending it failed and P settles. */
  function Handled(s: State, acknowledged: bool): State {
    if s.p.mode != Serving || s.requests == [] then s
    else
      var r := s.requests[0];
      var t := s.(requests := s.requests[1..]);
      match Registered(s.p, r)
      case None => t.(p := s.p.(mode := Settling))
      case Some(p) =>
        var sent := (if r == TaskStop then Signalled(t) else t).(p := p);
        if acknowledged then sent.(acks := s.acks + [r]) else sent.(p := p.(mode := Settling))
  }

  function ParentStep(s: State, step: Step): State {
    match step
    case Handle => Handled(s, true)
    case HandleUnacknowledged => Handled(s, false)
    case Overrun => if s.p.mode == Serving && |s.requests| > 1 then s.(p := s.p.(mode := Settling)) else s
    case ParentFails => if s.p.mode == Serving then s.(p := s.p.(mode := Settling)) else s
    case Signal => if s.p.mode != Gone && s.p.ticket && !s.p.retired then Signalled(s) else s
    case ParentGone => s.(p := s.p.(mode := Gone))
    case _ => s
  }

  function Next(s: State, step: Step): State {
    match step
    case Exit => if s.s == Alive then s.(s := Zombie) else s
    case Adopt => if s.s == Zombie && !s.n.up then s.(s := Reaped) else s
    case Handle => ParentStep(s, step)
    case HandleUnacknowledged => ParentStep(s, step)
    case Overrun => ParentStep(s, step)
    case ParentFails => ParentStep(s, step)
    case Signal => ParentStep(s, step)
    case ParentGone => ParentStep(s, step)
    case _ => if s.n.up then OwnerStep(s, step) else s
  }

  function Run(s: State, steps: seq<Step>): State
    decreases |steps|
  {
    if steps == [] then s else Run(Next(s, steps[0]), steps[1..])
  }

  // ---- Safety ----

  /** `safe` in N's `finally`: may the initialized objects be removed? */
  predicate CleanupAuthorized(n: Owner) {
    n.pc == Settled && (!n.known || (n.reaped && n.report == Some(true)))
  }

  predicate RetirementIn(acks: seq<Request>) { Retiring(true) in acks || Retiring(false) in acks }

  predicate CleanIn(requests: seq<Request>) { Retiring(true) in requests }

  predicate Asks(pc: Pc, r: Request) { (pc.Wait? || pc.Send?) && pc.request == r }

  /** Retirement is acknowledged before N may wait, P knows it is retired before it acknowledges,
      and while N lives nobody else waits for S. */
  ghost predicate TicketInv(s: State) {
    && (s.late ==> !s.n.up)
    && (s.p.stopped ==> s.killed)
    && (s.n.retirement ==> s.p.retired)
    && (s.n.reaped ==> s.n.retirement && s.s == Reaped)
    && (s.s == Reaped && s.n.up ==> s.n.reaped)
    && (s.n.pc.Poll? ==> s.n.retirement)
    && (RetirementIn(s.acks) ==> s.p.retired)
  }

  /** A clean retirement is only asked for with a clean report. */
  ghost predicate ReportInv(s: State) {
    && (s.p.retired ==> s.p.stopped || s.n.report == Some(true))
    && (CleanIn(s.requests) || Asks(s.n.pc, Retiring(true)) ==> s.n.report == Some(true))
  }

  /** Between the fork and the place where `_owner` holds the PID. */
  predicate Unheld(pc: Pc) {
    pc in {Forked, Gate, Written, Opened, Closing, Raising, Caught} || ((pc.Send? || pc.Wait? || pc.Poll?) && pc.site == InFork)
  }

  /** Where N knows S, and where the PID can get lost. */
  ghost predicate KnownInv(n: Owner, s: Supervisor) {
    && (n.pc == Setup ==> s == NotForked)
    && (s == NotForked ==> !n.known && n.pc in {Setup, Settled})
    && (n.pc == Running ==> n.known)
    && (n.pc in {Setup, Running} || Unheld(n.pc) ==> n.report.None?)
    && (Unheld(n.pc) ==> !n.known && (n.reaped ==> n.pc in {Raising, Caught}))
    && ((n.pc.Send? || n.pc.Wait? || n.pc.Poll?) && n.pc.site != InFork ==> n.known)
    && (n.lost ==> n.pc == Settled && !n.known && s != NotForked && n.report.None?)
    && (n.pc == Settled && !n.known ==> n.lost || s == NotForked)
  }

  /** Which request is made where. */
  predicate Asked(pc: Pc) {
    pc.Send? || pc.Wait? ==>
      match pc.site
      case InFork => pc.request in {Register, Unconfirmed, TaskStop, Retiring(false)}
      case InExcept => pc.request in {Unconfirmed, TaskReaped}
      case InMain => pc.request.TaskStop? || pc.request.Retiring? || pc.request.TaskReaped?
      case InFinally => pc.request in {TaskStop, Retiring(false)}
  }

  ghost predicate Inv(s: State) { TicketInv(s) && ReportInv(s) && KnownInv(s.n, s.s) && Asked(s.n.pc) }

  /** Once N holds the PID it can always go on to its `finally`. */
  lemma FinallyKeeps(s: State)
    requires Inv(s) && s.n.known
    ensures Inv(ToFinally(s)) && Inv(AfterUnconfirmed(s))
  {
    hide RetirementIn, CleanIn;
  }

  /** From one request on to the next of the same site, or to the gate. */
  lemma AskKeeps(s: State, pc: Pc)
    requires Inv(s) && s.n.pc.Wait?
    requires pc == Gate ==> s.n.pc == Wait(InFork, Register)
    requires pc != Gate ==> pc.Send? && pc.site == s.n.pc.site && pc.request in {TaskStop, Retiring(false)} && Asked(pc)
    ensures Inv(Goto(s, pc))
  {
    hide RetirementIn, CleanIn;
  }

  lemma AcknowledgedKeeps(s: State, site: Site, r: Request)
    requires Inv(s) && s.n.pc == Wait(site, r) && (r.Retiring? ==> s.p.retired)
    ensures Inv(Acknowledged(s, site, r))
  {
    assert site != InFork ==> s.n.known;
    assert r == TaskReaped ==> site != InFork;
    assert (r == TaskStop ==> Asked(Send(site, Retiring(false)))) && Asked(Send(InFork, TaskStop));
    assert r == Register ==> site == InFork;
    hide ToFinally, AfterUnconfirmed, TicketInv, ReportInv, KnownInv, Asked;
    match r
    case Register => AskKeeps(s, Gate);
    case Unconfirmed => if site == InFork { AskKeeps(s, Send(InFork, TaskStop)); } else { FinallyKeeps(s); }
    case TaskStop => AskKeeps(s, Send(site, Retiring(false)));
    case Retiring(_) => RetiredKeeps(s, site);
    case TaskReaped => FinallyKeeps(s);
  }

  lemma RetiredKeeps(s: State, site: Site)
    requires Inv(s) && s.n.pc.Wait? && s.n.pc.site == site && s.n.pc.request.Retiring? && s.p.retired
    ensures Inv(s.(n := s.n.(retirement := true, pc := Poll(site))))
  {
    hide RetirementIn, CleanIn;
  }

  lemma RefusedKeeps(s: State, site: Site, r: Request)
    requires Inv(s) && (s.n.pc == Wait(site, r) || s.n.pc == Send(site, r))
    ensures Inv(Refused(s, site, r))
  {
    hide ToFinally, AfterUnconfirmed, RetirementIn, CleanIn;
    if s.n.known { FinallyKeeps(s); }
  }

  lemma LostKeeps(s: State)
    requires Inv(s) && Exposed(s.n.pc)
    ensures Inv(s.(n := s.n.(lost := true, pc := Settled)))
  {
    hide RetirementIn, CleanIn;
  }

  lemma InterruptedKeeps(s: State)
    requires Inv(s)
    ensures Inv(Interrupted(s))
  {
    if Exposed(s.n.pc) {
      LostKeeps(s);
      return;
    }
    hide Refused, ToFinally, RetirementIn, CleanIn, Exposed;
    if s.n.known { FinallyKeeps(s); }
    if s.n.pc.Send? || s.n.pc.Wait? { RefusedKeeps(s, s.n.pc.site, s.n.pc.request); }
  }

  /** Going on to another point of the same stretch, with nothing to send or wait for there. */
  lemma MovedKeeps(s: State, pc: Pc)
    requires Inv(s) && Unheld(s.n.pc) && pc in {Opened, Caught, Send(InFork, Register), Send(InFork, Unconfirmed)}
    requires s.n.reaped ==> pc == Caught
    ensures Inv(Goto(s, pc))
  {
    hide RetirementIn, CleanIn;
  }

  /** Taking hold of the PID. */
  lemma HeldKeeps(s: State, pc: Pc)
    requires Inv(s) && Unheld(s.n.pc) && pc in {Running, Send(InExcept, Unconfirmed)} && (s.n.reaped ==> pc != Running)
    ensures Inv(s.(n := s.n.(pc := pc, known := true)))
  {
    hide RetirementIn, CleanIn;
  }

  lemma ResumedKeeps(s: State)
    requires Inv(s)
    ensures Inv(Resumed(s))
  {
    hide TicketInv, ReportInv, Asked;
    match s.n.pc
    case Forked => MovedKeeps(s, Send(InFork, Register));
    case Written => MovedKeeps(s, Opened);
    case Opened => HeldKeeps(s, Running);
    case Closing => MovedKeeps(s, Send(InFork, Unconfirmed));
    case Raising => MovedKeeps(s, Caught);
    case Caught => HeldKeeps(s, Send(InExcept, Unconfirmed));
    case _ =>
  }

  /** Answers, missing answers and interrupts. */
  lemma AnswerKeeps(s: State, step: Step)
    requires Inv(s) && s.n.up && step in {SendFails, TakeAck, WaitFails, Interrupt, InterruptLate}
    ensures Inv(OwnerStep(s, step))
  {
    hide Acknowledged, Refused, Interrupted;
    InterruptedKeeps(s);
    if s.n.pc.Send? || s.n.pc.Wait? { RefusedKeeps(s, s.n.pc.site, s.n.pc.request); }
    if s.n.pc.Wait? && s.acks != [] {
      var rest := s.(acks := s.acks[1..]);
      assert Inv(rest);
      InterruptedKeeps(rest);
      RefusedKeeps(rest, s.n.pc.site, s.n.pc.request);
      if s.acks[0] == s.n.pc.request { AcknowledgedKeeps(rest, s.n.pc.site, s.n.pc.request); }
    }
  }

  lemma ReportKeeps(s: State, step: Step)
    requires Inv(s) && s.n.up && (step.Report? || step == RunFails)
    ensures Inv(OwnerStep(s, step))
  {
    hide ToFinally, RetirementIn, CleanIn;
    if s.n.known { FinallyKeeps(s); }
  }

  lemma WaitingKeeps(s: State, step: Step)
    requires Inv(s) && s.n.up && step in {WaitPid, GiveUp}
    ensures Inv(OwnerStep(s, step))
  {
    hide ToFinally, RetirementIn, CleanIn;
    if s.n.known { FinallyKeeps(s); }
  }

  lemma OwnerKeeps(s: State, step: Step)
    requires Inv(s) && s.n.up
    ensures Inv(OwnerStep(s, step))
  {
    hide Acknowledged, Refused, Interrupted, Resumed;
    if step in {SendFails, TakeAck, WaitFails, Interrupt, InterruptLate} { AnswerKeeps(s, step); }
    else if step.Report? || step == RunFails { ReportKeeps(s, step); }
    else if step in {WaitPid, GiveUp} { WaitingKeeps(s, step); }
    else if step == Resume { ResumedKeeps(s); }
  }

  lemma HandledKeeps(s: State, acknowledged: bool)
    requires Inv(s)
    ensures Inv(Handled(s, acknowledged))
  {
    hide KnownInv, Asked;
    var t := Handled(s, acknowledged);
    assert t.n == s.n && t.s == s.s;
    assert TicketInv(t) by { hide ReportInv; }
    assert ReportInv(t) by { hide TicketInv, KnownInv; }
  }

  lemma ParentKeeps(s: State, step: Step)
    requires Inv(s)
    ensures Inv(ParentStep(s, step))
  {
    hide KnownInv, Handled;
    HandledKeeps(s, true);
    HandledKeeps(s, false);
  }

  lemma NextKeeps(s: State, step: Step)
    requires Inv(s)
    ensures Inv(Next(s, step))
  {
    ParentKeeps(s, step);
    if s.n.up { OwnerKeeps(s, step); }
  }

  lemma {:induction false} RunKeeps(s: State, steps: seq<Step>)
    requires Inv(s)
    ensures Inv(Run(s, steps))
    decreases |steps|
  {
    if steps != [] {
      NextKeeps(s, steps[0]);
      RunKeeps(Next(s, steps[0]), steps[1..]);
    }
  }

  /** The step makes P signal S's PID. */
  predicate Signals(s: State, step: Step) {
    if step == Signal then s.p.mode != Gone && s.p.ticket && !s.p.retired
    else step in {Handle, HandleUnacknowledged} && s.p.mode == Serving && s.requests != [] && s.requests[0] == TaskStop
         && Registered(s.p, TaskStop).Some?
  }

  /** Step `i` of the run signals S after N died and somebody else reaped S. */
  predicate HitsStale(s: State, steps: seq<Step>, i: nat)
    requires i < |steps|
  {
    var t := Run(s, steps[..i]);
    Signals(t, steps[i]) && t.s == Reaped && !t.n.up
  }

  /** In every run, with lost, stale and reordered answers, interrupts, and either process failing
      anywhere: N waits for S only once P has retired its ticket, and P signals a PID that was
      waited for exactly if N is dead and S was adopted and reaped under an unretired ticket. */
  lemma NoLateSignal(steps: seq<Step>)
    ensures var s := Run(START, steps);
      && (s.late ==> !s.n.up) && (s.p.stopped ==> s.killed)
      && (s.n.reaped ==> s.n.retirement && s.p.retired)
      && (s.s == Reaped ==> s.n.reaped || !s.n.up)
      && (s.p.retired ==> s.p.stopped || s.n.report == Some(true))
    ensures Run(START, steps).late <==> exists i :: 0 <= i < |steps| && HitsStale(START, steps, i)
  {
    RunKeeps(START, steps);
    LateExactly(START, steps);
  }

  lemma LateStep(s: State, step: Step)
    requires Inv(s)
    ensures Next(s, step).late <==> s.late || (Signals(s, step) && s.s == Reaped && !s.n.up)
  {
    hide OwnerStep, KnownInv, Asked;
    if s.n.up { OwnerQuiet(s, step); }
  }

  /** N signals nothing that P signals. */
  lemma OwnerQuiet(s: State, step: Step)
    requires s.n.up
    ensures OwnerStep(s, step).late == s.late
  {
    hide Acknowledged, Refused, Interrupted, Resumed, ToFinally, Goto;
  }

  lemma {:induction false} LateExactly(s: State, steps: seq<Step>)
    requires Inv(s)
    ensures Run(s, steps).late <==> s.late || exists i :: 0 <= i < |steps| && HitsStale(s, steps, i)
    decreases |steps|
  {
    if steps != [] {
      var t, rest := Next(s, steps[0]), steps[1..];
      NextKeeps(s, steps[0]);
      LateStep(s, steps[0]);
      LateExactly(t, rest);
      hide Next, Inv, Signals;
      assert steps[..0] == [];
      forall i | 0 < i < |steps| ensures HitsStale(s, steps, i) <==> HitsStale(t, rest, i - 1) {
        assert steps[..i][1..] == rest[..i - 1];
      }
      if Run(t, rest).late && !t.late {
        var i :| 0 <= i < |rest| && HitsStale(t, rest, i);
        assert HitsStale(s, steps, i + 1);
      }
      if s.late || HitsStale(s, steps, 0) { assert t.late; }
    }
  }

  /** A dead N's supervisor is adopted and reaped by someone else; P's unretired ticket is then stale. */
  lemma LateAfterAdoption()
    ensures Run(START, [Fork, Resume, SendNext, Handle, OwnerDies, Exit, Adopt, Signal]).late
  {
    hide Run, Next;
    UpToRegistration();
    var a := Next(Next(Next(Next(START, Fork), Resume), SendNext), Handle);
    assert [Fork, Resume, SendNext, Handle] + [OwnerDies, Exit, Adopt, Signal] == [Fork, Resume, SendNext, Handle,
        OwnerDies, Exit, Adopt, Signal];
    RunFour(START, Fork, Resume, SendNext, Handle, [OwnerDies, Exit, Adopt, Signal]);
    RunFour(a, OwnerDies, Exit, Adopt, Signal, []);
    assert [OwnerDies, Exit, Adopt, Signal] + [] == [OwnerDies, Exit, Adopt, Signal];
    Stale(a);
  }

  /** From the owner's death to P's signal. */
  lemma Stale(a: State)
    requires a.s == Alive && a.p == Parent(Serving, true, false, false)
    ensures Next(Next(Next(Next(a, OwnerDies), Exit), Adopt), Signal).late
  {
    hide OwnerStep, Handled;
    Dies(a);
    var b := Next(Next(a, OwnerDies), Exit);
    assert b.s == Zombie && !b.n.up && b.p == a.p;
    var c := Next(b, Adopt);
    assert c.s == Reaped && c.p == a.p;
  }

  lemma Dies(s: State)
    ensures Next(s, OwnerDies) == s.(n := s.n.(up := false))
  {
  }

  lemma RunFour(s: State, a: Step, b: Step, c: Step, d: Step, rest: seq<Step>)
    ensures Run(s, [a, b, c, d] + rest) == Run(Next(Next(Next(Next(s, a), b), c), d), rest)
    ensures rest == [] ==> Run(s, [a, b, c, d] + rest) == Next(Next(Next(Next(s, a), b), c), d)
  {
    assert ([a, b, c, d] + rest)[1..] == [b, c, d] + rest && ([b, c, d] + rest)[1..] == [c, d] + rest;
    assert ([c, d] + rest)[1..] == [d] + rest && ([d] + rest)[1..] == rest;
    var t := Next(Next(s, a), b);
    assert Run(s, [a, b, c, d] + rest) == Run(Next(s, a), [b, c, d] + rest) == Run(t, [c, d] + rest);
    assert Run(t, [c, d] + rest) == Run(Next(t, c), [d] + rest);
  }

  /** Retirement is final: afterwards P signals nothing, whatever happens. */
  lemma {:induction false} RetiredForGood(s: State, steps: seq<Step>)
    requires Inv(s) && s.p.retired
    ensures Run(s, steps).p.retired && Next(Run(s, steps), Signal) == Run(s, steps)
    decreases |steps|
  {
    if steps != [] {
      NextKeeps(s, steps[0]);
      StaysRetired(s, steps[0]);
      RetiredForGood(Next(s, steps[0]), steps[1..]);
    }
  }

  lemma StaysRetired(s: State, step: Step)
    requires s.p.retired
    ensures Next(s, step).p.retired
  {
    hide OwnerStep;
    if s.n.up { OwnerLeavesParent(s, step); }
  }

  lemma OwnerLeavesParent(s: State, step: Step)
    requires s.n.up
    ensures OwnerStep(s, step).p == s.p
  {
    hide Acknowledged, Refused, Interrupted, Resumed, ToFinally, Goto;
  }

  // ---- The cleanup decision ----

  /** N takes cleanup for safe although S was forked and not reaped with a clean report. */
  predicate WronglySafe(s: State) {
    CleanupAuthorized(s.n) && s.s != NotForked && !(s.n.reaped && s.n.report == Some(true))
  }

  /** Step `i` of the run is an interrupt at a place where nothing holds the PID. */
  predicate HitsExposed(s: State, steps: seq<Step>, i: nat)
    requires i < |steps|
  {
    steps[i] == Interrupt && Run(s, steps[..i]).n.up && Exposed(Run(s, steps[..i]).n.pc)
  }

  /** The decision is wrong exactly in the runs in which an interrupt hits N while neither a
      variable of `_owner` nor an exception holds the PID; in all others S was never forked,
      or N has reaped it after a clean report. */
  lemma CleanupDecision(steps: seq<Step>)
    ensures WronglySafe(Run(START, steps)) <==> exists i :: 0 <= i < |steps| && HitsExposed(START, steps, i)
    ensures var s := Run(START, steps);
      CleanupAuthorized(s.n) && !WronglySafe(s) ==> s.s == NotForked || (s.s == Reaped && s.n.report == Some(true))
  {
    RunKeeps(START, steps);
    LostExactly(START, steps);
  }

  lemma OwnerLost(s: State, step: Step)
    requires s.n.up
    ensures OwnerStep(s, step).n.lost <==> s.n.lost || (step == Interrupt && Exposed(s.n.pc))
  {
    hide Acknowledged, Refused, Interrupted, Resumed, ToFinally;
  }

  lemma LostStep(s: State, step: Step)
    ensures Next(s, step).n.lost <==> s.n.lost || (step == Interrupt && s.n.up && Exposed(s.n.pc))
  {
    hide OwnerStep, Exposed;
    if s.n.up { OwnerLost(s, step); }
  }

  lemma {:induction false} LostExactly(s: State, steps: seq<Step>)
    ensures Run(s, steps).n.lost <==> s.n.lost || exists i :: 0 <= i < |steps| && HitsExposed(s, steps, i)
    decreases |steps|
  {
    if steps != [] {
      var t, rest := Next(s, steps[0]), steps[1..];
      LostStep(s, steps[0]);
      LostExactly(t, rest);
      assert steps[..0] == [];
      forall i | 0 < i < |steps| ensures HitsExposed(s, steps, i) <==> HitsExposed(t, rest, i - 1) {
        assert steps[..i][1..] == rest[..i - 1];
      }
      if Run(t, rest).n.lost && !t.n.lost {
        var i :| 0 <= i < |rest| && HitsExposed(t, rest, i);
        assert HitsExposed(s, steps, i + 1);
      }
      if s.n.lost || HitsExposed(s, steps, 0) { assert t.n.lost; }
    }
  }

  /** An interrupt between fork and registration: S is alive, N knows of none and goes on to clean up. */
  lemma LostSupervisor()
    ensures var s := Run(START, [Fork, Interrupt]);
      WronglySafe(s) && s.s == Alive && !s.gate
  {
    assert Run(START, [Fork, Interrupt]) == Run(Next(START, Fork), [Fork, Interrupt][1..]);
    assert [Fork, Interrupt][1..] == [Interrupt];
  }

  /** An interrupt between the gate write and the assignment of the PID: S has been admitted. */
  lemma LostAdmitted()
    ensures var s := Run(START, [Fork, Resume, SendNext, Handle, TakeAck, OpenGate, Resume, Interrupt]);
      WronglySafe(s) && s.s == Alive && s.gate
  {
    hide Run, Next;
    UpToRegistration();
    assert [Fork, Resume, SendNext, Handle] + [TakeAck, OpenGate, Resume, Interrupt] == [Fork, Resume, SendNext, Handle,
        TakeAck, OpenGate, Resume, Interrupt];
    RunFour(START, Fork, Resume, SendNext, Handle, [TakeAck, OpenGate, Resume, Interrupt]);
    var a := Next(Next(Next(Next(START, Fork), Resume), SendNext), Handle);
    RunFour(a, TakeAck, OpenGate, Resume, Interrupt, []);
    assert [TakeAck, OpenGate, Resume, Interrupt] + [] == [TakeAck, OpenGate, Resume, Interrupt];
    Admitted(a);
  }

  /** From P's answer to the interrupt behind the gate. */
  lemma Admitted(a: State)
    requires a.n == START.n.(pc := Wait(InFork, Register)) && a.s == Alive && a.acks == [Register]
    ensures var s := Next(Next(Next(Next(a, TakeAck), OpenGate), Resume), Interrupt);
            s.s == Alive && s.gate && s.n.pc == Settled && !s.n.known && !s.n.reaped
  {
    var b := Next(a, TakeAck);
    assert b.n == START.n.(pc := Gate) && b.s == Alive;
    var c := Next(b, OpenGate);
    assert c.n == START.n.(pc := Written) && c.s == Alive && c.gate;
    var d := Next(c, Resume);
    assert d.n == START.n.(pc := Opened) && d.s == Alive && d.gate;
  }

  /** The fork and the registration, up to P's answer. */
  lemma UpToRegistration()
    ensures Next(Next(Next(Next(START, Fork), Resume), SendNext), Handle) ==
      START.(n := START.n.(pc := Wait(InFork, Register)), p := START.p.(ticket := true), s := Alive, acks := [Register])
  {
    assert Next(Next(START, Fork), Resume) == START.(n := START.n.(pc := Send(InFork, Register)), s := Alive);
  }

  // ---- Stopping and retiring a task ----

  /** N is done, knows of a supervisor that it has not reaped, and was never told that its ticket is retired. */
  predicate Abandoned(n: Owner) { n.pc == Settled && n.known && !n.reaped && !n.retirement }

  /** What N asks for in its `finally` has not been acknowledged yet. */
  predicate AskingInv(n: Owner) {
    (n.pc.Send? || n.pc.Wait?) && n.pc.site == InFinally ==>
      n.known && !n.reaped && !n.retirement && n.pc.request in {TaskStop, Retiring(false)}
  }

  /** A stop or retirement that N asks for in its `finally` is not sent, not answered, or answered by something else. */
  predicate Unanswered(s: State, step: Step) {
    && s.n.up && (s.n.pc.Send? || s.n.pc.Wait?) && s.n.pc.site == InFinally
    && if s.n.pc.Send? then step == SendFails else step == WaitFails || (step == TakeAck && s.acks != [] && s.acks[0] != s.n.pc.request)
  }

  predicate HitsUnanswered(s: State, steps: seq<Step>, i: nat)
    requires i < |steps|
  {
    Unanswered(Run(s, steps[..i]), steps[i])
  }

  lemma FinallyAsks(s: State)
    requires Inv(s) && s.n.known
    ensures AskingInv(ToFinally(s).n) && !Abandoned(ToFinally(s).n) && AskingInv(AfterUnconfirmed(s).n) && !Abandoned(AfterUnconfirmed(s).n)
  {
  }

  lemma AcknowledgedAsks(s: State, site: Site, r: Request)
    requires Inv(s) && AskingInv(s.n) && s.n.pc == Wait(site, r)
    ensures AskingInv(Acknowledged(s, site, r).n) && !Abandoned(Acknowledged(s, site, r).n)
  {
    hide ToFinally, AfterUnconfirmed, TicketInv, ReportInv;
    if s.n.known { FinallyAsks(s); }
  }

  lemma RefusedAsks(s: State, site: Site, r: Request)
    requires Inv(s) && AskingInv(s.n) && (s.n.pc == Wait(site, r) || s.n.pc == Send(site, r))
    ensures AskingInv(Refused(s, site, r).n) && (Abandoned(Refused(s, site, r).n) <==> site == InFinally)
  {
    hide ToFinally, AfterUnconfirmed, TicketInv, ReportInv;
    if s.n.known { FinallyAsks(s); }
  }

  lemma InterruptedAsks(s: State)
    requires Inv(s) && AskingInv(s.n)
    ensures AskingInv(Interrupted(s).n) && (Abandoned(Interrupted(s).n) <==> Abandoned(s.n))
  {
    hide TicketInv, ReportInv;
    if Exposed(s.n.pc) { return; }
    hide ToFinally, Refused, Exposed;
    if s.n.known { FinallyAsks(s); }
    if s.n.pc.Send? || s.n.pc.Wait? { RefusedAsks(s, s.n.pc.site, s.n.pc.request); }
  }

  /** Answers, missing answers and interrupts. */
  lemma AnswerAsks(s: State, step: Step)
    requires Inv(s) && AskingInv(s.n) && s.n.up && step in {SendFails, TakeAck, WaitFails, Interrupt, InterruptLate}
    ensures AskingInv(OwnerStep(s, step).n)
    ensures Abandoned(OwnerStep(s, step).n) <==> Abandoned(s.n) || Unanswered(s, step)
  {
    hide Acknowledged, Refused, Interrupted, ToFinally, KnownInv;
    InterruptedAsks(s);
    if s.n.pc.Send? || s.n.pc.Wait? { RefusedAsks(s, s.n.pc.site, s.n.pc.request); }
    if s.n.pc.Wait? && s.acks != [] {
      var rest := s.(acks := s.acks[1..]);
      assert Inv(rest);
      hide Inv, AskingInv;
      InterruptedAsks(rest);
      RefusedAsks(rest, s.n.pc.site, s.n.pc.request);
      if s.acks[0] == s.n.pc.request { AcknowledgedAsks(rest, s.n.pc.site, s.n.pc.request); }
    }
  }

  lemma OwnerAsks(s: State, step: Step)
    requires Inv(s) && AskingInv(s.n) && s.n.up
    ensures AskingInv(OwnerStep(s, step).n)
    ensures Abandoned(OwnerStep(s, step).n) <==> Abandoned(s.n) || Unanswered(s, step)
  {
    hide Acknowledged, Refused, Interrupted, ToFinally, RetirementIn, ReportInv;
    if s.n.known { FinallyAsks(s); }
    if step in {SendFails, TakeAck, WaitFails, Interrupt, InterruptLate} { AnswerAsks(s, step); }
  }

  lemma NextAsks(s: State, step: Step)
    requires Inv(s) && AskingInv(s.n)
    ensures AskingInv(Next(s, step).n)
    ensures Abandoned(Next(s, step).n) <==> Abandoned(s.n) || Unanswered(s, step)
  {
    hide OwnerStep, Handled;
    if s.n.up { OwnerAsks(s, step); }
    HandledLeaves(s);
  }

  lemma HandledLeaves(s: State)
    ensures Handled(s, true).n == s.n && Handled(s, false).n == s.n
  {
  }

  lemma {:induction false} AbandonedExactly(s: State, steps: seq<Step>)
    requires Inv(s) && AskingInv(s.n)
    ensures Abandoned(Run(s, steps).n) <==> Abandoned(s.n) || exists i :: 0 <= i < |steps| && HitsUnanswered(s, steps, i)
    decreases |steps|
  {
    hide Inv, AskingInv, Abandoned, Unanswered, Next;
    if steps != [] {
      var t, rest := Next(s, steps[0]), steps[1..];
      NextKeeps(s, steps[0]);
      NextAsks(s, steps[0]);
      AbandonedExactly(t, rest);
      assert steps[..0] == [];
      forall i | 0 < i < |steps| ensures HitsUnanswered(s, steps, i) <==> HitsUnanswered(t, rest, i - 1) {
        assert steps[..i][1..] == rest[..i - 1];
      }
      if Abandoned(Run(t, rest).n) && !Abandoned(t.n) {
        var i :| 0 <= i < |rest| && HitsUnanswered(t, rest, i);
        assert HitsUnanswered(s, steps, i + 1);
      }
      if Abandoned(s.n) || HitsUnanswered(s, steps, 0) { assert Abandoned(t.n); }
    }
  }

  /** N ends without having reaped a supervisor it knows only if P retired the ticket, or a stop or
      retirement that N asked for at the end was refused or not answered. */
  lemma StopAsked(steps: seq<Step>)
    ensures var s := Run(START, steps);
      s.n.pc == Settled && s.n.known && !s.n.reaped && !s.p.retired ==> exists i :: 0 <= i < |steps| && HitsUnanswered(START, steps, i)
    ensures Abandoned(Run(START, steps).n) <==> exists i :: 0 <= i < |steps| && HitsUnanswered(START, steps, i)
  {
    RunKeeps(START, steps);
    AbandonedExactly(START, steps);
  }

  /** P has not heard of S, or has it on record and nothing else; the pipes are empty. */
  predicate Quiet(s: State, ticket: bool) {
    s.requests == [] && s.acks == [] && s.p.ticket == ticket && !s.p.stopped && !s.p.retired
  }

  /** N has sent the registration: it is under way, recorded, or answered. */
  predicate Registering(s: State) {
    && !s.p.stopped && !s.p.retired
    && (|| (s.requests == [Register] && s.acks == [] && !s.p.ticket)
        || (s.requests == [] && (s.acks == [] || (s.acks == [Register] && s.p.ticket))))
  }

  /** The pipes and P's record up to the end of the supervised run. */
  predicate EarlyInv(s: State) {
    match s.n.pc
    case Setup => Quiet(s, false)
    case Forked => Quiet(s, false)
    case Send(site, r) => site.InFork? && r.Register? ==> Quiet(s, false)
    case Wait(site, r) => site.InFork? && r.Register? ==> Registering(s)
    case Gate => Quiet(s, true)
    case Written => Quiet(s, true)
    case Opened => Quiet(s, true)
    case Running => Quiet(s, true)
    case _ => true
  }

  /** Up to the end of the supervised run. */
  predicate Early(pc: Pc) {
    pc.Setup? || pc.Forked? || pc.Gate? || pc.Written? || pc.Opened? || pc.Running?
        || ((pc.Send? || pc.Wait?) && pc.site.InFork? && pc.request.Register?)
  }

  lemma LateFinally(s: State)
    ensures !Early(ToFinally(s).n.pc) && !Early(AfterUnconfirmed(s).n.pc)
  {
  }

  lemma LateStays(s: State, site: Site, r: Request)
    ensures !Early(ToFinally(s).n.pc) && !Early(Refused(s, site, r).n.pc)
    ensures r != Register ==> !Early(Acknowledged(s, site, r).n.pc)
  {
    hide ToFinally, AfterUnconfirmed, Early, Goto, Refused, Acknowledged;
    LateFinally(s);
    LateRefused(s, site, r);
    if r != Register { LateAcknowledged(s, site, r); }
  }

  lemma LateRefused(s: State, site: Site, r: Request)
    ensures !Early(Refused(s, site, r).n.pc)
  {
    hide ToFinally, AfterUnconfirmed, Early, Goto;
    LateFinally(s);
    LatePoints();
    WentTo(s, Closing);
    WentTo(s, Raising);
    WentTo(s, Settled);
  }

  lemma LateAcknowledged(s: State, site: Site, r: Request)
    requires r != Register
    ensures !Early(Acknowledged(s, site, r).n.pc)
  {
    hide ToFinally, AfterUnconfirmed, Early, Goto;
    LateFinally(s);
    LatePoints();
    WentTo(s, Send(InFork, TaskStop));
    WentTo(s, Send(site, Retiring(false)));
  }

  lemma LatePoints()
    ensures !Early(Settled) && !Early(Closing) && !Early(Raising) && !Early(Caught) && forall t: Site :: !Early(Poll(t))
    ensures forall r: Request :: !Early(Send(InFinally, r)) && !Early(Wait(InFinally, r)) && !Early(Send(InMain, r))
    ensures forall t: Site, r: Request | r != Register :: !Early(Send(t, r))
  {
  }

  lemma InterruptedEarly(s: State)
    ensures !Early(Interrupted(s).n.pc)
  {
    hide Refused, ToFinally, Early, Exposed, Goto;
    LatePoints();
    if Exposed(s.n.pc) { return; }
    LateFinally(s);
    WentTo(s, Settled);
    WentTo(s, Closing);
    if s.n.pc.Send? || s.n.pc.Wait? { LateStays(s, s.n.pc.site, s.n.pc.request); return; }
    LateExposed(s);
  }

  lemma WentTo(s: State, pc: Pc)
    ensures Goto(s, pc).n.pc == pc
  {
  }

  lemma LateExposed(s: State)
    ensures !Exposed(s.n.pc) && Early(s.n.pc) ==>
              s.n.pc.Setup? || s.n.pc.Gate? || s.n.pc.Written? || s.n.pc.Running? || s.n.pc.Send? || s.n.pc.Wait?
  {
  }

  /** Answers, missing answers, interrupts and reports. */
  lemma AnswerEarly(s: State, step: Step)
    requires EarlyInv(s) && Asked(s.n.pc) && s.n.up
    requires step in {SendFails, TakeAck, WaitFails, Interrupt, InterruptLate, RunFails} || step.Report?
    ensures EarlyInv(OwnerStep(s, step))
  {
    hide ToFinally, AfterUnconfirmed, Refused, Interrupted;
    InterruptedEarly(s);
    LateStays(s, InFork, Register);
    if s.n.pc.Send? || s.n.pc.Wait? { LateStays(s, s.n.pc.site, s.n.pc.request); }
    if s.n.pc.Wait? && s.acks != [] {
      var rest := s.(acks := s.acks[1..]);
      InterruptedEarly(rest);
      LateStays(rest, s.n.pc.site, s.n.pc.request);
    }
  }

  lemma SentEarly(s: State)
    requires EarlyInv(s) && Asked(s.n.pc) && s.n.up
    ensures EarlyInv(OwnerStep(s, SendNext))
  {
    assert s.requests == [] ==> s.requests + [Register] == [Register];
  }

  lemma QuietSame(s: State, t: State)
    requires t.requests == s.requests && t.acks == s.acks && t.p == s.p
    ensures Quiet(t, false) == Quiet(s, false) && Quiet(t, true) == Quiet(s, true)
  {
  }

  lemma ResumedEarly(s: State)
    requires EarlyInv(s)
    ensures EarlyInv(Resumed(s))
  {
    hide Quiet, Registering, EarlyInv;
    EarlyPoints(s);
    EarlyPoints(Resumed(s));
    QuietSame(s, Resumed(s));
  }

  lemma EarlyPoints(s: State)
    ensures s.n.pc == Setup || s.n.pc == Forked || s.n.pc == Send(InFork, Register) ==> (EarlyInv(s) <==> Quiet(s, false))
    ensures s.n.pc == Gate || s.n.pc == Written || s.n.pc == Opened || s.n.pc == Running ==> (EarlyInv(s) <==> Quiet(s, true))
    ensures !Early(s.n.pc) ==> EarlyInv(s)
  {
    hide Quiet, Registering;
  }

  /** Steps from one program point to the next. */
  lemma MovedEarly(s: State, step: Step)
    requires EarlyInv(s) && s.n.up && (step.Fork? || step.Resume? || step.OpenGate? || step.GateFails?)
    ensures EarlyInv(OwnerStep(s, step))
  {
    hide Acknowledged, Refused, Interrupted, ToFinally, Resumed;
    ResumedEarly(s);
  }

  lemma WaitingEarly(s: State, step: Step)
    requires EarlyInv(s) && s.n.up && (step.WaitPid? || step.GiveUp?)
    ensures EarlyInv(OwnerStep(s, step))
  {
    hide Acknowledged, Refused, Interrupted, ToFinally, Resumed, EarlyInv, Early;
    LateFinally(s);
    LatePoints();
    EarlyPoints(s);
    EarlyPoints(OwnerStep(s, step));
  }

  lemma OwnerEarly(s: State, step: Step)
    requires EarlyInv(s) && Asked(s.n.pc) && s.n.up
    ensures EarlyInv(OwnerStep(s, step))
  {
    if step.Fork? || step.Resume? || step.OpenGate? || step.GateFails? { MovedEarly(s, step); }
    if step.WaitPid? || step.GiveUp? { WaitingEarly(s, step); }
    hide Resumed, Acknowledged, Refused, Interrupted, ToFinally;
    SentEarly(s);
    LateFinally(s);
    if step in {SendFails, TakeAck, WaitFails, Interrupt, InterruptLate, RunFails} || step.Report? { AnswerEarly(s, step); }
  }

  lemma HandledEarly(s: State, acknowledged: bool)
    requires EarlyInv(s)
    ensures EarlyInv(Handled(s, acknowledged))
  {
    assert s.acks == [] ==> s.acks + [Register] == [Register];
  }

  lemma NextEarly(s: State, step: Step)
    requires EarlyInv(s) && Asked(s.n.pc)
    ensures EarlyInv(Next(s, step))
  {
    hide OwnerStep, Handled, EarlyInv;
    if s.n.up { OwnerEarly(s, step); }
    HandledEarly(s, true);
    HandledEarly(s, false);
    var t := Next(s, step);
    if t.n.pc == s.n.pc && t.requests == s.requests && t.acks == s.acks
       && t.p.ticket == s.p.ticket && t.p.stopped == s.p.stopped && t.p.retired == s.p.retired {
      EarlySame(s, t);
    }
  }

  lemma EarlySame(s: State, t: State)
    requires EarlyInv(s) && t.n.pc == s.n.pc && t.requests == s.requests && t.acks == s.acks
    requires t.p.ticket == s.p.ticket && t.p.stopped == s.p.stopped && t.p.retired == s.p.retired
    ensures EarlyInv(t)
  {
  }

  lemma {:induction false} RunEarly(s: State, steps: seq<Step>)
    requires Inv(s) && EarlyInv(s)
    ensures EarlyInv(Run(s, steps))
    decreases |steps|
  {
    hide TicketInv, ReportInv, KnownInv, EarlyInv, Asked;
    if steps != [] {
      NextKeeps(s, steps[0]);
      NextEarly(s, steps[0]);
      RunEarly(Next(s, steps[0]), steps[1..]);
    }
  }

  /** The owner's request, P's answer, and the owner taking it. */
  const ASK: seq<Step> := [SendNext, Handle, TakeAck]

  lemma RunThree(s: State, a: Step, b: Step, c: Step, rest: seq<Step>)
    ensures Run(s, [a, b, c] + rest) == Run(Next(Next(Next(s, a), b), c), rest)
  {
    assert ([a, b, c] + rest)[1..] == [b, c] + rest && ([b, c] + rest)[1..] == [c] + rest && ([c] + rest)[1..] == rest;
    var t := Next(s, a);
    assert Run(s, [a, b, c] + rest) == Run(t, [b, c] + rest) == Run(Next(t, b), [c] + rest);
  }

  lemma {:induction false} RunJoin(s: State, a: seq<Step>, b: seq<Step>)
    ensures Run(s, a + b) == Run(Run(s, a), b)
    decreases |a|
  {
    if a == [] {
      assert a + b == b;
    } else {
      assert (a + b)[1..] == a[1..] + b;
      RunJoin(Next(s, a[0]), a[1..], b);
    }
  }

  /** Nothing under way, and P is there. */
  predicate Calm(s: State) { s.n.up && s.p.mode == Serving && s.requests == [] && s.acks == [] }

  /** N asks, P records and acknowledges, N acts on it. */
  lemma Answered(s: State, site: Site, r: Request, p: Parent)
    requires Calm(s) && s.n.pc == Send(site, r) && Registered(s.p, r) == Some(p) && (r == TaskStop ==> s.s != Reaped)
    ensures Run(s, ASK) == Acknowledged(s.(n := s.n.(pc := Wait(site, r)), p := p, killed := s.killed || r == TaskStop), site, r)
  {
    hide Run, Next, Acknowledged, Registered;
    RunThree(s, SendNext, Handle, TakeAck, []);
    assert ASK + [] == ASK;
    var a := s.(n := s.n.(pc := Wait(site, r)), requests := [r]);
    Sends(s, site, r);
    var b := a.(requests := [], p := p, acks := [r], killed := s.killed || r == TaskStop);
    Records(a, r, p);
    assert b.(acks := []) == s.(n := s.n.(pc := Wait(site, r)), p := p, killed := s.killed || r == TaskStop);
    Takes(b, site, r);
    RunNone(Acknowledged(b.(acks := []), site, r));
  }

  lemma RunNone(s: State)
    ensures Run(s, []) == s
  {
  }

  lemma Sends(s: State, site: Site, r: Request)
    requires s.n.up && s.n.pc == Send(site, r) && s.requests == []
    ensures Next(s, SendNext) == s.(n := s.n.(pc := Wait(site, r)), requests := [r])
  {
    assert [] + [r] == [r];
    hide Acknowledged, Refused, Interrupted, Resumed, ToFinally;
  }

  lemma Records(s: State, r: Request, p: Parent)
    requires s.p.mode == Serving && s.requests == [r] && s.acks == [] && Registered(s.p, r) == Some(p) && (r == TaskStop ==> s.s != Reaped)
    ensures Next(s, Handle) == s.(requests := [], p := p, acks := [r], killed := s.killed || r == TaskStop)
  {
    hide OwnerStep;
    assert [] + [r] == [r] && [r][1..] == [];
    assert s.(late := s.late || false) == s;
  }

  lemma Takes(s: State, site: Site, r: Request)
    requires s.n.up && s.n.pc == Wait(site, r) && s.acks == [r]
    ensures Next(s, TakeAck) == Acknowledged(s.(acks := []), site, r)
  {
    assert [r][1..] == [];
    hide Acknowledged, Refused, Interrupted, Resumed, ToFinally;
  }

  /** A stop and a retirement that P answers leave N waiting for S, and P done with it. */
  lemma Stopped(s: State, site: Site)
    requires Calm(s) && s.n.pc == Send(site, TaskStop) && s.p.ticket && !s.p.stopped && !s.p.retired && s.s != Reaped
    ensures Run(s, ASK + ASK) == s.(n := s.n.(retirement := true, pc := Poll(site)), p := s.p.(stopped := true, retired := true),
        killed := true)
  {
    var p := s.p.(stopped := true);
    Answered(s, site, TaskStop, p);
    var t := s.(n := s.n.(pc := Send(site, Retiring(false))), p := p, killed := true);
    Answered(t, site, Retiring(false), p.(retired := true));
    RunJoin(s, ASK, ASK);
    hide Run;
  }

  lemma QuietRun(before: seq<Step>)
    requires var s := Run(START, before); s.n.up && s.n.pc in {Gate, Running} && s.p.mode == Serving
    ensures var s := Run(START, before);
      Calm(s) && Inv(s) && s.p.ticket && !s.p.stopped && !s.p.retired && s.s != Reaped && !s.n.reaped && !s.n.retirement
      && s.n.known == (s.n.pc == Running)
  {
    RunKeeps(START, before);
    RunEarly(START, before);
  }

  /** Whenever the run of a task fails while P serves, the next two requests that P answers stop the task
      and retire its ticket, and N then waits for S. */
  lemma FailedRunStops(before: seq<Step>)
    requires var s := Run(START, before); s.n.up && s.n.pc == Running && s.p.mode == Serving
    ensures var t := Run(START, before + ([RunFails] + (ASK + ASK)));
      t.killed && t.p.stopped && t.p.retired && t.n.pc == Poll(InFinally)
  {
    var s := Run(START, before);
    QuietRun(before);
    RunJoin(START, before, [RunFails] + (ASK + ASK));
    RunOne(s, RunFails, ASK + ASK);
    assert Next(s, RunFails) == s.(n := s.n.(pc := Send(InFinally, TaskStop)));
    Stopped(Next(s, RunFails), InFinally);
    hide Run;
  }

  lemma RunOne(s: State, step: Step, rest: seq<Step>)
    ensures Run(s, [step] + rest) == Run(Next(s, step), rest)
  {
    assert ([step] + rest)[1..] == rest;
  }

  /** The requests that follow a report, all of them answered. */
  function Asking(clean: bool): seq<Step> { if clean then ASK else ASK + ASK }

  lemma Reported(s: State, clean: bool)
    requires Calm(s) && s.n.pc == Running && s.p.ticket && !s.p.stopped && !s.p.retired && s.s != Reaped
    ensures Run(s, [Report(clean)] + Asking(clean)) ==
      s.(n := s.n.(report := Some(clean), retirement := true, pc := Poll(InMain)), p := s.p.(stopped := !clean, retired := true),
        killed := s.killed || !clean)
  {
    RunOne(s, Report(clean), Asking(clean));
    var a := s.(n := s.n.(report := Some(clean), pc := Send(InMain, if clean then Retiring(true) else TaskStop)));
    assert Next(s, Report(clean)) == a;
    if clean { Answered(a, InMain, Retiring(true), a.p.(retired := true)); } else { Stopped(a, InMain); }
    hide Run;
  }

  /** S exits, N waits for it and says so. */
  lemma Reaping(s: State)
    requires Calm(s) && s.n.pc == Poll(InMain) && s.n.known && s.p.ticket && s.s in {Alive, Zombie}
    ensures Run(s, [Exit] + ([WaitPid] + ASK)) == s.(s := Reaped, n := s.n.(reaped := true, pc := Settled))
  {
    hide Run, Next;
    RunOne(s, Exit, [WaitPid] + ASK);
    var c := s.(s := Zombie);
    Exits(s);
    RunOne(c, WaitPid, ASK);
    var d := c.(s := Reaped, n := c.n.(reaped := true, pc := Send(InMain, TaskReaped)));
    Waits(c);
    Answered(d, InMain, TaskReaped, d.p);
  }

  lemma Exits(s: State)
    requires s.s in {Alive, Zombie}
    ensures Next(s, Exit) == s.(s := Zombie)
  {
  }

  lemma Waits(s: State)
    requires s.n.up && s.n.pc == Poll(InMain) && s.s == Zombie
    ensures Next(s, WaitPid) == s.(s := Reaped, n := s.n.(reaped := true, pc := Send(InMain, TaskReaped)))
  {
    hide Acknowledged, Refused, Interrupted, Resumed, ToFinally;
  }

  /** A run that reports and exits, with every request answered: N has reaped S, and cleans up exactly
      if the report was clean; P stopped the task before exactly if it was not. */
  lemma ReportedRunEnds(before: seq<Step>, clean: bool)
    requires var s := Run(START, before); s.n.up && s.n.pc == Running && s.p.mode == Serving
    ensures var t := Run(START, before + (([Report(clean)] + Asking(clean)) + ([Exit] + ([WaitPid] + ASK))));
      t.n.pc == Settled && t.n.reaped && t.s == Reaped && t.p.retired && t.p.stopped == !clean && CleanupAuthorized(t.n) == clean
  {
    var s, first, rest := Run(START, before), [Report(clean)] + Asking(clean), [Exit] + ([WaitPid] + ASK);
    QuietRun(before);
    RunJoin(START, before, first + rest);
    RunJoin(s, first, rest);
    hide Run, Next, Asking;
    Reported(s, clean);
    Reaping(Run(s, first));
  }

  /** A task whose gate cannot be opened is stopped and retired by the next three answered requests. */
  lemma FailedStartStops(before: seq<Step>)
    requires var s := Run(START, before); s.n.up && s.n.pc == Gate && s.p.mode == Serving
    ensures var t := Run(START, before + ([GateFails] + ([Resume] + (ASK + (ASK + ASK)))));
      t.killed && t.p.stopped && t.p.retired && t.n.pc == Poll(InFork)
  {
    var s := Run(START, before);
    QuietRun(before);
    hide Run, Next;
    RunJoin(START, before, [GateFails] + ([Resume] + (ASK + (ASK + ASK))));
    RunOne(s, GateFails, [Resume] + (ASK + (ASK + ASK)));
    var a := s.(n := s.n.(pc := Closing));
    RunOne(a, Resume, ASK + (ASK + ASK));
    var b := s.(n := s.n.(pc := Send(InFork, Unconfirmed)));
    GateFailed(s);
    RunJoin(b, ASK, ASK + ASK);
    Answered(b, InFork, Unconfirmed, b.p);
    var c := b.(n := b.n.(pc := Send(InFork, TaskStop)));
    assert Run(b, ASK) == c;
    Stopped(c, InFork);
  }

  lemma GateFailed(s: State)
    requires s.n.up && s.n.pc == Gate
    ensures Next(s, GateFails) == s.(n := s.n.(pc := Closing))
    ensures Next(s.(n := s.n.(pc := Closing)), Resume) == s.(n := s.n.(pc := Send(InFork, Unconfirmed)))
  {
    hide Acknowledged, Refused, Interrupted, ToFinally;
  }
}
