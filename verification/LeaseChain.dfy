/** The four-hop renewal protocol: lifecycle owner, host watchdog, UTM transport
    and guest supervisor, joined by FIFO pipes and by two mailbox slots that a
    reader can find half written. A frame or an acknowledgement is represented by
    its sequence number. Every process can stop at any step. */
module LeaseChain {
  import opened Base

  /** A slot as a reader sees it while a prefix overwrite is under way; module
      Mailbox shows that the bytes decode to nothing else. */
  datatype Slot = Blank | Torn | Holds(n: int)

  /** `_Owner.host`: `sequence` is the next number to send. */
  datatype Owner = Owner(sequence: int, pending: Option<int>, up: bool) {
    function HostAck(): int { sequence - 1 }
    function LastWritten(): int { if pending.Some? then pending.value else sequence - 1 }
  }

  datatype WatchdogPhase = Idle | Forward | Await | Report | Ended

  /** `fork_watchdog`: the accepted host lease, the last ACK relayed, and where `relay` stands. */
  datatype Watchdog = Watchdog(lease: int, relayed: int, phase: WatchdogPhase, up: bool)

  datatype TransportPhase = Initial | Readying | Writing | Serving

  /** `run_transport`. */
  datatype Transport = Transport(lease: int, previousAck: int, pending: Option<int>, phase: TransportPhase, native: bool, up: bool)

  /** `GuestMailbox` with the supervisor's `Lease`; `acking` while the ACK slot is being written. */
  datatype Guest = Guest(lease: int, seen: Option<int>, acking: bool, up: bool)

  /** The protocol checks of the four processes. */
  datatype Check =
    | HostAckBinding            // owner: not one ACK for the pending frame
    | HostLeaseFrame            // watchdog: several or stale frames
    | RenewalBeforeGuestAck     // watchdog: frame while relaying
    | RenewalAfterGuestEnd      // watchdog: frame after the transport closed
    | GuestAckBinding           // watchdog: not one ACK for its lease
    | TransportLeaseFrame       // transport: several or stale frames
    | RenewalBeforeReady        // transport: frame before native readiness
    | RenewalBeforeAck          // transport: frame while one is pending
    | TransportAckBinding       // transport: ACK neither pending nor previous
    | GuestLeaseFrame           // guest: stale frame

  /** Pipes: owner to watchdog, watchdog to transport, and the ACK pipes back. */
  datatype State = State(o: Owner, w: Watchdog, t: Transport, g: Guest,
                         control: seq<int>, guestControl: seq<int>, guestAcks: seq<int>, hostAcks: seq<int>,
                         leaseSlot: Slot, ackSlot: Slot, fired: Option<Check>)

  function Start(native: bool): State {
    State(Owner(0, None, true), Watchdog(-1, -1, Idle, true), Transport(-1, -1, None, Initial, native, true),
          Guest(-1, None, false, true), [], [], [], [], Blank, Blank, None)
  }

  datatype Step =
    | OwnerRenew | OwnerReceive
    | WatchdogAccept | WatchdogForward | WatchdogControl | WatchdogReceive | WatchdogReport | WatchdogEof
    | TransportAccept | TransportControl | TransportOpenWrite | TransportTear | TransportLand | TransportWritten | TransportReadAck
    | GuestRead | GuestTear | GuestLand | GuestWritten
    | StopOwner | StopWatchdog | StopTransport | StopGuest

  function Fire(s: State, c: Check): State { s.(fired := Some(c)) }

  /** The owner's half of `host`: stop-and-wait on matching host ACKs. */
  function OwnerStep(s: State, step: Step): State
    requires s.o.up
  {
    match step
    case OwnerRenew =>
      if s.o.pending.Some? then s
      else s.(o := s.o.(pending := Some(s.o.sequence)), control := s.control + [s.o.sequence])
    case OwnerReceive =>
      if s.hostAcks == [] then s
      else if |s.hostAcks| > 1 || s.o.pending != Some(s.hostAcks[0]) then Fire(s, HostAckBinding)
      else s.(o := s.o.(sequence := s.hostAcks[0] + 1, pending := None), hostAcks := [])
    case _ => s
  }

  /** `initial_lease`, `watch_transport` and `relay`. */
  function WatchdogStep(s: State, step: Step): State
    requires s.w.up
  {
    match step
    case WatchdogAccept =>
      if s.control == [] || s.w.phase !in {Idle, Ended} then s
      else if |s.control| > 1 || s.control[0] != s.w.lease + 1 then Fire(s, HostLeaseFrame)
      else if s.w.phase == Ended then Fire(s, RenewalAfterGuestEnd)
      else s.(w := s.w.(lease := s.control[0], phase := Forward), control := [])
    case WatchdogForward =>
      if s.w.phase != Forward then s
      else if !s.t.up then s.(w := s.w.(phase := Ended))
      else s.(w := s.w.(phase := Await), guestControl := s.guestControl + [s.w.lease])
    case WatchdogControl =>
      if s.w.phase != Await || s.control == [] then s else Fire(s, RenewalBeforeGuestAck)
    case WatchdogReceive =>
      if s.w.phase != Await || s.guestAcks == [] then s
      else if s.guestAcks != [s.w.lease] then Fire(s, GuestAckBinding)
      else s.(w := s.w.(phase := Report), guestAcks := [])
    case WatchdogReport =>
      if s.w.phase != Report then s
      else s.(w := s.w.(relayed := s.w.lease, phase := Idle), hostAcks := s.hostAcks + [s.w.lease])
    case WatchdogEof =>
      if s.w.phase == Await && s.guestAcks == [] && !s.t.up then s.(w := s.w.(phase := Ended)) else s
    case _ => s
  }

  /** `run_transport` after identification: initial lease, readiness, slot writes, ACK polling. */
  function TransportStep(s: State, step: Step): State
    requires s.t.up || InFlight(step)
  {
    match step
    case TransportAccept =>
      if s.guestControl == [] || s.t.phase !in {Initial, Serving} then s
      else if |s.guestControl| > 1 || s.guestControl[0] != s.t.lease + 1 then Fire(s, TransportLeaseFrame)
      else if s.t.phase == Initial then s.(t := s.t.(lease := s.guestControl[0], phase := Readying), guestControl := [])
      else if s.t.pending.Some? then Fire(s, RenewalBeforeAck)
      else s.(t := s.t.(lease := s.guestControl[0], pending := Some(s.guestControl[0]), phase := Writing), guestControl := [])
    case TransportControl =>
      if s.t.phase == Readying && s.t.native && s.guestControl != [] then Fire(s, RenewalBeforeReady) else s
    case TransportOpenWrite =>
      if s.t.phase != Readying then s else s.(t := s.t.(pending := Some(s.t.lease), phase := Writing))
    case TransportTear =>
      if s.t.phase == Writing && s.leaseSlot != Holds(s.t.lease) then s.(leaseSlot := Torn) else s
    case TransportLand =>
      if s.t.phase == Writing then s.(leaseSlot := Holds(s.t.lease)) else s
    case TransportWritten =>
      if s.t.phase == Writing && s.leaseSlot == Holds(s.t.lease) then s.(t := s.t.(phase := Serving)) else s
    case TransportReadAck =>
      if s.t.phase != Serving || s.t.pending.None? || !s.ackSlot.Holds? || s.ackSlot.n == s.t.previousAck then s
      else if Some(s.ackSlot.n) != s.t.pending then Fire(s, TransportAckBinding)
      else s.(t := s.t.(previousAck := s.ackSlot.n, pending := None), guestAcks := s.guestAcks + [s.ackSlot.n])
    case _ => s
  }

  /** `GuestMailbox.read_pending`, `Lease.feed` and `acknowledge`. */
  function GuestStep(s: State, step: Step): State
    requires s.g.up || InFlight(step)
  {
    match step
    case GuestRead =>
      if s.g.acking || !s.leaseSlot.Holds? || s.g.seen == Some(s.leaseSlot.n) then s
      else if s.leaseSlot.n != s.g.lease + 1 then Fire(s, GuestLeaseFrame)
      else s.(g := s.g.(lease := s.leaseSlot.n, seen := Some(s.leaseSlot.n), acking := true))
    case GuestTear =>
      if s.g.acking && s.ackSlot != Holds(s.g.lease) then s.(ackSlot := Torn) else s
    case GuestLand =>
      if s.g.acking then s.(ackSlot := Holds(s.g.lease)) else s
    case GuestWritten =>
      if s.g.acking && s.ackSlot == Holds(s.g.lease) then s.(g := s.g.(acking := false)) else s
    case _ => s
  }

  predicate OwnersStep(step: Step) { step.OwnerRenew? || step.OwnerReceive? }

  predicate WatchdogsStep(step: Step) {
    step.WatchdogAccept? || step.WatchdogForward? || step.WatchdogControl? || step.WatchdogReceive?
        || step.WatchdogReport? || step.WatchdogEof?
  }

  predicate TransportsStep(step: Step) {
    step.TransportAccept? || step.TransportControl? || step.TransportOpenWrite? || step.TransportTear? || step.TransportLand?
    || step.TransportWritten? || step.TransportReadAck?
  }

  predicate GuestsStep(step: Step) { step.GuestRead? || step.GuestTear? || step.GuestLand? || step.GuestWritten? }

  /** A slot write that was begun goes on without the process that began it. */
  predicate InFlight(step: Step) {
    step.TransportTear? || step.TransportLand? || step.GuestTear? || step.GuestLand?
  }

  /** One step; a step that is not enabled changes nothing. */
  function Next(s: State, step: Step): State {
    if OwnersStep(step) then (if s.o.up then OwnerStep(s, step) else s)
    else if WatchdogsStep(step) then (if s.w.up then WatchdogStep(s, step) else s)
    else if TransportsStep(step) then (if s.t.up || InFlight(step) then TransportStep(s, step) else s)
    else if GuestsStep(step) then (if s.g.up || InFlight(step) then GuestStep(s, step) else s)
    else match step
      case StopOwner => s.(o := s.o.(up := false))
      case StopWatchdog => s.(w := s.w.(up := false))
      case StopTransport => s.(t := s.t.(up := false))
      case StopGuest => s.(g := s.g.(up := false))
      case _ => s
  }

  function Run(s: State, steps: seq<Step>): State
    decreases |steps|
  {
    if steps == [] then s else Run(Next(s, steps[0]), steps[1..])
  }

  // ---- The global invariant ----

  function One(c: bool): int { if c then 1 else 0 }

  /** A slot that is being changed from the value before `n` to `n`. */
  predicate Changing(slot: Slot, n: int) {
    slot.Torn? || slot == Holds(n) || Before(slot, n)
  }

  predicate Before(slot: Slot, n: int) {
    if n <= 0 then slot.Blank? else slot == Holds(n - 1)
  }

  predicate HostSide(s: State) {
    && s.o.sequence >= 0
    && (s.o.pending.Some? ==> s.o.pending.value == s.o.sequence)
    && (s.control == [] || s.control == [s.o.LastWritten()])
    && s.w.lease == s.o.LastWritten() - |s.control|
    && (s.control != [] ==> s.w.phase == Idle)
    && (s.hostAcks == [] || s.hostAcks == [s.w.relayed])
    && s.w.relayed == s.o.HostAck() + |s.hostAcks|
    && s.w.lease == s.w.relayed + One(s.w.phase != Idle)
    && (s.hostAcks != [] ==> s.control == [])
    && (s.o.pending.None? ==> s.control == [] && s.hostAcks == [])
  }

  predicate TransportSide(s: State) {
    && (s.guestControl == [] || s.guestControl == [s.w.lease])
    && (s.guestAcks == [] || s.guestAcks == [s.w.lease])
    && (s.guestControl != [] || s.guestAcks != [] ==> s.w.phase in {Await, Ended})
    && (s.w.phase == Ended ==> !s.t.up)
    && s.t.previousAck == s.w.relayed + One(s.guestAcks != [] || s.w.phase == Report)
    && (s.w.phase != Ended ==> s.t.lease == s.w.lease - One(s.w.phase == Forward || s.guestControl != []))
    && s.t.previousAck <= s.t.lease <= s.w.lease
    && (s.guestControl != [] ==> s.t.lease == s.w.lease - 1)
    && match s.t.phase
       case Initial => s.t.lease == -1 && s.t.pending.None?
       case Readying => s.t.lease == 0 && s.t.previousAck == -1 && s.t.pending.None?
       case Writing => s.t.lease >= 0 && s.t.pending == Some(s.t.lease) && s.t.previousAck == s.t.lease - 1
       case Serving =>
         s.t.lease >= 0 && s.t.previousAck == s.t.lease - One(s.t.pending.Some?) && (s.t.pending.Some? ==> s.t.pending.value == s.t.lease)
  }

  predicate GuestSide(s: State) {
    && s.t.previousAck <= s.g.lease <= s.t.lease
    && (s.t.phase in {Initial, Readying} ==> s.leaseSlot == Blank && s.g.lease == -1)
    && (s.t.phase == Serving ==> s.leaseSlot == Holds(s.t.lease))
    && (s.t.phase == Writing ==> Changing(s.leaseSlot, s.t.lease))
    && (s.t.phase in {Writing, Serving} ==> s.g.lease >= s.t.lease - 1)
    && (s.t.phase == Writing && s.g.lease == s.t.lease ==> s.leaseSlot == Holds(s.t.lease))
    && s.g.seen == (if s.g.lease < 0 then None else Some(s.g.lease))
    && (s.g.acking ==> s.g.lease >= 0 && Changing(s.ackSlot, s.g.lease))
    && (!s.g.acking ==> s.ackSlot == (if s.g.lease < 0 then Blank else Holds(s.g.lease)))
    && (s.ackSlot != Holds(s.g.lease) && s.g.lease >= 0 ==> s.t.previousAck == s.g.lease - 1)
  }

  predicate Inv(s: State) {
    s.fired.None? && HostSide(s) && TransportSide(s) && GuestSide(s)
  }

  /** The order of the eight counters. */
  predicate Chain(s: State) {
    s.o.HostAck() <= s.w.relayed <= s.t.previousAck <= s.g.lease <= s.t.lease <= s.w.lease <= s.o.LastWritten() <= s.o.HostAck() + 1
  }

  lemma OwnerKeeps(s: State, step: Step)
    requires Inv(s) && s.o.up && OwnersStep(step)
    ensures Inv(OwnerStep(s, step))
  {
  }

  lemma WatchdogKeeps(s: State, step: Step)
    requires Inv(s) && s.w.up && WatchdogsStep(step)
    ensures Inv(WatchdogStep(s, step))
  {
  }

  lemma TransportKeeps(s: State, step: Step)
    requires Inv(s) && (s.t.up || InFlight(step)) && TransportsStep(step)
    ensures Inv(TransportStep(s, step))
  {
  }

  lemma GuestKeeps(s: State, step: Step)
    requires Inv(s) && (s.g.up || InFlight(step))
    ensures Inv(GuestStep(s, step))
  {
    GuestLeavesOthers(s, step);
    if step.GuestRead? { GuestReadKeeps(s); }
    hide HostSide, TransportSide;
  }

  /** The guest moves nothing that the owner, watchdog and transport look at besides the ACK slot. */
  lemma GuestLeavesOthers(s: State, step: Step)
    requires Inv(s) && (s.g.up || InFlight(step))
    ensures HostSide(GuestStep(s, step)) && TransportSide(GuestStep(s, step))
  {
    hide GuestSide, Changing;
  }

  /** A frame in the slot is the next one. */
  lemma GuestReadKeeps(s: State)
    requires Inv(s) && s.g.up
    ensures GuestSide(GuestStep(s, GuestRead)) && GuestStep(s, GuestRead).fired.None?
  {
    hide HostSide;
  }

  /** A process that stops breaks nothing. */
  lemma StopKeeps(s: State)
    requires Inv(s)
    ensures Inv(s.(o := s.o.(up := false))) && Inv(s.(w := s.w.(up := false)))
    ensures Inv(s.(t := s.t.(up := false))) && Inv(s.(g := s.g.(up := false)))
  {
  }

  lemma NextKeeps(s: State, step: Step)
    requires Inv(s)
    ensures Inv(Next(s, step))
  {
    hide HostSide, TransportSide, GuestSide, OwnerStep, WatchdogStep, TransportStep, GuestStep;
    StopKeeps(s);
    if OwnersStep(step) && s.o.up { OwnerKeeps(s, step); }
    else if WatchdogsStep(step) && s.w.up { WatchdogKeeps(s, step); }
    else if TransportsStep(step) && (s.t.up || InFlight(step)) { TransportKeeps(s, step); }
    else if GuestsStep(step) && (s.g.up || InFlight(step)) { GuestKeeps(s, step); }
  }

  lemma {:induction false} RunKeeps(s: State, steps: seq<Step>)
    requires Inv(s)
    ensures Inv(Run(s, steps))
    decreases |steps|
  {
    if steps != [] {
      NextKeeps(s, steps[0]);
      RunKeeps(Next(s, steps[0]), steps[1..]);
    }
  }

  /** In every interleaving, with any process stopping anywhere and its slot write
      landing later or never, no protocol check fires and the counters stay in order;
      an ACK the owner holds was accepted by the guest. */
  lemma RunSafety(native: bool, steps: seq<Step>)
    ensures var s := Run(Start(native), steps);
      s.fired.None? && Chain(s) && s.o.HostAck() <= s.g.lease
  {
    RunKeeps(Start(native), steps);
  }

  /** No counter goes back, and the guest accepts at most one number. */
  predicate Onward(s: State, n: State) {
    && s.g.lease <= n.g.lease <= s.g.lease + 1 && s.o.HostAck() <= n.o.HostAck() && s.w.relayed <= n.w.relayed
    && s.t.previousAck <= n.t.previousAck && s.t.lease <= n.t.lease && s.w.lease <= n.w.lease
  }

  lemma OwnerOnward(s: State, step: Step)
    requires Inv(s) && s.o.up && OwnersStep(step)
    ensures var n := OwnerStep(s, step);
            Onward(s, n) && (!step.OwnerRenew? ==> n.o.LastWritten() == s.o.LastWritten())
  {
  }

  lemma WatchdogOnward(s: State, step: Step)
    requires Inv(s) && s.w.up
    ensures Onward(s, WatchdogStep(s, step)) && WatchdogStep(s, step).o == s.o
  {
  }

  lemma TransportOnward(s: State, step: Step)
    requires Inv(s) && (s.t.up || InFlight(step))
    ensures Onward(s, TransportStep(s, step)) && TransportStep(s, step).o == s.o
  {
  }

  lemma GuestOnward(s: State, step: Step)
    requires Inv(s) && (s.g.up || InFlight(step))
    ensures Onward(s, GuestStep(s, step)) && GuestStep(s, step).o == s.o
  {
  }

  /** No counter goes back, and the guest accepts one number at a time: 0, 1, 2, ... */
  lemma StepMonotone(s: State, step: Step)
    requires Inv(s)
    ensures var n := Next(s, step);
      && Onward(s, n)
      && (!(step.OwnerRenew? && s.o.up) ==> n.o.LastWritten() == s.o.LastWritten())
      && (!s.o.up ==> !n.o.up)
  {
    hide Inv, OwnerStep, WatchdogStep, TransportStep, GuestStep;
    if OwnersStep(step) && s.o.up { OwnerOnward(s, step); }
    else if WatchdogsStep(step) && s.w.up { WatchdogOnward(s, step); }
    else if TransportsStep(step) && (s.t.up || InFlight(step)) { TransportOnward(s, step); }
    else if GuestsStep(step) && (s.g.up || InFlight(step)) { GuestOnward(s, step); }
  }

  lemma {:induction false} QuietOwner(s: State, steps: seq<Step>)
    requires Inv(s) && (!s.o.up || OwnerRenew !in steps)
    ensures Run(s, steps).o.LastWritten() == s.o.LastWritten() && s.g.lease <= Run(s, steps).g.lease
    decreases |steps|
  {
    if steps != [] {
      NextKeeps(s, steps[0]);
      StepMonotone(s, steps[0]);
      QuietOwner(Next(s, steps[0]), steps[1..]);
    }
  }

  /** Once the owner stops, or only stops writing, the guest accepts at most one more renewal. */
  lemma AtMostOneMore(native: bool, before: seq<Step>, after: seq<Step>)
    requires !Run(Start(native), before).o.up || OwnerRenew !in after
    ensures var s := Run(Start(native), before);
      s.g.lease <= Run(s, after).g.lease <= s.g.lease + 1 && Run(s, after).g.lease <= s.o.LastWritten()
  {
    var s := Run(Start(native), before);
    RunKeeps(Start(native), before);
    RunKeeps(s, after);
    QuietOwner(s, after);
  }

  /** Everybody up and nothing under way. */
  predicate Settled(s: State) {
    && Inv(s) && s.o.up && s.w.up && s.t.up && s.g.up
    && s.o.pending.None? && s.t.phase in {Initial, Serving} && s.t.pending.None? && !s.g.acking
  }

  const OUTWARD: seq<Step> := [OwnerRenew, WatchdogAccept, WatchdogForward]
  const DELIVER: seq<Step> := [TransportAccept, TransportOpenWrite, TransportLand, TransportWritten]
  const ACCEPT: seq<Step> := [GuestRead, GuestLand, GuestWritten]
  const RETURN: seq<Step> := [TransportReadAck, WatchdogReceive, WatchdogReport, OwnerReceive]

  /** The state after the frame `n` went out, was delivered and was accepted. */
  ghost predicate Accepted(s: State, n: int) {
    && Inv(s) && s.o.up && s.w.up && s.t.up && s.g.up && s.o.pending == Some(n) && s.w.phase == Await
    && s.t.phase == Serving && s.t.pending == Some(n) && !s.g.acking && s.g.lease == n && s.guestAcks == [] && s.hostAcks == []
  }

  lemma RunCons(s: State, step: Step, rest: seq<Step>)
    ensures Run(s, [step] + rest) == Run(Next(s, step), rest)
  {
  }

  lemma RunThree(s: State, a: Step, b: Step, c: Step)
    ensures Run(s, [a, b, c]) == Next(Next(Next(s, a), b), c)
  {
    RunCons(s, a, [b] + ([c] + []));
    RunCons(Next(s, a), b, [c] + []);
    RunCons(Next(Next(s, a), b), c, []);
    assert [a] + ([b] + ([c] + [])) == [a, b, c];
  }

  lemma RunFour(s: State, a: Step, b: Step, c: Step, d: Step)
    ensures Run(s, [a, b, c, d]) == Next(Next(Next(Next(s, a), b), c), d)
  {
    RunCons(s, a, [b, c, d]);
    RunThree(Next(s, a), b, c, d);
    assert [a] + [b, c, d] == [a, b, c, d];
  }

  lemma SendOut(s: State)
    requires Settled(s)
    ensures Run(s, OUTWARD) ==
      s.(o := s.o.(pending := Some(s.o.sequence)), w := s.w.(lease := s.o.sequence, phase := Await), guestControl := [s.o.sequence])
  {
    RunThree(s, OwnerRenew, WatchdogAccept, WatchdogForward);
  }

  lemma Deliver(s: State, n: int)
    requires s.t.up && s.t.phase in {Initial, Serving} && s.t.pending.None? && s.guestControl == [n] && n == s.t.lease + 1
    ensures Run(s, DELIVER) == s.(t := s.t.(lease := n, pending := Some(n), phase := Serving), guestControl := [], leaseSlot := Holds(n))
  {
    hide Next, Run;
    var a := TransportStep(s, TransportAccept);
    var b := TransportStep(a, TransportOpenWrite);
    assert b == s.(t := s.t.(lease := n, pending := Some(n), phase := Writing), guestControl := []);
    var c := TransportStep(b, TransportLand);
    assert c == b.(leaseSlot := Holds(n));
    TransportNext(s, TransportAccept);
    TransportNext(a, TransportOpenWrite);
    TransportNext(b, TransportLand);
    TransportNext(c, TransportWritten);
    RunFour(s, TransportAccept, TransportOpenWrite, TransportLand, TransportWritten);
  }

  lemma TransportNext(s: State, step: Step)
    requires s.t.up && TransportsStep(step)
    ensures Next(s, step) == TransportStep(s, step)
  {
    hide TransportStep;
  }

  lemma Accept(s: State, n: int)
    requires s.g.up && !s.g.acking && s.leaseSlot == Holds(n) && n == s.g.lease + 1 && s.g.seen != Some(n)
    ensures Run(s, ACCEPT) == s.(g := s.g.(lease := n, seen := Some(n)), ackSlot := Holds(n))
  {
  }

  lemma RoundOut(s: State)
    requires Settled(s)
    ensures Accepted(Run(s, OUTWARD + DELIVER + ACCEPT), s.o.sequence)
  {
    var n := s.o.sequence;
    RunSplit(s, OUTWARD + DELIVER, ACCEPT);
    RunSplit(s, OUTWARD, DELIVER);
    SendOut(s);
    Deliver(Run(s, OUTWARD), n);
    Accept(Run(Run(s, OUTWARD), DELIVER), n);
    RunKeeps(s, OUTWARD + DELIVER + ACCEPT);
  }

  lemma RoundBack(s: State, n: int)
    requires Accepted(s, n)
    ensures Settled(Run(s, RETURN)) && Run(s, RETURN).o.HostAck() == n == Run(s, RETURN).g.lease
  {
    RunFour(s, TransportReadAck, WatchdogReceive, WatchdogReport, OwnerReceive);
    RunKeeps(s, RETURN);
  }

  /** The checks do not hold vacuously: from every settled state a renewal makes its
      full round and is acknowledged, so any number of renewals can be. */
  lemma {:induction false} RenewalsComplete(s: State, rounds: nat) returns (steps: seq<Step>)
    requires Settled(s)
    ensures Settled(Run(s, steps)) && Run(s, steps).o.HostAck() == s.o.HostAck() + rounds
    decreases rounds
  {
    steps := [];
    if rounds > 0 {
      var out := OUTWARD + DELIVER + ACCEPT;
      RoundOut(s);
      RoundBack(Run(s, out), s.o.sequence);
      RunSplit(s, out, RETURN);
      var rest := RenewalsComplete(Run(s, out + RETURN), rounds - 1);
      RunSplit(s, out + RETURN, rest);
      steps := out + RETURN + rest;
    }
  }

  lemma {:induction false} RunSplit(s: State, a: seq<Step>, b: seq<Step>)
    ensures Run(s, a + b) == Run(Run(s, a), b)
    decreases |a|
  {
    if a == [] {
      assert a + b == b;
    } else {
      RunSplit(Next(s, a[0]), a[1..], b);
      assert (a + b)[1..] == a[1..] + b;
    }
  }
}
