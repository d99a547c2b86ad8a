/** `Budget`: one absolute deadline divided so that no phase can use up a later
    phase's window. Clock values are reals. */
module Budget {
  import opened Base

  datatype Caps = Caps(init: real, start: real, readiness: real, active: real, watchdogCleanup: real,
                       watchdogReport: real, shutdown: real, persist: real, output: real, reap: real)

  const MAXIMA: Caps := Caps(6.0, 60.0, 60.0, 600.0, 25.0, 2.0, 120.0, 6.0, 2.0, 2.0)
  /** Eight separately charged cleanup slots. */
  const REAP_SLOTS: real := 8.0

  datatype Budget = Budget(caps: Caps, total: real, silence: real, worstSeconds: real)

  predicate WithinMaxima(c: Caps) {
    && 0.0 < c.init <= MAXIMA.init && 0.0 < c.start <= MAXIMA.start && 0.0 < c.readiness <= MAXIMA.readiness
    && 0.0 < c.active <= MAXIMA.active && 0.0 < c.watchdogCleanup <= MAXIMA.watchdogCleanup
    && 0.0 < c.watchdogReport <= MAXIMA.watchdogReport && 0.0 < c.shutdown <= MAXIMA.shutdown
    && 0.0 < c.persist <= MAXIMA.persist && 0.0 < c.output <= MAXIMA.output && 0.0 < c.reap <= MAXIMA.reap
  }

  function Min(a: real, b: real): real { if b < a then b else a }

  /** Everything but the active window: nine phases' caps and the eight slots. */
  function Fixed(c: Caps): real {
    c.init + c.start + c.readiness + c.watchdogCleanup + c.watchdogReport + c.shutdown + c.persist + c.output + REAP_SLOTS * c.reap
  }

  function MakeBudget(total: real, silence: real, caps: Caps): Result<Budget> {
    if !(0.0 < total <= 900.0) then Raised("lifecycle total budget")
    else if !WithinMaxima(caps) then Raised("lifecycle phase budget")
    else if !(caps.active > 6.0 && 0.0 < silence <= Min(15.0, caps.active)) then Raised("lifecycle lease/work budget")
    else
      var active := Min(caps.active, total - Fixed(caps));
      if active <= 6.0 then Raised("insufficient lifecycle cleanup reserves")
      else Ok(Budget(caps.(active := active), total, Min(silence, active), Fixed(caps) + active))
  }

  datatype Stage = Init | Start | Readiness | Active | Shutdown | Persist | Output

  function Cap(b: Budget, stage: Stage): real {
    match stage
    case Init => b.caps.init
    case Start => b.caps.start
    case Readiness => b.caps.readiness
    case Active => b.caps.active
    case Shutdown => b.caps.shutdown
    case Persist => b.caps.persist
    case Output => b.caps.output
  }

  function Rank(stage: Stage): nat {
    match stage case Init => 0 case Start => 1 case Readiness => 2 case Active => 3 case Shutdown => 4 case Persist => 5 case Output => 6
  }

  /** What is reserved for everything after `stage`. */
  function Tail(b: Budget, stage: Stage): real
    decreases 6 - Rank(stage)
  {
    var c := b.caps;
    match stage
    case Init => c.start + c.readiness + c.active + Tail(b, Active) + 3.0 * c.reap
    case Start => c.readiness + c.active + Tail(b, Active) + 2.0 * c.reap
    case Readiness => c.active + Tail(b, Active) + c.reap
    case Active => c.watchdogCleanup + c.watchdogReport + Tail(b, Shutdown) + c.shutdown + 3.0 * c.reap
    case Shutdown => c.persist + c.output + 2.0 * c.reap
    case Persist => c.output + c.reap
    case Output => 0.0
  }

  function Deadline(b: Budget, stage: Stage, now: real, absolute: real): real {
    Min(now + Cap(b, stage), absolute - Tail(b, stage))
  }

  ghost predicate Accepted(b: Budget) {
    exists total, silence, caps :: MakeBudget(total, silence, caps) == Ok(b)
  }

  /** The first cap and the first tail are the worst case, and the worst case fits. */
  lemma WorstCase(b: Budget)
    requires Accepted(b)
    ensures Cap(b, Init) + Tail(b, Init) == b.worstSeconds <= b.total <= 900.0
    ensures WithinMaxima(b.caps) && b.caps.active > 6.0 && 0.0 < b.silence <= Min(15.0, b.caps.active)
  {
  }

  /** Taking an accepted budget apart and building it again changes nothing
      (`fork_lifecycle` rebuilds its argument this way). */
  lemma RebuildIsIdentity(b: Budget)
    requires Accepted(b)
    ensures MakeBudget(b.total, b.silence, b.caps) == Ok(b)
  {
  }

  // ---- Whole schedules ----

  /** The seven stages in order with the seconds charged between a stage's own
      deadline and the start of the next: reap slots, and after `host` also the
      watchdog's cleanup and report. */
  const ORDER: seq<Stage> := [Init, Start, Readiness, Active, Shutdown, Persist, Output]

  function Between(b: Budget, i: nat): real
    requires i < 6
  {
    if i == 3 then b.caps.watchdogCleanup + b.caps.watchdogReport + 3.0 * b.caps.reap else b.caps.reap
  }

  /** When a stage began and when its own work stopped. */
  datatype Span = Span(begin: real, end: real)

  /** A run that starts with the clock, stops each stage's work by the deadline
      computed at its beginning, and takes no longer than charged in between. A stage
      that is skipped after a failure is a span of no length. */
  ghost predicate Scheduled(b: Budget, started: real, spans: seq<Span>) {
    && |spans| <= 7
    && (spans != [] ==> spans[0].begin == started)
    && (forall i | 0 <= i < |spans| :: spans[i].begin <= spans[i].end <= Deadline(b, ORDER[i], spans[i].begin, started + b.total))
    && (forall i | 0 <= i < |spans| - 1 :: spans[i].end <= spans[i + 1].begin <= spans[i].end + Between(b, i))
  }

  lemma TailStep(b: Budget, i: nat)
    requires i < 6
    ensures Tail(b, ORDER[i]) == Between(b, i) + Cap(b, ORDER[i + 1]) + Tail(b, ORDER[i + 1])
  {
  }

  /** Whatever the earlier stages did, each stage begins early enough for its full
      cap: its deadline is `begin + cap`, never the reserve. */
  lemma {:induction false} FullCap(b: Budget, started: real, spans: seq<Span>, i: nat)
    requires Accepted(b) && Scheduled(b, started, spans) && i < |spans|
    ensures Deadline(b, ORDER[i], spans[i].begin, started + b.total) == spans[i].begin + Cap(b, ORDER[i])
    ensures spans[i].end <= started + b.total - Tail(b, ORDER[i])
  {
    WorstCase(b);
    if i > 0 {
      FullCap(b, started, spans, i - 1);
      TailStep(b, i - 1);
      assert spans[i - 1].end <= spans[i - 1 + 1].begin <= spans[i - 1].end + Between(b, i - 1);
    }
  }

  /** So the last byte of output is written by the absolute deadline, in fact within the worst case. */
  lemma EndsInTime(b: Budget, started: real, spans: seq<Span>)
    requires Accepted(b) && Scheduled(b, started, spans) && |spans| == 7
    ensures spans[6].end <= started + b.total
    ensures forall i | 0 <= i < 7 :: spans[i].begin + Cap(b, ORDER[i]) <= started + b.total - Tail(b, ORDER[i])
  {
    forall i | 0 <= i < 7
      ensures spans[i].begin + Cap(b, ORDER[i]) <= started + b.total - Tail(b, ORDER[i])
    {
      FullCap(b, started, spans, i);
    }
    FullCap(b, started, spans, 6);
  }

  // ---- The host phase ----

  function ActiveUntil(b: Budget, now: real, absolute: real): real { Deadline(b, Active, now, absolute) }

  function PhaseUntil(b: Budget, now: real, absolute: real): real {
    var first := absolute - Tail(b, Shutdown) - b.caps.shutdown - 2.0 * b.caps.reap;
    Min(first, ActiveUntil(b, now, absolute) + b.caps.watchdogCleanup + b.caps.reap + b.caps.watchdogReport)
  }

  /** The reserve for shutdown never shortens the host phase: the second operand decides. */
  lemma PhaseUntilSecond(b: Budget, now: real, absolute: real)
    requires Accepted(b)
    ensures PhaseUntil(b, now, absolute) ==
      ActiveUntil(b, now, absolute) + b.caps.watchdogCleanup + b.caps.reap + b.caps.watchdogReport
    ensures PhaseUntil(b, now, absolute) + 2.0 * b.caps.reap + b.caps.shutdown + Tail(b, Shutdown) <= absolute
  {
  }

  /** `adapter` computes the transport's work at `now`; `run_transport` reads the clock again. */
  function TransportWork(activeUntil: real, now: real): Result<real> {
    var work := Min(594.0, activeUntil - now - 6.0);
    if work > 0.0 then Ok(work) else Raised("transport work window exhausted")
  }

  /** Work, four seconds of closing and two of output end within the active window
      exactly when the second clock reading is not late; the 594 s cut leaves slack. */
  lemma TransportFits(activeUntil: real, now: real, read: real)
    requires TransportWork(activeUntil, now).Ok? && now <= read
    ensures read + TransportWork(activeUntil, now).value + 4.0 + 2.0 <= activeUntil <==>
      read == now || read <= activeUntil - 600.0
    ensures read + TransportWork(activeUntil, now).value + 4.0 + 2.0 <= activeUntil + (read - now)
  {
  }

  /** A delayed second reading: the six seconds no longer fit. */
  lemma TransportOverrun()
    ensures TransportWork(100.0, 0.0) == Ok(94.0) && 1.0 + 94.0 + 4.0 + 2.0 > 100.0
  {
  }
}
