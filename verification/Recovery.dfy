/** `recover_preparation`: a bounded stop of one VM after contact was lost, for every
    observer, every command and every clock that moves with the pauses. */
module Recovery {
  import opened Base

  const BUDGET: real := 120.0

  /** What binds a recovery to its VM. */
  datatype Identity = Identity(uuid: string, nonce: string, config: string, media: string)

  datatype Snapshot = Snapshot(identity: Identity, status: string)

  /** A call going out with the time it may take, an observation taken as valid, or a further round of
      one of the two watching loops. */
  datatype Event = Goes(at: real) | Asks(at: real, seconds: real) | Observed(at: real,
      snapshot: Snapshot) | Stops(at: real, force: bool, seconds: real)

  datatype Outcome = Outcome(stopped: bool, passed: bool, forcedStop: bool, cleanupErrors: seq<string>, events: seq<string>)

  function Min(a: real, b: real): real { if a < b then a else b }
  function Max(a: real, b: real): real { if a < b then b else a }

  // ---- The property of a trace ----

  /** No call is given time past the deadline. */
  predicate InBudget(e: Event, deadline: real) {
    (e.Asks? || e.Stops? ==> e.at < deadline && e.at + e.seconds <= deadline) && (e.Observed? ==> e.at < deadline)
  }

  /** The VM of the ticket was just seen in a state. */
  predicate SeenAs(trace: seq<Event>, i: int, ticket: Identity, status: string) {
    0 <= i < |trace| && trace[i].Observed? && trace[i].snapshot == Snapshot(ticket, status)
  }

  /** A forced stop has a request behind it, and leaves that request its grace. */
  predicate Graced(trace: seq<Event>, j: nat, start: real)
    requires j < |trace| && trace[j].Stops?
  {
    exists i :: 0 <= i < j && trace[i].Stops? && !trace[i].force && trace[j].at >= Min(trace[i].at + 80.0, start + 100.0)
  }

  /** Before the forced stop nobody watches longer than 100 s, and then not past the deadline. */
  predicate Awaited(trace: seq<Event>, i: nat, start: real)
    requires i < |trace|
  {
    trace[i].at < start + 100.0 || (trace[i].at < start + BUDGET && ForcedIn(trace[..i]))
  }

  predicate ForcedIn(trace: seq<Event>) { exists j | 0 <= j < |trace| :: trace[j].Stops? && trace[j].force }

  ghost predicate Disciplined(trace: seq<Event>, ticket: Identity, start: real) {
    && (forall i | 0 <= i < |trace| :: InBudget(trace[i], start + BUDGET))
    && (forall i | 0 <= i < |trace| && trace[i].Observed? :: trace[i].snapshot.identity == ticket)
    && (forall i | 0 <= i < |trace| && trace[i].Stops? :: SeenAs(trace, i - 1, ticket, "started"))
    && (forall i, j | 0 <= i < j < |trace| && trace[i].Stops? && trace[j].Stops? :: !trace[i].force && trace[j].force)
    && (forall j | 0 <= j < |trace| && trace[j].Stops? && trace[j].force :: Graced(trace, j, start))
    && (forall i | 0 <= i < |trace| && trace[i].Goes? :: Awaited(trace, i, start))
  }

  /** The stop operations of a trace, as the result lists them. */
  function Operations(trace: seq<Event>): seq<string> {
    if trace == [] then []
    else Operations(trace[..|trace| - 1]) +
         (var e := trace[|trace| - 1]; if e.Stops? then [if e.force then "--force" else "--request"] else [])
  }

  lemma OperationsSnoc(trace: seq<Event>, e: Event)
    ensures Operations(trace + [e]) == Operations(trace) + if e.Stops? then [if e.force then "--force" else "--request"] else []
  {
  }

  /** Which stop operations a trace holds, by their list. */
  ghost predicate Listed(trace: seq<Event>) {
    var ops := Operations(trace);
    && ops in [[], ["--request"], ["--request", "--force"]]
    && (ops == [] <==> forall i | 0 <= i < |trace| :: !trace[i].Stops?)
    && (ops == ["--request"] ==> forall i | 0 <= i < |trace| && trace[i].Stops? :: !trace[i].force)
    && (ops == ["--request", "--force"] ==> exists i | 0 <= i < |trace| :: trace[i].Stops? && trace[i].force)
  }

  lemma ListedSnoc(trace: seq<Event>, e: Event)
    requires Listed(trace)
    requires e.Stops? ==> (forall i | 0 <= i < |trace| && trace[i].Stops? :: !trace[i].force && e.force)
    requires e.Stops? && e.force ==> exists i | 0 <= i < |trace| :: trace[i].Stops?
    ensures Listed(trace + [e])
  {
    var all := trace + [e];
    OperationsSnoc(trace, e);
    assert all[|trace|] == e && forall i | 0 <= i < |trace| :: all[i] == trace[i];
    hide Operations;
    if !e.Stops? {
      assert Operations(all) == Operations(trace);
    } else if e.force {
      assert Operations(trace) == ["--request"];
      assert Operations(all) == ["--request", "--force"] && all[|trace|].Stops?;
    } else {
      assert Operations(trace) == [];
      assert Operations(all) == ["--request"] && all[|trace|].Stops?;
    }
    assert "--request" != "--force";
  }

  /** Disciplined traces issue nothing, one request, or one request and then one forced stop. */
  lemma {:induction false} AtMostTwo(trace: seq<Event>, ticket: Identity, start: real)
    requires Disciplined(trace, ticket, start)
    ensures Listed(trace)
  {
    if trace != [] {
      var before, e := trace[..|trace| - 1], trace[|trace| - 1];
      DisciplinedPrefix(trace, ticket, start);
      AtMostTwo(before, ticket, start);
      StopOrder(trace, ticket, start);
      hide Disciplined, Listed;
      assert forall i | 0 <= i < |before| :: before[i] == trace[i];
      ListedSnoc(before, e);
      assert trace == before + [e];
    }
  }

  /** The last event is a stop after others only if it is forced and they were not. */
  lemma StopOrder(trace: seq<Event>, ticket: Identity, start: real)
    requires Disciplined(trace, ticket, start) && trace != []
    ensures var e := trace[|trace| - 1];
            && (e.Stops? ==> forall i | 0 <= i < |trace| - 1 && trace[i].Stops? :: !trace[i].force && e.force)
            && (e.Stops? && e.force ==> Graced(trace, |trace| - 1, start))
  {
  }

  lemma DisciplinedPrefix(trace: seq<Event>, ticket: Identity, start: real)
    requires Disciplined(trace, ticket, start) && trace != []
    ensures Disciplined(trace[..|trace| - 1], ticket, start)
  {
    var before := trace[..|trace| - 1];
    assert forall i | 0 <= i < |before| :: before[..i] == trace[..i] && before[i] == trace[i];
  }

  /** Nothing was stopped between two traces. */
  predicate Looked(before: seq<Event>, after: seq<Event>) {
    before <= after && forall i | |before| <= i < |after| :: !after[i].Stops?
  }

  /** One stop call more, made by a time. */
  predicate Sent(before: seq<Event>, after: seq<Event>, force: bool, now: real) {
    && |after| == |before| + 1 && before <= after
    && after[|before|].Stops? && after[|before|].force == force && after[|before|].at <= now
  }

  /** A forced stop now would leave the request behind it its grace. */
  predicate MayForce(trace: seq<Event>, at: real, start: real) {
    && (forall i | 0 <= i < |trace| && trace[i].Stops? :: !trace[i].force)
    && exists i | 0 <= i < |trace| :: trace[i].Stops? && !trace[i].force && at >= Min(trace[i].at + 80.0, start + 100.0)
  }

  /** What an event before the last shows, it still shows. */
  lemma SameBefore(trace: seq<Event>, e: Event, ticket: Identity, start: real)
    ensures forall i | 0 <= i < |trace| :: SeenAs(trace + [e], i, ticket, "started") == SeenAs(trace, i, ticket, "started")
    ensures forall j | 0 <= j < |trace| && trace[j].Stops? && Graced(trace, j, start) :: Graced(trace + [e], j, start)
    ensures forall i | 0 <= i < |trace| :: Awaited(trace + [e], i, start) == Awaited(trace, i, start)
    ensures Awaited(trace + [e], |trace|, start) <==> e.at < start + 100.0 || (e.at < start + BUDGET && ForcedIn(trace))
  {
    var all := trace + [e];
    assert all[..|trace|] == trace && forall i | 0 <= i < |trace| :: all[..i] == trace[..i];
    forall j | 0 <= j < |trace| && trace[j].Stops? && Graced(trace, j, start) ensures Graced(all, j, start) {
      var i :| 0 <= i < j && trace[i].Stops? && !trace[i].force && trace[j].at >= Min(trace[i].at + 80.0, start + 100.0);
      assert all[i] == trace[i];
    }
  }

  lemma LooksSnoc(trace: seq<Event>, e: Event, ticket: Identity, start: real)
    requires Disciplined(trace, ticket, start) && InBudget(e, start + BUDGET) && !e.Stops?
        && (e.Observed? ==> e.snapshot.identity == ticket)
    requires e.Goes? ==> e.at < start + 100.0 || (e.at < start + BUDGET && ForcedIn(trace))
    ensures Disciplined(trace + [e], ticket, start) && Looked(trace, trace + [e]) && Operations(trace + [e]) == Operations(trace)
  {
    SameBefore(trace, e, ticket, start);
    var all := trace + [e];
    assert all[|trace|] == e && forall i | 0 <= i < |trace| :: all[i] == trace[i];
    hide Graced, Awaited, ForcedIn;
  }

  lemma StopsSnoc(trace: seq<Event>, e: Event, ticket: Identity, start: real)
    requires Disciplined(trace, ticket, start) && InBudget(e, start + BUDGET) && e.Stops? && SeenAs(trace, |trace| - 1, ticket, "started")
    requires if e.force then MayForce(trace, e.at, start) else forall i | 0 <= i < |trace| :: !trace[i].Stops?
    ensures Disciplined(trace + [e], ticket, start)
  {
    var all := trace + [e];
    SameBefore(trace, e, ticket, start);
    assert forall i | 0 <= i < |trace| :: all[i] == trace[i];
    assert SeenAs(all, |trace| - 1, ticket, "started");
    if e.force {
      var i :| 0 <= i < |trace| && trace[i].Stops? && !trace[i].force && e.at >= Min(trace[i].at + 80.0, start + 100.0);
      assert all[i].Stops? && Graced(all, |trace|, start);
    }
  }

  // ---- The world and the procedure ----

  /** Clock, observer and command: any answers, but a clock that never goes back and that pauses move. */
  class World {
    var now: real

    method Clock() returns (t: real)
      modifies this
      ensures t == now >= old(now)
    {
      var later: real := *;
      now := Max(now, later);
      t := now;
    }

    /** Any answer, or an exception, after any time. */
    method Observe(seconds: real) returns (r: Result<Snapshot>)
      modifies this
      ensures now >= old(now)
    {
      var t := Clock();
      r := *;
    }

    /** A good answer, or the text of what was wrong with it. */
    method Command(force: bool, seconds: real) returns (failure: Option<string>)
      modifies this
      ensures now >= old(now)
    {
      var t := Clock();
      failure := *;
    }

    method Pause(seconds: real)
      modifies this
      ensures now >= old(now) + Max(0.0, seconds)
    {
      now := now + Max(0.0, seconds);
      var t := Clock();
    }
  }

  class Rescue {
    const world: World
    const ticket: Identity
    const start: real
    const deadline: real
    var cleanupErrors: seq<string>
    var events: seq<string>
    var forcedStop: bool
    ghost var trace: seq<Event>
    /** No look has failed, and no stop has come too late to be sent. */
    ghost var lucky: bool

    ghost predicate Valid()
      reads this, world
    {
      && deadline == start + BUDGET && start <= world.now
      && Disciplined(trace, ticket, start) && events == Operations(trace)
    }

    constructor (w: World, t: Identity)
      modifies w
      ensures Valid() && world == w && ticket == t && lucky && trace == [] && cleanupErrors == [] && events == [] && !forcedStop
      ensures w.now >= start >= old(w.now)
    {
      world, ticket := w, t;
      var read := w.Clock();
      start, deadline := read, read + BUDGET;
      cleanupErrors, events, forcedStop, trace, lucky := [], [], false, [], true;
    }
  
    /** The last thing that happened is that the VM of the ticket was seen stopped. */
    ghost predicate StoppedLast()
      reads this
    {
      SeenAs(trace, |trace| - 1, ticket, "stopped")
    }

    /** `identity`: a valid look at the VM of the ticket, and whether it has stopped. */
    method Look() returns (r: Result<bool>)
      requires Valid()
      modifies `trace, `lucky, world
      ensures Valid() && world.now >= old(world.now) && Looked(old(trace), trace)
      ensures r.Ok? ==> SeenAs(trace, |trace| - 1, ticket, if r.value then "stopped" else "started")
      ensures lucky <==> old(lucky) && r.Ok?
      ensures r.Raised? ==> trace == old(trace) || (trace != [] && trace[|trace| - 1].Asks?)
    {
      hide Disciplined, Operations, Looked;
      ghost var before := lucky;
      lucky := false;
      var t := world.Clock();
      var remaining := deadline - t;
      LookedNone(trace);
      if remaining <= 0.0 { return Raised("host recovery deadline"); }
      LooksSnoc(trace, Asks(t, Min(5.0, remaining)), ticket, start);
      trace := trace + [Asks(t, Min(5.0, remaining))];
      var answer := world.Observe(Min(5.0, remaining));
      var back := world.Clock();
      if answer.Raised? { return Raised(answer.message); }
      if answer.value.identity != ticket { return Raised("VM/config/media recovery identity changed"); }
      if answer.value.status != "started" && answer.value.status != "stopped" { return Raised("unknown VM state"); }
      if back >= deadline { return Raised("late recovery observation"); }
      LooksSnoc(trace, Observed(back, answer.value), ticket, start);
      LookedOn(old(trace), trace, Observed(back, answer.value));
      trace := trace + [Observed(back, answer.value)];
      lucky := before;
      r := Ok(answer.value.status == "stopped");
    }

    /** `stop`: the power request or the forced stop, if there is time left to call at all. */
    method Stop(force: bool) returns (failure: Option<string>)
      requires Valid() && SeenAs(trace, |trace| - 1, ticket, "started")
      requires if force then world.now >= deadline || MayForce(trace, world.now, start) else forall i | 0 <= i < |trace| :: !trace[i].Stops?
      modifies `trace, `events, `lucky, world
      ensures Valid() && world.now >= old(world.now) && (lucky <==> old(lucky) && trace != old(trace))
      ensures if trace == old(trace) then world.now >= deadline && events == old(events)
              else Sent(old(trace), trace, force, world.now) && events == old(events) + [if force then "--force" else "--request"]
    {
      hide Disciplined, Operations;
      var t := world.Clock();
      var remaining := deadline - t;
      if remaining <= 0.0 {
        lucky := false;
        return Some("host recovery deadline");
      }
      var e := Stops(t, force, Min(10.0, remaining));
      StopsSnoc(trace, e, ticket, start);
      OperationsSnoc(trace, e);
      trace, events := trace + [e], events + [if force then "--force" else "--request"];
      var answer := world.Command(force, Min(10.0, remaining));
      var back := world.Clock();
      failure := if answer.Some? then answer else if back >= deadline then Some("late stop response") else None;
    }

    /** A loop of looks and pauses until a time; both of the source's loops have this shape. */
    method Watch(until: real, step: real) returns (r: Result<bool>)
      requires Valid() && step >= 2.0
      requires until <= start + 100.0 || (until <= deadline && (ForcedIn(trace) || world.now >= until))
      modifies `trace, `lucky, world
      ensures Valid() && world.now >= old(world.now) && Looked(old(trace), trace)
      ensures if r == Ok(true) then StoppedLast() else (old(StoppedLast()) || !StoppedLast())
      ensures r == Ok(false) ==> world.now >= until
      ensures lucky <==> old(lucky) && r.Ok?
    {
      hide Disciplined, Operations, Looked;
      LookedNone(trace);
      while true
        invariant Valid() && world.now >= old(world.now) && Looked(old(trace), trace)
            && (old(StoppedLast()) || !StoppedLast()) && lucky == old(lucky)
        invariant until <= start + 100.0 || ForcedIn(trace) || world.now >= until
        decreases if world.now < until then ((until - world.now) / 2.0).Floor + 1 else 0
      {
        ghost var since := world.now;
        var t := world.Clock();
        if t >= until { return Ok(false); }
        LooksSnoc(trace, Goes(t), ticket, start);
        LookedOn(old(trace), trace, Goes(t));
        trace := trace + [Goes(t)];
        ghost var before := trace;
        r := Look();
        LookedThen(old(trace), before, trace);
        if r.Raised? || r.value { return; }
        var later := world.Clock();
        world.Pause(Min(step, Max(0.0, until - later)));
        assert world.now >= until || world.now >= since + 2.0;
        assert world.now >= since + 2.0 ==> (until - world.now) / 2.0 <= (until - since) / 2.0 - 1.0;
      }
    }

    /** Up to the end of the grace: a look, the request, and looks until it is over. */
    method Graceful() returns (r: Result<bool>)
      requires Valid() && trace == [] && events == []
      modifies `trace, `events, `cleanupErrors, `lucky, world
      ensures Valid() && (r == Ok(true) <==> StoppedLast()) && "--force" !in events
      ensures r == Ok(false) ==> world.now >= deadline || MayForce(trace, world.now, start)
      ensures lucky ==> old(lucky) && r.Ok? && (r == Ok(false) ==> events == ["--request"])
    {
      hide Disciplined, Operations;
      r := Look();
      if r.Raised? || r.value { return; }
      ghost var before := trace;
      var failure := Stop(false);
      assert "--request" != "--force";
      if failure.Some? { cleanupErrors := cleanupErrors + [failure.value]; }
      ghost var sent := trace;
      var t := world.Clock();
      r := Watch(Min(t + 80.0, deadline - 20.0), 5.0);
      if r == Ok(false) && sent != before { GraceOver(before, sent, trace, world.now, start); }
    }

    /** The guarded part of the procedure: it ends with the VM seen stopped, or with an exception. */
    method Attempt() returns (r: Result<bool>)
      requires Valid() && trace == [] && events == [] && !forcedStop
      modifies this, world
      ensures Valid() && (r == Ok(true) <==> StoppedLast()) && (r.Raised? || r == Ok(true))
      ensures "--force" in events ==> forcedStop
      ensures old(lucky) && r.Raised? && events != ["--request", "--force"] ==> !lucky
    {
      hide Disciplined, Operations, MayForce, Looked;
      r := Graceful();
      if r.Raised? || r.value { return; }
      ghost var before, at := trace, world.now;
      r := Look();
      if r.Raised? || r.value { return; }
      if MayForce(before, at, start) { ForceLater(before, trace, at, world.now, start); }
      forcedStop := true;
      var failure := Stop(true);
      if failure.Some? { cleanupErrors := cleanupErrors + [failure.value]; }
      r := Watch(deadline, 2.0);
      if !r.Raised? && !r.value { r := Raised("VM stop unconfirmed at recovery deadline"); }
    }
  }

  /** Once the grace is over after a sent request, a forced stop may follow. */
  lemma GraceOver(before: seq<Event>, sent: seq<Event>, trace: seq<Event>, now: real, start: real)
    requires Looked([], before) && Sent(before, sent, false, now) && Looked(sent, trace)
    requires now >= Min(sent[|before|].at + 80.0, start + 100.0)
    ensures MayForce(trace, now, start)
  {
  }

  lemma ForceLater(before: seq<Event>, after: seq<Event>, at: real, now: real, start: real)
    requires MayForce(before, at, start) && Looked(before, after) && at <= now
    ensures MayForce(after, now, start)
  {
  }

  /** `recover_preparation` on a valid ticket: it ends; it calls inside its budget, at most one
      request and then at most one forced stop, each right after seeing the VM of the ticket
      running; it reports stopped exactly if it last saw that VM stopped, and never success.
      Unless a look fails or the time for a call is over, it does not give up before the forced stop. */
  method RecoverPreparation(w: World, ticket: Identity, startAttempted: bool)
    returns (r: Outcome, ghost start: real, ghost trace: seq<Event>, ghost lucky: bool)
    modifies w
    ensures Disciplined(trace, ticket, start) && start >= old(w.now)
    ensures !startAttempted ==> trace == []
    ensures r.events == Operations(trace) && r.events in [[], ["--request"], ["--request", "--force"]]
    ensures r.stopped <==> SeenAs(trace, |trace| - 1, ticket, "stopped")
    ensures startAttempted && lucky && !r.stopped ==> r.events == ["--request", "--force"]
    ensures !r.passed && ("--force" in r.events ==> r.forcedStop) && (!r.stopped ==> r.cleanupErrors != [])
  {
    start, trace, lucky := w.now, [], true;
    if !startAttempted {
      return Outcome(false, false, false, ["no start attempt; no VM action permitted"], []), start, trace, lucky;
    }
    var run := new Rescue(w, ticket);
    var ended := run.Attempt();
    start, trace, lucky := run.start, run.trace, run.lucky;
    AtMostTwo(trace, ticket, start);
    var errors := if ended.Raised? then run.cleanupErrors + [ended.message] else run.cleanupErrors;
    r := Outcome(ended == Ok(true), false, run.forcedStop, errors, run.events);
  }

  lemma LookedNone(trace: seq<Event>)
    ensures Looked(trace, trace)
  {
  }

  lemma LookedThen(a: seq<Event>, b: seq<Event>, c: seq<Event>)
    requires Looked(a, b) && Looked(b, c)
    ensures Looked(a, c)
  {
  }

  lemma LookedOn(a: seq<Event>, b: seq<Event>, e: Event)
    requires Looked(a, b) && !e.Stops?
    ensures Looked(a, b + [e])
  {
  }
}
