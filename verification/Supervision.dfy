/** `supervise`: admission, release, cleanup and the report of one worker, against
    every behaviour of worker, boundary, guard, lease, exporter and signals. */
module Supervision {
  import opened Base

  /** What the next outside call does; after the last answer the lease has run out. */
  datatype Answer = Fine | No | Exit(code: int) | Raises(text: string)

  /** What a call asks for. */
  datatype Query = Lease | Groups | Vacant | Fork | Register | Attach | BindChild | SetupByte | Ready | Uncancelled | Boundary
    | PinExport | GoByte | Poll | Descendants | Kill | Exited | Populated | ReapAll | InTime | Postflight

  /** A call and what it was answered. */
  datatype Asked = Asked(query: Query, answer: Answer)

  /** The call raised or was refused; a worker that is not ready, running or not yet empty and reaped is
      no refusal, and a bad exit of the watched worker is one. */
  predicate Bad(x: Asked) {
    || x.answer.Raises?
    || (x.answer.No? && Strict(x.query))
    || (x.query.Poll? && x.answer.Exit? && x.answer.code != 0)
  }

  /** How many of the answers were bad. */
  function Bads(given: seq<Asked>): nat {
    if given == [] then 0 else Bads(given[..|given| - 1]) + if Bad(given[|given| - 1]) then 1 else 0
  }

  lemma BadsSnoc(given: seq<Asked>, x: Asked)
    ensures Bads(given + [x]) == Bads(given) + if Bad(x) then 1 else 0
  {
    assert (given + [x])[..|given|] == given;
  }

  /** A failure comes from the last answer, and has its text if it raised. */
  predicate Ended(given: seq<Asked>, failure: Option<string>) {
    failure.Some? ==> given != [] && Bad(given[|given| - 1])
                      && (given[|given| - 1].answer.Raises? ==> failure.value == given[|given| - 1].answer.text)
  }

  lemma EndedNone(given: seq<Asked>)
    ensures Ended(given, None)
  {
  }

  lemma EndedBy(given: seq<Asked>, x: Asked, text: string)
    requires Bad(x) && (x.answer.Raises? ==> text == x.answer.text)
    ensures Ended(given + [x], Some(text))
  {
  }

  /** The watched run ended with exit 0, no descendants and a live lease. */
  predicate EndsWell(given: seq<Asked>) {
    && |given| >= 3 && given[|given| - 3] == Asked(Poll, Exit(0))
    && given[|given| - 2].query == Descendants && !Bad(given[|given| - 2])
    && given[|given| - 1].query == Lease && !Bad(given[|given| - 1])
  }

  /** The last look saw the exit, an empty group and, with a subreaper, everything reaped. */
  predicate SeenDone(given: seq<Asked>, subreaper: bool, exit: Option<int>) {
    var n := |given|;
    if subreaper then
      && n >= 4 && given[n - 4].query == Exited && given[n - 3].query == Populated && given[n - 2].query == ReapAll
      && given[n - 1].query == Exited && given[n - 1].answer.Exit? && exit == Some(given[n - 1].answer.code)
      && !given[n - 3].answer.No? && !given[n - 3].answer.Raises? && !given[n - 2].answer.No? && !given[n - 2].answer.Raises?
    else
      && n >= 2 && given[n - 2].query == Exited && given[n - 2].answer.Exit? && exit == Some(given[n - 2].answer.code)
      && given[n - 1].query == Populated && !given[n - 1].answer.No? && !given[n - 1].answer.Raises?
  }

  /** What cleanup asked from the kill on, and what it reports: the kill and the last check of the groups
      were made, each of them has an error of its own exactly if it was bad, and without any error the
      last look before that check saw all done. */
  predicate CleanupAsked(given: seq<Asked>, killAt: nat, subreaper: bool, errors: seq<string>, exit: Option<int>) {
    var n := |given|;
    && killAt + 2 < n && given[killAt].query == Kill && given[n - 1].query == Postflight
    && (Bad(given[killAt]) <==> errors != [] && Starts(errors[0], "cgroup kill: "))
    && (Bad(given[killAt]) ==> Reports(errors[0], "cgroup kill: ", given[killAt], "short cgroup write"))
    && (Bad(given[n - 1]) <==> errors != [] && Starts(errors[|errors| - 1], "postflight: "))
    && (Bad(given[n - 1]) ==> Reports(errors[|errors| - 1], "postflight: ", given[n - 1], "cgroups changed"))
    && (errors == [] ==> SeenDone(given[..n - 1], subreaper, exit))
  }

  predicate Starts(error: string, step: string) { step <= error }

  /** A call that must succeed: a negative answer refuses it. */
  predicate Strict(query: Query) {
    !query.Ready? && !query.Poll? && !query.Exited? && !query.Populated? && !query.ReapAll?
  }

  lemma DoneTwo(given: seq<Asked>, a: Answer, b: Answer)
    requires a.Exit? && !b.No? && !b.Raises?
    ensures SeenDone(given + [Asked(Exited, a)] + [Asked(Populated, b)], false, Some(a.code))
  {
  }

  lemma DoneFour(given: seq<Asked>, a: Answer, b: Answer, c: Answer, d: Answer)
    requires !b.No? && !b.Raises? && !c.No? && !c.Raises? && d.Exit?
    ensures SeenDone(given + [Asked(Exited, a)] + [Asked(Populated, b)] + [Asked(ReapAll, c)] + [Asked(Exited, d)], true, Some(d.code))
  {
  }

  /** Observation changes the exit code, the population and the reaping only. */
  predicate Observed(was: Report, now: Report) {
    now.passed == was.passed && now.failure == was.failure && now.cleanupErrors == was.cleanupErrors && now.admitted == was.admitted
  }

  /** The text with which a bad answer is reported. */
  predicate Reports(error: string, step: string, x: Asked, refusal: string) {
    error == step + if x.answer.Raises? then x.answer.text else refusal
  }

  datatype Event = LeaseOk | GroupsOk | GroupEmpty | Spawned | Registered | Attached | Bound | SetupAdmitted
    | SetupReady | FullCheck | Pinned | Released | KillIssued

  datatype Report = Report(passed: bool, failure: Option<string>, cleanupErrors: seq<string>, admitted: bool,
                           workerExit: Option<int>, populationEmpty: bool, reaped: bool)

  const TEXT_LIMIT: nat := 2048

  /** Python's `not value["failure"]`: None and the empty text alike. */
  predicate NoFailure(failure: Option<string>) { failure.None? || failure.value == "" }

  /** `validate_supervision` on a bound report. */
  predicate ValidSupervision(r: Report) {
    && (r.failure.Some? ==> |r.failure.value| <= TEXT_LIMIT)
    && |r.cleanupErrors| <= 16 && (forall i | 0 <= i < |r.cleanupErrors| :: |r.cleanupErrors[i]| <= TEXT_LIMIT)
    && r.passed == (r.admitted && r.workerExit == Some(0) && r.populationEmpty && r.reaped && NoFailure(r.failure) && r.cleanupErrors == [])
  }

  predicate TextsFit(r: Report) { Fits(r.failure, r.cleanupErrors) }

  /** No failure or cleanup error is longer than a report may hold. */
  predicate Fits(failure: Option<string>, errors: seq<string>) {
    (failure.Some? ==> |failure.value| <= TEXT_LIMIT) && Short(errors)
  }

  predicate Short(errors: seq<string>) { forall i | 0 <= i < |errors| :: |errors[i]| <= TEXT_LIMIT }

  /** A text that `str(exc)` gives for an exception raised with a message. */
  predicate Sized(t: string) { 0 < |t| <= 2000 }

  // ---- What has to come before what ----

  /** The order of admission; each entry needs the one before it. */
  const CHAIN: seq<Event> := [LeaseOk, GroupsOk, GroupEmpty, Spawned, Attached, Bound, SetupAdmitted, SetupReady, FullCheck, Released]

  /** Every occurrence of `y` has an earlier `x`. */
  ghost predicate Needs(trace: seq<Event>, x: Event, y: Event) {
    forall j | 0 <= j < |trace| && trace[j] == y :: Earlier(trace, x, j)
  }

  ghost predicate Earlier(trace: seq<Event>, x: Event, j: nat)
    requires j <= |trace|
  {
    exists i :: 0 <= i < j && trace[i] == x
  }

  ghost predicate Ordered(trace: seq<Event>) {
    && (forall c | 0 <= c < |CHAIN| - 1 :: Needs(trace, CHAIN[c], CHAIN[c + 1]))
    && (forall j | 0 <= j < |trace| && trace[j] == Released :: j > 0 && trace[j - 1] == LeaseOk)
    && (forall i, j | 0 <= i < j < |trace| && trace[i] == trace[j] :: trace[i] in {LeaseOk, GroupsOk})
  }

  /** An event may follow a trace. */
  predicate MayFollow(trace: seq<Event>, e: Event) {
    && (e in {LeaseOk, GroupsOk} || e !in trace)
    && (e == GroupsOk ==> LeaseOk in trace) && (e == GroupEmpty ==> GroupsOk in trace) && (e == Spawned ==> GroupEmpty in trace)
    && (e == Attached ==> Spawned in trace) && (e == Bound ==> Attached in trace) && (e == SetupAdmitted ==> Bound in trace)
    && (e == SetupReady ==> SetupAdmitted in trace) && (e == FullCheck ==> SetupReady in trace)
    && (e == Released ==> FullCheck in trace && trace[|trace| - 1] == LeaseOk)
  }

  lemma OrderedSnoc(trace: seq<Event>, e: Event)
    requires Ordered(trace) && MayFollow(trace, e)
    ensures Ordered(trace + [e])
  {
    var t := trace + [e];
    forall c | 0 <= c < |CHAIN| - 1 ensures Needs(t, CHAIN[c], CHAIN[c + 1]) {
      assert Needs(trace, CHAIN[c], CHAIN[c + 1]);
      forall j | 0 <= j < |t| && t[j] == CHAIN[c + 1] ensures Earlier(t, CHAIN[c], j) {
        if j < |trace| {
          assert Earlier(trace, CHAIN[c], j);
          var i :| 0 <= i < j && trace[i] == CHAIN[c];
          assert t[i] == CHAIN[c];
        } else {
          assert CHAIN[c] in trace;
          var i :| 0 <= i < |trace| && trace[i] == CHAIN[c];
          assert t[i] == CHAIN[c];
        }
      }
    }
  }

  /** In an ordered trace, an event of the chain has the one above it before it. */
  lemma ChainStep(trace: seq<Event>, c: nat, j: nat)
    requires Ordered(trace) && 0 < c < |CHAIN| && j < |trace| && trace[j] == CHAIN[c]
    ensures Earlier(trace, CHAIN[c - 1], j)
  {
    assert Needs(trace, CHAIN[c - 1], CHAIN[c - 1 + 1]);
  }

  /** So it has all of the chain above it before it. */
  lemma {:induction false} ChainBefore(trace: seq<Event>, b: nat, c: nat, j: nat)
    requires Ordered(trace) && b < c < |CHAIN| && j < |trace| && trace[j] == CHAIN[c]
    ensures Earlier(trace, CHAIN[b], j)
    decreases c
  {
    hide Ordered, Needs;
    ChainStep(trace, c, j);
    if b < c - 1 {
      var i :| 0 <= i < j && trace[i] == CHAIN[c - 1];
      ChainBefore(trace, b, c - 1, i);
      var h :| 0 <= h < i && trace[h] == CHAIN[b];
    }
  }

  /** A release comes directly after an accepted lease, and after the empty group, the
      spawn, the attach, the setup and the full check, in that order and once each. */
  lemma ReleaseJustified(trace: seq<Event>, j: nat) returns (empty: nat, spawned: nat, attached: nat, ready: nat, checked: nat)
    requires Ordered(trace) && j < |trace| && trace[j] == Released
    ensures empty < spawned < attached < ready < checked < j - 1 && trace[j - 1] == LeaseOk
    ensures trace[empty] == GroupEmpty && trace[spawned] == Spawned && trace[attached] == Attached
    ensures trace[ready] == SetupReady && trace[checked] == FullCheck
    ensures forall i | 0 <= i < |trace| :: trace[i] == Released ==> i == j
    ensures forall i | 0 <= i < |trace| :: trace[i] == Spawned ==> i == spawned
  {
    hide Needs;
    checked := Previous(trace, 9, j, 8);
    ready := Previous(trace, 8, checked, 7);
    attached := Previous(trace, 7, ready, 4);
    spawned := Previous(trace, 4, attached, 3);
    empty := Previous(trace, 3, spawned, 2);
  }

  lemma Previous(trace: seq<Event>, c: nat, j: nat, b: nat) returns (i: nat)
    requires Ordered(trace) && b < c < |CHAIN| && j < |trace| && trace[j] == CHAIN[c]
    ensures i < j && trace[i] == CHAIN[b]
  {
    ChainBefore(trace, b, c, j);
    i :| 0 <= i < j && trace[i] == CHAIN[b];
  }

  /** Admission has gone exactly `c` steps down the chain. */
  predicate Reached(trace: seq<Event>, c: nat) { c <= |CHAIN| && forall i | 0 <= i < |CHAIN| :: CHAIN[i] in trace <==> i < c }

  lemma ReachedNone()
    ensures Reached([], 0)
  {
  }

  /** The next step of the chain may follow, and takes admission one step on. */
  lemma ReachedNext(trace: seq<Event>, c: nat)
    requires Ordered(trace) && Reached(trace, c) && c < |CHAIN| && (c == 9 ==> trace != [] && trace[|trace| - 1] == LeaseOk)
    ensures Ordered(trace + [CHAIN[c]]) && Reached(trace + [CHAIN[c]], c + 1)
  {
    assert CHAIN[c] !in trace && (c > 0 ==> CHAIN[c - 1] in trace);
    assert MayFollow(trace, CHAIN[c]) by { hide Ordered; }
    OrderedSnoc(trace, CHAIN[c]);
    hide Ordered, MayFollow;
  }

  /** The next step of the chain was taken, or none. */
  predicate Grown(before: seq<Event>, after: seq<Event>, c: nat, taken: bool)
    requires c < |CHAIN|
  {
    after == if taken then before + [CHAIN[c]] else before
  }

  /** Lease and group checks may be repeated, and the steps outside the chain taken once. */
  lemma ReachedAlso(trace: seq<Event>, c: nat, e: Event)
    requires Ordered(trace) && Reached(trace, c) && c >= 2
        && (e in {LeaseOk, GroupsOk} || (e in {Registered, Pinned, KillIssued} && e !in trace))
    ensures Ordered(trace + [e]) && Reached(trace + [e], c)
  {
    assert CHAIN[0] in trace;
    assert MayFollow(trace, e) by { hide Ordered; }
    OrderedSnoc(trace, e);
    hide Ordered, MayFollow;
  }

  // ---- What a script comes to ----

  /** The answer to call `i`; past the end of the script the lease has run out. */
  function Reply(script: seq<Answer>, i: nat): Answer { if i < |script| then script[i] else Raises("absolute preparation deadline") }

  function Ahead(script: seq<Answer>, i: nat): nat { if i < |script| then i + 1 else i }

  /** The failure of a call that must succeed. */
  function Said(a: Answer, refusal: string): Option<string> {
    if a.Raises? then Some(a.text) else if a.No? then Some(refusal) else None
  }

  /** Where admission and the watched run stand: the failure, the steps down the chain, the next
      call, and the exit code seen. */
  datatype Progress = Progress(failure: Option<string>, c: nat, next: nat, exit: Option<int>)

  /** One more call that must succeed, and that is a step of the chain or not. */
  function Call(script: seq<Answer>, p: Progress, refusal: string, step: bool): (q: Progress)
    ensures q.next >= p.next && q.exit == p.exit && p.c <= q.c && (p.failure.Some? ==> q == p)
    ensures q.failure.None? ==> q.next > p.next || p.next >= |script|
  {
    if p.failure.Some? then p
    else
      var f := Said(Reply(script, p.next), refusal);
      Progress(f, if f.None? && step then p.c + 1 else p.c, Ahead(script, p.next), p.exit)
  }

  function Binding(script: seq<Answer>, registers: bool, p: Progress): Progress {
    var q := if registers then Call(script, p, "worker registration", false) else p;
    Call(script, Call(script, Call(script, q, "child cgroup admission failed", true),
                      "one owned blocked worker required", true), "setup admission short write", true)
  }

  function Starting(script: seq<Answer>): Progress {
    var p := Call(script, Call(script, Progress(None, 0, 0, None), "lease refused", true), "worker cgroup already in use", true);
    Call(script, Call(script, p, "worker cgroup not empty before admission", true), "worker fork", true)
  }

  function Admission(script: seq<Answer>, registers: bool): Progress { Binding(script, registers, Starting(script)) }

  lemma BindingFailed(script: seq<Answer>, registers: bool, p: Progress)
    ensures p.failure.Some? ==> Binding(script, registers, p) == p
  {
  }

  /** The wait for setup, under the lease. */
  function Readiness(script: seq<Answer>, p: Progress): Progress
    decreases |script| - p.next
  {
    var a := Reply(script, p.next);
    if p.failure.Some? then p
    else if a.Raises? then p.(failure := Some(a.text), next := Ahead(script, p.next))
    else if a.No? then
      var q := Call(script, p.(next := Ahead(script, p.next)), "supervisor cancelled during setup", false);
      Readiness(script, Call(script, Call(script, q, "lease refused", false), "cgroups changed", false))
    else p.(c := p.c + 1, next := Ahead(script, p.next))
  }

  function Permitting(script: seq<Answer>, p: Progress): Progress {
    Call(script, Call(script, Call(script, p, "lease refused", false), "supervisor cancelled before release", false),
         "admission short write", true)
  }

  function Releasing(script: seq<Answer>, exports: bool, p: Progress): Progress {
    var q := Call(script, Readiness(script, p), "preparation boundary identity changed", true);
    Permitting(script, if exports then Call(script, q, "export directory identity changed", false) else q)
  }

  /** The watched run. */
  function Watched(script: seq<Answer>, p: Progress): Progress
    decreases |script| - p.next
  {
    var q := Call(script, Call(script, Call(script, p, "supervisor cancelled", false), "lease refused", false), "cgroups changed", false);
    var a := Reply(script, q.next);
    var r := q.(next := Ahead(script, q.next));
    if q.failure.Some? then q
    else if a.Raises? then r.(failure := Some(a.text))
    else if a.Exit? then
      if a.code != 0 then r.(failure := Some("preparation worker failed"), exit := Some(a.code))
      else Call(script, Call(script, r.(exit := Some(0)), "worker descendants remain", false), "lease refused", false)
    else Watched(script, r)
  }

  /** Everything up to cleanup. */
  function Attempted(script: seq<Answer>, registers: bool, exports: bool): Progress {
    var p := Admission(script, registers);
    var q := if p.failure.Some? then p else Releasing(script, exports, p);
    if q.failure.Some? then q else Watched(script, q)
  }

  /** Where cleanup stands. */
  datatype Settling = Settling(errors: seq<string>, next: nat, exit: Option<int>, empty: bool, reaped: bool)

  /** What one look at exit, population and reaping brings. */
  datatype Sight = Sight(raised: Option<string>, done: bool, state: Settling)

  /** A guarded step of cleanup. */
  function Noted(script: seq<Answer>, s: Settling, step: string, refusal: string): Settling {
    s.(errors := s.errors + Complaint(Reply(script, s.next), step, refusal), next := Ahead(script, s.next))
  }

  function Complaint(a: Answer, step: string, refusal: string): seq<string> {
    if a.Raises? then [step + a.text] else if a.No? then [step + refusal] else []
  }

  function Code(a: Answer): Option<int> { if a.Exit? then Some(a.code) else None }

  /** Exit and population, and with a subreaper also reaping and the exit once more. */
  function Seen(script: seq<Answer>, subreaper: bool, s: Settling): (l: Sight)
    ensures l.raised.None? ==> s.next < l.state.next <= |script|
    ensures l.done ==> l.raised.None? && l.state.empty && l.state.reaped && l.state.exit.Some?
  {
    var i := s.next;
    var a := Reply(script, i);
    var b := Reply(script, Ahead(script, i));
    var s2 := s.(next := Ahead(script, Ahead(script, i)));
    if a.Raises? then Sight(Some(a.text), false, s.(next := Ahead(script, i)))
    else if b.Raises? then Sight(Some(b.text), false, s2)
    else if subreaper then Swept(script, s2, !b.No?)
    else Sighted(s2, Code(a), !b.No?, a.Exit?)
  }

  /** A subreaper reaps everything and asks for the exit once more. */
  function Swept(script: seq<Answer>, s: Settling, empty: bool): (l: Sight)
    ensures l.state.next >= s.next && (l.raised.None? ==> l.state.next <= |script| || s.next > |script|)
    ensures l.done ==> l.raised.None? && l.state.empty && l.state.reaped && l.state.exit.Some?
  {
    var c := Reply(script, s.next);
    var t := s.(next := Ahead(script, s.next));
    var d := Reply(script, t.next);
    var u := t.(next := Ahead(script, t.next));
    if c.Raises? then Sight(Some(c.text), false, t)
    else if d.Raises? then Sight(Some(d.text), false, u)
    else Sighted(u, Code(d), empty, !c.No?)
  }

  function Sighted(s: Settling, code: Option<int>, empty: bool, reaped: bool): Sight {
    Sight(None, empty && reaped && code.Some?, s.(exit := if code.Some? then code else s.exit, empty := empty, reaped := reaped))
  }

  /** Looks until all is done, one raises, or the time is over. */
  function Drained(script: seq<Answer>, subreaper: bool, s: Settling): Settling
    decreases |script| - s.next
  {
    var l := Seen(script, subreaper, s);
    if l.raised.Some? then l.state.(errors := s.errors + ["cleanup observation: " + l.raised.value])
    else if l.done then l.state
    else
      var a := Reply(script, l.state.next);
      var t := l.state.(next := Ahead(script, l.state.next));
      if a.Raises? || a.No? then t.(errors := s.errors + ["population/reaping deadline"]) else Drained(script, subreaper, t)
  }

  /** All of cleanup. */
  function Settled(script: seq<Answer>, subreaper: bool, s: Settling): Settling {
    Noted(script, Drained(script, subreaper, Noted(script, s, "cgroup kill: ", "short cgroup write")), "postflight: ", "cgroups changed")
  }

  /** What cleanup comes to after an attempt; without a spawned worker there is none. */
  function Ending(script: seq<Answer>, subreaper: bool, p: Progress): Settling {
    var s := Settling([], p.next, p.exit, false, false);
    if p.c > 3 then Settled(script, subreaper, s) else s
  }

  /** The texts fit into a report. */
  predicate Fitting(script: seq<Answer>, registers: bool, exports: bool, subreaper: bool) {
    var p := Attempted(script, registers, exports);
    Fits(p.failure, Ending(script, subreaper, p).errors)
  }

  /** The one way to a report that contradicts itself: between attach and release a call raises
      without a text, and then cleanup finds nothing wrong and a worker that exited with 0. */
  predicate Slipped(script: seq<Answer>, registers: bool, exports: bool, subreaper: bool) {
    var p := Attempted(script, registers, exports);
    var s := Ending(script, subreaper, p);
    Slips(p.failure, p.c, s.errors, s.exit)
  }

  predicate Slips(failure: Option<string>, c: nat, errors: seq<string>, exit: Option<int>) {
    failure == Some("") && 5 <= c < 10 && errors == [] && exit == Some(0)
  }

  /** A worker that was not released does not exit with 0: a `ForkWorker` whose gate closes exits 2. */
  predicate Gated(script: seq<Answer>, registers: bool, exports: bool) {
    var p := Attempted(script, registers, exports);
    p.c < 10 ==> forall i | p.next <= i < |script| :: script[i] != Exit(0)
  }

  /** The next `n` answers raise nothing and refuse nothing. */
  predicate Accepts(script: seq<Answer>, from: nat, n: nat) {
    forall i | from <= i < from + n :: Taken(script, i)
  }

  predicate Taken(script: seq<Answer>, i: nat) { !Reply(script, i).Raises? && !Reply(script, i).No? }

  /** Admission goes through exactly if each of its seven calls, or eight with a registration, is accepted. */
  lemma AdmissionExactly(script: seq<Answer>, registers: bool)
    ensures var p, n := Admission(script, registers), if registers then 8 else 7;
      && (p.failure.None? <==> Accepts(script, 0, n)) && (p.failure.None? ==> p.c == 7 && p.next == n)
  {
    StartingExactly(script);
    BindingExactly(script, registers, Starting(script));
    hide Starting, Binding;
  }

  lemma StartingExactly(script: seq<Answer>)
    ensures var p := Starting(script);
      (p.failure.None? <==> Accepts(script, 0, 4)) && (p.failure.None? ==> p.c == 4 && p.next == 4)
  {
    FiveMore(script, 0);
    hide Accepts;
  }

  lemma FiveMore(script: seq<Answer>, from: nat)
    ensures Accepts(script, from, 0)
    ensures Accepts(script, from, 1) <==> Taken(script, from)
    ensures Accepts(script, from, 2) <==> Taken(script, from) && Taken(script, from + 1)
    ensures Accepts(script, from, 3) <==> Taken(script, from) && Taken(script, from + 1) && Taken(script, from + 2)
    ensures Accepts(script, from, 4) <==> Accepts(script, from, 3) && Taken(script, from + 3)
    ensures Accepts(script, from, 5) <==> Accepts(script, from, 4) && Taken(script, from + 4)
  {
  }

  lemma BindingExactly(script: seq<Answer>, registers: bool, p: Progress)
    ensures var q, n := Binding(script, registers, p), if registers then 4 else 3;
      && (q.failure.None? <==> p.failure.None? && Accepts(script, p.next, n))
      && (q.failure.None? ==> q.c == p.c + 3 && q.next == p.next + n)
  {
    FiveMore(script, p.next);
    hide Accepts;
  }

  /** Once setup is ready, the release goes through exactly if the boundary, the pin of an export, the lease,
      the check for a signal and the byte itself are all accepted. */
  lemma ReleasingExactly(script: seq<Answer>, exports: bool, p: Progress)
    requires Readiness(script, p).failure.None?
    ensures var q, r, n := Readiness(script, p), Releasing(script, exports, p), if exports then 5 else 4;
      && (r.failure.None? <==> Accepts(script, q.next, n)) && (r.failure.None? ==> r.c == q.c + 2 && r.next == q.next + n)
  {
    FiveMore(script, Readiness(script, p).next);
    hide Readiness, Accepts;
  }

  lemma {:induction false} ReadinessKeeps(script: seq<Answer>, p: Progress)
    ensures var q := Readiness(script, p); q.exit == p.exit && (q.failure.None? ==> q.c == p.c + 1)
    decreases |script| - p.next
  {
    var a := Reply(script, p.next);
    if p.failure.None? && a.No? {
      var q := Call(script, p.(next := Ahead(script, p.next)), "supervisor cancelled during setup", false);
      ReadinessKeeps(script, Call(script, Call(script, q, "lease refused", false), "cgroups changed", false));
    }
  }

  lemma {:induction false} WatchedKeeps(script: seq<Answer>, p: Progress)
    ensures Watched(script, p).c == p.c
    decreases |script| - p.next
  {
    var q := Call(script, Call(script, Call(script, p, "supervisor cancelled", false), "lease refused", false), "cgroups changed", false);
    var a := Reply(script, q.next);
    if q.failure.None? && !a.Raises? && !a.Exit? { WatchedKeeps(script, q.(next := Ahead(script, q.next))); }
  }

  /** Before the release nobody has asked for the exit code. */
  lemma UnreleasedUnseen(script: seq<Answer>, registers: bool, exports: bool)
    ensures var p := Attempted(script, registers, exports); p.c < 10 ==> p.exit.None?
  {
    var p := Admission(script, registers);
    assert p.exit.None? && (p.failure.None? ==> p.c == 7);
    ReadinessKeeps(script, p);
    var q := Releasing(script, exports, p);
    assert q.exit == p.exit && (p.failure.None? && q.failure.None? ==> q.c == 10);
    hide Admission, Releasing;
    WatchedKeeps(script, q);
  }

  lemma {:induction false} DrainedGated(script: seq<Answer>, subreaper: bool, s: Settling)
    requires s.exit != Some(0) && forall i | s.next <= i < |script| :: script[i] != Exit(0)
    ensures Drained(script, subreaper, s).exit != Some(0)
    decreases |script| - s.next
  {
    var l := Seen(script, subreaper, s);
    var a := Reply(script, l.state.next);
    if l.raised.None? && !l.done && !a.Raises? && !a.No? { DrainedGated(script, subreaper, l.state.(next := Ahead(script, l.state.next))); }
  }

  /** Behind the closed gate of a `ForkWorker`, the report never contradicts itself. */
  lemma GatedNeverSlips(script: seq<Answer>, registers: bool, exports: bool, subreaper: bool)
    requires Gated(script, registers, exports)
    ensures !Slipped(script, registers, exports, subreaper)
  {
    var p := Attempted(script, registers, exports);
    UnreleasedUnseen(script, registers, exports);
    if 3 < p.c < 10 {
      DrainedGated(script, subreaper, Noted(script, Settling([], p.next, p.exit, false, false), "cgroup kill: ", "short cgroup write"));
    }
    hide Attempted, Drained;
  }

  /** `bind_worker` raises without a text, the kill succeeds, and the look after it finds an exit with 0. */
  const SLIPPING: seq<Answer> := [Fine, Fine, Fine, Fine, Fine, Raises(""), Fine, Exit(0), Fine, Fine]

  /** Such a run exists, and every text of it fits: its report says passed and not admitted. */
  lemma SlippingRun()
    ensures Slipped(SLIPPING, false, false, false) && Fitting(SLIPPING, false, false, false)
  {
    var p := Attempted(SLIPPING, false, false);
    assert p == Progress(Some(""), 5, 6, None) by {
      var q := Call(SLIPPING, Call(SLIPPING, Progress(None, 0, 0, None), "lease refused", true), "worker cgroup already in use", true);
      assert q == Progress(None, 2, 2, None);
      q := Call(SLIPPING, Call(SLIPPING, q, "worker cgroup not empty before admission", true), "worker fork", true);
      assert q == Progress(None, 4, 4, None);
    }
    var s := Noted(SLIPPING, Settling([], 6, None, false, false), "cgroup kill: ", "short cgroup write");
    assert s == Settling([], 7, None, false, false);
    assert Drained(SLIPPING, false, s) == Settling([], 9, Some(0), true, true);
  }

  class Supervisor {
    const script: seq<Answer>
    const registers: bool
    const exports: bool
    const subreaper: bool
    var next: nat
    var trace: seq<Event>
    var report: Report
    /** The local `admitted`: the worker was attached to its cgroup. */
    var attached: bool
    /** Every call so far, and where the kill stands among them. */
    ghost var given: seq<Asked>
    ghost var killAt: nat
    /** So far no call raised, refused, had to be asked again or found a failed worker. */
    ghost var smooth: bool

    /** Before cleanup, `c` steps down the chain. */
    ghost predicate At(c: nat)
      reads this
    {
      && next <= |script| && Ordered(trace) && Reached(trace, c) && !report.passed
      && attached == (c > 4) && report.admitted == (c > 9) && KillIssued !in trace
      && report.cleanupErrors == [] && report.failure.None?
    }

    /** Every exception of the environment carries a message of ordinary length. */
    predicate Texts() {
      forall i | 0 <= i < |script| && script[i].Raises? :: Sized(script[i].text)
    }

    /** What a failure of a call says. */
    twostate predicate Told(new failure: Option<string>)
      reads this
    {
      && (Texts() && failure.Some? ==> Sized(failure.value)) && (smooth ==> old(smooth) && failure.None?)
      && next >= old(next) && Bads(given) == old(Bads(given)) + (if failure.Some? then 1 else 0)
      && Ended(given, failure)
    }

    ghost function Stand(failure: Option<string>, c: nat): Progress
      reads this
    {
      Progress(failure, c, next, report.workerExit)
    }

    constructor (script: seq<Answer>, registers: bool, exports: bool, subreaper: bool)
      ensures At(0) && next == 0 && trace == [] && report == Report(false, None, [], false, None, false, false) && smooth && given == []
      ensures this.script == script && this.registers == registers && this.exports == exports && this.subreaper == subreaper
    {
      this.script, this.registers, this.exports, this.subreaper := script, registers, exports, subreaper;
      next, trace, attached, smooth, given, killAt := 0, [], false, true, [], 0;
      report := Report(false, None, [], false, None, false, false);
      new;
      ReachedNone();
    }

    method Ask(ghost query: Query) returns (a: Answer)
      requires next <= |script|
      modifies `next, `given, `smooth
      ensures old(next) <= next <= |script| && a == Reply(script, old(next)) && next == Ahead(script, old(next))
      ensures next == old(next) ==> a == Raises("absolute preparation deadline")
      ensures given == old(given) + [Asked(query, a)] && Bads(given) == old(Bads(given)) + if Bad(Asked(query, a)) then 1 else 0
      ensures (a.Raises? ==> Bad(Asked(query, a))) && (a.No? ==> (Bad(Asked(query, a)) <==> Strict(query)))
      ensures a.Fine? ==> !Bad(Asked(query, a))
      ensures a.Exit? ==> (Bad(Asked(query, a)) <==> query.Poll? && a.code != 0)
      ensures Texts() && a.Raises? ==> Sized(a.text)
      ensures smooth ==> old(smooth) && !a.Raises? && !a.No? && (a.Exit? ==> a.code == 0)
    {
      hide Texts, Sized;
      a := if next == |script| then Raises("absolute preparation deadline") else script[next];
      SizedReply(a);
      BadsSnoc(given, Asked(query, a));
      next, given := Ahead(script, next), given + [Asked(query, a)];
      smooth := smooth && !a.Raises? && !a.No? && (a.Exit? ==> a.code == 0);
    }

    lemma SizedReply(a: Answer)
      requires a == Reply(script, next) && next <= |script|
      ensures Texts() && a.Raises? ==> Sized(a.text)
    {
    }

    /** A call that must succeed; `refusal` is the text of the check on a negative answer. */
    method Require(ghost query: Query, ghost c: nat, refusal: string) returns (failure: Option<string>)
      requires Sized(refusal) && next <= |script| && Strict(query)
      modifies `next, `given, `smooth
      ensures Told(failure) && next <= |script| && (failure.None? ==> next > old(next))
      ensures failure == Said(Reply(script, old(next)), refusal) && next == Ahead(script, old(next))
      ensures Stand(failure, c) == Call(script, old(Stand(None, c)), refusal, false)
      ensures given == old(given) + [Asked(query, Reply(script, old(next)))] && (failure.Some? <==> Bad(given[|old(given)|]))
    {
      hide Texts, Bads;
      var a := Ask(query);
      match a {
        case Raises(text) => failure := Some(text);
        case No => failure := Some(refusal);
        case _ => failure := None;
      }
    }

    /** The step of the chain that comes next. */
    method Advance(ghost query: Query, c: nat, refusal: string) returns (failure: Option<string>)
      requires Sized(refusal) && At(c) && c < 9 && Strict(query)
      modifies `next, `given, `trace, `smooth, `attached
      ensures Told(failure) && At(if failure.None? then c + 1 else c)
      ensures Stand(failure, if failure.None? then c + 1 else c) == Call(script, old(Stand(None, c)), refusal, true)
      ensures Grown(old(trace), trace, c, failure.None?)
      ensures (Pinned in trace <==> Pinned in old(trace)) && (Registered in trace <==> Registered in old(trace))
      ensures given == old(given) + [Asked(query, Reply(script, old(next)))] && (failure.Some? <==> Bad(given[|old(given)|]))
    {
      hide Ordered, Reached, Texts, Sized, Bads;
      failure := Require(query, c, refusal);
      if failure.Some? { return; }
      ReachedNext(trace, c);
      trace, attached := trace + [CHAIN[c]], attached || c == 4;
    }

    /** A check made again, or a step outside the chain. */
    method Also(ghost query: Query, c: nat, e: Event, refusal: string) returns (failure: Option<string>)
      requires Sized(refusal) && At(c) && c >= 2 && Strict(query)
          && (e in {LeaseOk, GroupsOk} || (e in {Registered, Pinned} && e !in trace))
      modifies `next, `given, `trace, `smooth
      ensures Told(failure) && At(c) && (failure.None? ==> next > old(next))
      ensures Stand(failure, c) == Call(script, old(Stand(None, c)), refusal, false)
      ensures trace == if failure.None? then old(trace) + [e] else old(trace)
      ensures given == old(given) + [Asked(query, Reply(script, old(next)))] && (failure.Some? <==> Bad(given[|old(given)|]))
    {
      hide Ordered, Reached, Texts, Sized, Bads;
      failure := Require(query, c, refusal);
      if failure.Some? { return; }
      ReachedAlso(trace, c, e);
      trace := trace + [e];
    }

    /** `drain_lease`, `before_admission`, the empty group and `spawn`. */
    method Start() returns (failure: Option<string>, c: nat)
      requires At(0) && trace == [] && next == 0 && report.workerExit == None
      modifies `next, `given, `trace, `attached, `smooth
      ensures Stand(failure, c) == Starting(script)
      ensures Told(failure) && c <= 4 && At(c) && Pinned !in trace && Registered !in trace && (failure.None? ==> c == 4)
    {
      hide At, Ordered, Reached, Texts, Sized, Call, Bads, Bad, Ended, Grown;
      SizedTexts();
      EndedNone(given);
      c := 0;
      failure := Advance(Lease, 0, "lease refused");
      if failure.Some? { return; }
      c := 1;
      failure := Advance(Groups, 1, "worker cgroup already in use");
      if failure.Some? { return; }
      c := 2;
      failure := Advance(Vacant, 2, "worker cgroup not empty before admission");
      if failure.Some? { return; }
      c := 3;
      failure := Advance(Fork, 3, "worker fork");
      if failure.None? { c := 4; }
    }

    /** The start, then `attach`, `bind_worker` and `admit_setup`. */
    method Admit() returns (failure: Option<string>, c: nat)
      requires At(0) && trace == [] && next == 0 && report.workerExit == None
      modifies `next, `given, `trace, `attached, `smooth
      ensures Stand(failure, c) == Admission(script, registers)
      ensures Told(failure) && c <= 7 && At(c) && Pinned !in trace && (failure.None? ==> c == 7)
    {
      hide At, Ordered, Reached, Texts, Sized, Call, Bads, Bad, Ended, Starting, Binding;
      failure, c := Start();
      ghost var p := Stand(failure, c);
      if failure.None? { failure, c := Bind(); } else { BindingFailed(script, registers, p); }
    }

    /** Registration, attachment and setup of the blocked child. */
    method Bind() returns (failure: Option<string>, c: nat)
      requires At(4) && Registered !in trace && Pinned !in trace
      modifies `next, `given, `trace, `attached, `smooth
      ensures Stand(failure, c) == Binding(script, registers, old(Stand(None, 4)))
      ensures Told(failure) && c <= 7 && At(c) && Pinned !in trace && (failure.None? ==> c == 7)
    {
      hide At, Ordered, Reached, Texts, Sized, Call, Bads, Bad, Ended, Grown;
      SizedTexts();
      EndedNone(given);
      c := 4;
      if registers {
        failure := Also(Register, 4, Registered, "worker registration");
        if failure.Some? { return; }
      }
      failure := Advance(Attach, 4, "child cgroup admission failed");
      if failure.Some? { return; }
      c := 5;
      failure := Advance(BindChild, 5, "one owned blocked worker required");
      if failure.Some? { return; }
      c := 6;
      failure := Advance(SetupByte, 6, "setup admission short write");
      if failure.None? { c := 7; }
    }

    /** The checks of each round: no signal, a live lease, unchanged cgroups. */
    method Renewed(c: nat, refusal: string) returns (failure: Option<string>)
      requires At(c) && c >= 2 && Sized(refusal)
      modifies `next, `given, `trace, `smooth
      ensures Told(failure) && At(c) && (failure.None? ==> next > old(next)) && (Pinned in trace <==> Pinned in old(trace))
      ensures Stand(failure, c) ==
        Call(script, Call(script, Call(script, old(Stand(None, c)), refusal, false), "lease refused", false), "cgroups changed", false)
    {
      hide Ordered, Reached, Texts, Sized, Bads, Bad, Call, Ended;
      SizedTexts();
      EndedNone(given);
      failure := Require(Uncancelled, c, refusal);
      if failure.Some? { return; }
      failure := Also(Lease, c, LeaseOk, "lease refused");
      if failure.Some? { return; }
      failure := Also(Groups, c, GroupsOk, "cgroups changed");
    }

    /** Setup readiness, asked for again and again under the lease. */
    method AwaitSetup() returns (failure: Option<string>)
      requires At(7) && Pinned !in trace
      modifies `next, `given, `trace, `smooth
      ensures Told(failure) && At(if failure.None? then 8 else 7) && Pinned !in trace
      ensures Stand(failure, if failure.None? then 8 else 7) == Readiness(script, old(Stand(None, 7)))
    {
      hide Ordered, Reached, Texts, Sized, Call, Bads, Bad, Ended;
      SizedTexts();
      EndedNone(given);
      while true
        invariant At(7) && Pinned !in trace && Told(None)
        invariant Readiness(script, Stand(None, 7)) == Readiness(script, old(Stand(None, 7)))
        decreases |script| - next
      {
        ghost var before := given;
        var a := Ask(Ready);
        EndedNone(given);
        if a.Raises? {
          EndedBy(before, Asked(Ready, a), a.text);
          return Some(a.text);
        } else if a.No? {
          failure := Renewed(7, "supervisor cancelled during setup");
          if failure.Some? { return; }
        } else {
          ReachedNext(trace, 7);
          trace := trace + [SetupReady];
          return None;
        }
      }
    }

    /** Wait for setup, check the whole boundary, pin the export, and release under a fresh lease. */
    method Release() returns (failure: Option<string>, c: nat)
      requires At(7) && Pinned !in trace
      modifies `next, `given, `trace, `report, `smooth, `attached
      ensures Told(failure) && 7 <= c <= 10 && At(c) && (failure.None? ==> c == 10)
      ensures Stand(failure, c) == Releasing(script, exports, old(Stand(None, 7)))
      ensures report == old(report).(admitted := c > 9)
    {
      hide Ordered, Reached, Texts, Sized, Call, Bads, Bad, Ended, Grown;
      SizedTexts();
      EndedNone(given);
      c := 7;
      failure := AwaitSetup();
      if failure.Some? { return; }
      c := 8;
      failure := Advance(Boundary, 8, "preparation boundary identity changed");
      if failure.Some? { return; }
      c := 9;
      if exports {
        failure := Also(PinExport, 9, Pinned, "export directory identity changed");
        if failure.Some? { return; }
      }
      failure := Permit();
      if failure.None? { c := 10; }
    }

    /** `worker.release()`: one byte to the blocked worker, after the lease was checked again. */
    method Permit() returns (failure: Option<string>)
      requires At(9)
      modifies `next, `given, `trace, `report, `smooth
      ensures Told(failure) && At(if failure.None? then 10 else 9)
      ensures Stand(failure, if failure.None? then 10 else 9) == Permitting(script, old(Stand(None, 9)))
      ensures report == old(report).(admitted := failure.None?)
    {
      hide Ordered, Reached, Texts, Sized, Bads;
      SizedTexts();
      failure := Also(Lease, 9, LeaseOk, "lease refused");
      if failure.Some? { return; }
      failure := Require(Uncancelled, 9, "supervisor cancelled before release");
      if failure.Some? { return; }
      failure := Require(GoByte, 9, "admission short write");
      if failure.Some? { return; }
      ReachedNext(trace, 9);
      trace, report := trace + [Released], report.(admitted := true);
    }

    /** After exit 0: nothing may be left in the group, and the lease must still hold. */
    method Leave() returns (failure: Option<string>)
      requires At(10) && given != [] && given[|given| - 1] == Asked(Poll, Exit(0))
      modifies `next, `given, `trace, `smooth
      ensures Told(failure) && At(10) && (failure.None? ==> EndsWell(given))
      ensures Stand(failure, 10) ==
        Call(script, Call(script, old(Stand(None, 10)), "worker descendants remain", false), "lease refused", false)
    {
      hide Ordered, Reached, Texts, Sized, Bads, Bad, Call;
      SizedTexts();
      failure := Require(Descendants, 10, "worker descendants remain");
      if failure.Some? { return; }
      failure := Also(Lease, 10, LeaseOk, "lease refused");
    }

    /** The supervised run of the released worker. */
    method Watch() returns (failure: Option<string>)
      requires At(10)
      modifies `next, `given, `trace, `report, `smooth
      ensures Told(failure) && At(10)
      ensures Stand(failure, 10) == Watched(script, old(Stand(None, 10)))
      ensures report == old(report).(workerExit := report.workerExit)
      ensures failure.None? ==> report.workerExit == Some(0) && EndsWell(given)
    {
      hide Ordered, Reached, Texts, Sized, Call, Bads, Bad, Ended;
      SizedTexts();
      EndedNone(given);
      while true
        invariant At(10) && report == old(report).(workerExit := report.workerExit) && Told(None)
        invariant Watched(script, Stand(None, 10)) == Watched(script, old(Stand(None, 10)))
        decreases |script| - next
      {
        failure := Renewed(10, "supervisor cancelled");
        if failure.Some? { return; }
        ghost var before := given;
        var a := Ask(Poll);
        EndedNone(given);
        if a.Raises? {
          EndedBy(before, Asked(Poll, a), a.text);
          return Some(a.text);
        }
        if a.Exit? {
          report := report.(workerExit := Some(a.code));
          if a.code != 0 {
            EndedBy(before, Asked(Poll, a), "preparation worker failed");
            return Some("preparation worker failed");
          }
          failure := Leave();
          return;
        }
      }
    }

    ghost function Mess(errors: seq<string>): Settling
      reads this
    {
      Settling(errors, next, report.workerExit, report.populationEmpty, report.reaped)
    }

    /** One guarded step of cleanup: nothing, or one error. */
    method Note(ghost query: Query, ghost noted: seq<string>, step: string, refusal: string) returns (errors: seq<string>)
      requires next <= |script| && |step| <= 40 && |refusal| <= 40 && Strict(query)
      modifies `next, `given, `smooth
      ensures old(next) <= next <= |script| && |errors| <= 1 && (Texts() ==> Short(errors)) && (smooth ==> old(smooth) && errors == [])
      ensures given == old(given) + [Asked(query, Reply(script, old(next)))] && Bads(given) == old(Bads(given)) + |errors|
      ensures (errors != [] <==> Bad(given[|given| - 1])) && (errors != [] ==> Reports(errors[0], step, given[|given| - 1], refusal))
      ensures Mess(noted + errors) == Noted(script, old(Mess(noted)), step, refusal)
    {
      hide Texts, Bads;
      var a := Ask(query);
      errors := if a.Raises? then [step + a.text] else if a.No? then [step + refusal] else [];
    }

    /** Reap everything, and ask for the exit once more. */
    method Reap(empty: bool, ghost noted: seq<string>, ghost was: seq<Asked>, ghost a: Answer, ghost b: Answer)
        returns (raised: Option<string>, done: bool)
      requires next <= |script| && given == was + [Asked(Exited, a)] + [Asked(Populated, b)] && empty == !b.No? && !b.Raises?
      modifies `next, `given, `report, `smooth
      ensures Told(raised) && next <= |script| && Observed(old(report), report) && old(given) <= given
      ensures done ==> SeenDone(given, true, report.workerExit)
      ensures smooth ==> report.workerExit == old(report.workerExit) || report.workerExit == Some(0)
      ensures Sight(raised, done, Mess(noted)) == Swept(script, old(Mess(noted)), empty)
    {
      hide Texts, Sized, Bads, Bad, SeenDone;
      var c := Ask(ReapAll);
      if c.Raises? { return Some(c.text), false; }
      var d := Ask(Exited);
      if d.Raises? { return Some(d.text), false; }
      if empty && !c.No? && d.Exit? { DoneFour(was, a, b, c, d); }
      report := report.(workerExit := if d.Exit? then Some(d.code) else report.workerExit, populationEmpty := empty, reaped := !c.No?);
      raised, done := None, empty && !c.No? && d.Exit?;
    }

    /** One observation of exit, population and reaping: what it raised, or whether all is done. */
    method Observe(ghost noted: seq<string>) returns (raised: Option<string>, done: bool)
      requires next <= |script|
      modifies `next, `given, `report, `smooth
      ensures Told(raised) && next <= |script| && (raised.None? ==> next > old(next))
      ensures Observed(old(report), report)
      ensures old(given) < given && (done ==> SeenDone(given, subreaper, report.workerExit))
      ensures done ==> raised.None? && report.populationEmpty && report.reaped && report.workerExit.Some?
      ensures smooth ==> report.workerExit == old(report.workerExit) || report.workerExit == Some(0)
      ensures Sight(raised, done, Mess(noted)) == Seen(script, subreaper, old(Mess(noted)))
    {
      hide Texts, Sized, Bads, Bad, SeenDone, Swept;
      ghost var was := given;
      var a := Ask(Exited);
      if a.Raises? { return Some(a.text), false; }
      var b := Ask(Populated);
      if b.Raises? { return Some(b.text), false; }
      if subreaper {
        raised, done := Reap(!b.No?, noted, was, a, b);
      } else {
        if a.Exit? && !b.No? { DoneTwo(was, a, b); }
        report := report.(workerExit := if a.Exit? then Some(a.code) else report.workerExit, populationEmpty := !b.No?, reaped := a.Exit?);
        raised, done := None, !b.No? && a.Exit?;
      }
    }

    /** Observe until the group is empty and reaped, or give up with an error. */
    method Drain(ghost noted: seq<string>) returns (errors: seq<string>)
      requires next <= |script|
      modifies `next, `given, `report, `smooth
      ensures Mess(noted + errors) == Drained(script, subreaper, old(Mess(noted)))
      ensures next <= |script| && |errors| <= 1 && (Texts() ==> Short(errors))
      ensures Observed(old(report), report)
      ensures errors == [] ==> report.populationEmpty && report.reaped && report.workerExit.Some?
      ensures old(given) < given && Bads(given) == old(Bads(given)) + |errors|
      ensures errors == [] ==> SeenDone(given, subreaper, report.workerExit)
      ensures errors != [] ==> Starts(errors[0], "cleanup observation: ") || errors[0] == "population/reaping deadline"
      ensures smooth ==> old(smooth) && errors == [] && (report.workerExit == old(report.workerExit) || report.workerExit == Some(0))
    {
      hide Texts, Short, Sized, Seen, Bads, SeenDone;
      while true
        invariant old(given) <= given && Bads(given) == old(Bads(given))
        invariant next <= |script| && Drained(script, subreaper, Mess(noted)) == Drained(script, subreaper, old(Mess(noted)))
        invariant Observed(old(report), report)
        invariant smooth ==> old(smooth) && (report.workerExit == old(report.workerExit) || report.workerExit == Some(0))
        decreases |script| - next
      {
        var observed, done := Observe(noted);
        if observed.Some? {
          SizedText(observed);
          ShortOne("cleanup observation: " + observed.value);
          return ["cleanup observation: " + observed.value];
        }
        if done {
          assert noted + [] == noted;
          ShortOne("");
          return [];
        }
        var late := Ask(InTime);
        if late.Raises? || late.No? {
          ShortOne("population/reaping deadline");
          return ["population/reaping deadline"];
        }
      }
    }

    /** The kill and the looks after it. */
    method Extinguish() returns (kill: seq<string>, drain: seq<string>)
      requires next <= |script|
      modifies `next, `given, `killAt, `trace, `report, `smooth
      ensures trace == old(trace) + [KillIssued] && killAt == |old(given)| && old(given) <= given
          && killAt + 1 < |given| && next <= |script|
      ensures given[killAt].query == Kill && Bads(given) == old(Bads(given)) + |kill| + |drain| && |kill| <= 1 && |drain| <= 1
      ensures (kill != [] <==> Bad(given[killAt])) && (kill != []
          ==> Reports(kill[0], "cgroup kill: ", given[killAt], "short cgroup write"))
      ensures drain != [] ==> Starts(drain[0], "cleanup observation: ") || drain[0] == "population/reaping deadline"
      ensures drain == [] ==> SeenDone(given, subreaper, report.workerExit)
      ensures drain == [] ==> report.populationEmpty && report.reaped && report.workerExit.Some?
      ensures Mess(kill + drain) == Drained(script, subreaper, Noted(script, old(Mess([])), "cgroup kill: ", "short cgroup write"))
      ensures Observed(old(report), report) && (Texts() ==> Short(kill) && Short(drain))
      ensures smooth ==> old(smooth) && kill == drain == [] && (report.workerExit == old(report.workerExit) || report.workerExit == Some(0))
    {
      hide Texts, Short, Sized, Drained, Noted, Bads, SeenDone, Starts, Reports, Bad;
      trace := trace + [KillIssued];
      killAt := |given|;
      kill := Note(Kill, [], "cgroup kill: ", "short cgroup write");
      assert [] + kill == kill;
      drain := Drain(kill);
    }

    /** Kill the owned group, wait for it to be empty and reaped, look at the cgroups once more. */
    method Cleanup()
      requires next <= |script| && report.cleanupErrors == []
      modifies `next, `given, `killAt, `trace, `report, `smooth
      ensures trace == old(trace) + [KillIssued] && killAt == |old(given)|
      ensures old(given) <= given && Bads(given) == old(Bads(given)) + |report.cleanupErrors|
      ensures CleanupAsked(given, killAt, subreaper, report.cleanupErrors, report.workerExit)
      ensures Mess(report.cleanupErrors) == Settled(script, subreaper, old(Mess([])))
      ensures report == old(report).(cleanupErrors := report.cleanupErrors, workerExit := report.workerExit,
                                     populationEmpty := report.populationEmpty, reaped := report.reaped)
      ensures |report.cleanupErrors| <= 3 && (Texts() ==> Short(report.cleanupErrors))
      ensures report.cleanupErrors == [] ==> report.populationEmpty && report.reaped && report.workerExit.Some?
      ensures smooth ==> old(smooth) && report.cleanupErrors == []
      ensures smooth ==> report.workerExit == old(report.workerExit) || report.workerExit == Some(0)
    {
      hide Texts, Short, Sized, Drained, Noted, Bads, SeenDone, Starts, Reports, Bad, CleanupAsked;
      var kill, drain := Extinguish();
      ghost var looked := given;
      var post := Note(Postflight, kill + drain, "postflight: ", "cgroups changed");
      assert looked == given[..|given| - 1];
      ShortBoth(kill, drain);
      ShortBoth(kill + drain, post);
      report := report.(cleanupErrors := kill + drain + post);
      CleanupTold(given, killAt, subreaper, report, kill, drain, post);
    }

    /** Admission, release and the watched run. */
    method Attempt() returns (failure: Option<string>, c: nat)
      requires At(0) && trace == [] && next == 0 && report.workerExit == None
      modifies `next, `given, `trace, `attached, `report, `smooth
      ensures Stand(failure, c) == Attempted(script, registers, exports)
      ensures Told(failure) && c <= 10 && At(c) && (failure.None? ==> c == 10 && report.workerExit == Some(0) && EndsWell(given))
      ensures report == old(report).(admitted := report.admitted, workerExit := report.workerExit)
    {
      hide Ordered, Texts, Sized, Reached, Admission, Releasing, Watched, Bads, EndsWell, Ended;
      failure, c := Admit();
      if failure.None? { failure, c := Release(); }
      if failure.None? { failure := Watch(); }
    }

    /** Cleanup once a worker was spawned; a refused start gives no authority for it. */
    method Finish(ghost p: Progress)
      requires At(p.c) && p == Stand(p.failure, p.c) && !report.populationEmpty && !report.reaped
      modifies `next, `given, `killAt, `trace, `report, `smooth
      ensures old(given) <= given && Bads(given) == old(Bads(given)) + |report.cleanupErrors|
      ensures p.c > 3 ==> killAt == |old(given)| && CleanupAsked(given, killAt, subreaper, report.cleanupErrors, report.workerExit)
      ensures p.c <= 3 ==> given == old(given)
      ensures Ordered(trace) && trace == old(trace) + if p.c > 3 then [KillIssued] else []
      ensures Spawned in trace <==> p.c > 3
      ensures attached == (p.c > 4) && (Attached in trace <==> p.c > 4) && report.admitted == (p.c > 9) && (Released in trace <==> p.c > 9)
      ensures (KillIssued in trace <==> p.c > 3) && forall i | 0 <= i < |trace| && trace[i] == KillIssued :: i == |trace| - 1
      ensures Mess(report.cleanupErrors) == Ending(script, subreaper, p)
      ensures report == old(report).(cleanupErrors := report.cleanupErrors, workerExit := report.workerExit,
                                     populationEmpty := report.populationEmpty, reaped := report.reaped)
      ensures |report.cleanupErrors| <= 3 && (Texts() ==> Short(report.cleanupErrors))
      ensures p.c > 3 && report.cleanupErrors == [] ==> report.populationEmpty && report.reaped
      ensures smooth ==> old(smooth) && report.cleanupErrors == []
      ensures smooth ==> report.workerExit == old(report.workerExit) || report.workerExit == Some(0)
    {
      hide Ordered, Texts, Reached, Short, Settled, Bads, CleanupAsked;
      ReachedFacts(trace, p.c);
      ShortOne("");
      if Spawned in trace {
        ReachedAlso(trace, p.c, KillIssued);
        Cleanup();
      } else {
        report := report.(populationEmpty := false);
      }
      ReachedFacts(trace, p.c);
    }

    /** The attempt and its cleanup, before the verdict. */
    method Conduct() returns (failure: Option<string>, ghost p: Progress)
      requires At(0) && next == 0 && trace == [] && report == Report(false, None, [], false, None, false, false) && smooth && given == []
      modifies `next, `given, `killAt, `trace, `attached, `report, `smooth
      ensures Ordered(trace) && (KillIssued in trace <==> p.c > 3) && (Spawned in trace <==> p.c > 3)
      ensures forall i | 0 <= i < |trace| && trace[i] == KillIssued :: i == |trace| - 1
      ensures attached == (p.c > 4) && (Attached in trace <==> p.c > 4) && report.admitted == (p.c > 9) && (Released in trace <==> p.c > 9)
      ensures p == Attempted(script, registers, exports) && p.failure == failure && p.c <= 10
      ensures Ending(script, subreaper, p).errors == report.cleanupErrors && Ending(script, subreaper, p).exit == report.workerExit
      ensures failure.None? ==> p.c == 10
      ensures |report.cleanupErrors| <= 3 && (Texts() ==> Short(report.cleanupErrors) && (failure.Some? ==> Sized(failure.value)))
      ensures p.c > 3 && report.cleanupErrors == [] ==> report.populationEmpty && report.reaped
      ensures smooth ==> failure.None? && report.cleanupErrors == [] && report.workerExit == Some(0)
      ensures Bads(given) == (if failure.Some? then 1 else 0) + |report.cleanupErrors|
      ensures p.c > 3 ==> killAt < |given| && CleanupAsked(given, killAt, subreaper, report.cleanupErrors, report.workerExit)
      ensures Bads(if p.c > 3 then given[..killAt] else given) == if failure.Some? then 1 else 0
      ensures failure.None? ==> EndsWell(given[..killAt])
    {
      hide At, Ordered, Texts, Sized, Reached, Attempted, Ending, Bads, EndsWell, SeenDone, Bad, Reports, Starts, Ended,
           CleanupAsked, Short;
      BadsNone();
      var c;
      failure, c := Attempt();
      ghost var before := given;
      p := Stand(failure, c);
      Finish(p);
      BadEnds(given, killAt, subreaper, report);
      assert c > 3 ==> given[..killAt] == before;
    }

    /** The supervisor: the report satisfies its validator exactly when the texts fit and no exception
        without a text slipped in between attach and release; a run without trouble passes. Every bad
        answer is reported once: one as the failure, each of cleanup's as an error of its own. */
    method Supervise()
      requires At(0) && next == 0 && trace == [] && report == Report(false, None, [], false, None, false, false) && smooth && given == []
      modifies `next, `given, `killAt, `trace, `attached, `report, `smooth
      ensures Ordered(trace) && (KillIssued in trace <==> Spawned in trace)
      ensures (forall i | 0 <= i < |trace| && trace[i] == KillIssued :: i == |trace| - 1)
      ensures report.admitted == (Released in trace) && attached == (Attached in trace)
      ensures report.passed == (attached && report.workerExit == Some(0) && report.populationEmpty && report.reaped
          && NoFailure(report.failure) && report.cleanupErrors == [])
      ensures ValidSupervision(report) <==>
                Fitting(script, registers, exports, subreaper) && !Slipped(script, registers, exports, subreaper)
      ensures ValidSupervision(report) <==> TextsFit(report) && !(report.passed && !report.admitted)
      ensures report.passed && !report.admitted ==> report.failure == Some("")
      ensures Texts() ==> ValidSupervision(report) && (report.passed ==> report.admitted && report.failure.None?)
      ensures smooth ==> report.passed && report.admitted
      ensures |report.cleanupErrors| <= 3
      ensures Bads(given) == (if report.failure.Some? then 1 else 0) + |report.cleanupErrors|
      ensures Spawned in trace ==> killAt < |given| && CleanupAsked(given, killAt, subreaper, report.cleanupErrors, report.workerExit)
      ensures Bads(if Spawned in trace then given[..killAt] else given) == if report.failure.Some? then 1 else 0
      ensures report.failure.None? ==> Spawned in trace && EndsWell(given[..killAt])
      ensures report.passed ==> Spawned in trace && !Bad(given[killAt]) && !Bad(given[|given| - 1])
    {
      hide At, Ordered, Texts, Sized, Attempted, Ending, ValidSupervision, Slips, Bads, EndsWell, Bad, Fitting, Slipped,
           CleanupAsked, Fits, Short, NoFailure;
      var failure, p := Conduct();
      if Texts() { FitText(failure, report.cleanupErrors); }
      FitsOnly(script, registers, exports, subreaper, p);
      BadEnds(given, killAt, subreaper, report);
      Judge(failure, p.c);
    }

    /** The verdict of the run. */
    method Judge(failure: Option<string>, ghost c: nat)
      requires attached == (c > 4) && report.admitted == (c > 9) && c <= 10 && (failure.None? ==> c == 10) && |report.cleanupErrors| <= 3
      requires c > 3 && report.cleanupErrors == [] ==> report.populationEmpty && report.reaped
      modifies `report
      ensures report == old(report).(failure := failure, passed := report.passed)
      ensures report.passed == (attached && report.workerExit == Some(0) && report.populationEmpty && report.reaped
                                && NoFailure(failure) && report.cleanupErrors == [])
      ensures ValidSupervision(report) <==>
                Fits(failure, report.cleanupErrors) && !Slips(failure, c, report.cleanupErrors, report.workerExit)
      ensures ValidSupervision(report) <==> Fits(failure, report.cleanupErrors) && !(report.passed && !report.admitted)
      ensures report.passed && !report.admitted ==> failure == Some("")
      ensures failure.None? && report.workerExit == Some(0) && report.cleanupErrors == [] ==> report.passed
      ensures report.passed && (failure.Some? ==> failure.value != "") ==> failure.None?
    {
      hide ValidSupervision, Fits, Slips;
      var passed := attached && report.workerExit == Some(0) && report.populationEmpty && report.reaped
                    && NoFailure(failure) && report.cleanupErrors == [];
      report := report.(failure := failure, passed := passed);
      Verdict(report, c);
    }
  }

  /** A report of `supervise` against its validator: "attached" in place of "admitted" matters only
      where both parts of the run hide the difference. */
  lemma Verdict(r: Report, c: nat)
    requires r.passed == (c > 4 && r.workerExit == Some(0) && r.populationEmpty && r.reaped && NoFailure(r.failure)
        && r.cleanupErrors == [])
    requires r.admitted == (c > 9) && c <= 10 && (r.failure.None? ==> c == 10) && |r.cleanupErrors| <= 3
    requires c > 3 && r.cleanupErrors == [] ==> r.populationEmpty && r.reaped
    ensures ValidSupervision(r) <==> Fits(r.failure, r.cleanupErrors) && !Slips(r.failure, c, r.cleanupErrors, r.workerExit)
    ensures ValidSupervision(r) <==> TextsFit(r) && !(r.passed && !r.admitted)
    ensures r.passed && !r.admitted ==> r.failure == Some("")
    ensures r.failure.None? && r.workerExit == Some(0) && r.cleanupErrors == [] ==> r.passed
    ensures r.passed && (r.failure.Some? ==> r.failure.value != "") ==> r.failure.None?
  {
  }

  lemma ShortOne(e: string)
    ensures Short([]) && (|e| <= TEXT_LIMIT ==> Short([e]))
  {
  }

  lemma ShortBoth(a: seq<string>, b: seq<string>)
    ensures Short(a) && Short(b) ==> Short(a + b)
  {
  }

  lemma StartsApart(e: string)
    ensures Starts(e, "cgroup kill: ") ==> !Starts(e, "postflight: ") && !Starts(e, "cleanup observation: ")
    ensures Starts(e, "postflight: ") ==> !Starts(e, "cleanup observation: ")
    ensures e == "population/reaping deadline" ==> !Starts(e, "cgroup kill: ") && !Starts(e, "postflight: ")
  {
    if Starts(e, "cgroup kill: ") { assert e[0] == 'c' && e[1] == 'g'; }
    if Starts(e, "postflight: ") { assert e[0] == 'p' && e[2] == 's'; }
    if Starts(e, "cleanup observation: ") { assert e[1] == 'l'; }
  }

  lemma ReportsStart(error: string, step: string, x: Asked, refusal: string)
    requires Reports(error, step, x, refusal)
    ensures Starts(error, step)
  {
  }

  /** The errors of the kill, the looks and the last check tell each other apart. */
  lemma ThreeErrors(kill: seq<string>, drain: seq<string>, post: seq<string>)
    requires |kill| <= 1 && |drain| <= 1 && |post| <= 1
    requires (kill != [] ==> Starts(kill[0], "cgroup kill: ")) && (post != [] ==> Starts(post[0], "postflight: "))
    requires drain != [] ==> Starts(drain[0], "cleanup observation: ") || drain[0] == "population/reaping deadline"
    ensures var errors := kill + drain + post;
      && (kill != [] <==> errors != [] && Starts(errors[0], "cgroup kill: "))
      && (post != [] <==> errors != [] && Starts(errors[|errors| - 1], "postflight: "))
      && (kill != [] ==> errors[0] == kill[0]) && (post != [] ==> errors[|errors| - 1] == post[0])
  {
    hide Starts;
    if kill != [] { StartsApart(kill[0]); }
    if drain != [] { StartsApart(drain[0]); }
    if post != [] { StartsApart(post[0]); }
  }

  lemma CleanupTold(given: seq<Asked>, killAt: nat, subreaper: bool, report: Report, kill: seq<string>,
      drain: seq<string>, post: seq<string>)
    requires killAt + 2 < |given| && given[killAt].query == Kill && given[|given| - 1].query == Postflight
    requires |kill| <= 1 && |drain| <= 1 && |post| <= 1 && report.cleanupErrors == kill + drain + post
    requires (kill != [] <==> Bad(given[killAt])) && (kill != [] ==> Reports(kill[0], "cgroup kill: ", given[killAt], "short cgroup write"))
    requires (post != [] <==> Bad(given[|given| - 1]))
    requires post != [] ==> Reports(post[0], "postflight: ", given[|given| - 1], "cgroups changed")
    requires drain != [] ==> Starts(drain[0], "cleanup observation: ") || drain[0] == "population/reaping deadline"
    requires drain == [] ==> SeenDone(given[..|given| - 1], subreaper, report.workerExit)
    ensures CleanupAsked(given, killAt, subreaper, report.cleanupErrors, report.workerExit)
  {
    hide Bad, Reports, Starts, SeenDone;
    if kill != [] { ReportsStart(kill[0], "cgroup kill: ", given[killAt], "short cgroup write"); }
    if post != [] { ReportsStart(post[0], "postflight: ", given[|given| - 1], "cgroups changed"); }
    ThreeErrors(kill, drain, post);
  }

  /** The two predicates on the script, said of where its attempt and its cleanup end. */
  lemma FitsOnly(script: seq<Answer>, registers: bool, exports: bool, subreaper: bool, p: Progress)
    requires p == Attempted(script, registers, exports)
    ensures Fitting(script, registers, exports, subreaper) <==> Fits(p.failure, Ending(script, subreaper, p).errors)
    ensures Slipped(script, registers, exports, subreaper) <==>
              Slips(p.failure, p.c, Ending(script, subreaper, p).errors, Ending(script, subreaper, p).exit)
  {
    hide Attempted, Ending, Fits, Slips;
  }

  lemma BadEnds(given: seq<Asked>, killAt: nat, subreaper: bool, report: Report)
    ensures CleanupAsked(given, killAt, subreaper, report.cleanupErrors, report.workerExit) ==> killAt < |given|
    ensures CleanupAsked(given, killAt, subreaper, report.cleanupErrors, report.workerExit) && report.cleanupErrors == [] ==>
              !Bad(given[killAt]) && !Bad(given[|given| - 1])
  {
    hide Bad;
  }

  lemma BadsNone()
    ensures Bads([]) == 0
  {
  }

  lemma SizedTexts()
    ensures Sized("lease refused") && Sized("worker cgroup already in use") && Sized("worker cgroup not empty before admission")
    ensures Sized("worker fork") && Sized("worker registration") && Sized("child cgroup admission failed")
    ensures Sized("one owned blocked worker required") && Sized("setup admission short write")
    ensures Sized("supervisor cancelled during setup") && Sized("cgroups changed") && Sized("preparation boundary identity changed")
    ensures Sized("export directory identity changed") && Sized("supervisor cancelled before release") && Sized("admission short write")
    ensures Sized("supervisor cancelled") && Sized("preparation worker failed") && Sized("worker descendants remain")
  {
  }

  lemma FitText(failure: Option<string>, errors: seq<string>)
    requires (failure.Some? ==> Sized(failure.value)) && Short(errors)
    ensures Fits(failure, errors) && (failure.Some? ==> failure.value != "")
  {
  }

  lemma SizedText(failure: Option<string>)
    ensures failure.Some? && Sized(failure.value) ==> failure.value != "" && |failure.value| <= 2000
  {
  }

  lemma ReachedFacts(trace: seq<Event>, c: nat)
    requires Reached(trace, c)
    ensures (Spawned in trace <==> c > 3) && (Attached in trace <==> c > 4) && (Released in trace <==> c > 9)
  {
    assert CHAIN[3] == Spawned && CHAIN[4] == Attached && CHAIN[9] == Released;
  }
}
