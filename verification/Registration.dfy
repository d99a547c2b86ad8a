/** `_register_object`: the parent's record of the native objects that its child says it
    intends, binds and cleans. */
module Registration {
  /** The nine roles by their place in the create order (2 is the result directory); the clean
      order is its reverse. */
  const ROLES: nat := 9
  type Role = r: int | 0 <= r < ROLES

  const GUEST_ROOT: Role := 0
  const WORK: Role := 1
  const CGROUP_PARENT: Role := 3
  const CGROUP_SUPERVISOR: Role := 4
  const CGROUP_WORKER: Role := 5
  const CONTROL: Role := 6
  const LEASE: Role := 7
  const ACK: Role := 8

  const CAP: nat := 27

  /** A device and inode number, as reported. */
  datatype Ident = Ident(dev: int, ino: int)

  type Identity = i: Ident | i.dev > 0 && i.ino > 0 witness Ident(1, 1)

  datatype Row = Intent | Bound(identity: Ident)
  datatype State = Intends | Binds(identity: Ident) | Cleans(identity: Ident)
  datatype Event = Event(role: Role, state: State)

  function Intended(events: seq<Event>): seq<Role> {
    if events == [] then []
    else Intended(events[..|events| - 1]) + if events[|events| - 1].state.Intends? then [events[|events| - 1].role] else []
  }

  function Cleaned(events: seq<Event>): seq<Role> {
    if events == [] then []
    else Cleaned(events[..|events| - 1]) + if events[|events| - 1].state.Cleans? then [events[|events| - 1].role] else []
  }

  /** The clean order, kept to the roles of a list. */
  function CleanOrder(n: nat, kept: seq<Role>): seq<Role>
    requires n <= ROLES
  {
    if n == 0 then [] else (if n - 1 in kept then [n - 1] else []) + CleanOrder(n - 1, kept)
  }

  function CreateOrder(n: nat): (order: seq<Role>)
    requires n <= ROLES
    ensures |order| == n && forall i | 0 <= i < n :: order[i] == i
  {
    if n == 0 then [] else CreateOrder(n - 1) + [n - 1]
  }

  /** The checks on an event, but for the count. */
  predicate Legal(registry: map<Role, Row>, events: seq<Event>, e: Event) {
    match e.state
    case Intends =>
      && e.role !in registry && e.role !in Intended(events) && (forall r | r in registry :: registry[r].Bound?)
      && Cleaned(events) == []
      && |Intended(events)| < ROLES && Intended(events) + [e.role] == CreateOrder(|Intended(events)| + 1)
    case Binds(identity) =>
      identity.dev > 0 && identity.ino > 0 && e.role in registry && registry[e.role].Intent?
    case Cleans(identity) =>
      && identity.dev > 0 && identity.ino > 0 && e.role in registry && registry[e.role] == Bound(identity)
      && var cleaned := Cleaned(events) + [e.role]; cleaned == CleanOrder(ROLES, cleaned)
  }

  function Recorded(registry: map<Role, Row>, e: Event): map<Role, Row> {
    match e.state
    case Intends => registry[e.role := Intent]
    case Binds(identity) => registry[e.role := Bound(identity)]
    case Cleans(_) => registry - {e.role}
  }

  /** The registry after a trace. */
  function Replay(events: seq<Event>): map<Role, Row> {
    if events == [] then map[] else Recorded(Replay(events[..|events| - 1]), events[|events| - 1])
  }

  /** Every event of the trace was accepted, the count included. */
  predicate Accepted(events: seq<Event>) {
    events == [] ||
    var before := events[..|events| - 1];
    Accepted(before) && Legal(Replay(before), before, events[|events| - 1]) && |before| < CAP
  }

  class Registry {
    var registry: map<Role, Row>
    var events: seq<Event>

    ghost predicate Valid()
      reads this
    {
      Accepted(events) && registry == Replay(events)
    }

    constructor ()
      ensures Valid() && events == []
    {
      registry, events := map[], [];
    }

    /** A legal event is recorded, whatever the count; any other changes nothing. */
    method Register(e: Event) returns (ok: bool)
      requires Valid()
      modifies this
      ensures Valid()
      ensures ok <==> Legal(Replay(old(events)), old(events), e)
      ensures events == if ok then old(events) + [e] else old(events)
    {
      if !Legal(registry, events, e) { return false; }
      CapNeverBinds(events, e);
      if |events| >= CAP { return false; }
      Snoc(events, e);
      events := events + [e];
      if e.state.Cleans? {
        registry := registry - {e.role};
      } else {
        registry := registry[e.role := if e.state.Intends? then Intent else Bound(e.state.identity)];
      }
      ok := true;
    }
  }

  lemma Snoc(events: seq<Event>, e: Event)
    ensures Accepted(events + [e]) <==> Accepted(events) && Legal(Replay(events), events, e) && |events| < CAP
    ensures Replay(events + [e]) == Recorded(Replay(events), e)
    ensures Intended(events + [e]) == Intended(events) + if e.state.Intends? then [e.role] else []
    ensures Cleaned(events + [e]) == Cleaned(events) + if e.state.Cleans? then [e.role] else []
  {
  }

  // ---- What every accepted trace looks like ----

  predicate Decreasing(roles: seq<Role>) { forall i, j | 0 <= i < j < |roles| :: roles[i] > roles[j] }

  /** A role that the child intends but has not bound. */
  predicate Unbound(registry: map<Role, Row>, r: Role) { r in registry && registry[r].Intent? }

  ghost predicate Shaped(events: seq<Event>) {
    var intents, cleaned, pending := Intended(events), Cleaned(events), Replay(events);
    && |intents| <= ROLES && intents == CreateOrder(|intents|)
    && Decreasing(cleaned)
    && (forall r: Role :: r < |intents| <==> r in pending || r in cleaned)
    && (forall r: Role :: r in pending ==> r !in cleaned)
    && (forall r: Role :: Unbound(pending, r) ==> r == |intents| - 1)
    && |events| == 2 * |intents| + |cleaned| - if intents != [] && Unbound(pending, |intents| - 1) then 1 else 0
  }

  /** In an accepted trace the intents are the head of the create order, the cleaned roles are in
      clean order, each intended role is either pending or cleaned and not both, only the newest
      intent can be unbound, and the number of events is what these lists make it. */
  lemma {:induction false} AcceptedShaped(events: seq<Event>)
    requires Accepted(events)
    ensures Shaped(events)
  {
    if events != [] {
      var before, e := events[..|events| - 1], events[|events| - 1];
      AcceptedShaped(before);
      assert events == before + [e];
      Snoc(before, e);
      InCleanOrder(Cleaned(before) + [e.role]);
      ShapedSnoc(before, e);
    }
  }

  lemma ShapedSnoc(before: seq<Event>, e: Event)
    requires Shaped(before) && Legal(Replay(before), before, e)
    requires Intended(before + [e]) == Intended(before) + if e.state.Intends? then [e.role] else []
    requires Cleaned(before + [e]) == Cleaned(before) + if e.state.Cleans? then [e.role] else []
    requires Replay(before + [e]) == Recorded(Replay(before), e)
    requires e.state.Cleans? ==> Decreasing(Cleaned(before) + [e.role])
    ensures Shaped(before + [e])
  {
    hide Replay, Intended, Cleaned, CleanOrder, Accepted, CreateOrder;
    var pending, after := Replay(before), Recorded(Replay(before), e);
    if e.state.Intends? {
      assert CreateOrder(|Intended(before)| + 1)[|Intended(before)|] == |Intended(before)|;
      assert (Intended(before) + [e.role])[|Intended(before)|] == e.role;
    }
    forall r: Role | Unbound(after, r) ensures r == |Intended(before + [e])| - 1 { assert e.state.Intends? || Unbound(pending, r); }
    if !e.state.Intends? { assert e.state.Binds? ==> Unbound(pending, e.role); }
    if Intended(before + [e]) != [] { assert Unbound(after, |Intended(before + [e])| - 1)
        ==> e.state.Intends? || Unbound(pending, |Intended(before)| - 1); }
  }

  lemma {:induction false} CleanOrderOf(n: nat, kept: seq<Role>)
    requires n <= ROLES
    ensures Decreasing(CleanOrder(n, kept))
    ensures forall r: Role :: r in CleanOrder(n, kept) <==> r < n && r in kept
  {
    if n > 0 {
      CleanOrderOf(n - 1, kept);
      var rest := CleanOrder(n - 1, kept);
      assert forall i | 0 <= i < |rest| :: rest[i] in rest;
    }
  }

  /** The list comparison that the code makes holds exactly of the strictly decreasing lists. */
  lemma InCleanOrder(roles: seq<Role>)
    ensures roles == CleanOrder(ROLES, roles) <==> Decreasing(roles)
  {
    var order := CleanOrder(ROLES, roles);
    CleanOrderOf(ROLES, roles);
    if Decreasing(roles) { SameMembers(roles, order); }
  }

  lemma {:induction false} SameMembers(a: seq<Role>, b: seq<Role>)
    requires Decreasing(a) && Decreasing(b) && forall r: Role :: r in a <==> r in b
    ensures a == b
  {
    var x: Role := if a != [] then a[0] else if b != [] then b[0] else 0;
    assert x in a <==> a != [];
    if a != [] {
      assert a[0] in b;
      assert b[0] in a;
      assert a[0] == b[0];
      assert a == [a[0]] + a[1..] && b == [b[0]] + b[1..];
      forall r: Role ensures r in a[1..] <==> r in b[1..] {
        assert r in a[1..] <==> r in a && r != a[0];
        assert r in b[1..] <==> r in b && r != b[0];
      }
      SameMembers(a[1..], b[1..]);
    }
  }

  /** A strictly decreasing list of roles below `n` has at most `n` of them. */
  lemma {:induction false} FewRoles(roles: seq<Role>, n: nat)
    requires Decreasing(roles) && forall r | r in roles :: r < n
    ensures |roles| <= n
  {
    if roles != [] {
      assert roles[0] in roles;
      FewRoles(roles[1..], roles[0]);
    }
  }

  /** The bound of 27 events never turns away an event that is otherwise legal. */
  lemma CapNeverBinds(events: seq<Event>, e: Event)
    requires Accepted(events) && Legal(Replay(events), events, e)
    ensures |events| < CAP
  {
    AcceptedShaped(events);
    var intents, cleaned := Intended(events), Cleaned(events);
    if e.state.Cleans? {
      InCleanOrder(cleaned + [e.role]);
      FewRoles(cleaned + [e.role], |intents|);
    } else {
      FewRoles(cleaned, |intents|);
      assert e.state.Binds? ==> Unbound(Replay(events), e.role);
    }
  }

  // ---- What the child's create and cleanup loops emit ----

  lemma Accept(events: seq<Event>, e: Event)
    requires Accepted(events) && Legal(Replay(events), events, e)
    ensures Accepted(events + [e]) && Replay(events + [e]) == Recorded(Replay(events), e)
    ensures Cleaned(events + [e]) == Cleaned(events) + if e.state.Cleans? then [e.role] else []
  {
    CapNeverBinds(events, e);
    Snoc(events, e);
  }

  /** With exactly the roles below `r` bound and nothing cleaned, the intent of `r` is accepted. */
  lemma IntentAccepted(events: seq<Event>, r: Role)
    requires Accepted(events) && Cleaned(events) == []
    requires forall q: Role :: q in Replay(events) <==> q < r
    requires forall q | q in Replay(events) :: Replay(events)[q].Bound?
    ensures Accepted(events + [Event(r, Intends)]) && Replay(events + [Event(r, Intends)]) == Replay(events)[r := Intent]
    ensures Cleaned(events + [Event(r, Intends)]) == []
  {
    AcceptedShaped(events);
    var n := |Intended(events)|;
    assert r < n <==> r in Replay(events);
    assert n < ROLES ==> (var q: Role := n; q < n <==> q in Replay(events));
    assert r > 0 ==> (var q: Role := r - 1; q < n <==> q in Replay(events));
    assert n == r;
    forall i | 0 <= i < n ensures Intended(events)[i] != r { assert CreateOrder(n)[i] == i; }
    Accept(events, Event(r, Intends));
  }

  /** A bound role below every cleaned one may be cleaned. */
  lemma CleanAccepted(events: seq<Event>, r: Role, id: Identity)
    requires Accepted(events) && r in Replay(events) && Replay(events)[r] == Bound(id)
    requires forall q | q in Cleaned(events) :: q > r
    ensures var e := Event(r, Cleans(id));
            && Accepted(events + [e]) && Replay(events + [e]) == Replay(events) - {r}
            && Cleaned(events + [e]) == Cleaned(events) + [r]
  {
    AcceptedShaped(events);
    assert forall i | 0 <= i < |Cleaned(events)| :: Cleaned(events)[i] in Cleaned(events);
    InCleanOrder(Cleaned(events) + [r]);
    Accept(events, Event(r, Cleans(id)));
  }

  /** Every identity that the registry holds has positive numbers. */
  lemma {:induction false} AcceptedPositive(events: seq<Event>, r: Role)
    requires Accepted(events) && r in Replay(events) && Replay(events)[r].Bound?
    ensures Replay(events)[r].identity.dev > 0 && Replay(events)[r].identity.ino > 0
  {
    var before, e := events[..|events| - 1], events[|events| - 1];
    if e.role != r { AcceptedPositive(before, r); }
  }
}
