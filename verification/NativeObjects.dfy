/** `NativeGuestInitialization`: nine objects made in order, bound to their identities and
    removed in reverse, while other processes may change the tree and any call may fail. */
module NativeObjects {
  import opened Base
  import opened Registration
  import opened NativeTree

  /** One unlink or rmdir: the role, the directory, the object that went, and how many trees had been seen by then. */
  datatype Removal = Removal(role: Role, dir: Identity, identity: Identity, node: Node, at: nat)

  /** One turn of the cleanup loop: whether the object could go when it began, whether a call failed
      or others interfered in it, and whether the entry was dropped. */
  datatype Turn = Turn(role: Role, ready: bool, disturbed: bool, gone: bool)

  /** The tree, the entries with their pins, and the objects that are there. */
  datatype View = View(tree: Tree, entries: map<Role, Row>, pinned: map<Role, Identity>, present: map<Role, Identity>)

  const SLOT_BYTES: nat := 1024

  ghost predicate Linked(entries: map<Role, Row>, pinned: map<Role, Identity>, present: map<Role, Identity>) {
    forall r | r in present ::
      && r in entries && (entries[r].Bound? ==> entries[r].identity == present[r])
      && (r in pinned ==> pinned[r] == present[r])
  }

  /** The removed object is the one bound for its role, and had nothing in it. */
  predicate Justified(x: Removal, entries: map<Role, Row>) {
    x.role in entries && entries[x.role] == Bound(x.identity) && Empty(x.node)
  }

  /** The cgroups that a cgroup directory must hold, and no more. */
  function Expected(entries: map<Role, Row>, r: Role): set<Role> {
    if r == CGROUP_PARENT then set q | q in {CGROUP_SUPERVISOR, CGROUP_WORKER} && q in entries else {}
  }

  /** A bound cgroup that holds no process and exactly the expected children. */
  predicate Idle(tree: Tree, entries: map<Role, Row>, r: Role)
    requires r in entries
  {
    && entries[r].Bound? && entries[r].identity in tree
    && tree[entries[r].identity].Dir? && !tree[entries[r].identity].busy
    && tree[entries[r].identity].own.Keys == Expected(entries, r) && tree[entries[r].identity].foreign == {}
  }

  /** Exactly the roles below `n` are bound, and they are the ones pinned. */
  predicate BuiltOn(entries: map<Role, Row>, pinned: map<Role, Identity>, n: nat) {
    && (forall q: Role :: q in entries <==> q < n) && (forall q: Role :: q in pinned <==> q < n)
    && forall q | q in entries :: entries[q].Bound?
  }

  predicate HoldsTo(present: map<Role, Identity>, n: nat) { forall q: Role | q < n :: q in present }

  /** The nine roles' two top names are free under good roots. */
  predicate Vacant(tree: Tree, roots: Roots) {
    RootsOk(tree, roots) && GUEST_ROOT !in tree[roots.guest].own && CGROUP_PARENT !in tree[roots.cgroup].own
  }

  /** A new object: an empty directory, or a file still to be filled. */
  function Blank(r: Role): Node { if Slot(r) then File(0) else Dir(map[], {}, false) }

  predicate Makeable(tree: Tree, dir: Identity, r: Role) { dir in tree && tree[dir].Dir? && r !in tree[dir].own }

  function Filled(tree: Tree, dir: Identity, r: Role, id: Identity): Tree
    requires Makeable(tree, dir, r)
  {
    var made := Made(tree, dir, r, id, Blank(r)); if Slot(r) then made[id := File(SLOT_BYTES)] else made
  }

  /** The directory for a role: found again at its path, it is still the pinned one. */
  function Directory(tree: Tree, roots: Roots, pinned: map<Role, Identity>, r: Role): Option<Identity> {
    var at := if Parent(r).None? then Some(RootOf(roots, r)) else Lookup(tree, roots, Parent(r).value);
    if at.Some? && at == DirOf(roots, pinned, r) then at else None
  }

  /** The object under a role's name is the one recorded and pinned. */
  predicate Found(tree: Tree, roots: Roots, entries: map<Role, Row>, pinned: map<Role, Identity>, r: Role)
    requires r in entries
  {
    var dir := Directory(tree, roots, pinned, r);
    && dir.Some? && Named(tree, dir.value, r) && r in pinned
    && entries[r] == Bound(tree[dir.value].own[r]) && pinned[r] == tree[dir.value].own[r]
  }

  predicate ConfirmedOn(tree: Tree, roots: Roots, entries: map<Role, Row>, pinned: map<Role, Identity>) {
    forall r | r in entries && Group(r) :: Found(tree, roots, entries, pinned, r) && Idle(tree, entries, r)
  }

  /** The directory still has the identity under the role's name, and the object is empty. */
  predicate Droppable(tree: Tree, roots: Roots, pinned: map<Role, Identity>, r: Role, id: Ident) {
    var dir := DirOf(roots, pinned, r);
    && dir.Some? && Named(tree, dir.value, r) && tree[dir.value].own[r] == id
    && tree[dir.value].own[r] in tree && Empty(tree[tree[dir.value].own[r]]) && tree[tree[dir.value].own[r]].File? == Slot(r)
  }

  class Initialization {
    const roots: Roots
    var tree: Tree
    var entries: map<Role, Row>
    var pinned: map<Role, Identity>
    var trace: seq<Event>
    var started: bool
    ghost const original: Tree
    ghost var present: map<Role, Identity>
    ghost var removals: seq<Removal>
    /** Others left the names alone; how often they changed anything; how many calls failed. */
    ghost var calm: bool
    ghost var moves: nat
    ghost var faults: nat
    /** The tree as it was when each call returned. */
    ghost var seen: seq<Tree>
    /** The turns of the cleanup loop. */
    ghost var turns: seq<Turn>

    twostate predicate Lasts()
      reads this
    {
      (calm ==> old(calm)) && old(moves) <= moves && old(faults) <= faults
    }

    /** While nobody interferes the tree changes by this process only. */
    twostate predicate Still()
      reads this
    {
      moves == old(moves) ==> tree == old(tree) && (old(calm) ==> calm)
    }

    /** Nobody interfered and no call failed. */
    twostate predicate Steady()
      reads this
    {
      moves == old(moves) && faults == old(faults)
    }

    ghost predicate Valid()
      reads this
    {
      && Accepted(trace) && Replay(trace) == entries && present.Keys <= entries.Keys
      && (calm ==> Faithful(tree, original, roots, present) && Linked(entries, pinned, present))
      && (calm && entries != map[] ==> RootsOk(original, roots))
    }

    constructor (t: Tree, rs: Roots)
      ensures Valid() && tree == original == t && roots == rs && calm && moves == faults == 0 && !started
      ensures Built(0) && Cleaned(trace) == [] && entries == map[] && present == map[] && trace == [] && removals == []
    {
      roots, tree, original := rs, t, t;
      entries, pinned, present, trace, removals, turns, seen := map[], map[], map[], [], [], [], [];
      started, calm, moves, faults := false, true, 0, 0;
      new;
      FaithfulNone(tree, original, roots);
    }

    /** Any call: it may fail, and before it returns others may have changed the tree. */
    method Outside() returns (ok: bool)
      requires Valid()
      modifies `tree, `calm, `moves, `seen, `faults
      ensures Valid() && Lasts() && Still() && (calm ==> Contained(old(tree), tree, present))
      ensures (ok <==> faults == old(faults)) && seen == old(seen) + [tree]
    {
      hide Faithful, Contained, Linked, Accepted, Replay;
      ok := *;
      var t: Tree := *;
      if calm && Contained(tree, t, present) { ContainedFaithful(tree, t, original, roots, present); }
      if t == tree { ContainedSame(tree, present); }
      calm, moves, faults := calm && Contained(tree, t, present), if t == tree then moves else moves + 1, if ok then faults else faults + 1;
      tree, seen := t, seen + [t];
    }

    /** Exactly the roles below `n` are bound and pinned. */
    ghost predicate Built(n: nat)
      reads this
    {
      n <= ROLES && Cleaned(trace) == [] && BuiltOn(entries, pinned, n) && (calm ==> HoldsTo(present, n))
    }

    ghost predicate Unclean()
      reads this
    {
      Cleaned(trace) == [] && (calm ==> forall q | q in entries && entries[q].Bound? :: q in present)
    }

    /** An event is sent to the parent, which accepts it; the call may still fail. */
    method Register(e: Event) returns (ok: bool)
      modifies `trace, `faults
      ensures trace == old(trace) + [e] && old(faults) <= faults && (ok <==> faults == old(faults))
    {
      trace := trace + [e];
      ok := *;
      if !ok { faults := faults + 1; }
    }

    /** mkdir, or open with O_CREAT and O_EXCL. */
    method Make(r: Role, dir: Identity) returns (id: Option<Identity>)
      requires Valid() && r in entries && entries[r] == Intent && r !in present && r !in pinned && DirOf(roots, pinned, r) == Some(dir)
      requires calm && Parent(r).Some? ==> Parent(r).value in present
      modifies `tree, `present, `faults
      ensures Valid() && Lasts()
      ensures faults == old(faults) && Makeable(old(tree), dir, r) ==> id.Some?
      ensures old(Partial(r)) ==> Partial(r)
      ensures id.None? ==> tree == old(tree) && present == old(present)
      ensures id.Some? ==> id.value !in old(tree) && present == old(present)[r := id.value] && Makeable(old(tree), dir, r)
      ensures id.Some? ==> tree == Made(old(tree), dir, r, id.value, Blank(r))
    {
      hide Faithful, Accepted, Replay, Linked, RootsOk;
      var made: Identity := *;
      if dir !in tree || tree[dir].File? || r in tree[dir].own { return None; }
      if made in tree {
        faults := faults + 1;
        return None;
      }
      var node := Blank(r);
      assert NodeOk(r, node, map[]);
      if calm {
        LinkedMore(roots, entries, pinned, present, r, made);
        MadeFaithful(tree, original, roots, present, r, dir, made, node);
      }
      if Partial(r) { PartialMade(Now(), r, dir, made); }
      tree := Made(tree, dir, r, made, node);
      present := present[r := made];
      id := Some(made);
    }

    /** Opening the name just made gives the object to bind: in a calm tree, the one made. */
    method Open(r: Role, dir: Identity, made: Identity) returns (fd: Option<Identity>)
      requires Valid() && r in present && present[r] == made && DirOf(roots, pinned, r) == Some(dir)
      requires calm && Parent(r).Some? ==> Parent(r).value in present
      ensures calm ==> fd == Some(made)
    {
      hide Accepted, Replay, RootsOk;
      if Slot(r) { return Some(made); }
      if !Named(tree, dir, r) { return None; }
      if calm { PresentHere(tree, original, roots, entries, pinned, present, r); }
      fd := Some(tree[dir].own[r]);
    }

    /** A new slot is filled with zeros through its descriptor. */
    method Fill(fd: Identity)
      requires Valid() && (calm ==> fd in present.Values)
      modifies `tree
      ensures Valid()
      ensures tree == if fd in old(tree) && old(tree)[fd].File? then old(tree)[fd := File(SLOT_BYTES)] else old(tree)
    {
      hide Accepted, Replay, RootsOk, Linked, Faithful;
      if fd in tree && tree[fd].File? {
        var t := tree[fd := File(SLOT_BYTES)];
        if calm { ContainedFaithful(tree, t, original, roots, present); }
        tree := t;
      }
    }

    /** The roles below `r` are built, and `r` itself is intended. */
    ghost predicate Building(r: Role)
      reads this
    {
      Cleaned(trace) == [] && r in entries && entries[r] == Intent && BuiltOn(entries - {r}, pinned - {r}, r)
          && (calm ==> HoldsTo(present, r))
    }

    /** The entry is recorded before the parent hears of it, and before anything is made. */
    method Intend(r: Role) returns (ok: bool)
      requires Valid() && Built(r) && (calm ==> RootsOk(original, roots))
      modifies `entries, `trace, `faults
      ensures Valid() && Building(r) && r !in pinned && r !in present && entries == old(entries)[r := Intent]
      ensures old(faults) <= faults && (faults == old(faults) <==> ok) && (old(Partial(r)) ==> Partial(r))
    {
      hide Faithful, Accepted, Replay, RootsOk, Linked;
      IntentAccepted(trace, r);
      if calm { LinkedIntent(entries, pinned, present, r); }
      if Partial(r) { PartialIntent(Now(), r); }
      entries := entries[r := Intent];
      ok := Register(Event(r, Intends));
    }

    /** The identity is recorded, then announced. */
    method Bind(r: Role, fd: Identity) returns (ok: bool)
      requires Valid() && Building(r) && (calm ==> r in present && present[r] == fd) && r in pinned && pinned[r] == fd
      modifies `entries, `trace, `faults
      ensures Valid() && Built(r + 1) && entries == old(entries)[r := Bound(fd)]
      ensures old(faults) <= faults && (faults == old(faults) <==> ok)
      ensures old(Partial(r)) && fd in tree && (Slot(r) || TidyNode(r, tree[fd])) ==> Partial(r)
    {
      hide Faithful, Accepted, Replay, RootsOk, Linked;
      Accept(trace, Event(r, Binds(fd)));
      BuiltMore(entries, pinned, r, fd);
      if calm { LinkedBound(entries, pinned, present, r, fd); }
      if Partial(r) && fd in tree && (Slot(r) || TidyNode(r, tree[fd])) { PartialBound(Now(), r); }
      entries := entries[r := Bound(fd)];
      ok := Register(Event(r, Binds(fd)));
    }

    /** Make the object and pin what is then found under its name. */
    method Pin(r: Role, dir: Identity) returns (fd: Option<Identity>)
      requires Valid() && Building(r) && r !in pinned && r !in present && DirOf(roots, pinned, r) == Some(dir)
      modifies `tree, `calm, `moves, `seen, `faults, `present, `pinned
      ensures Valid() && Building(r) && (calm ==> old(calm))
      ensures fd.Some? ==> r in pinned && pinned[r] == fd.value && (calm ==> r in present && present[r] == fd.value)
      ensures Lasts() && (moves == old(moves) && old(Partial(r)) ==> Partial(r))
      ensures Steady() && old(calm) && Makeable(old(tree), dir, r) ==> fd.Some?
      ensures moves == old(moves) && old(calm) && fd.Some? ==>
                && calm && Makeable(old(tree), dir, r) && fd.value !in old(tree) && tree == Made(old(tree), dir, r, fd.value, Blank(r))
                && present == old(present)[r := fd.value] && pinned == old(pinned)[r := fd.value]
    {
      hide Faithful, Accepted, Replay, RootsOk, Linked, Contained, Made;
      var made := Make(r, dir);
      if made.None? { return None; }
      var ok := Outside();
      if !ok { return None; }
      fd := Open(r, dir, made.value);
      if fd.None? { return; }
      if calm { LinkedPin(entries, pinned, present, r, fd.value); }
      assert pinned[r := fd.value] - {r} == pinned - {r};
      if Partial(r) { PartialPinned(Now(), r, fd.value); }
      pinned := pinned[r := fd.value];
    }

    /** A slot gets its bytes, a cgroup its limits. */
    method Furnish(r: Role, fd: Identity) returns (ok: bool)
      requires Valid() && Built(r + 1) && (calm ==> fd in present.Values)
      modifies `tree, `calm, `moves, `seen, `faults
      ensures Valid() && Built(r + 1) && Lasts()
      ensures moves == old(moves) && old(calm) ==> calm && (faults == old(faults) ==> ok)
      ensures moves == old(moves) && fd in old(tree) && (Slot(r) ==> old(tree)[fd].File?) ==>
                if Slot(r) && (ok || tree != old(tree)) then tree == old(tree)[fd := File(SLOT_BYTES)] else tree == old(tree)
      ensures moves == old(moves) && old(Partial(r)) && r in present && present[r] == fd ==> Partial(r)
    {
      hide Faithful, Accepted, Replay, RootsOk, Contained, Linked, DirOf, BuiltOn, HoldsTo, Cleaned;
      ok := Outside();
      if !ok { return; }
      if Partial(r) && fd in tree && tree[fd].File? { PartialFilled(Now(), r, fd); }
      if Slot(r) { Fill(fd); }
      ok := Outside();
    }

    method Construct(r: Role, dir: Identity) returns (ok: bool)
      requires Valid() && Building(r) && r !in pinned && r !in present && DirOf(roots, pinned, r) == Some(dir)
      modifies `tree, `calm, `moves, `seen, `faults, `entries, `pinned, `trace, `present
      ensures Valid() && (calm ==> old(calm)) && if ok then Built(r + 1) else Built(r + 1) || Building(r)
      ensures Lasts() && (moves == old(moves) && old(Partial(r)) ==> Partial(r))
      ensures Steady() && old(calm) && Makeable(old(tree), dir, r) ==> ok
      ensures moves == old(moves) && old(calm) && ok ==>
                && calm && Makeable(old(tree), dir, r) && r in present && present[r] !in old(tree)
                    && tree == Filled(old(tree), dir, r, present[r])
                && entries == old(entries)[r := Bound(present[r])] && pinned == old(pinned)[r := present[r]]
                && present == old(present)[r := present[r]]
    {
      hide Faithful, Accepted, Replay, RootsOk, Contained, Linked, DirOf, BuiltOn, HoldsTo, Cleaned;
      ok := Outside();
      if !ok { return; }
      var fd := Pin(r, dir);
      if fd.None? { return false; }
      ok := Outside();
      if !ok { return; }
      ok := Bind(r, fd.value);
      if !ok { return; }
      ok := Furnish(r, fd.value);
    }

    /** Record the intent, then make and bind the object in a directory that was found. */
    method Establish(r: Role, dir: Identity) returns (ok: bool)
      requires Valid() && Built(r) && (calm ==> RootsOk(original, roots)) && DirOf(roots, pinned, r) == Some(dir)
      modifies `tree, `calm, `moves, `seen, `faults, `entries, `pinned, `trace, `present
      ensures Valid() && Unclean() && Lasts() && (ok ==> Built(r + 1))
      ensures Steady() && old(calm) && Makeable(old(tree), dir, r) ==> ok
      ensures old(Tidy(r)) && moves == old(moves) ==> Partial(r) && (ok ==> Tidy(r + 1))
    {
      hide Faithful, Accepted, Replay, RootsOk, Contained, Linked, Lookup, TidyOn, PartialOn, Made, Filled, Cleaned, DirOf;
      ghost var v := Now();
      if Tidy(r) { TidyPartial(v, r); }
      ok := Intend(r);
      if ok { ok := Construct(r, dir); }
      if old(Tidy(r)) && moves == old(moves) && ok {
        var intended: map<Role, Row> := v.entries[r := Intent];
        assert entries == intended[r := Bound(present[r])] == v.entries[r := Bound(present[r])];
        TidyMade(v, r, dir, present[r]);
      }
      assert Building(r) ==> forall q | q in entries && q != r :: q in entries - {r};
    }

    method Create(r: Role) returns (ok: bool)
      requires Valid() && Built(r) && (calm ==> RootsOk(original, roots))
      modifies `tree, `calm, `moves, `seen, `faults, `entries, `pinned, `trace, `present
      ensures Valid() && Unclean() && (ok ==> Built(r + 1))
      ensures Lasts() && (old(Tidy(r)) && Vacant(original, roots) && Steady() ==> ok)
      ensures old(Tidy(r)) && moves == old(moves) ==> Partial(r) && (ok ==> Tidy(r + 1))
    {
      hide Faithful, Accepted, Replay, RootsOk, Contained, Linked, Lookup, TidyOn, PartialOn, Vacant, Made, Cleaned, Makeable;
      if Tidy(r) { TidyPartial(Now(), r); }
      ok := Outside();
      if !ok { return; }
      if Tidy(r) && Vacant(original, roots) { TidyMakeable(Now(), original, roots, r); }
      var dir := Directory(tree, roots, pinned, r);
      if dir.None? { return false; }
      ok := Establish(r, dir.value);
    }

    /** `initialize`, and its own readback; `reached` roles are complete when it ends. */
    method Initialize() returns (ok: bool, ghost reached: nat)
      requires Valid() && (!started ==> Built(0) && entries == map[] && present == map[])
      modifies `tree, `calm, `moves, `seen, `faults, `entries, `pinned, `trace, `present, `started
      ensures Valid() && started && Lasts()
      ensures !old(started) ==> Unclean()
      ensures old(started) ==> !ok && tree == old(tree) && entries == old(entries) && trace == old(trace)
      ensures ok ==> Built(ROLES)
      ensures !old(started) && old(calm) && moves == old(moves) ==> Partial(reached) && (ok ==> reached == ROLES)
      ensures !old(started) && old(calm) && Vacant(original, roots) && Steady() ==> ok
    {
      hide Faithful, Accepted, Replay, Contained, Linked, TidyOn, PartialOn;
      reached := 0;
      if started { return false, 0; }
      started := true;
      TidyNone(Now());
      ok := Outside();
      if calm { FaithfulRestored(tree, original, roots); }
      TidyPartial(Now(), 0);
      if !ok || !RootsOk(tree, roots) { return false, 0; }
      for r := 0 to ROLES
        invariant started && Valid() && Built(r) && Lasts() && (calm ==> RootsOk(original, roots))
        invariant old(calm) && moves == old(moves) ==> Tidy(r)
      {
        reached := r;
        ok := Create(r);
        if !ok { return; }
      }
      reached := ROLES;
      ok := Outside();
      if calm && moves == old(moves) { TidyPartial(Now(), ROLES); }
    }

    /** The object under a role's name is the one recorded and pinned. */
    predicate Findable(r: Role)
      requires r in entries
      reads this
    {
      Found(tree, roots, entries, pinned, r)
    }

    ghost function Now(): View
      reads this
    {
      View(tree, entries, pinned, present)
    }

    /** A role's object, found again at its path, pinned and of the recorded identity. */
    method OpenRole(r: Role) returns (fd: Option<Identity>)
      requires Valid() && r in entries
      modifies `tree, `calm, `moves, `seen, `faults
      ensures Valid() && Lasts() && Still() && old(seen) <= seen && (Steady() && old(Findable(r)) ==> fd.Some?)
      ensures fd.Some? ==> Findable(r)
      ensures fd.Some? ==> r in pinned && pinned[r] == fd.value && entries[r] == Bound(fd.value) && Lookup(tree, roots, r) == fd
    {
      hide Faithful, Accepted, Replay, RootsOk, Contained, Linked;
      var ok := Outside();
      if !ok || !Findable(r) { return None; }
      fd := Some(tree[Directory(tree, roots, pinned, r).value].own[r]);
    }

    /** Nothing of the first `n` objects has been disturbed, and no other object is left. */
    ghost predicate Tidy(n: nat)
      reads this
    {
      calm && RootsOk(original, roots) && TidyOn(Now(), n)
    }

    /** The first `n` objects are as they were made; of the next one there may be anything between an
        intent and a bound object. */
    ghost predicate Partial(n: nat)
      reads this
    {
      calm && PartialOn(Now(), n)
    }

    /** One owned cgroup, bound and idle. */
    method GroupIdle(r: Role) returns (ok: bool)
      requires Valid() && r in entries && Group(r)
      modifies `tree, `calm, `moves, `seen, `faults
      ensures Valid() && Lasts() && Still() && old(seen) <= seen
      ensures ok ==> entries[r].Bound? && (moves == old(moves) ==> Findable(r) && Idle(tree, entries, r))
      ensures ok ==> SeenIdle(seen, entries, r, |old(seen)|, |seen|)
      ensures Steady() && old(Findable(r)) && old(Idle(tree, entries, r)) ==> ok
    {
      hide Faithful, Accepted, Replay, RootsOk, Contained, Linked, Lookup, Idle;
      var fd := OpenRole(r);
      if fd.None? { return false; }
      ok := Outside();
      ok := ok && Idle(tree, entries, r);
      assert seen[|seen| - 1] == tree;
    }

    /** Every owned cgroup is found, bound and idle. */
    predicate Confirmed()
      reads this
    {
      ConfirmedOn(tree, roots, entries, pinned)
    }

    /** No owned cgroup may hold a process, or a child that is not ours, or lack an identity. */
    method Barrier() returns (ok: bool)
      requires Valid()
      modifies `tree, `calm, `moves, `seen, `faults
      ensures Valid() && Lasts() && Still()
      ensures ok ==> forall r | r in entries && Group(r) :: entries[r].Bound?
      ensures ok && moves == old(moves) ==> Confirmed() && forall r | r in entries && Group(r) :: Idle(tree, entries, r)
      ensures old(seen) <= seen && (ok ==> AllSeenIdle(seen, entries, |old(seen)|, |seen|))
      ensures Steady() && old(Confirmed()) ==> ok
    {
      hide Faithful, Accepted, Replay, RootsOk, Contained, Linked, Lookup, Idle, SeenIdle, Found;
      ok := Outside();
      if !ok { return; }
      for r := CGROUP_PARENT to CGROUP_WORKER + 1
        invariant Valid() && ok && Lasts() && Still()
        invariant forall q: Role | q in entries && Group(q) && q < r :: entries[q].Bound?
        invariant moves == old(moves) ==> forall q: Role | q in entries && Group(q) && q < r :: Findable(q) && Idle(tree, entries, q)
        invariant old(seen) <= seen
        invariant forall q: Role | q in entries && Group(q) && q < r :: SeenIdle(seen, entries, q, |old(seen)|, |seen|)
      {
        if r in entries {
          ghost var before := seen;
          ok := GroupIdle(r);
          if !ok { return; }
          forall q: Role | q in entries && Group(q) && q < r ensures SeenIdle(seen, entries, q, |old(seen)|, |seen|) {
            SeenLater(before, seen, entries, q, |old(seen)|, |before|, |old(seen)|);
          }
          SeenLater(seen, seen, entries, r, |before|, |seen|, |old(seen)|);
        }
      }
    }

    /** What the last look and the kernel ask of a name that is to go. */
    predicate Discardable(r: Role, id: Ident)
      reads this
    {
      Droppable(tree, roots, pinned, r, id)
    }

    /** The last look at the identity, and the unlink or rmdir by name, which takes only an empty object. */
    method Discard(r: Role) returns (ok: bool)
      requires Valid() && r in entries && entries[r].Bound? && (calm ==> r in present)
      modifies `tree, `present, `removals
      ensures Valid()
      ensures ok <==> old(Discardable(r, entries[r].identity))
      ensures !ok ==> tree == old(tree) && present == old(present) && removals == old(removals)
      ensures ok ==> present == old(present) - {r} && |removals| == |old(removals)| + 1 && removals[..|old(removals)|] == old(removals)
      ensures ok ==> (var x := removals[|old(removals)|];
                      && x.role == r && x.at == |seen| && x.identity == entries[r].identity && Justified(x, entries)
                          && Named(old(tree), x.dir, r)
                      && old(tree)[x.dir].own[r] == x.identity && x.identity in old(tree) && old(tree)[x.identity] == x.node
                      && tree == Removed(old(tree), x.dir, r))
      ensures ok && calm ==> AllAsTidy(old(tree), tree, present)
    {
      hide Faithful, Accepted, Replay, RootsOk, AllAsTidy;
      if !Discardable(r, entries[r].identity) { return false; }
      var dir := DirOf(roots, pinned, r);
      var id := tree[dir.value].own[r];
      if calm {
        PresentHere(tree, original, roots, entries, pinned, present, r);
        RemovedFaithful(tree, original, roots, present, r, dir.value);
        RemovedTidy(tree, original, roots, present, r, dir.value);
      }
      removals := removals + [Removal(r, dir.value, id, tree[id], |seen|)];
      tree := Removed(tree, dir.value, r);
      present := present - {r};
      ok := true;
    }

    /** Entries that are bound, up to a role, are still there in a calm tree. */
    ghost predicate Standing(n: nat)
      reads this
    {
      calm ==> forall q | q in entries && entries[q].Bound? && q < n :: q in present
    }

    /** What may go of a role in a clean tree: an empty object of its kind, a slot of its size. */
    predicate Cleanable(r: Role, fd: Identity)
      reads this
    {
      fd in tree && if Slot(r) then tree[fd] == File(SLOT_BYTES) else tree[fd].Dir? && Empty(tree[fd])
    }

    /** What a turn needs to remove an object: it is found, and it may go. */
    predicate Loose(r: Role)
      requires r in entries
      reads this
    {
      entries[r].Bound? && Findable(r) && Cleanable(r, entries[r].identity)
    }

    /** Bound, as it was made, and with nothing of ours left in it. */
    ghost predicate Ready(r: Role)
      reads this
    {
      ReadyOn(Now(), r)
    }

    /** The looks that come before a removal. */
    method Inspect(r: Role) returns (ok: bool)
      requires Valid() && r in entries
      modifies `tree, `calm, `moves, `seen, `faults
      ensures Valid() && Lasts() && Still() && old(seen) <= seen && (ok ==> entries[r].Bound?)
      ensures Steady() ==> (ok <==> old(Loose(r)))
    {
      hide Faithful, Accepted, Replay, RootsOk, Contained, Linked, Lookup, Empty;
      ok := Outside();
      if !ok || entries[r].Intent? { return false; }
      var fd := OpenRole(r);
      if fd.None? { return false; }
      ok := Outside();
      if !ok || !Cleanable(r, fd.value) { return false; }
      ok := Outside();
    }

    /** After a removal the descriptors are closed, which may fail, and the entry is dropped. */
    method Release(r: Role) returns (ok: bool, gone: bool)
      requires Valid() && r in entries && entries[r].Bound? && r !in present && forall q | q in Cleaned(trace) :: q > r
      modifies `tree, `calm, `moves, `seen, `faults, `entries, `pinned, `trace
      ensures Valid() && Lasts() && Still() && (Steady() ==> ok)
      ensures old(seen) <= seen && (ok ==> gone && pinned == old(pinned) - {r})
      ensures entries == if gone then old(entries) - {r} else old(entries)
      ensures Cleaned(trace) == if gone then old(Cleaned(trace)) + [r] else old(Cleaned(trace))
    {
      hide Faithful, Accepted, Replay, RootsOk, Contained, Linked, Cleaned;
      gone := false;
      ok := Outside();
      if !ok { return; }
      if calm { LinkedUnpin(entries, pinned, present, r); }
      pinned := pinned - {r};
      ok := Outside();
      if !ok { return; }
      ok := Forget(r);
      gone := true;
    }

    /** One turn of the loop; `gone` is whether the entry was dropped, which a failing
        descriptor can prevent and a failing announcement cannot. */
    method CleanRole(r: Role) returns (ok: bool, gone: bool)
      requires Valid() && r in entries && Standing(r + 1) && forall q | q in Cleaned(trace) :: q > r
      modifies `tree, `calm, `moves, `seen, `faults, `entries, `pinned, `trace, `present, `removals
      ensures Valid() && Standing(r) && Lasts() && (ok ==> gone)
      ensures entries == if gone then old(entries) - {r} else old(entries)
      ensures Cleaned(trace) == if gone then old(Cleaned(trace)) + [r] else old(Cleaned(trace))
      ensures old(seen) <= seen && Removes(old(removals), removals, r, old(entries), |old(seen)|) && (gone ==> removals != old(removals))
      ensures Steady() && old(calm) ==> calm && ok == gone == old(Ready(r))
      ensures Steady() && old(calm) ==> After(old(Now()), Now(), if gone then {r} else {})
    {
      hide Valid, Lookup, Justified, Empty, Cleaned, Removed, ReadyOn, After, Found,
           Droppable, AllAsTidy;
      ghost var v := Now();
      if calm { LooseReady(r); }
      AfterNothing(v);
      gone := false;
      ok := Inspect(r);
      if ok { ok := Discard(r); }
      if ok { ok, gone := Release(r); }
      if Steady() && old(calm) && gone { AfterRemoved(v, Now(), r); }
    }

    /** In a tree whose names were left alone, an object is loose exactly if it is ready. */
    lemma LooseReady(r: Role)
      requires Valid() && calm && r in entries && Standing(r + 1)
      ensures Loose(r) <==> Ready(r)
      ensures Loose(r) ==> Discardable(r, entries[r].identity) && r in present && entries[r].identity == present[r]
    {
      if r in present {
        assert Linked(entries, pinned, present);
        NeatFound(Now(), original, roots, r);
        CleanableNode(Now(), original, roots, r);
      }
      hide Accepted, Replay, Faithful, Found;
    }

    /** The entry is dropped, and the parent told. */
    method Forget(r: Role) returns (ok: bool)
      requires Valid() && r in entries && entries[r].Bound? && r !in present && forall q | q in Cleaned(trace) :: q > r
      modifies `entries, `trace, `faults
      ensures Valid() && entries == old(entries) - {r} && Cleaned(trace) == old(Cleaned(trace)) + [r]
      ensures old(faults) <= faults && (ok <==> faults == old(faults))
    {
      hide Faithful, Replay, RootsOk, Linked;
      AcceptedPositive(trace, r);
      CleanAccepted(trace, r, entries[r].identity);
      if calm { LinkedForget(entries, pinned, present, r); }
      var id := entries[r].identity;
      entries := entries - {r};
      ok := Register(Event(r, Cleans(id)));
    }

    /** The sweep is down to role `r`: what it has cleaned of the entries it began with, what it
        removed, and that each pending role so far had its turn. */
    ghost predicate Down(v: View, was: seq<Removal>, had: seq<Turn>, looks: nat, cleaned: seq<Role>, r: nat)
      reads this
    {
      && r <= ROLES && Valid() && Standing(r) && looks <= |seen|
      && cleaned == Cleaned(trace) && entries == v.entries - Those(cleaned) && (forall q | q in cleaned :: q >= r)
      && Swept(was, removals, v.entries, r, looks) && had <= turns && Attempted(turns[|had|..], v.entries, r)
    }

    /** The turn of one role, if it is pending. */
    method Attend(r: Role, cleaned: seq<Role>, ghost v: View, ghost was: seq<Removal>, ghost had: seq<Turn>, ghost looks: nat)
      returns (ok: bool, now: seq<Role>)
      requires Down(v, was, had, looks, cleaned, r + 1)
      modifies `tree, `calm, `moves, `seen, `faults, `entries, `pinned, `trace, `present, `removals, `turns
      ensures Down(v, was, had, looks, now, r) && Lasts() && old(seen) <= seen
      ensures |Late(entries, r)| <= old(|Late(entries, r + 1)|) + if ok then 0 else 1
      ensures Steady() && old(calm) && Halfway(v, old(Now()), cleaned, r + 1) ==>
                && calm && Halfway(v, Now(), now, r)
                && |Late(entries, r)| == old(|Late(entries, r + 1)|) + if ok then 0 else 1
    {
      hide Faithful, Accepted, Replay, RootsOk, Contained, Linked, Justified, Cleaned, Swept, Attempted, Halfway, ReadyOn, After,
           Removes, Those, Late;
      ghost var before, removed, ts, u, from := entries, removals, turns, Now(), |seen|;
      ok, now := true, cleaned;
      ThoseMore(v.entries, cleaned, r);
      if r in entries {
        var gone;
        ghost var ready := calm && Ready(r);
        ok, gone := CleanRole(r);
        turns := turns + [Turn(r, ready, !Steady(), gone)];
        if gone { now := cleaned + [r]; }
        AttemptedMore(ts[|had|..], v.entries, r, turns[|turns| - 1]);
        assert turns[|had|..] == ts[|had|..] + [turns[|turns| - 1]];
        if Steady() && old(calm) && Halfway(v, u, cleaned, r + 1) { HalfwayMore(v, u, cleaned, Now(), r, gone); }
      } else {
        RemovesNone(removals, r, before, from);
        AttemptedSkip(ts[|had|..], v.entries, r);
        if Halfway(v, u, cleaned, r + 1) { HalfwaySkip(v, u, cleaned, r); }
      }
      LateMore(before, entries, r);
      SweptMore(was, removed, removals, r, before, v.entries, from, looks);
    }

    /** The roles from the newest to the oldest. Each pending role gets its turn, whatever came of the
        turns before; left alone, the sweep removes exactly the roles that are clear. */
    method Sweep() returns (errors: nat, cleaned: seq<Role>)
      requires Valid() && Unclean()
      modifies `tree, `calm, `moves, `seen, `faults, `entries, `pinned, `trace, `present, `removals, `turns
      ensures Valid() && Lasts() && old(seen) <= seen
      ensures |entries| <= errors
      ensures cleaned == Cleaned(trace) && entries == old(entries) - Those(cleaned)
      ensures Swept(old(removals), removals, old(entries), 0, |old(seen)|)
      ensures old(turns) <= turns && Attempted(turns[|old(turns)|..], old(entries), 0)
      ensures Steady() && old(calm) ==> calm && AllClear(old(Now()), Now(), errors, cleaned)
    {
      hide Valid, Justified, Cleaned, Swept, Attempted, Halfway, Late, Those;
      errors, cleaned := 0, [];
      var r := ROLES;
      ghost var v, was, had, looks := Now(), removals, turns, |seen|;
      SweptNone(removals, entries);
      AttemptedNone(entries);
      HalfwayNone(v);
      LateEnds(entries);
      ThoseNone(entries);
      assert turns[|had|..] == [];
      assert Down(v, was, had, looks, cleaned, r);
      hide Down;
      while r > 0
        invariant 0 <= r <= ROLES && Down(v, was, had, looks, cleaned, r) && Lasts() && old(seen) <= seen
        invariant |Late(entries, r)| <= errors
        invariant Steady() && old(calm) ==> calm && errors == |Late(entries, r)| && Halfway(v, Now(), cleaned, r)
      {
        r := r - 1;
        var ok;
        ok, cleaned := Attend(r, cleaned, v, was, had, looks);
        if !ok { errors := errors + 1; }
      }
      DownToNone(v, was, had, looks, cleaned);
      LateEnds(entries);
      HalfwayDone(v, Now(), cleaned);
    }

    lemma DownToNone(v: View, was: seq<Removal>, had: seq<Turn>, looks: nat, cleaned: seq<Role>)
      requires Down(v, was, had, looks, cleaned, 0)
      ensures Valid() && cleaned == Cleaned(trace) && entries == v.entries - Those(cleaned)
      ensures Swept(was, removals, v.entries, 0, looks) && had <= turns && Attempted(turns[|had|..], v.entries, 0)
    {
      hide Valid, Swept, Attempted, Those, Cleaned;
    }

    lemma Restored()
      requires Valid() && calm && entries == map[]
      ensures tree == original
    {
      assert present == map[];
      FaithfulRestored(tree, original, roots);
    }

    /** The sweep behind a passed barrier, which began when so many trees had been seen. */
    method Clean(ghost began: nat) returns (errors: nat, cleaned: seq<Role>)
      requires Valid() && Unclean() && began <= |seen| && AllSeenIdle(seen, entries, began, |seen|)
      modifies `tree, `calm, `moves, `seen, `faults, `entries, `pinned, `trace, `present, `removals, `turns
      ensures Valid() && Lasts() && old(seen) <= seen && |entries| <= errors
      ensures errors == 0 && calm ==> tree == original
      ensures cleaned == Cleaned(trace) && entries == old(entries) - Those(cleaned)
      ensures Swept(old(removals), removals, old(entries), 0, began)
      ensures forall k | |old(removals)| <= k < |removals| :: AllSeenIdle(seen, old(entries), began, removals[k].at)
      ensures old(turns) <= turns && Attempted(turns[|old(turns)|..], old(entries), 0)
      ensures Steady() && old(calm) ==> calm && AllClear(old(Now()), Now(), errors, cleaned)
    {
      hide Valid, Justified, Idle, Cleaned, Swept, Attempted, Clear, Those, AllClear, AllSeenIdle;
      ghost var looked := seen;
      errors, cleaned := Sweep();
      LookedFirst(old(removals), removals, old(entries), began, looked, seen);
      if errors == 0 && calm { Restored(); }
    }

    /** `cleanup`: the barrier, then the removals. Whatever others do meanwhile, every removal comes
        after a look in this cleanup that found each owned cgroup unpopulated and with its known
        children only. Left alone, the barrier passes exactly if every owned cgroup is confirmed, and
        then exactly the clear roles go, one error for each of the others. */
    method Cleanup() returns (errors: nat, cleaned: seq<Role>)
      requires Valid() && Unclean()
      modifies `tree, `calm, `moves, `seen, `faults, `entries, `pinned, `trace, `present, `removals, `turns
      ensures Valid() && Lasts()
      ensures errors == 0 ==> entries == map[] && (calm ==> tree == original)
      ensures cleaned == Cleaned(trace) && entries == old(entries) - Those(cleaned)
      ensures Swept(old(removals), removals, old(entries), 0, |old(seen)|) && old(seen) <= seen
      ensures forall k | |old(removals)| <= k < |removals| :: AllSeenIdle(seen, old(entries), |old(seen)|, removals[k].at)
      ensures (exists r :: r in old(entries) && Group(r)
                           && (old(entries)[r].Intent? || (moves == old(moves) && !Idle(old(tree), old(entries), r)))) ==>
                removals == old(removals) && entries == old(entries)
      ensures old(turns) <= turns
      ensures || (Attempted(turns[|old(turns)|..], old(entries), 0) && |entries| <= errors)
              || (errors == 1 && cleaned == [] && removals == old(removals) && turns == old(turns))
      ensures Steady() && old(calm) ==> calm && CleanedUp(old(Now()), roots, Now(), errors, cleaned)
    {
      hide Valid, Justified, Idle, Cleaned, Swept, Attempted, Clear, Found, Those, CleanedUp, AllClear, AllSeenIdle, ConfirmedOn;
      ghost var v := Now();
      SweptNone(removals, entries);
      var ok := Barrier();
      ThoseNone(entries);
      if !ok {
        NotCleaned(Now(), roots);
        return 1, [];
      }
      errors, cleaned := Clean(|old(seen)|);
      if Steady() && old(calm) { AllCleaned(v, roots, Now(), errors, cleaned); }
    }
  }

  /** A whole life: initialize, complete or broken off; the run in between, during which others may do
      anything; one cleanup. The parent accepts every event sent, and its registry is what is
      still pending. If others left the names alone, what is left of the nine objects is
      pending too and nothing else changed; without errors nothing is left at all. If no call
      failed and nobody interfered, there are no errors and all nine were made and removed.
      If nobody interfered and no call of the cleanup failed, a creation that broke off anywhere is
      taken back: no object stays but one whose making was cut short, with those above it, and all
      of them if that is a cgroup without an identity. */
  method Lifecycle(t: Tree, rs: Roots)
    returns (n: Initialization, ok: bool, errors: nat, cleaned: seq<Role>, ghost reached: nat, ghost begun: View, ghost faults: nat)
    ensures Accepted(n.trace) && Replay(n.trace) == n.entries && cleaned == Cleaned(n.trace)
    ensures n.calm ==> Faithful(n.tree, t, rs, n.present) && n.present.Keys <= n.entries.Keys
    ensures errors == 0 ==> n.entries == map[] && (n.calm ==> n.tree == t)
    ensures ok && errors == 0 ==> forall r: Role :: r in cleaned
    ensures Vacant(t, rs) && n.moves == n.faults == 0 ==> ok && errors == 0 && n.tree == t
    ensures n.entries == begun.entries - Those(cleaned) && (n.moves == 0 ==> PartialOn(begun, reached))
    ensures n.moves == 0 && n.faults == faults ==> TakenBack(begun, reached, n.Now(), t, errors, cleaned)
  {
    hide Faithful, Accepted, Replay, RootsOk, Contained, Linked, Idle, Swept, TidyOn, PartialOn, Vacant, Cleaned, Clear, Attempted,
         Found, Those, TakenBack, CleanedUp, ConfirmedOn;
    n := new Initialization(t, rs);
    ok, reached := n.Initialize();
    var between := n.Outside();
    begun, faults := n.Now(), n.faults;
    errors, cleaned := n.Cleanup();
    if ok && errors == 0 {
      forall r: Role ensures r in cleaned {
        assert r in begun.entries && r !in n.entries;
        ThoseIn(begun.entries, cleaned, r);
      }
    }
    if n.moves == 0 && n.faults == faults {
      BrokenOff(begun, t, rs, reached, n.Now(), errors, cleaned);
      if ok { TakenAll(begun, n.Now(), t, errors, cleaned); }
    }
  }

  /** A cgroup that was intended and has no identity yet. */
  predicate Unidentified(v: View) { exists q :: q in v.entries && Group(q) && v.entries[q].Intent? }

  /** The object that the creation was at is there and cannot go. */
  predicate Stuck(v: View, n: nat) { n < ROLES && n in v.present && !Neat(v, n) }

  /** It is in the way of an object that it lies in. */
  predicate Blocked(v: View, n: nat, r: Role) { Stuck(v, n) && Above(r, n) }

  /** An undisturbed cleanup after a creation that went up to `n`: nothing goes if a cgroup has no
      identity; else every complete object goes that is not above one left half made, and without
      such a one the tree is the original. */
  predicate TakenBack(v: View, n: nat, w: View, original: Tree, errors: nat, cleaned: seq<Role>) {
    if Unidentified(v) then errors == 1 && cleaned == [] && w == v
    else
      && errors == |w.entries| && (forall r: Role | r < n :: r in cleaned <==> !Blocked(v, n, r))
      && (n !in v.present ==> w.tree == original)
  }

  lemma BrokenOff(v: View, original: Tree, roots: Roots, n: nat, w: View, errors: nat, cleaned: seq<Role>)
    requires PartialOn(v, n) && Faithful(v.tree, original, roots, v.present) && (v.entries != map[] ==> RootsOk(original, roots))
    requires CleanedUp(v, roots, w, errors, cleaned) && Faithful(w.tree, original, roots, w.present)
    ensures TakenBack(v, n, w, original, errors, cleaned)
  {
    hide Faithful, Clear, ConfirmedOn, PartialOn, Unidentified, Blocked, Those;
    ConfirmedExactly(v, original, roots, n);
    forall r: Role | r < n ensures Clear(v, r) <==> !Blocked(v, n, r) { PartialClear(v, n, r); }
    NotBlocked(v, n);
    if !Unidentified(v) && n !in v.present { Undone(v, original, roots, w.tree, n, cleaned); }
  }

  lemma NotBlocked(v: View, n: nat)
    ensures n !in v.present ==> forall r: Role :: !Blocked(v, n, r)
  {
  }

  lemma ConfirmedExactly(v: View, original: Tree, roots: Roots, n: nat)
    requires PartialOn(v, n) && Faithful(v.tree, original, roots, v.present) && (v.entries != map[] ==> RootsOk(original, roots))
    ensures Unidentified(v) <==> !ConfirmedOn(v.tree, roots, v.entries, v.pinned)
  {
    hide Faithful, Found, PartialOn;
    if !Unidentified(v) && v.entries != map[] { PartialConfirmed(v, original, roots, n); }
  }

  lemma Undone(v: View, original: Tree, roots: Roots, tree: Tree, n: nat, cleaned: seq<Role>)
    requires PartialOn(v, n) && n !in v.present && (forall r: Role | r < n :: r in cleaned)
    requires Faithful(tree, original, roots, v.present - Those(cleaned))
    ensures tree == original
  {
    hide Faithful;
    assert forall q | q in v.present :: q in v.entries && q < n;
    assert v.present - Those(cleaned) == map[];
    FaithfulRestored(tree, original, roots);
  }

  /** After a complete creation, everything goes. */
  lemma TakenAll(v: View, w: View, original: Tree, errors: nat, cleaned: seq<Role>)
    requires PartialOn(v, ROLES) && TakenBack(v, ROLES, w, original, errors, cleaned) && w.entries == v.entries - Those(cleaned)
    ensures errors == 0 && w.tree == original
  {
    forall q | q in v.entries && Group(q) ensures v.entries[q].Bound? { assert Neat(v, q); }
    assert forall q: Role :: q in cleaned;
    assert w.entries == map[];
  }

  /** The removals since `before` are justified, of roles from `n` on, made after `from` trees
      had been seen, and from the newest role to the oldest. */
  predicate Swept(before: seq<Removal>, after: seq<Removal>, entries: map<Role, Row>, n: nat, from: nat) {
    && before <= after
    && (forall k | |before| <= k < |after| :: Justified(after[k], entries) && after[k].role >= n && after[k].at >= from)
    && (forall j, k | |before| <= j < k < |after| :: after[j].role > after[k].role)
  }

  lemma SweptEarlier(before: seq<Removal>, after: seq<Removal>, entries: map<Role, Row>, from: nat, start: nat)
    requires Swept(before, after, entries, 0, from) && start <= from
    ensures Swept(before, after, entries, 0, start)
  {
  }

  lemma SweptAt(before: seq<Removal>, after: seq<Removal>, entries: map<Role, Row>, from: nat, k: nat)
    requires Swept(before, after, entries, 0, from) && |before| <= k < |after|
    ensures after[k].at >= from
  {
  }

  /** One of the trees seen in a stretch had the cgroup idle. */
  ghost predicate SeenIdle(seen: seq<Tree>, entries: map<Role, Row>, r: Role, from: nat, to: nat)
    requires r in entries
  {
    exists t :: from <= t < to && t < |seen| && Idle(seen[t], entries, r)
  }

  /** Every owned cgroup was seen idle in a stretch. */
  ghost predicate AllSeenIdle(seen: seq<Tree>, entries: map<Role, Row>, from: nat, to: nat) {
    forall r | r in entries && Group(r) :: SeenIdle(seen, entries, r, from, to)
  }

  lemma SeenLater(seen: seq<Tree>, later: seq<Tree>, entries: map<Role, Row>, r: Role, from: nat, to: nat, start: nat)
    requires r in entries && SeenIdle(seen, entries, r, from, to) && seen <= later && start <= from
    ensures forall until | to <= until :: SeenIdle(later, entries, r, start, until)
  {
    var t :| from <= t < to && t < |seen| && Idle(seen[t], entries, r);
    assert later[t] == seen[t];
  }

  lemma AllSeenLater(seen: seq<Tree>, later: seq<Tree>, entries: map<Role, Row>, from: nat, to: nat, until: nat)
    requires AllSeenIdle(seen, entries, from, to) && seen <= later && to <= until
    ensures AllSeenIdle(later, entries, from, until)
  {
    forall r | r in entries && Group(r) ensures SeenIdle(later, entries, r, from,
        until) { SeenLater(seen, later, entries, r, from, to, from); }
  }

  /** Removals made after a stretch of looks come after each of them. */
  lemma LookedFirst(before: seq<Removal>, after: seq<Removal>, entries: map<Role, Row>, from: nat, looked: seq<Tree>, seen: seq<Tree>)
    requires Swept(before, after, entries, 0, |looked|) && AllSeenIdle(looked, entries, from, |looked|)
    requires looked <= seen && from <= |looked|
    ensures Swept(before, after, entries, 0, from)
    ensures forall k | |before| <= k < |after| :: AllSeenIdle(seen, entries, from, after[k].at)
  {
    hide AllSeenIdle, Swept;
    SweptEarlier(before, after, entries, |looked|, from);
    forall k | |before| <= k < |after| ensures AllSeenIdle(seen, entries, from, after[k].at) {
      SweptAt(before, after, entries, |looked|, k);
      AllSeenLater(looked, seen, entries, from, |looked|, after[k].at);
    }
  }

  lemma SweptNone(removals: seq<Removal>, entries: map<Role, Row>)
    ensures forall n: nat, from: nat :: Swept(removals, removals, entries, n, from)
  {
  }

  lemma SweptMore(before: seq<Removal>, now: seq<Removal>, after: seq<Removal>, r: Role, entries: map<Role, Row>, earlier: map<Role, Row>,
                  at: nat, from: nat)
    requires Swept(before, now, earlier, r + 1, from) && Removes(now, after, r, entries, at) && from <= at
    requires forall q | q in entries :: q in earlier && earlier[q] == entries[q]
    ensures Swept(before, after, earlier, r, from)
  {
  }

  lemma RemovesNone(removals: seq<Removal>, r: Role, entries: map<Role, Row>, from: nat)
    ensures Removes(removals, removals, r, entries, from)
  {
  }

  /** At most one more removal, of the role and justified. */
  predicate Removes(before: seq<Removal>, after: seq<Removal>, r: Role, entries: map<Role, Row>, from: nat) {
    || after == before
    || (|after| == |before| + 1 && after[..|before|] == before && after[|before|].role == r && after[|before|].at >= from
        && Justified(after[|before|], entries))
  }

  /** Every pending role from `n` on had one turn, from the newest to the oldest, and every turn that
      was not disturbed dropped a role that was ready. */
  predicate Attempted(turns: seq<Turn>, entries: map<Role, Row>, n: nat) {
    && (forall r: Role | n <= r :: r in entries <==> exists k :: 0 <= k < |turns| && turns[k].role == r)
    && (forall k | 0 <= k < |turns| :: turns[k].role >= n && (turns[k].ready && !turns[k].disturbed ==> turns[k].gone))
    && (forall j, k | 0 <= j < k < |turns| :: turns[j].role > turns[k].role)
  }

  lemma AttemptedNone(entries: map<Role, Row>)
    ensures Attempted([], entries, ROLES)
  {
  }

  lemma AttemptedMore(turns: seq<Turn>, entries: map<Role, Row>, r: Role, t: Turn)
    requires Attempted(turns, entries, r + 1) && r in entries && t.role == r && (t.ready && !t.disturbed ==> t.gone)
    ensures Attempted(turns + [t], entries, r)
  {
    var all := turns + [t];
    assert all[|turns|] == t;
    forall q: Role | r <= q ensures q in entries <==> exists k :: 0 <= k < |all| && all[k].role == q {
      if q in entries && q != r { var k :| 0 <= k < |turns| && turns[k].role == q; assert all[k].role == q; }
    }
  }

  lemma AttemptedSkip(turns: seq<Turn>, entries: map<Role, Row>, r: Role)
    requires Attempted(turns, entries, r + 1) && r !in entries
    ensures Attempted(turns, entries, r)
  {
  }

  predicate TidyNode(r: Role, n: Node) { if Slot(r) then n == File(SLOT_BYTES) else n.Dir? && n.foreign == {} && !n.busy }

  /** Bound to the object that is there, pinned, and as it was made. */
  predicate Neat(v: View, q: Role) {
    && q in v.entries && q in v.present && v.entries[q] == Bound(v.present[q]) && q in v.pinned && v.pinned[q] == v.present[q]
    && v.present[q] in v.tree && TidyNode(q, v.tree[v.present[q]])
  }

  predicate TidyOn(v: View, n: nat) {
    && n <= ROLES && (forall q: Role :: q in v.entries <==> q < n) && v.present.Keys == v.entries.Keys
    && forall q | q in v.entries :: Neat(v, q)
  }

  predicate PartialOn(v: View, n: nat) {
    && n <= ROLES && v.present.Keys <= v.entries.Keys && (forall q | q in v.entries :: q <= n)
    && (forall q: Role | q < n :: Neat(v, q))
    && (forall q | q in v.entries && q == n && v.entries[q].Bound? && !Slot(q) :: Neat(v, q))
  }

  lemma TidyPartial(v: View, n: nat)
    requires TidyOn(v, n)
    ensures PartialOn(v, n)
  {
  }

  lemma TidyNone(v: View)
    requires v.entries == map[] && v.present == map[]
    ensures TidyOn(v, 0)
  {
  }

  lemma PartialIntent(v: View, r: Role)
    requires PartialOn(v, r)
    ensures PartialOn(v.(entries := v.entries[r := Intent]), r)
  {
    var w := v.(entries := v.entries[r := Intent]);
    forall q: Role | q < r ensures Neat(w, q) { assert Neat(v, q); }
  }

  lemma PartialMade(v: View, r: Role, dir: Identity, id: Identity)
    requires PartialOn(v, r) && r in v.entries && v.entries[r] == Intent && Makeable(v.tree, dir, r) && id !in v.tree
    ensures PartialOn(v.(tree := Made(v.tree, dir, r, id, Blank(r)), present := v.present[r := id]), r)
  {
    var w := v.(tree := Made(v.tree, dir, r, id, Blank(r)), present := v.present[r := id]);
    forall q: Role | q < r ensures Neat(w, q) { assert Neat(v, q); }
  }

  lemma PartialPinned(v: View, r: Role, id: Identity)
    requires PartialOn(v, r) && r in v.entries && v.entries[r] == Intent
    ensures PartialOn(v.(pinned := v.pinned[r := id]), r)
  {
    var w := v.(pinned := v.pinned[r := id]);
    forall q: Role | q < r ensures Neat(w, q) { assert Neat(v, q); }
  }

  lemma PartialBound(v: View, r: Role)
    requires PartialOn(v, r) && r in v.present && r in v.pinned && v.pinned[r] == v.present[r] && v.present[r] in v.tree
    requires Slot(r) || TidyNode(r, v.tree[v.present[r]])
    ensures PartialOn(v.(entries := v.entries[r := Bound(v.present[r])]), r)
  {
    var w := v.(entries := v.entries[r := Bound(v.present[r])]);
    forall q: Role | q < r ensures Neat(w, q) { assert Neat(v, q); }
  }

  lemma PartialFilled(v: View, r: nat, id: Identity)
    requires PartialOn(v, r) && id in v.tree && v.tree[id].File?
    ensures PartialOn(v.(tree := v.tree[id := File(SLOT_BYTES)]), r)
  {
    var w := v.(tree := v.tree[id := File(SLOT_BYTES)]);
    assert forall q: Role | Neat(v, q) :: Neat(w, q);
  }

  /** The role is neat and nothing of ours is left in its object. */
  predicate ReadyOn(v: View, r: Role) {
    && Neat(v, r) && (Parent(r).Some? ==> Parent(r).value in v.pinned)
    && forall q | q in v.present :: Parent(q) != Some(r)
  }

  /** The role is neat, and so is everything of ours in its object. */
  predicate Clear(v: View, r: Role)
    decreases ROLES - r
  {
    && Neat(v, r) && (Parent(r).Some? ==> Parent(r).value in v.pinned)
    && forall q: Role | r < q && q in v.present && Parent(q) == Some(r) :: Clear(v, q)
  }

  lemma KidsNone(present: map<Role, Identity>, r: Role)
    ensures Kids(present, r) == map[] <==> forall q | q in present :: Parent(q) != Some(r)
  {
    if Kids(present, r) == map[] { forall q | q in present ensures Parent(q) != Some(r) { assert q !in Kids(present, r); } }
  }

  lemma ParentThere(tree: Tree, original: Tree, roots: Roots, present: map<Role, Identity>, r: Role)
    requires Shape(tree, original, roots, present) && r in present
    ensures Parent(r).Some? ==> Parent(r).value in present
  {
  }

  /** A role whose own object or parent's is not neat is not found; a neat one under a neat parent is. */
  lemma NeatFound(v: View, original: Tree, roots: Roots, r: Role)
    requires Faithful(v.tree, original, roots, v.present) && RootsOk(original, roots)
    requires r in v.present && r in v.entries && (Parent(r).Some? && Parent(r).value in v.pinned && Parent(r).value in v.present ==>
               v.pinned[Parent(r).value] == v.present[Parent(r).value])
    ensures Found(v.tree, roots, v.entries, v.pinned, r) <==>
              && v.entries[r] == Bound(v.present[r]) && r in v.pinned && v.pinned[r] == v.present[r]
              && (Parent(r).Some? ==> Parent(r).value in v.pinned)
    ensures Found(v.tree, roots, v.entries, v.pinned, r) ==>
              Named(v.tree, DirOf(roots, v.pinned, r).value, r) && v.tree[DirOf(roots, v.pinned, r).value].own[r] == v.present[r]
  {
    hide RootsOk, Lookup, Attached;
    assert Shape(v.tree, original, roots, v.present);
    ParentThere(v.tree, original, roots, v.present, r);
    hide Shape, Faithful;
    LookupPresent(v.tree, original, roots, v.present, r);
    if Parent(r).Some? { LookupPresent(v.tree, original, roots, v.present, Parent(r).value); }
  }

  /** An object may go exactly if it is as it was made and holds nothing of ours. */
  lemma CleanableNode(v: View, original: Tree, roots: Roots, r: Role)
    requires Faithful(v.tree, original, roots, v.present) && RootsOk(original, roots) && r in v.present
    ensures v.present[r] in v.tree
    ensures (if Slot(r) then v.tree[v.present[r]] == File(SLOT_BYTES) else v.tree[v.present[r]].Dir? && Empty(v.tree[v.present[r]])) <==>
              TidyNode(r, v.tree[v.present[r]]) && forall q | q in v.present :: Parent(q) != Some(r)
  {
    assert Placed(v.tree, v.present);
    assert NodeOk(r, v.tree[v.present[r]], Kids(v.present, r));
    KidsNone(v.present, r);
    hide Shape, Faithful, RootsOk, Kids;
  }

  /** From one state to another a set of roles went, and what is left is as tidy as before. */
  predicate After(v: View, w: View, gone: set<Role>) {
    && w.pinned == v.pinned - gone && w.present == v.present - gone && w.entries == v.entries - gone
    && forall q | q in w.present :: AsTidy(v.tree, w.tree, q, w.present[q])
  }

  predicate AsTidy(t: Tree, u: Tree, q: Role, id: Identity) {
    (id in u <==> id in t) && (id in u ==> (TidyNode(q, u[id]) <==> TidyNode(q, t[id])))
  }

  lemma AfterNothing(v: View)
    ensures After(v, v, {})
  {
  }

  predicate AllAsTidy(t: Tree, u: Tree, present: map<Role, Identity>) {
    forall q | q in present :: AsTidy(t, u, q, present[q])
  }

  lemma RemovedTidy(tree: Tree, original: Tree, roots: Roots, present: map<Role, Identity>, r: Role, dir: Identity)
    requires Faithful(tree, original, roots, present) && RootsOk(original, roots)
    requires Named(tree, dir, r) && r in present && tree[dir].own[r] == present[r]
    ensures AllAsTidy(tree, Removed(tree, dir, r), present - {r})
  {
    FaithfulParts(tree, original, roots, present);
    hide Faithful;
  }

  lemma AfterRemoved(v: View, w: View, r: Role)
    requires AllAsTidy(v.tree, w.tree, w.present)
    requires w.entries == v.entries - {r} && w.pinned == v.pinned - {r} && w.present == v.present - {r}
    ensures After(v, w, {r})
  {
  }

  lemma AfterBoth(u: View, v: View, w: View, a: set<Role>, b: set<Role>)
    requires After(u, v, a) && After(v, w, b)
    ensures After(u, w, a + b)
  {
    assert u.pinned - a - b == u.pinned - (a + b) && u.present - a - b == u.present - (a + b) && u.entries - a - b == u.entries - (a + b);
    hide TidyNode;
  }

  function Those(cleaned: seq<Role>): set<Role> { set q | q in cleaned }

  lemma ThoseNone(entries: map<Role, Row>)
    ensures entries - Those([]) == entries
  {
  }

  lemma ThoseMore(entries: map<Role, Row>, cleaned: seq<Role>, r: Role)
    ensures entries - Those(cleaned) - {r} == entries - Those(cleaned + [r])
    ensures r !in entries - Those(cleaned) && r !in cleaned ==> r !in entries
    ensures r in entries - Those(cleaned) ==> r in entries && entries[r] == (entries - Those(cleaned))[r]
  {
    assert Those(cleaned + [r]) == Those(cleaned) + {r};
  }

  lemma ThoseIn(entries: map<Role, Row>, cleaned: seq<Role>, r: Role)
    requires r in entries && r !in entries - Those(cleaned)
    ensures r in cleaned
  {
  }

  /** Exactly the clear roles are gone, with one error for each of the others. */
  predicate AllClear(v: View, w: View, errors: nat, cleaned: seq<Role>) {
    && errors == |w.entries| && w.present == v.present - Those(cleaned) && forall r: Role :: r in cleaned <==> Clear(v, r)
  }

  /** What an undisturbed cleanup comes to. */
  predicate CleanedUp(v: View, roots: Roots, w: View, errors: nat, cleaned: seq<Role>) {
    if ConfirmedOn(v.tree, roots, v.entries, v.pinned) then AllClear(v, w, errors, cleaned)
    else errors == 1 && cleaned == [] && w == v
  }

  lemma NotCleaned(v: View, roots: Roots)
    ensures !ConfirmedOn(v.tree, roots, v.entries, v.pinned) ==> CleanedUp(v, roots, v, 1, [])
  {
  }

  lemma AllCleaned(v: View, roots: Roots, w: View, errors: nat, cleaned: seq<Role>)
    requires ConfirmedOn(v.tree, roots, v.entries, v.pinned) && AllClear(v, w, errors, cleaned)
    ensures CleanedUp(v, roots, w, errors, cleaned)
  {
  }

  /** What the sweep has done once it is down to role `r`. */
  predicate Halfway(v: View, w: View, cleaned: seq<Role>, r: nat) {
    && After(v, w, Those(cleaned)) && (forall q | q in cleaned :: q >= r)
    && forall q: Role | q >= r :: q in cleaned <==> Clear(v, q)
  }

  lemma HalfwayNone(v: View)
    ensures Halfway(v, v, [], ROLES)
  {
  }

  lemma HalfwayDone(v: View, w: View, cleaned: seq<Role>)
    ensures Halfway(v, w, cleaned, 0) ==> AllClear(v, w, |w.entries|, cleaned)
  {
  }

  lemma HalfwaySkip(v: View, w: View, cleaned: seq<Role>, r: Role)
    requires Halfway(v, w, cleaned, r + 1) && r !in w.entries
    ensures Halfway(v, w, cleaned, r)
  {
    hide AsTidy;
  }

  lemma NeatSame(v: View, w: View, gone: set<Role>, r: Role)
    requires After(v, w, gone) && r !in gone
    ensures Neat(w, r) <==> Neat(v, r)
  {
    hide TidyNode;
  }

  /** An object is ready once the clear ones above it are gone, exactly if it was clear. */
  lemma ReadyClear(v: View, w: View, cleaned: seq<Role>, r: Role)
    requires Halfway(v, w, cleaned, r + 1)
    ensures ReadyOn(w, r) <==> Clear(v, r)
  {
    NeatSame(v, w, Those(cleaned), r);
    hide Neat, AsTidy;
    assert Parent(r).Some? ==> (Parent(r).value in w.pinned <==> Parent(r).value in v.pinned);
    assert forall q | q in v.present && Parent(q) == Some(r) :: q > r && (q in w.present <==> !Clear(v, q));
    assert forall q | q in w.present :: q in v.present;
  }

  lemma HalfwayMore(v: View, u: View, cleaned: seq<Role>, w: View, r: Role, gone: bool)
    requires Halfway(v, u, cleaned, r + 1) && gone == ReadyOn(u, r) && After(u, w, if gone then {r} else {})
    ensures Halfway(v, w, if gone then cleaned + [r] else cleaned, r)
  {
    ReadyClear(v, u, cleaned, r);
    AfterBoth(v, u, w, Those(cleaned), if gone then {r} else {});
    assert Those(cleaned + [r]) == Those(cleaned) + {r} && Those(cleaned) + {} == Those(cleaned);
    hide After, ReadyOn;
  }

  /** Where `r` is the parent of `q`, or the parent's parent. */
  predicate Above(r: Role, q: Role) {
    Parent(q) == Some(r) || (Parent(q).Some? && Parent(Parent(q).value) == Some(r))
  }

  /** After a creation that broke off, a role is clear exactly if it is not above an object that was
      left half made. */
  lemma PartialClear(v: View, n: nat, r: Role)
    requires PartialOn(v, n) && r < n
    ensures Clear(v, r) <==> !Blocked(v, n, r)
    decreases ROLES - r
  {
    assert Neat(v, r) && (Parent(r).Some? ==> Neat(v, Parent(r).value));
    forall q: Role | r < q < n && Parent(q) == Some(r) ensures q in v.present && (Clear(v, q) <==> !Blocked(v, n, q)) {
      assert Neat(v, q);
      PartialClear(v, n, q);
    }
    assert forall q | q in v.present :: q in v.entries && q <= n;
    assert n < ROLES && Parent(n).Some? ==> Neat(v, Parent(n).value);
    assert n < ROLES && n in v.present ==> (Clear(v, n) <==> Neat(v, n));
    hide Neat;
    if Blocked(v, n, r) {
      var q := if Parent(n) == Some(r) then n else Parent(n).value;
      assert r < q && Parent(q) == Some(r) && q in v.present && !Clear(v, q);
    }
  }

  /** Without an intended cgroup, what a creation left passes the barrier. */
  lemma PartialConfirmed(v: View, original: Tree, roots: Roots, n: nat)
    requires PartialOn(v, n) && Faithful(v.tree, original, roots, v.present) && RootsOk(original, roots)
    requires forall q | q in v.entries && Group(q) :: v.entries[q].Bound?
    ensures ConfirmedOn(v.tree, roots, v.entries, v.pinned)
  {
    forall q | q in v.entries && Group(q) ensures Found(v.tree, roots, v.entries, v.pinned, q) && Idle(v.tree, v.entries, q) {
      assert Neat(v, q) && (Parent(q).Some? ==> Neat(v, Parent(q).value));
      NeatFound(v, original, roots, q);
      PartialIdle(v, original, roots, n, q);
    }
    hide Found, Idle;
  }

  lemma PartialIdle(v: View, original: Tree, roots: Roots, n: nat, q: Role)
    requires PartialOn(v, n) && Faithful(v.tree, original, roots, v.present) && RootsOk(original, roots)
    requires forall g | g in v.entries && Group(g) :: v.entries[g].Bound?
    requires q in v.entries && Group(q)
    ensures Idle(v.tree, v.entries, q)
  {
    assert Placed(v.tree, v.present);
    forall g | g in v.entries && Group(g) ensures Neat(v, g) { assert g == n ==> v.entries[g].Bound? && !Slot(g); }
    assert NodeOk(q, v.tree[v.present[q]], Kids(v.present, q));
    assert Kids(v.present, q).Keys == Expected(v.entries, q);
    hide Shape, Faithful, RootsOk, Kids, PartialOn;
  }

  /** The pending roles from `r` on. */
  function Late(entries: map<Role, Row>, r: nat): set<Role> { set q: Role | q in entries && q >= r }

  lemma LateEnds(entries: map<Role, Row>)
    ensures Late(entries, ROLES) == {} && |Late(entries, 0)| == |entries|
  {
    assert Late(entries, 0) == entries.Keys;
  }

  lemma LateMore(before: map<Role, Row>, entries: map<Role, Row>, r: Role)
    requires entries == before || entries == before - {r}
    ensures |Late(entries, r)| == |Late(before, r + 1)| + if r in entries then 1 else 0
  {
    assert Late(entries, r) == Late(before, r + 1) + if r in entries then {r} else {};
  }

  /** In an undisturbed tree the next object can be made. */
  lemma TidyMakeable(v: View, original: Tree, roots: Roots, r: Role)
    requires TidyOn(v, r) && Faithful(v.tree, original, roots, v.present) && Vacant(original, roots)
    ensures DirOf(roots, v.pinned, r).Some? && Makeable(v.tree, DirOf(roots, v.pinned, r).value, r)
    ensures Parent(r).Some? ==> Lookup(v.tree, roots, Parent(r).value) == DirOf(roots, v.pinned, r)
  {
    if Parent(r).Some? {
      assert Neat(v, Parent(r).value);
      LookupPresent(v.tree, original, roots, v.present, Parent(r).value);
      DirFacts(v.tree, original, roots, v.present, r);
      assert r !in Kids(v.present, Parent(r).value);
    } else {
      assert Rooted(v.tree, original, roots.guest, GUEST_ROOT, v.present)
          && Rooted(v.tree, original, roots.cgroup, CGROUP_PARENT, v.present);
    }
    hide Shape, Kids, Faithful;
  }

  lemma TidyMade(v: View, r: Role, dir: Identity, id: Identity)
    requires TidyOn(v, r) && Makeable(v.tree, dir, r) && id !in v.tree
    ensures TidyOn(View(Filled(v.tree, dir, r, id), v.entries[r := Bound(id)], v.pinned[r := id], v.present[r := id]), r + 1)
  {
    var w := View(Filled(v.tree, dir, r, id), v.entries[r := Bound(id)], v.pinned[r := id], v.present[r := id]);
    forall q: Role | q <= r ensures Neat(w, q) { assert q < r ==> Neat(v, q); }
  }

  lemma FaithfulParts(tree: Tree, original: Tree, roots: Roots, present: map<Role, Identity>)
    requires Faithful(tree, original, roots, present) && RootsOk(original, roots)
    ensures Placed(tree, present) && Injective(present)
  {
  }

  lemma LinkedUnpin(entries: map<Role, Row>, pinned: map<Role, Identity>, present: map<Role, Identity>, r: Role)
    requires Linked(entries, pinned, present)
    ensures Linked(entries, pinned - {r}, present)
  {
  }

  lemma LinkedForget(entries: map<Role, Row>, pinned: map<Role, Identity>, present: map<Role, Identity>, r: Role)
    requires Linked(entries, pinned, present) && r !in present
    ensures Linked(entries - {r}, pinned, present)
  {
  }

  lemma RemovedFaithful(tree: Tree, original: Tree, roots: Roots, present: map<Role, Identity>, r: Role, dir: Identity)
    requires Faithful(tree, original, roots, present) && r in present && DirOf(roots, present, r) == Some(dir)
    requires present[r] in tree && Empty(tree[present[r]])
    ensures Named(tree, dir, r) && tree[dir].own[r] == present[r]
    ensures Faithful(Removed(tree, dir, r), original, roots, present - {r})
  {
    assert Placed(tree, present);
    assert Slot(r) ==> Kids(present, r) == map[];
    RemovedShape(tree, original, roots, present, r);
  }

  lemma BuiltMore(entries: map<Role, Row>, pinned: map<Role, Identity>, r: Role, id: Identity)
    requires BuiltOn(entries - {r}, pinned - {r}, r) && r in entries && r in pinned
    ensures BuiltOn(entries[r := Bound(id)], pinned, r + 1)
  {
    var lower := entries - {r};
    forall q: Role ensures q in entries <==> q < r + 1 { assert q in lower <==> q < r; }
    forall q: Role ensures q in pinned <==> q < r + 1 { assert q in pinned - {r} <==> q < r; }
    forall q | q in entries && q != r ensures entries[q].Bound? { assert lower[q].Bound?; }
  }

  lemma LinkedIntent(entries: map<Role, Row>, pinned: map<Role, Identity>, present: map<Role, Identity>, r: Role)
    requires Linked(entries, pinned, present) && r !in entries
    ensures Linked(entries[r := Intent], pinned, present)
  {
  }

  lemma LinkedBound(entries: map<Role, Row>, pinned: map<Role, Identity>, present: map<Role, Identity>, r: Role, id: Identity)
    requires Linked(entries, pinned, present) && r in present && present[r] == id
    ensures Linked(entries[r := Bound(id)], pinned, present)
  {
  }

  lemma LinkedPin(entries: map<Role, Row>, pinned: map<Role, Identity>, present: map<Role, Identity>, r: Role, id: Identity)
    requires Linked(entries, pinned, present) && r in present && present[r] == id
    ensures Linked(entries, pinned[r := id], present)
  {
  }

  lemma LinkedMore(roots: Roots, entries: map<Role, Row>, pinned: map<Role, Identity>, present: map<Role, Identity>, r: Role, id: Identity)
    requires Linked(entries, pinned, present) && r in entries && entries[r] == Intent && r !in pinned
    requires DirOf(roots, pinned, r).Some? && (Parent(r).Some? ==> Parent(r).value in present)
    ensures Linked(entries, pinned, present[r := id]) && DirOf(roots, present, r) == DirOf(roots, pinned, r)
  {
  }

  /** A present object sits under its name in its pinned directory. */
  lemma PresentHere(tree: Tree, original: Tree, roots: Roots, entries: map<Role, Row>, pinned: map<Role, Identity>,
                    present: map<Role, Identity>, r: Role)
    requires Faithful(tree, original, roots, present) && Linked(entries, pinned, present) && r in present
    requires DirOf(roots, pinned, r).Some?
    ensures DirOf(roots, pinned, r) == DirOf(roots, present, r)
    ensures var dir := DirOf(roots, pinned, r).value; Named(tree, dir, r) && tree[dir].own[r] == present[r]
  {
    LookupPresent(tree, original, roots, present, r);
  }

  lemma MadeFaithful(tree: Tree, original: Tree, roots: Roots, present: map<Role, Identity>, r: Role, dir: Identity,
      id: Identity, node: Node)
    requires Faithful(tree, original, roots, present) && r !in present && id !in tree && dir in tree && tree[dir].Dir?
    requires DirOf(roots, present, r) == Some(dir) && !Named(tree, dir, r) && NodeOk(r, node, map[]) && RootsOk(original, roots)
    ensures Faithful(Made(tree, dir, r, id, node), original, roots, present[r := id])
  {
    MadeShape(tree, original, roots, present, r, id, node);
  }
}
