/** The part of a Linux namespace that the native initializer touches: an inode tree with
    directories, cgroups and slot files, and what making and removing one name does to it. */
module NativeTree {
  import opened Base
  import opened Registration

  /** A directory or cgroup: its entries under the nine fixed names, any other names, and
      for a cgroup whether it is populated. Or a regular file of a size. */
  datatype Node = Dir(own: map<Role, Identity>, foreign: set<string>, busy: bool) | File(size: nat)

  type Tree = map<Identity, Node>

  /** The existing directories that the two top objects go under. */
  datatype Roots = Roots(guest: Identity, cgroup: Identity)

  predicate Slot(r: Role) { r == LEASE || r == ACK }

  predicate Group(r: Role) { r == CGROUP_PARENT || r == CGROUP_SUPERVISOR || r == CGROUP_WORKER }

  /** The object that a role is made in, or none for the two that go under a root. */
  function Parent(r: Role): (p: Option<Role>)
    ensures p.Some? ==> p.value < r && !Slot(p.value)
  {
    if r == GUEST_ROOT || r == CGROUP_PARENT then None
    else if r == CGROUP_SUPERVISOR || r == CGROUP_WORKER then Some(CGROUP_PARENT)
    else if Slot(r) then Some(CONTROL)
    else Some(GUEST_ROOT)
  }

  function RootOf(roots: Roots, r: Role): Identity { if Group(r) then roots.cgroup else roots.guest }

  /** The directory that holds a role's name, given the identities of the objects. */
  function DirOf(roots: Roots, objects: map<Role, Identity>, r: Role): Option<Identity> {
    if Parent(r).None? then Some(RootOf(roots, r))
    else if Parent(r).value in objects then Some(objects[Parent(r).value])
    else None
  }

  predicate Named(tree: Tree, dir: Identity, r: Role) { dir in tree && tree[dir].Dir? && r in tree[dir].own }

  /** Looking a role's path up from its root, name by name. */
  function Lookup(tree: Tree, roots: Roots, r: Role): Option<Identity>
    decreases r
  {
    var dir := if Parent(r).None? then Some(RootOf(roots, r)) else Lookup(tree, roots, Parent(r).value);
    if dir.Some? && Named(tree, dir.value, r) then Some(tree[dir.value].own[r]) else None
  }

  predicate Empty(n: Node) { n.Dir? ==> n.own == map[] && n.foreign == {} && !n.busy }

  function Made(tree: Tree, dir: Identity, r: Role, id: Identity, node: Node): Tree
    requires dir in tree && tree[dir].Dir?
  {
    tree[dir := tree[dir].(own := tree[dir].own[r := id])][id := node]
  }

  function Removed(tree: Tree, dir: Identity, r: Role): Tree
    requires Named(tree, dir, r)
  {
    tree[dir := tree[dir].(own := tree[dir].own - {r})] - {tree[dir].own[r]}
  }

  // ---- The tree is the original one with the present objects added ----

  function Kids(present: map<Role, Identity>, p: Role): map<Role, Identity> {
    map r | r in present && Parent(r) == Some(p) :: present[r]
  }

  predicate Injective(present: map<Role, Identity>) {
    forall r, q | r in present && q in present && present[r] == present[q] :: r == q
  }

  /** The two roots with their top objects, and everything else as it was. */
  predicate Rooted(tree: Tree, original: Tree, root: Identity, top: Role, present: map<Role, Identity>) {
    && root in original && original[root].Dir? && root in tree
    && tree[root] == (if top in present then original[root].(own := original[root].own[top := present[top]]) else original[root])
    && (top in present ==> top !in original[root].own)
  }

  predicate NodeOk(r: Role, n: Node, kids: map<Role, Identity>) { if Slot(r) then n.File? else n.Dir? && n.own == kids }

  predicate Fresh(original: Tree, present: map<Role, Identity>) { forall r | r in present :: present[r] !in original }

  predicate Placed(tree: Tree, present: map<Role, Identity>) {
    forall r | r in present :: present[r] in tree && NodeOk(r, tree[present[r]], Kids(present, r))
  }

  predicate Kept(tree: Tree, original: Tree, roots: Roots) {
    forall i | i in original && i != roots.guest && i != roots.cgroup :: i in tree && tree[i] == original[i]
  }

  predicate Covered(tree: Tree, original: Tree, present: map<Role, Identity>) {
    forall i | i in tree :: i in original || i in present.Values
  }

  predicate Attached(present: map<Role, Identity>) { forall r | r in present && Parent(r).Some? :: Parent(r).value in present }

  predicate Shape(tree: Tree, original: Tree, roots: Roots, present: map<Role, Identity>) {
    && roots.guest != roots.cgroup && Injective(present) && Fresh(original, present) && Attached(present)
    && Rooted(tree, original, roots.guest, GUEST_ROOT, present) && Rooted(tree, original, roots.cgroup, CGROUP_PARENT, present)
    && Kept(tree, original, roots) && Placed(tree, present) && Covered(tree, original, present)
  }

  /** The directory of a role is one of the roots or the object of its parent, and no other object. */
  lemma DirFacts(tree: Tree, original: Tree, roots: Roots, present: map<Role, Identity>, r: Role)
    requires Shape(tree, original, roots, present) && DirOf(roots, present, r).Some?
    ensures var dir := DirOf(roots, present, r).value;
            && dir in tree && tree[dir].Dir? && Located(present, r, dir)
            && (Parent(r).None? ==> dir == RootOf(roots, r)) && (Parent(r).Some? ==> dir !in original)
            && (Parent(r).Some? ==> tree[dir].own == Kids(present, Parent(r).value))
  {
  }

  predicate Located(present: map<Role, Identity>, r: Role, dir: Identity) {
    forall q | q in present :: present[q] == dir <==> Parent(r) == Some(q)
  }

  lemma KidsMade(present: map<Role, Identity>, r: Role, id: Identity, q: Role)
    requires r !in present && Attached(present)
    ensures Kids(present[r := id], q) == if Parent(r) == Some(q) then Kids(present, q)[r := id] else Kids(present, q)
    ensures Kids(present, r) == map[]
  {
  }

  lemma PlacedMade(tree: Tree, present: map<Role, Identity>, r: Role, dir: Identity, id: Identity, node: Node)
    requires Placed(tree, present) && Attached(present) && Located(present, r, dir) && dir in tree && tree[dir].Dir?
    requires r !in present && id !in tree && NodeOk(r, node, map[])
    ensures Placed(Made(tree, dir, r, id, node), present[r := id])
  {
    var after, now := Made(tree, dir, r, id, node), present[r := id];
    forall q | q in now ensures now[q] in after && NodeOk(q, after[now[q]], Kids(now, q)) {
      KidsMade(present, r, id, q);
      assert Parent(r) != Some(r);
    }
  }

  lemma CoveredMade(tree: Tree, original: Tree, present: map<Role, Identity>, r: Role, dir: Identity, id: Identity, node: Node)
    requires Covered(tree, original, present) && dir in tree && tree[dir].Dir? && r !in present
    ensures Covered(Made(tree, dir, r, id, node), original, present[r := id])
  {
    var now := present[r := id];
    forall i | i in Made(tree, dir, r, id, node) ensures i in original || i in now.Values {
      if i == id { assert now[r] == id; }
      else if i !in original { var q :| q in present && present[q] == i; assert now[q] == i; }
    }
  }

  lemma RootedMade(tree: Tree, original: Tree, root: Identity, top: Role, present: map<Role, Identity>, r: Role, dir: Identity,
                   id: Identity, node: Node)
    requires Rooted(tree, original, root, top, present) && r !in present && dir in tree && tree[dir].Dir? && id !in original
    requires (r == top <==> dir == root) && !Named(tree, dir, r)
    ensures Rooted(Made(tree, dir, r, id, node), original, root, top, present[r := id])
  {
  }

  lemma FreshMade(original: Tree, present: map<Role, Identity>, r: Role, id: Identity)
    requires Fresh(original, present) && Injective(present) && id !in original && forall q | q in present :: present[q] != id
    ensures Fresh(original, present[r := id]) && Injective(present[r := id])
  {
  }

  lemma KeptMade(tree: Tree, original: Tree, roots: Roots, r: Role, dir: Identity, id: Identity, node: Node)
    requires Kept(tree, original, roots) && dir in tree && tree[dir].Dir? && id !in original
    requires dir == roots.guest || dir == roots.cgroup || dir !in original
    ensures Kept(Made(tree, dir, r, id, node), original, roots)
  {
  }

  /** Making a role's name in its directory adds exactly that object. */
  lemma MadeShape(tree: Tree, original: Tree, roots: Roots, present: map<Role, Identity>, r: Role, id: Identity, node: Node)
    requires Shape(tree, original, roots, present) && r !in present && id !in tree
    requires DirOf(roots, present, r).Some? && !Named(tree, DirOf(roots, present, r).value, r)
    requires NodeOk(r, node, map[])
    ensures var dir := DirOf(roots, present, r).value;
            && dir in tree && tree[dir].Dir?
            && Shape(Made(tree, dir, r, id, node), original, roots, present[r := id])
  {
    var dir := DirOf(roots, present, r).value;
    DirFacts(tree, original, roots, present, r);
    PlacedMade(tree, present, r, dir, id, node);
    CoveredMade(tree, original, present, r, dir, id, node);
    assert id !in original by { assert Kept(tree, original, roots); }
    assert forall q | q in present :: present[q] != id;
    FreshMade(original, present, r, id);
    KeptMade(tree, original, roots, r, dir, id, node);
    RootedMade(tree, original, roots.guest, GUEST_ROOT, present, r, dir, id, node);
    RootedMade(tree, original, roots.cgroup, CGROUP_PARENT, present, r, dir, id, node);
    hide Placed, Covered, Kids, NodeOk, Located, Rooted, Fresh, Injective, Kept;
  }

  lemma KidsRemoved(present: map<Role, Identity>, r: Role, q: Role)
    requires r in present
    ensures Kids(present - {r}, q) == if Parent(r) == Some(q) then Kids(present, q) - {r} else Kids(present, q)
  {
  }

  lemma PlacedRemoved(tree: Tree, present: map<Role, Identity>, r: Role, dir: Identity)
    requires Placed(tree, present) && Injective(present) && Located(present, r, dir) && Named(tree, dir, r)
    requires r in present && tree[dir].own[r] == present[r]
    ensures Placed(Removed(tree, dir, r), present - {r})
  {
    var after, now := Removed(tree, dir, r), present - {r};
    forall q | q in now ensures now[q] in after && NodeOk(q, after[now[q]], Kids(now, q)) {
      KidsRemoved(present, r, q);
    }
  }

  lemma CoveredRemoved(tree: Tree, original: Tree, present: map<Role, Identity>, r: Role, dir: Identity)
    requires Covered(tree, original, present) && Named(tree, dir, r) && r in present && tree[dir].own[r] == present[r]
    ensures Covered(Removed(tree, dir, r), original, present - {r})
  {
    var now := present - {r};
    forall i | i in Removed(tree, dir, r) ensures i in original || i in now.Values {
      if i !in original { var q :| q in present && present[q] == i; assert now[q] == i; }
    }
  }

  lemma NoOrphans(present: map<Role, Identity>, r: Role)
    requires Attached(present) && Kids(present, r) == map[]
    ensures Attached(present - {r})
  {
    forall q | q in present - {r} && Parent(q).Some? ensures Parent(q).value in present - {r} {
      assert Parent(q).value == r ==> q in Kids(present, r);
    }
  }

  lemma RootedRemoved(tree: Tree, original: Tree, root: Identity, top: Role, present: map<Role, Identity>, r: Role, dir: Identity)
    requires Rooted(tree, original, root, top, present) && r in present && Named(tree, dir, r) && tree[dir].own[r] == present[r]
    requires (r == top <==> dir == root) && present[r] !in original
    ensures Rooted(Removed(tree, dir, r), original, root, top, present - {r})
  {
  }

  lemma KeptRemoved(tree: Tree, original: Tree, roots: Roots, present: map<Role, Identity>, r: Role, dir: Identity)
    requires Kept(tree, original, roots) && Named(tree, dir, r) && tree[dir].own[r] !in original
    requires dir == roots.guest || dir == roots.cgroup || dir !in original
    requires Fresh(original, present) && Injective(present)
    ensures Kept(Removed(tree, dir, r), original, roots) && Fresh(original, present - {r}) && Injective(present - {r})
  {
  }

  /** Removing a present object without children takes exactly that object away. */
  lemma RemovedShape(tree: Tree, original: Tree, roots: Roots, present: map<Role, Identity>, r: Role)
    requires Shape(tree, original, roots, present) && r in present && Kids(present, r) == map[]
    ensures var dir := DirOf(roots, present, r);
            && dir.Some? && Named(tree, dir.value, r) && tree[dir.value].own[r] == present[r]
            && Shape(Removed(tree, dir.value, r), original, roots, present - {r})
  {
    var dir := DirOf(roots, present, r).value;
    DirFacts(tree, original, roots, present, r);
    if Parent(r).Some? { assert r in Kids(present, Parent(r).value); }
    assert Named(tree, dir, r) && tree[dir].own[r] == present[r];
    PlacedRemoved(tree, present, r, dir);
    CoveredRemoved(tree, original, present, r, dir);
    NoOrphans(present, r);
    RootedRemoved(tree, original, roots.guest, GUEST_ROOT, present, r, dir);
    RootedRemoved(tree, original, roots.cgroup, CGROUP_PARENT, present, r, dir);
    assert present[r] !in original by { assert Fresh(original, present); }
    KeptRemoved(tree, original, roots, present, r, dir);
    hide Placed, Covered, Kids, NodeOk, Located, Attached, Rooted, Kept, Fresh, Injective, Removed;
  }

  /** In a shaped tree a present object is found at its path. */
  lemma {:induction false} LookupPresent(tree: Tree, original: Tree, roots: Roots, present: map<Role, Identity>, r: Role)
    requires Shape(tree, original, roots, present) && r in present
    ensures Lookup(tree, roots, r) == Some(present[r])
    ensures DirOf(roots, present, r).Some? && Named(tree, DirOf(roots, present, r).value, r)
    ensures tree[DirOf(roots, present, r).value].own[r] == present[r]
    decreases r
  {
    if Parent(r).Some? {
      LookupPresent(tree, original, roots, present, Parent(r).value);
      assert r in Kids(present, Parent(r).value);
    }
  }

  predicate RootsOk(tree: Tree, roots: Roots) {
    roots.guest != roots.cgroup && roots.guest in tree && tree[roots.guest].Dir? && roots.cgroup in tree && tree[roots.cgroup].Dir?
  }

  /** What others may do without touching the names: fill, empty and populate the present objects. */
  predicate Contained(before: Tree, after: Tree, present: map<Role, Identity>) {
    && before.Keys == after.Keys
    && forall i | i in before :: SameNames(before[i], after[i]) && (i !in present.Values ==> after[i] == before[i])
  }

  predicate SameNames(m: Node, n: Node) { if m.Dir? then n.Dir? && n.own == m.own else n.File? }

  /** The tree holds the present objects and is otherwise the original. */
  predicate Faithful(tree: Tree, original: Tree, roots: Roots, present: map<Role, Identity>) {
    if RootsOk(original, roots) then Shape(tree, original, roots, present) else tree == original && present == map[]
  }

  lemma FaithfulNone(tree: Tree, original: Tree, roots: Roots)
    requires tree == original
    ensures Faithful(tree, original, roots, map[])
  {
  }

  lemma FaithfulRestored(tree: Tree, original: Tree, roots: Roots)
    requires Faithful(tree, original, roots, map[])
    ensures tree == original
  {
  }

  lemma ContainedSame(tree: Tree, present: map<Role, Identity>)
    ensures Contained(tree, tree, present)
  {
  }

  lemma ContainedFaithful(tree: Tree, after: Tree, original: Tree, roots: Roots, present: map<Role, Identity>)
    requires Faithful(tree, original, roots, present) && Contained(tree, after, present)
    ensures Faithful(after, original, roots, present)
  {
    assert forall i | i in original :: i !in present.Values;
    if !RootsOk(original, roots) { assert forall i | i in tree :: after[i] == tree[i]; }
    hide Kids, Injective, Attached;
  }
}
