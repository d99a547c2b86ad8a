/** Longest-prefix mount coverage, and the worker's mount table check that rests on it. */
module MountCoverage {
  import opened Base

  /** An absolute path as its parts below the root; the root itself is empty. */
  type Path = seq<string>

  datatype Mount = Mount(ident: nat, device: string, root: string, path: Path, options: set<string>, kind: string,
                         superOptions: set<string>, private: bool)

  datatype Role = Input | Work | Result

  const ROLES: seq<Role> := [Input, Work, Result]
  const MIB: nat := 1024 * 1024

  datatype Contract = Contract(root: Path, input: Path) {
    function Of(r: Role): Path {
      match r
      case Input => input
      case Work => root + ["work"]
      case Result => root + ["result"]
    }
  }

  /** What the file system of a role reports about itself. */
  datatype Space = Space(bytes: int, inodes: int, device: string, inode: int)

  function Storage(r: Role): nat {
    match r
    case Input => 256 * MIB
    case Work => 128 * MIB
    case Result => 8 * MIB
  }

  predicate Below(path: Path, root: Path) { root <= path }

  // ---- Covering ----

  /** The depth of the deepest mount at or above a path; -1 without one. */
  function Depth(mounts: seq<Mount>, path: Path): int {
    if mounts == [] then -1
    else
      var rest := Depth(mounts[1..], path);
      if Below(path, mounts[0].path) && |mounts[0].path| > rest then |mounts[0].path| else rest
  }

  function AtDepth(mounts: seq<Mount>, path: Path, depth: int): seq<Mount> {
    if mounts == [] then []
    else (if Below(path, mounts[0].path) && |mounts[0].path| == depth then [mounts[0]] else []) + AtDepth(mounts[1..], path, depth)
  }

  /** `covering`: the one deepest mount at or above the path. */
  function Covering(mounts: seq<Mount>, path: Path): Base.Result<Mount> {
    var depth := Depth(mounts, path);
    if depth < 0 then Raised("path without mount")
    else
      var selected := AtDepth(mounts, path, depth);
      if |selected| == 1 then Ok(selected[0]) else Raised("overmounted/ambiguous path")
  }

  /** Mount `k` is at or above the path, and strictly below every other one that is. */
  predicate Deepest(mounts: seq<Mount>, path: Path, k: nat) {
    && k < |mounts| && Below(path, mounts[k].path)
    && forall i | 0 <= i < |mounts| && i != k && Below(path, mounts[i].path) :: |mounts[i].path| < |mounts[k].path|
  }

  lemma {:induction false} DepthBounds(mounts: seq<Mount>, path: Path)
    ensures forall i | 0 <= i < |mounts| && Below(path, mounts[i].path) :: |mounts[i].path| <= Depth(mounts, path)
    ensures Depth(mounts, path) >= 0 ==>
              exists i | 0 <= i < |mounts| :: Below(path, mounts[i].path) && |mounts[i].path| == Depth(mounts, path)
    ensures Depth(mounts, path) >= -1
  {
    if mounts != [] {
      DepthBounds(mounts[1..], path);
      var rest := mounts[1..];
      forall i | 0 <= i < |mounts| && Below(path, mounts[i].path) ensures |mounts[i].path| <= Depth(mounts, path) {
        if i > 0 { assert rest[i - 1] == mounts[i]; }
      }
      if Depth(mounts, path) == Depth(rest, path) >= 0 {
        var i :| 0 <= i < |rest| && Below(path, rest[i].path) && |rest[i].path| == Depth(rest, path);
        assert mounts[i + 1] == rest[i];
      }
    }
  }

  /** The mounts of a depth, counted: one of them at `k`, and a second exactly if another is of that depth. */
  lemma {:induction false} AtDepthHas(mounts: seq<Mount>, path: Path, depth: int, k: nat)
    requires k < |mounts| && Below(path, mounts[k].path) && |mounts[k].path| == depth
    ensures AtDepth(mounts, path, depth) != []
    ensures |AtDepth(mounts, path, depth)| == 1 <==>
              forall i | 0 <= i < |mounts| && i != k :: !(Below(path, mounts[i].path) && |mounts[i].path| == depth)
    ensures |AtDepth(mounts, path, depth)| == 1 ==> AtDepth(mounts, path, depth)[0] == mounts[k]
  {
    var rest := mounts[1..];
    assert forall i | 0 <= i < |rest| :: rest[i] == mounts[i + 1];
    if k == 0 {
      if AtDepth(rest, path, depth) != [] { AtDepthFrom(rest, path, depth); } else { AtDepthNone(rest, path, depth); }
    } else {
      AtDepthHas(rest, path, depth, k - 1);
      if |AtDepth(mounts, path, depth)| == 1 {
        assert !(Below(path, mounts[0].path) && |mounts[0].path| == depth);
        forall i | 0 <= i < |mounts| && i != k ensures !(Below(path, mounts[i].path) && |mounts[i].path| == depth) {
          if i > 0 { assert rest[i - 1] == mounts[i]; }
        }
      }
    }
  }

  lemma {:induction false} AtDepthFrom(mounts: seq<Mount>, path: Path, depth: int)
    requires AtDepth(mounts, path, depth) != []
    ensures exists i | 0 <= i < |mounts| :: Below(path, mounts[i].path) && |mounts[i].path| == depth
  {
    if !(Below(path, mounts[0].path) && |mounts[0].path| == depth) {
      AtDepthFrom(mounts[1..], path, depth);
      var i :| 0 <= i < |mounts[1..]| && Below(path, mounts[1..][i].path) && |mounts[1..][i].path| == depth;
      assert mounts[i + 1] == mounts[1..][i];
    }
  }

  lemma {:induction false} AtDepthNone(mounts: seq<Mount>, path: Path, depth: int)
    requires AtDepth(mounts, path, depth) == []
    ensures forall i | 0 <= i < |mounts| :: !(Below(path, mounts[i].path) && |mounts[i].path| == depth)
  {
    if mounts != [] {
      AtDepthNone(mounts[1..], path, depth);
      forall i | 0 <= i < |mounts| ensures !(Below(path, mounts[i].path) && |mounts[i].path| == depth) {
        if i > 0 { assert mounts[1..][i - 1] == mounts[i]; }
      }
    }
  }

  /** `covering` answers only with a strictly deepest mount. */
  lemma CoveringIsDeepest(mounts: seq<Mount>, path: Path) returns (k: nat)
    requires Covering(mounts, path).Ok?
    ensures Deepest(mounts, path, k) && mounts[k] == Covering(mounts, path).value
  {
    DepthBounds(mounts, path);
    var depth := Depth(mounts, path);
    k :| 0 <= k < |mounts| && Below(path, mounts[k].path) && |mounts[k].path| == depth;
    AtDepthHas(mounts, path, depth, k);
  }

  /** `covering` answers with a strictly deepest mount whenever there is one. */
  lemma DeepestCovers(mounts: seq<Mount>, path: Path, k: nat)
    requires Deepest(mounts, path, k)
    ensures Covering(mounts, path) == Ok(mounts[k])
  {
    DepthBounds(mounts, path);
    AtDepthHas(mounts, path, |mounts[k].path|, k);
  }

  // ---- The worker's mounts ----

  predicate NoStack(mounts: seq<Mount>) { forall i, j | 0 <= i < j < |mounts| :: mounts[i].path != mounts[j].path }

  function Flags(r: Role): set<string> { if r.Input? then {"ro"} else {"rw", "nosuid", "nodev", "noexec"} }

  /** The checks on one role, given the mount that covers its path. */
  predicate DomainOk(contract: Contract, mounts: seq<Mount>, r: Role, m: Mount, s: Space) {
    var path := contract.Of(r);
    && m.path == path && m.root == "/"
    && Flags(r) <= m.options && ({"ro", "rw"} - Flags(r)) * m.options == {}
    && (if r.Input? then m.kind in {"iso9660", "squashfs"} && "ro" in m.superOptions
        else m.kind == "tmpfs" && "noswap" in m.superOptions && "rw" in m.superOptions)
    && 0 < s.bytes <= Storage(r) && 0 < s.inodes <= (if r.Work? then 32768 else 4096) && s.device == m.device && s.inode > 0
    && (forall i | 0 <= i < |mounts| :: mounts[i].device == m.device ==> mounts[i].path == m.path)
    && (forall i | 0 <= i < |mounts| :: mounts[i].path != path ==> !Below(mounts[i].path, path))
  }

  /** No mount but those of work and result is writable. */
  predicate OthersReadOnly(contract: Contract, mounts: seq<Mount>) {
    forall i | 0 <= i < |mounts| && mounts[i].path != contract.Of(Work) && mounts[i].path != contract.Of(Result) :: ReadOnly(mounts[i])
  }

  predicate ReadOnly(m: Mount) { "ro" in m.options && "rw" !in m.options }

  predicate Writable(m: Mount) { "rw" in m.options && "ro" !in m.options && "rw" in m.superOptions }

  /** What the table must satisfy. */
  predicate WorkerMounts(contract: Contract, mounts: seq<Mount>, spaces: Role -> Space) {
    && (forall i | 0 <= i < |mounts| :: mounts[i].private) && NoStack(mounts)
    && (forall k | 0 <= k < |ROLES| :: RoleOk(contract, mounts, ROLES[k], spaces(ROLES[k])))
    && OthersReadOnly(contract, mounts)
    && (forall j, k | 0 <= j < k < |ROLES| :: spaces(ROLES[j]).device != spaces(ROLES[k]).device)
  }

  predicate RoleOk(contract: Contract, mounts: seq<Mount>, r: Role, s: Space) {
    Covering(mounts, contract.Of(r)).Ok? && DomainOk(contract, mounts, r, Covering(mounts, contract.Of(r)).value, s)
  }

  /** How many mounts a device has, as the source counts them. */
  function Uses(mounts: seq<Mount>, device: string): nat {
    if mounts == [] then 0 else (if mounts[0].device == device then 1 else 0) + Uses(mounts[1..], device)
  }

  /** Without stacks, the count is one exactly if no other path has the device. */
  lemma {:induction false} UsedOnce(mounts: seq<Mount>, k: nat)
    requires NoStack(mounts) && k < |mounts|
    ensures Uses(mounts, mounts[k].device) == 1
        <==> forall i | 0 <= i < |mounts| :: mounts[i].device == mounts[k].device ==> mounts[i].path == mounts[k].path
    ensures Uses(mounts, mounts[k].device) >= 1
  {
    var rest, d := mounts[1..], mounts[k].device;
    assert forall i | 0 <= i < |rest| :: rest[i] == mounts[i + 1];
    if k == 0 {
      Unused(rest, d);
      if Uses(mounts, d) != 1 {
        var i :| 0 <= i < |rest| && rest[i].device == d;
        assert mounts[i + 1].device == d && mounts[i + 1].path != mounts[0].path;
      } else {
        assert forall i | 0 <= i < |rest| :: rest[i].device != d;
      }
    } else {
      UsedOnce(rest, k - 1);
      assert mounts[0].path != mounts[k].path;
      if Uses(mounts, d) == 1 {
        forall i | 0 <= i < |mounts| && mounts[i].device == d ensures mounts[i].path == mounts[k].path {
          assert i > 0 ==> rest[i - 1] == mounts[i];
        }
      }
    }
  }

  lemma {:induction false} Unused(mounts: seq<Mount>, device: string)
    ensures Uses(mounts, device) == 0 <==> forall i | 0 <= i < |mounts| :: mounts[i].device != device
  {
    if mounts != [] {
      Unused(mounts[1..], device);
      if Uses(mounts, device) == 0 {
        forall i | 0 <= i < |mounts| ensures mounts[i].device != device { assert i > 0 ==> mounts[1..][i - 1] == mounts[i]; }
      }
    }
  }

  // ---- What an accepted table means for every path ----

  /** A path under a domain resolves to that domain's mount and no other. */
  lemma ResolvesInDomain(contract: Contract, mounts: seq<Mount>, spaces: Role -> Space, r: Role, path: Path)
    requires WorkerMounts(contract, mounts, spaces) && Below(path, contract.Of(r))
    ensures Covering(mounts, path).Ok? && Covering(mounts, path) == Covering(mounts, contract.Of(r))
    ensures Covering(mounts, path).value.path == contract.Of(r)
  {
    var home := contract.Of(r);
    var index := match r case Input => 0 case Work => 1 case Result => 2;
    assert RoleOk(contract, mounts, ROLES[index], spaces(ROLES[index]));
    var k := CoveringIsDeepest(mounts, home);
    forall i | 0 <= i < |mounts| && i != k && Below(path, mounts[i].path) ensures |mounts[i].path| < |mounts[k].path| {
      assert mounts[i].path != home && !Below(mounts[i].path, home);
      assert mounts[i].path == path[..|mounts[i].path|] && home == path[..|home|];
      assert |mounts[i].path| <= |home| ==> Below(home, mounts[i].path);
    }
    DeepestCovers(mounts, path, k);
  }

  /** Without stacks, any path that a mount covers resolves. */
  lemma ResolvesIfCovered(mounts: seq<Mount>, path: Path)
    requires NoStack(mounts)
    ensures Covering(mounts, path).Ok? <==> exists i | 0 <= i < |mounts| :: Below(path, mounts[i].path)
  {
    DepthBounds(mounts, path);
    var depth := Depth(mounts, path);
    if depth >= 0 {
      var k :| 0 <= k < |mounts| && Below(path, mounts[k].path) && |mounts[k].path| == depth;
      forall i | 0 <= i < |mounts| && i != k && Below(path, mounts[i].path) ensures |mounts[i].path| != depth {
        assert mounts[i].path == path[..|mounts[i].path|] && mounts[k].path == path[..depth];
      }
      AtDepthHas(mounts, path, depth, k);
    }
  }

  /** In an accepted table a path is writable exactly under work or result, and read-only elsewhere. */
  lemma WritableExactly(contract: Contract, mounts: seq<Mount>, spaces: Role -> Space, path: Path)
    requires WorkerMounts(contract, mounts, spaces) && Covering(mounts, path).Ok?
    ensures Writable(Covering(mounts, path).value) <==> Below(path, contract.Of(Work)) || Below(path, contract.Of(Result))
    ensures Writable(Covering(mounts, path).value) || ReadOnly(Covering(mounts, path).value)
  {
    var k := CoveringIsDeepest(mounts, path);
    var closed := {"ro", "rw"} - Flags(Work);
    assert "ro" != "rw" && "ro" != "nosuid" && "ro" != "nodev" && "ro" != "noexec";
    assert "ro" in closed && ("ro" in mounts[k].options ==> "ro" in closed * mounts[k].options);
    if Below(path, contract.Of(Work)) {
      ResolvesInDomain(contract, mounts, spaces, Work, path);
      assert RoleOk(contract, mounts, ROLES[1], spaces(ROLES[1]));
    } else if Below(path, contract.Of(Result)) {
      ResolvesInDomain(contract, mounts, spaces, Result, path);
      assert RoleOk(contract, mounts, ROLES[2], spaces(ROLES[2]));
    } else {
      assert ReadOnly(mounts[k]);
    }
  }

  /** Where the worker can write, memory is bounded and cannot be swapped out, and nothing can be run. */
  lemma WritableBounded(contract: Contract, mounts: seq<Mount>, spaces: Role -> Space, path: Path)
    requires WorkerMounts(contract, mounts, spaces) && Covering(mounts, path).Ok? && Writable(Covering(mounts, path).value)
    ensures var m := Covering(mounts, path).value;
      && m.kind == "tmpfs" && "noswap" in m.superOptions && {"nosuid", "nodev", "noexec"} <= m.options
      && m.device in {spaces(Work).device, spaces(Result).device}
    ensures 0 < spaces(Work).bytes <= 128 * MIB && 0 < spaces(Result).bytes <= 8 * MIB
    ensures spaces(Work).device != spaces(Result).device
  {
    WritableExactly(contract, mounts, spaces, path);
    assert RoleOk(contract, mounts, ROLES[1], spaces(ROLES[1])) && RoleOk(contract, mounts, ROLES[2], spaces(ROLES[2]));
    var r := if Below(path, contract.Of(Work)) then Work else Result;
    ResolvesInDomain(contract, mounts, spaces, r, path);
    assert spaces(ROLES[1]).device != spaces(ROLES[2]).device;
    assert {"nosuid", "nodev", "noexec"} <= Flags(r);
  }

  method CheckRole(contract: Contract, mounts: seq<Mount>, r: Role, space: Space) returns (ok: bool)
    requires NoStack(mounts)
    ensures ok <==> RoleOk(contract, mounts, r, space)
  {
    var path, found := contract.Of(r), Covering(mounts, contract.Of(r));
    if found.Raised? { return false; }
    var mount := found.value;
    var k := CoveringIsDeepest(mounts, path);
    UsedOnce(mounts, k);
    hide Covering, NoStack;
    if mount.path != path || mount.root != "/" { return false; }
    if !(Flags(r) <= mount.options) || ({"ro", "rw"} - Flags(r)) * mount.options != {} { return false; }
    if r.Input? {
      if mount.kind !in {"iso9660", "squashfs"} || "ro" !in mount.superOptions { return false; }
    } else {
      if mount.kind != "tmpfs" || "noswap" !in mount.superOptions || "rw" !in mount.superOptions { return false; }
    }
    if !(0 < space.bytes <= Storage(r)) || !(0 < space.inodes <= if r.Work? then 32768 else 4096) { return false; }
    if space.device != mount.device || space.inode <= 0 || Uses(mounts, mount.device) != 1 { return false; }
    ok := !exists i | 0 <= i < |mounts| :: mounts[i].path != path && Below(mounts[i].path, path);
  }

  /** `verify_worker_mounts`, down to the identity checks, accepts exactly the tables above. */
  method VerifyWorkerMounts(contract: Contract, mounts: seq<Mount>, spaces: Role -> Space) returns (ok: bool)
    ensures ok <==> WorkerMounts(contract, mounts, spaces)
  {
    hide NoStack, RoleOk, OthersReadOnly;
    if !(forall i | 0 <= i < |mounts| :: mounts[i].private) || !NoStack(mounts) { return false; }
    var devices: seq<string> := [];
    for n := 0 to |ROLES|
      invariant forall k | 0 <= k < n :: RoleOk(contract, mounts, ROLES[k], spaces(ROLES[k]))
      invariant |devices| == n && forall k | 0 <= k < n :: devices[k] == spaces(ROLES[k]).device
    {
      var valid := CheckRole(contract, mounts, ROLES[n], spaces(ROLES[n]));
      if !valid { return false; }
      devices := devices + [spaces(ROLES[n]).device];
    }
    if !OthersReadOnly(contract, mounts) { return false; }
    ok := devices[0] != devices[1] && devices[0] != devices[2] && devices[1] != devices[2];
  }
}
