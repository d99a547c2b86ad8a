/** `EvidenceStore`: publication of attempt, host report and receipt by create,
    write, fsync, link and unlink, stopped or powered off at any step. */
module Evidence {
  import opened Base

  type Bytes = seq<Byte>

  datatype Kind = Attempt | HostReport | Receipt
  /** A directory entry: a final name or its `.partial` companion. */
  datatype Name = Final(kind: Kind) | Partial(kind: Kind)

  const STORE_LIMIT: nat := 4 * 1024 * 1024
  const RECEIPT_LIMIT: nat := 8192
  const HOST_REPORT_LIMIT: nat := 3 * 1024 * 1024
  const CHUNK: nat := 65536

  function Limit(k: Kind): nat { if k == HostReport then HOST_REPORT_LIMIT else RECEIPT_LIMIT }

  // ---- Disk ----

  /** Directory changes that a directory fsync makes durable. */
  datatype Change = Enter(name: Name, inode: nat) | Remove(name: Name)

  /** `durable` is the directory as of the last directory fsync, `pending` what was
      done to it since; `data` is file content and `synced` the inodes whose content
      is durable. */
  datatype Disk = Disk(durable: map<Name, nat>, pending: seq<Change>, data: map<nat, Bytes>, synced: set<nat>, nextInode: nat)

  const EMPTY: Disk := Disk(map[], [], map[], {}, 0)

  function AfterChange(dir: map<Name, nat>, c: Change): map<Name, nat> {
    match c case Enter(name, inode) => dir[name := inode] case Remove(name) => dir - {name}
  }

  function Applied(dir: map<Name, nat>, changes: seq<Change>): map<Name, nat>
    decreases |changes|
  {
    if changes == [] then dir
    else Applied(AfterChange(dir, changes[0]), changes[1..])
  }

  /** The directory that running processes see. */
  function Directory(d: Disk): map<Name, nat> { Applied(d.durable, d.pending) }

  /** What can be left after a power failure: some prefix of the pending directory
      changes, and for files not synced any shorter content. */
  ghost predicate Survives(d: Disk, dir: map<Name, nat>, data: map<nat, Bytes>) {
    && (exists k | 0 <= k <= |d.pending| :: dir == Applied(d.durable, d.pending[..k]))
    && data.Keys == d.data.Keys
    && forall i | i in d.data :: data[i] <= d.data[i] && (i in d.synced ==> data[i] == d.data[i])
  }

  /** One system call of `write`. */
  datatype Op = Create(kind: Kind) | Append(kind: Kind,
      chunk: Bytes) | SyncFile(kind: Kind) | Link(kind: Kind) | Unlink(kind: Kind) | SyncDirectory

  function Perform(d: Disk, op: Op): Option<Disk> {
    var dir := Directory(d);
    match op
    case Create(k) =>
      if Partial(k) in dir then None
      else Some(d.(pending := d.pending + [Enter(Partial(k), d.nextInode)], data := d.data[d.nextInode := []],
          nextInode := d.nextInode + 1))
    case Append(k, chunk) =>
      if Partial(k) !in dir || dir[Partial(k)] !in d.data then None
      else Some(d.(data := d.data[dir[Partial(k)] := d.data[dir[Partial(k)]] + chunk], synced := d.synced - {dir[Partial(k)]}))
    case SyncFile(k) =>
      if Partial(k) !in dir then None else Some(d.(synced := d.synced + {dir[Partial(k)]}))
    case Link(k) =>
      if Partial(k) !in dir || Final(k) in dir then None
      else Some(d.(pending := d.pending + [Enter(Final(k), dir[Partial(k)])]))
    case Unlink(k) =>
      if Partial(k) !in dir then None else Some(d.(pending := d.pending + [Remove(Partial(k))]))
    case SyncDirectory => Some(d.(durable := dir, pending := []))
  }

  // ---- What every reachable disk keeps ----

  /** One possible directory: final names are complete, durable and still have their
      `.partial` companion until the unlink of their kind has been issued. */
  ghost predicate Good(dir: map<Name, nat>, d: Disk, contents: map<Kind, Bytes>, unlinked: set<Kind>) {
    && (forall n | n in dir :: dir[n] in d.data && dir[n] < d.nextInode)
    && forall k: Kind | Final(k) in dir ::
         && k in contents && d.data[dir[Final(k)]] == contents[k] && dir[Final(k)] in d.synced
         && (k in unlinked || (Partial(k) in dir && dir[Partial(k)] == dir[Final(k)]))
  }

  ghost predicate Whole(d: Disk, contents: map<Kind, Bytes>, unlinked: set<Kind>) {
    && (forall i | 0 <= i <= |d.pending| :: Good(Applied(d.durable, d.pending[..i]), d, contents, unlinked))
    && (forall k | k in contents :: Final(k) in Directory(d))
    && unlinked <= contents.Keys
  }

  /** No possible directory publishes the inode. */
  ghost predicate Private(d: Disk, inode: nat) {
    forall i, k: Kind | 0 <= i <= |d.pending| && Final(k) in Applied(d.durable, d.pending[..i]) ::
      Applied(d.durable, d.pending[..i])[Final(k)] != inode
  }

  lemma {:induction false} AppliedSnoc(dir: map<Name, nat>, changes: seq<Change>, c: Change)
    ensures Applied(dir, changes + [c]) == AfterChange(Applied(dir, changes), c)
    decreases |changes|
  {
    if changes == [] {
      assert changes + [c] == [c] && [c][1..] == [];
    } else {
      assert (changes + [c])[1..] == changes[1..] + [c];
      AppliedSnoc(AfterChange(dir, changes[0]), changes[1..], c);
    }
  }

  lemma Prefixes(d: Disk, c: Change)
    ensures forall i | 0 <= i <= |d.pending| :: (d.pending + [c])[..i] == d.pending[..i]
    ensures (d.pending + [c])[..|d.pending| + 1] == d.pending + [c] && d.pending[..|d.pending|] == d.pending
    ensures Applied(d.durable, d.pending + [c]) == AfterChange(Directory(d), c)
  {
    AppliedSnoc(d.durable, d.pending, c);
  }

  lemma CreateKeeps(d: Disk, k: Kind, contents: map<Kind, Bytes>, unlinked: set<Kind>)
    requires Whole(d, contents, unlinked) && Perform(d, Create(k)).Some?
    ensures var n := Perform(d, Create(k)).value;
      Whole(n, contents, unlinked) && Directory(n) == Directory(d)[Partial(k) := d.nextInode] && Private(n, d.nextInode)
          && n.data[d.nextInode] == []
  {
    var c := Enter(Partial(k), d.nextInode);
    Prefixes(d, c);
    var n := Perform(d, Create(k)).value;
    forall i | 0 <= i <= |n.pending| ensures Good(Applied(n.durable, n.pending[..i]), n, contents, unlinked) {
      if i <= |d.pending| { assert Good(Applied(d.durable, d.pending[..i]), d, contents, unlinked); }
      else { assert Good(Directory(d), d, contents, unlinked); }
    }
    forall i, j: Kind | 0 <= i <= |n.pending| && Final(j) in Applied(n.durable, n.pending[..i])
      ensures Applied(n.durable, n.pending[..i])[Final(j)] != d.nextInode
    {
      if i <= |d.pending| { assert Good(Applied(d.durable, d.pending[..i]), d, contents, unlinked); }
      else { assert Good(Directory(d), d, contents, unlinked); }
    }
  }

  /** Writing or syncing a private inode leaves every published byte alone. */
  lemma FileOpKeeps(d: Disk, op: Op, inode: nat, contents: map<Kind, Bytes>, unlinked: set<Kind>)
    requires Whole(d, contents, unlinked) && Private(d, inode) && (op.Append? || op.SyncFile?)
    requires Partial(op.kind) in Directory(d) && Directory(d)[Partial(op.kind)] == inode && inode in d.data
    ensures Perform(d, op).Some?
    ensures var n := Perform(d, op).value;
      && Whole(n, contents, unlinked) && Private(n, inode) && Directory(n) == Directory(d)
      && n.data == (if op.Append? then d.data[inode := d.data[inode] + op.chunk] else d.data)
      && (op.SyncFile? ==> inode in n.synced)
  {
    var n := Perform(d, op).value;
    forall i | 0 <= i <= |n.pending| ensures Good(Applied(n.durable, n.pending[..i]), n, contents, unlinked) {
      assert Good(Applied(d.durable, d.pending[..i]), d, contents, unlinked);
    }
  }

  lemma LinkKeeps(d: Disk, k: Kind, contents: map<Kind, Bytes>, unlinked: set<Kind>)
    requires Whole(d, contents, unlinked) && Perform(d, Link(k)).Some?
    requires var inode := Directory(d)[Partial(k)]; inode in d.data && inode < d.nextInode && inode in d.synced
    ensures var n := Perform(d, Link(k)).value;
      Whole(n, contents[k := d.data[Directory(d)[Partial(k)]]], unlinked)
          && Directory(n) == Directory(d)[Final(k) := Directory(d)[Partial(k)]]
  {
    var c := Enter(Final(k), Directory(d)[Partial(k)]);
    Prefixes(d, c);
    var n := Perform(d, Link(k)).value;
    var now := contents[k := d.data[Directory(d)[Partial(k)]]];
    forall i | 0 <= i <= |n.pending| ensures Good(Applied(n.durable, n.pending[..i]), n, now, unlinked) {
      if i <= |d.pending| { assert Good(Applied(d.durable, d.pending[..i]), d, contents, unlinked); }
      else { assert Good(Directory(d), d, contents, unlinked); }
    }
  }

  lemma UnlinkKeeps(d: Disk, k: Kind, contents: map<Kind, Bytes>, unlinked: set<Kind>)
    requires Whole(d, contents, unlinked) && Perform(d, Unlink(k)).Some? && k in contents
    ensures var n := Perform(d, Unlink(k)).value;
      Whole(n, contents, unlinked + {k}) && Directory(n) == Directory(d) - {Partial(k)}
  {
    var c := Remove(Partial(k));
    Prefixes(d, c);
    var n := Perform(d, Unlink(k)).value;
    forall i | 0 <= i <= |n.pending| ensures Good(Applied(n.durable, n.pending[..i]), n, contents, unlinked + {k}) {
      if i <= |d.pending| { assert Good(Applied(d.durable, d.pending[..i]), d, contents, unlinked); }
      else { assert Good(Directory(d), d, contents, unlinked); }
    }
  }

  lemma SyncKeeps(d: Disk, contents: map<Kind, Bytes>, unlinked: set<Kind>)
    requires Whole(d, contents, unlinked)
    ensures var n := Perform(d, SyncDirectory).value;
      Whole(n, contents, unlinked) && Directory(n) == Directory(d)
  {
    assert d.pending[..|d.pending|] == d.pending;
    assert Good(Directory(d), d, contents, unlinked);
  }

  /** Stopped or powered off here, each final name is absent or holds the complete
      bytes, and the exact file set is there only if the receipt's partial was unlinked. */
  lemma SurvivorsComplete(d: Disk, contents: map<Kind, Bytes>, unlinked: set<Kind>, dir: map<Name, nat>, data: map<nat, Bytes>)
    requires Whole(d, contents, unlinked) && Survives(d, dir, data)
    ensures forall k: Kind | Final(k) in dir :: k in contents && dir[Final(k)] in data && data[dir[Final(k)]] == contents[k]
    ensures dir.Keys == COMPLETE ==> Receipt in unlinked && contents.Keys == {Attempt, HostReport, Receipt}
  {
    var i :| 0 <= i <= |d.pending| && dir == Applied(d.durable, d.pending[..i]);
    assert Good(dir, d, contents, unlinked);
    if dir.Keys == COMPLETE {
      assert Final(Receipt) in dir && Final(HostReport) in dir && Final(Attempt) in dir;
      assert Partial(Receipt) !in dir;
      forall k: Kind ensures k in contents.Keys <==> k in {Attempt, HostReport, Receipt} {
        match k case Attempt => case HostReport => case Receipt =>
      }
    }
  }

  const COMPLETE: set<Name> := {Final(Attempt), Final(HostReport), Final(Receipt)}

  /** `read_evidence` up to decoding: the exact file set, then each file within its limit. */
  function ReadEvidence(dir: map<Name, nat>, data: map<nat, Bytes>): Result<map<Kind, Bytes>>
    requires forall n | n in dir :: dir[n] in data
  {
    if dir.Keys != COMPLETE then Raised("interrupted or extra evidence files")
    else
      assert Final(Attempt) in dir && Final(HostReport) in dir && Final(Receipt) in dir;
      var files: map<Kind, Bytes> :=
        map[Attempt := data[dir[Final(Attempt)]], HostReport := data[dir[Final(HostReport)]], Receipt := data[dir[Final(Receipt)]]];
      if exists k: Kind | k in files :: |files[k]| > Limit(k) then Raised("unsafe evidence file") else Ok(files)
  }

  /** Whatever interrupted the writer, evidence that can be read is exactly what was
      written, and only after the receipt's partial was unlinked. */
  lemma ReadableIsWritten(d: Disk, contents: map<Kind, Bytes>, unlinked: set<Kind>, dir: map<Name, nat>, data: map<nat, Bytes>)
    requires Whole(d, contents, unlinked) && Survives(d, dir, data)
    ensures forall n | n in dir :: dir[n] in data
    ensures ReadEvidence(dir, data).Ok? ==> ReadEvidence(dir, data).value == contents && Receipt in unlinked
    ensures ReadEvidence(dir, data).Raised? <== Receipt !in unlinked
  {
    SurvivorsComplete(d, contents, unlinked, dir, data);
    var i :| 0 <= i <= |d.pending| && dir == Applied(d.durable, d.pending[..i]);
    assert Good(dir, d, contents, unlinked);
  }

  // ---- The store ----

  class EvidenceStore {
    var disk: Disk
    var written: nat
    var consumed: bool
    /** System calls left before this process is stopped. */
    var fuel: nat
    /** The bytes of each final name, and the kinds whose partial was unlinked. */
    ghost var contents: map<Kind, Bytes>
    ghost var unlinked: set<Kind>

    ghost predicate Valid()
      reads this
    {
      Whole(disk, contents, unlinked) && written <= STORE_LIMIT
    }

    /** At this point a stop or a power failure leaves nothing but whole files, and
        evidence that reads back is what was written. */
    ghost predicate CrashSafe()
      reads this
    {
      forall dir, data | Survives(disk, dir, data) ::
        && (forall k: Kind | Final(k) in dir :: k in contents && dir[Final(k)] in data && data[dir[Final(k)]] == contents[k])
        && (dir.Keys == COMPLETE ==> Receipt in unlinked && contents.Keys == {Attempt, HostReport, Receipt})
    }

    constructor (fuel: nat)
      ensures Valid() && disk == EMPTY && written == 0 && !consumed && contents == map[] && unlinked == {} && this.fuel == fuel
    {
      disk, written, consumed, this.fuel := EMPTY, 0, false, fuel;
      contents, unlinked := map[], {};
      new;
      assert Applied(map[], []) == map[];
    }

    /** One system call, unless the process has been stopped. */
    method Do(op: Op) returns (ok: bool)
      modifies `disk, `fuel
      ensures ok <==> old(fuel) > 0 && Perform(old(disk), op).Some?
      ensures ok ==> Perform(old(disk), op) == Some(disk) && fuel == old(fuel) - 1
      ensures !ok ==> disk == old(disk)
    {
      if fuel == 0 { return false; }
      fuel := fuel - 1;
      match Perform(disk, op) {
        case None => ok := false;
        case Some(d) => disk, ok := d, true;
      }
    }

    /** The write loop: `sizes[i]` is what the i-th `os.write` takes of its chunk. */
    method Fill(kind: Kind, raw: Bytes, sizes: seq<nat>) returns (ok: bool)
      requires Valid() && Partial(kind) in Directory(disk)
      requires var p := Directory(disk)[Partial(kind)]; p in disk.data && disk.data[p] == [] && Private(disk, p)
      modifies `disk, `fuel
      ensures Valid() && Directory(disk) == old(Directory(disk)) && disk.nextInode == old(disk.nextInode)
      ensures var p := Directory(disk)[Partial(kind)]; p in disk.data && Private(disk, p) && (ok ==> disk.data[p] == raw)
      ensures 0 !in sizes && old(fuel) >= |raw| ==> ok && fuel >= old(fuel) - |raw|
    {
      ghost var p := Directory(disk)[Partial(kind)];
      var offset, i := 0, 0;
      assert raw[..0] == [];
      while offset < |raw|
        invariant 0 <= offset <= |raw|
        invariant Valid() && Directory(disk) == old(Directory(disk)) && disk.nextInode == old(disk.nextInode)
        invariant p in disk.data && Private(disk, p) && disk.data[p] == raw[..offset]
        invariant 0 !in sizes && old(fuel) >= |raw| ==> fuel >= old(fuel) - offset
      {
        var want := if |raw| - offset < CHUNK then |raw| - offset else CHUNK;
        var count := if i < |sizes| && sizes[i] < want then sizes[i] else want;
        if count == 0 { return false; }
        FileOpKeeps(disk, Append(kind, raw[offset..offset + count]), p, contents, unlinked);
        var done := Do(Append(kind, raw[offset..offset + count]));
        if !done { return false; }
        assert raw[..offset] + raw[offset..offset + count] == raw[..offset + count];
        offset, i := offset + count, i + 1;
      }
      assert raw[..offset] == raw;
      ok := true;
    }

    /** A whole, synced partial file of the kind. */
    ghost predicate Staged(kind: Kind, raw: Bytes)
      reads this
    {
      && Partial(kind) in Directory(disk)
      && var p := Directory(disk)[Partial(kind)]; p in disk.data && disk.data[p] == raw && p in disk.synced && p < disk.nextInode
    }

    /** Create, fill and sync the partial file. */
    method Stage(kind: Kind, raw: Bytes, sizes: seq<nat>) returns (failure: Option<string>)
      requires Valid()
      modifies `disk, `fuel
      ensures Valid()
      ensures failure.None?
          ==> Staged(kind, raw) && Directory(disk) == old(Directory(disk))[Partial(kind) := Directory(disk)[Partial(kind)]]
      ensures 0 !in sizes && old(fuel) >= |raw| + 2 && Partial(kind) !in old(Directory(disk)) ==> failure.None?
      ensures failure.None? && 0 !in sizes && old(fuel) >= |raw| + 2 ==> fuel >= old(fuel) - |raw| - 2
    {
      hide Whole, Private, Applied;
      var ok := Do(Create(kind));
      if !ok { return Some("create"); }
      CreateKeeps(old(disk), kind, contents, unlinked);
      ghost var p := Directory(disk)[Partial(kind)];
      ok := Fill(kind, raw, sizes);
      if !ok { return Some("write"); }
      FileOpKeeps(disk, SyncFile(kind), p, contents, unlinked);
      ok := Do(SyncFile(kind));
      failure := if ok then None else Some("fsync");
    }

    /** Link the final name, drop the partial one, and sync the directory after each. */
    method Publish(kind: Kind, raw: Bytes) returns (failure: Option<string>)
      requires Valid() && Staged(kind, raw)
      modifies `disk, `fuel, `contents, `unlinked
      ensures Valid()
      ensures contents == old(contents) || contents == old(contents)[kind := raw]
      ensures old(unlinked) <= unlinked <= old(unlinked) + {kind}
      ensures failure.None? ==> contents == old(contents)[kind := raw] && kind in unlinked && disk.pending == []
      ensures failure.None?
          ==> Directory(disk) == old(Directory(disk))[Final(kind) := old(Directory(disk)[Partial(kind)])] - {Partial(kind)}
      ensures old(fuel) >= 4 && Final(kind) !in old(Directory(disk)) ==> failure.None?
      ensures failure.None? ==> fuel >= old(fuel) - 4
    {
      hide Whole, Private, Applied;
      var ok := Do(Link(kind));
      if !ok { return Some("link"); }
      LinkKeeps(old(disk), kind, contents, unlinked);
      contents := contents[kind := raw];
      SyncKeeps(disk, contents, unlinked);
      ok := Do(SyncDirectory);
      if !ok { return Some("fsync"); }
      UnlinkKeeps(disk, kind, contents, unlinked);
      ok := Do(Unlink(kind));
      if !ok { return Some("unlink"); }
      unlinked := unlinked + {kind};
      SyncKeeps(disk, contents, unlinked);
      ok := Do(SyncDirectory);
      failure := if ok then None else Some("fsync");
    }

    method Write(kind: Kind, raw: Bytes, sizes: seq<nat>) returns (r: Result<()>)
      requires Valid()
      modifies this
      ensures Valid() && consumed == old(consumed)
      ensures contents == old(contents) || contents == old(contents)[kind := raw]
      ensures old(unlinked) <= unlinked <= old(unlinked) + {kind}
      ensures r.Ok? ==> contents == old(contents)[kind := raw] && kind in unlinked && |raw| <= Limit(kind)
      ensures r.Ok?
          ==> Directory(disk) == (old(Directory(disk)) - {Partial(kind)})[Final(kind) := Directory(disk)[Final(kind)]] && disk.pending == []
      ensures written == old(written) + if |raw| <= Limit(kind) && old(written) + |raw| <= STORE_LIMIT then |raw| else 0
      ensures r.Ok? <== |raw| <= Limit(kind) && old(written) + |raw| <= STORE_LIMIT && 0 !in sizes && old(fuel) >= |raw| + 6
                        && Partial(kind) !in old(Directory(disk)) && Final(kind) !in old(Directory(disk))
      ensures r.Ok? && old(fuel) >= |raw| + 6 && 0 !in sizes ==> fuel >= old(fuel) - |raw| - 6
    {
      hide Whole, Private, Applied, Directory;
      if |raw| > Limit(kind) || written + |raw| > STORE_LIMIT { return Raised("evidence write quota"); }
      written := written + |raw|;
      var failure := Stage(kind, raw, sizes);
      if failure.Some? { return Raised(failure.value); }
      failure := Publish(kind, raw);
      if failure.Some? { return Raised(failure.value); }
      return Ok(());
    }

    /** `verify_attempt`: a fresh attempt holds its own record and nothing else. */
    predicate OnlyAttempt()
      reads this
    {
      Directory(disk).Keys == {Final(Attempt)}
    }

    /** What lets a fresh attempt be persisted to the end. */
    ghost predicate Ready(raw: Bytes, receipt: Bytes, rawSizes: seq<nat>, receiptSizes: seq<nat>)
      reads this
    {
      && OnlyAttempt() && written <= RECEIPT_LIMIT && |raw| <= HOST_REPORT_LIMIT && |receipt| <= RECEIPT_LIMIT
      && 0 !in rawSizes && 0 !in receiptSizes && fuel >= |raw| + |receipt| + 12
    }

    /** Report, then receipt. */
    method WriteBoth(raw: Bytes, receipt: Bytes, rawSizes: seq<nat>, receiptSizes: seq<nat>) returns (r: Result<()>)
      requires Valid() && |raw| <= HOST_REPORT_LIMIT
      modifies this
      ensures Valid() && consumed == old(consumed) && old(written) <= written <= old(written) + |raw| + |receipt|
      ensures r.Ok? ==> contents == old(contents)[HostReport := raw][Receipt := receipt] && Receipt in unlinked
      ensures old(Ready(raw, receipt, rawSizes, receiptSizes)) ==> r.Ok? && Directory(disk).Keys == COMPLETE && |receipt| <= RECEIPT_LIMIT
    {
      hide Whole, Applied, Directory;
      r := Write(HostReport, raw, rawSizes);
      if r.Raised? { return; }
      r := Write(Receipt, receipt, receiptSizes);
    }

    /** Report, then receipt, then the read back; once per attempt. */
    method Persist(raw: Bytes, receipt: Bytes, rawSizes: seq<nat>, receiptSizes: seq<nat>) returns (r: Result<map<Kind, Bytes>>)
      requires Valid()
      modifies this
      ensures Valid() && CrashSafe() && consumed
      ensures old(consumed) ==> r.Raised? && disk == old(disk) && written == old(written)
      ensures old(written) <= written <= old(written) + |raw| + |receipt|
      ensures r.Ok? ==> r.value == contents && contents == old(contents)[HostReport := raw][Receipt := receipt] && Receipt in unlinked
      ensures !old(consumed) && old(Ready(raw, receipt, rawSizes, receiptSizes))
              && (Attempt in old(contents) ==> |old(contents)[Attempt]| <= RECEIPT_LIMIT)
              ==> r.Ok?
    {
      hide Whole, Applied, Directory, Survives;
      Safe();
      if consumed { return Raised("evidence attempt consumed"); }
      consumed := true;
      if |raw| > HOST_REPORT_LIMIT { return Raised("host evidence byte limit"); }
      var w := WriteBoth(raw, receipt, rawSizes, receiptSizes);
      Safe();
      if w.Raised? { return Raised(w.message); }
      SelfSurvives();
      r := ReadEvidence(Directory(disk), disk.data);
    }

    lemma Safe()
      requires Valid()
      ensures CrashSafe()
    {
      forall dir, data | Survives(disk, dir, data)
        ensures (forall k: Kind | Final(k) in dir :: k in contents && dir[Final(k)] in data && data[dir[Final(k)]] == contents[k])
          && (dir.Keys == COMPLETE ==> Receipt in unlinked && contents.Keys == {Attempt, HostReport, Receipt})
      {
        SurvivorsComplete(disk, contents, unlinked, dir, data);
      }
    }

    /** A process that merely stops leaves the disk as it is. */
    lemma SelfSurvives()
      requires Valid()
      ensures Survives(disk, Directory(disk), disk.data)
      ensures forall n | n in Directory(disk) :: Directory(disk)[n] in disk.data
    {
      assert disk.pending[..|disk.pending|] == disk.pending;
      assert Good(Directory(disk), disk, contents, unlinked);
    }
  }
}
