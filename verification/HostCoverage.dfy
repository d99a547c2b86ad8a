/** `review_host_coverage`: the physical domains that a preparation ledger's surfaces are
    written to, and why they take no more than the ledger's envelope and never overlap. */
module HostCoverage {
  import opened Base
  import opened Capacity
  import M = MountCoverage

  datatype Backend = MacosUtm | InjectedOffline
  datatype Realm = Host | Guest

  datatype Component = Component(owner: string, logical: Option<int>, copies: Option<int>, peak: Option<int>, domain: Option<string>)

  /** A physical write domain; its root is the parts of an absolute path. */
  datatype Physical = Physical(id: string, realm: Realm, root: seq<string>, dev: int, ino: int, mount: Option<int>, filesystem: string,
                               representation: string, reserve: int, device: int, inodes: Option<int>)

  /** One surface; `facts` is whether its two claims match byte for byte, or absent. */
  datatype Row = Row(owner: string, charge: Charge, state: State, components: seq<Component>, physical: seq<Physical>, facts: Option<bool>)

  /** `exactFacts` is whether the facts given are just the facts used. */
  datatype Coverage = Coverage(backend: Backend, rows: map<string, Row>, exactFacts: bool)

  /** Who answers for each component of a surface. */
  function Owners(name: string): seq<string> {
    if name in {"guest_root_var", "efi_firmware", "guest_swap"} then ["guest-system-owner"]
    else if name == "guest_system_tmpfs" then ["guest-initializer", "guest-system-owner"]
    else if name == "utm_qemu_logs_state" then ["host-vm-owner", "host-vm-owner", "host-system-owner"]
    else if name == "host_swap_crash" then ["host-system-owner", "host-system-owner"]
    else if name == "host_jxa_source" then ["evidence-worker", "library-assembler"]
    else if name == "host_evidence_export_source" then ["evidence-worker"]
    else if name == "host_evidence_retained" then ["evidence-owner"]
    else if name in {"readonly_input", "input_media_creation", "input_media_staging_copy"} then ["media-provisioner", "media-provisioner"]
    else if name in {"preparation_work", "preparation_result"} then ["guest-worker"]
    else ["host-vm-owner"]
  }

  function RealmOf(name: string): Realm {
    if name in {"utm_qemu_logs_state", "host_swap_crash", "host_jxa_source", "host_evidence_export_source", "host_evidence_retained",
                "input_media_creation", "input_media_staging_copy", "host_backing_metadata"} then Host else Guest
  }

  predicate MacosUnbounded(name: string) { name in {"utm_qemu_logs_state", "host_swap_crash"} }

  // ---- One surface ----

  predicate ComponentOk(c: Component, owner: string, state: State) {
    && c.owner == owner
    && (match state
        case Unknown => c.logical.None? && c.copies.None? && c.peak.None?
        case Disabled => c.logical == Some(0) && c.copies == Some(0) && c.peak == Some(0)
        case Bounded =>
          In(c.logical, 1, MAX) && In(c.copies, 1, 16) && In(c.peak, 1, MAX) && c.peak.value >= c.logical.value * c.copies.value)
    && (if state.Bounded? then c.domain.Some? && Identifier(c.domain.value) else c.domain.None?)
  }

  predicate ComponentsOk(name: string, row: Row) {
    && |row.components| == |Owners(name)|
    && forall i | 0 <= i < |row.components| :: ComponentOk(row.components[i], Owners(name)[i], row.state)
  }

  function Or0(v: Option<int>): int { if v.Some? then v.value else 0 }

  function LogicalSum(cs: seq<Component>): int { if cs == [] then 0 else LogicalSum(cs[..|cs| - 1]) + Or0(cs[|cs| - 1].logical) }

  function CopySum(cs: seq<Component>): int {
    if cs == [] then 0 else CopySum(cs[..|cs| - 1]) + Or0(cs[|cs| - 1].logical) * Or0(cs[|cs| - 1].copies)
  }

  function PeakSum(cs: seq<Component>): int { if cs == [] then 0 else PeakSum(cs[..|cs| - 1]) + Or0(cs[|cs| - 1].peak) }

  /** The peaks of the components written to one physical domain. */
  function PeakIn(cs: seq<Component>, id: string): int {
    if cs == [] then 0
    else PeakIn(cs[..|cs| - 1], id) + if cs[|cs| - 1].domain == Some(id) then Or0(cs[|cs| - 1].peak) else 0
  }

  predicate PhysicalOk(name: string, budget: Surface, row: Row, p: Physical) {
    && Identifier(p.filesystem) && p.realm == RealmOf(name)
    && (if p.realm == Guest then In(p.mount, 1, MAX) else p.mount.None?)
    && p.root != [] && 1 <= p.dev <= MAX && 1 <= p.ino <= MAX
    && (if budget.backing == "noswap-tmpfs" then In(p.inodes, 1, MAX) else p.inodes.None?)
    && 1 <= p.reserve <= MAX && p.device <= MAX
    && (if row.charge == H then p.device == 0 else p.device >= p.reserve)
    && PeakIn(row.components, p.id) <= p.reserve
    && Some(p.representation) == budget.representation
  }

  function ReserveSum(ps: seq<Physical>): int { if ps == [] then 0 else ReserveSum(ps[..|ps| - 1]) + ps[|ps| - 1].reserve }

  function DeviceSum(ps: seq<Physical>): int { if ps == [] then 0 else DeviceSum(ps[..|ps| - 1]) + ps[|ps| - 1].device }

  /** The physical domains listed are those that components refer to. */
  predicate Referenced(row: Row) {
    && (forall i | 0 <= i < |row.components|
        && row.components[i].domain.Some? :: exists j | 0 <= j < |row.physical| :: row.physical[j].id == row.components[i].domain.value)
    && (forall j | 0 <= j < |row.physical| :: exists i | 0 <= i < |row.components| :: row.components[i].domain == Some(row.physical[j].id))
  }

  predicate RowCovered(backend: Backend, name: string, budget: Surface, row: Row) {
    && row.owner == budget.owner && row.charge == budget.charge && row.state == budget.state
    && ComponentsOk(name, row)
    && (backend.MacosUtm? && MacosUnbounded(name) ==> row.state.Unknown?)
    && if row.state.Unknown? then row.physical == [] && row.facts.None?
       else
         && LogicalSum(row.components) <= Or0(budget.logical) && CopySum(row.components) <= Or0(budget.logical) * Or0(budget.copies)
         && PeakSum(row.components) <= Or0(budget.peak)
         && Referenced(row) && (row.state.Disabled? ==> row.physical == [])
         && (name == "readonly_input" && row.state.Bounded? ==> |row.physical| == 2)
         && (forall j | 0 <= j < |row.physical| :: PhysicalOk(name, budget, row, row.physical[j]))
         && ReserveSum(row.physical) <= Or0(budget.hard) && row.facts == Some(true)
  }

  // ---- All surfaces ----

  predicate Listed(c: Coverage, names: seq<string>) { forall i | 0 <= i < |names| :: names[i] in c.rows }

  function AllPhysical(c: Coverage, names: seq<string>): seq<Physical>
    requires Listed(c, names)
  {
    if names == [] then [] else AllPhysical(c, names[..|names| - 1]) + c.rows[names[|names| - 1]].physical
  }

  /** One root is the other or lies below it. */
  predicate Overlap(a: seq<string>, b: seq<string>) { a <= b || b <= a }

  /** Two domains share nothing: not the id, and within a realm neither device, file system, mount nor path. */
  predicate Separate(p: Physical, q: Physical) {
    && p.id != q.id
    && (p.realm == q.realm ==> p.dev != q.dev && p.filesystem != q.filesystem && !Overlap(p.root, q.root))
    && (p.realm == q.realm == Guest ==> p.mount != q.mount)
  }

  predicate Apart(ps: seq<Physical>) { forall i, j | 0 <= i < j < |ps| :: Separate(ps[i], ps[j]) }

  /** What a surface's physical domains take: the whole devices under D, the reserves under H. */
  function Claim(row: Row): int { if row.charge == D then DeviceSum(row.physical) else ReserveSum(row.physical) }

  /** The ledger's surfaces with the physical claims in place of the declared limits. */
  function Claimed(l: Ledger, c: Coverage, names: seq<string>): map<string, Surface>
    requires Held(l.surfaces, names) && Listed(c, names)
  {
    map n | n in names :: l.surfaces[n].(hard := Some(Claim(c.rows[n])))
  }

  /** The whole devices charged to one domain. */
  function Devices(l: Ledger, c: Coverage, names: seq<string>, domain: string): int
    requires Held(l.surfaces, names) && Listed(c, names)
  {
    if names == [] then 0
    else
      var n := names[|names| - 1];
      Devices(l, c, names[..|names| - 1], domain) + if l.surfaces[n].owner == domain then DeviceSum(c.rows[n].physical) else 0
  }

  predicate ValidCoverage(l: Ledger, c: Coverage) {
    && ValidLedger(Preparation, l) && c.rows.Keys == (set n | n in Names(Preparation))
    && Listed(c, Names(Preparation)) && Held(l.surfaces, Names(Preparation)) && Owned(l.domains, Domains(Preparation))
    && (forall i | 0 <= i < |Names(Preparation)| :: RowCovered(c.backend, Names(Preparation)[i],
        l.surfaces[Names(Preparation)[i]], c.rows[Names(Preparation)[i]]))
    && Apart(AllPhysical(c, Names(Preparation)))
    && (forall i | 0 <= i < |Domains(Preparation)| ::
          Devices(l, c, Names(Preparation), Domains(Preparation)[i]) <= l.domains[Domains(Preparation)[i]].guestDevice)
    && c.exactFacts
  }

  // ---- Conservation ----

  /** What all the physical domains together take. */
  function ClaimTotal(c: Coverage, names: seq<string>): int
    requires Listed(c, names)
  {
    if names == [] then 0 else ClaimTotal(c, names[..|names| - 1]) + Claim(c.rows[names[|names| - 1]])
  }

  predicate AllCovered(l: Ledger, c: Coverage, names: seq<string>)
    requires Held(l.surfaces, names) && Listed(c, names)
  {
    forall i | 0 <= i < |names| :: RowCovered(c.backend, names[i], l.surfaces[names[i]], c.rows[names[i]])
  }

  lemma {:induction false} PhysicalSums(name: string, budget: Surface, row: Row, ps: seq<Physical>)
    requires forall j | 0 <= j < |ps| :: PhysicalOk(name, budget, row, ps[j])
    ensures if row.charge == H then DeviceSum(ps) == 0 <= ReserveSum(ps) else DeviceSum(ps) >= ReserveSum(ps) >= 0
  {
    if ps != [] { PhysicalSums(name, budget, row, ps[..|ps| - 1]); }
  }

  /** A covered surface claims at least its reserves, no more devices than it has under D,
      and under H no more than its declared limit. */
  lemma RowClaims(backend: Backend, name: string, budget: Surface, row: Row)
    requires RowCovered(backend, name, budget, row)
    ensures 0 <= ReserveSum(row.physical) <= Claim(row)
    ensures !budget.state.Bounded? ==> Claim(row) == 0 && DeviceSum(row.physical) == 0
    ensures budget.charge == H ==> DeviceSum(row.physical) == 0 && (budget.state.Bounded? ==> Claim(row) <= Or0(budget.hard))
    ensures budget.charge == D ==> DeviceSum(row.physical) == Claim(row)
  {
    if !row.state.Unknown? { PhysicalSums(name, budget, row, row.physical); }
  }

  /** Per domain: the claims under D are its whole devices, and under H within its declared reserves. */
  lemma {:induction false} ClaimsPerDomain(l: Ledger, c: Coverage, names: seq<string>, claimed: map<string, Surface>, d: string)
    requires Held(l.surfaces, names) && Listed(c, names) && AllCovered(l, c, names) && Held(claimed, names)
    requires forall i | 0 <= i < |names| :: claimed[names[i]] == l.surfaces[names[i]].(hard := Some(Claim(c.rows[names[i]])))
    requires forall i | 0 <= i < |names| :: l.surfaces[names[i]].state.Bounded? ==> l.surfaces[names[i]].hard.Some?
    ensures Reserved(claimed, names, d, D) == Devices(l, c, names, d)
    ensures Reserved(claimed, names, d, H) <= Reserved(l.surfaces, names, d, H)
  {
    hide RowCovered, Claim, DeviceSum, ReserveSum;
    if names != [] {
      var n := names[|names| - 1];
      RowClaims(c.backend, n, l.surfaces[n], c.rows[n]);
      ClaimsPerDomain(l, c, names[..|names| - 1], claimed, d);
    }
  }

  lemma {:induction false} ClaimsTotal(l: Ledger, c: Coverage, names: seq<string>, claimed: map<string, Surface>)
    requires Held(l.surfaces, names) && Listed(c, names) && AllCovered(l, c, names) && Held(claimed, names)
    requires forall i | 0 <= i < |names| :: claimed[names[i]] == l.surfaces[names[i]].(hard := Some(Claim(c.rows[names[i]])))
    ensures HardTotal(claimed, names) == ClaimTotal(c, names)
    ensures ReserveSum(AllPhysical(c, names)) <= ClaimTotal(c, names)
  {
    hide RowCovered, Claim, DeviceSum, ReserveSum;
    NoReserve();
    if names != [] {
      var n := names[|names| - 1];
      RowClaims(c.backend, n, l.surfaces[n], c.rows[n]);
      ClaimsTotal(l, c, names[..|names| - 1], claimed);
      ReserveConcat(AllPhysical(c, names[..|names| - 1]), c.rows[n].physical);
    }
  }

  lemma NoReserve()
    ensures ReserveSum([]) == 0
  {
  }

  lemma {:induction false} ReserveConcat(a: seq<Physical>, b: seq<Physical>)
    ensures ReserveSum(a + b) == ReserveSum(a) + ReserveSum(b)
  {
    if b == [] {
      assert a + b == a;
    } else {
      assert (a + b)[..|a + b| - 1] == a + b[..|b| - 1];
      ReserveConcat(a, b[..|b| - 1]);
    }
  }

  /** Covered surfaces whose whole devices fit, in a ledger that fits, take no more than the caps. */
  lemma ClaimsFit(l: Ledger, c: Coverage, names: seq<string>, domains: seq<string>)
    requires Held(l.surfaces, names) && Listed(c, names) && Owned(l.domains, domains) && Distinct(domains) && AllCovered(l, c, names)
    requires forall i | 0 <= i < |names| :: l.surfaces[names[i]].owner in domains
    requires forall i | 0 <= i < |names| :: l.surfaces[names[i]].state.Bounded? ==> l.surfaces[names[i]].hard.Some?
    requires forall i | 0 <= i < |domains| ::
               Fits(l, names, domains[i]) && Devices(l, c, names, domains[i]) <= l.domains[domains[i]].guestDevice
    ensures ReserveSum(AllPhysical(c, names)) <= ClaimTotal(c, names) <= Caps(l.domains, domains)
  {
    hide RowCovered, Claim, HardTotal, Across, Caps, ReserveSum, AllPhysical, Reserved, Devices;
    var claimed := Claimed(l, c, names);
    var physical := l.(surfaces := claimed);
    forall i | 0 <= i < |domains| ensures Fits(physical, names, domains[i]) {
      ClaimsPerDomain(l, c, names, claimed, domains[i]);
      assert Fits(l, names, domains[i]);
    }
    Spread(claimed, names, domains);
    AcrossFits(physical, names, domains);
    ClaimsTotal(l, c, names, claimed);
  }

  /** Accepted coverage takes no more than the ledger's envelope: whole devices under D and
      reserves under H together, and so all the reserves; and its domains share nothing. */
  lemma CoverageConserved(l: Ledger, c: Coverage)
    requires ValidCoverage(l, c)
    ensures ReserveSum(AllPhysical(c, Names(Preparation))) <= ClaimTotal(c, Names(Preparation)) <= l.envelope
    ensures Apart(AllPhysical(c, Names(Preparation)))
  {
    hide RowCovered, RowOk, DomainOk, Domains, Apart, AllPhysical, Unshared, Claim, Caps, ReserveSum, Fits;
    var names := Names(Preparation);
    forall i | 0 <= i < |names| ensures l.surfaces[names[i]].owner in Domains(Preparation)
        && (l.surfaces[names[i]].state.Bounded? ==> l.surfaces[names[i]].hard.Some?) {
      LedgerRow(l, names[i]);
    }
    DomainsDistinct(Preparation);
    ClaimsFit(l, c, names, Domains(Preparation));
  }

  lemma LedgerRow(l: Ledger, name: string)
    requires name in l.surfaces && RowOk(Preparation, name, l.surfaces[name])
    ensures l.surfaces[name].owner in Domains(Preparation) && (l.surfaces[name].state.Bounded? ==> l.surfaces[name].hard.Some?)
  {
  }

  // ---- The validator ----

  predicate Overlaps(ps: seq<Physical>, p: Physical) { exists i | 0 <= i < |ps| :: !Separate(ps[i], p) }

  lemma ApartMore(ps: seq<Physical>, p: Physical)
    ensures Apart(ps + [p]) <==> Apart(ps) && !Overlaps(ps, p)
  {
    var all := ps + [p];
    assert all[|ps|] == p && forall i | 0 <= i < |ps| :: all[i] == ps[i];
    if Apart(all) {
      forall i, j | 0 <= i < j < |ps| ensures Separate(ps[i], ps[j]) { assert Separate(all[i], all[j]); }
      forall i | 0 <= i < |ps| ensures Separate(ps[i], p) { assert Separate(all[i], all[|ps|]); }
    }
  }

  /** The physical domains of one surface, each against all those seen before it. */
  method CheckPhysical(name: string, budget: Surface, row: Row, before: seq<Physical>) returns (ok: bool,
      seen: seq<Physical>, reserved: int, whole: int)
    requires Apart(before)
    ensures ok <==> (forall j | 0 <= j < |row.physical| :: PhysicalOk(name, budget, row, row.physical[j])) && Apart(before + row.physical)
    ensures ok ==> seen == before + row.physical && reserved == ReserveSum(row.physical) && whole == DeviceSum(row.physical)
  {
    hide PhysicalOk, Apart, Overlaps;
    ok, seen, reserved, whole := false, before, 0, 0;
    var ps := row.physical;
    for j := 0 to |ps|
      invariant seen == before + ps[..j] && Apart(seen)
      invariant forall k | 0 <= k < j :: PhysicalOk(name, budget, row, ps[k])
      invariant reserved == ReserveSum(ps[..j]) && whole == DeviceSum(ps[..j])
    {
      assert ps[..j + 1][..j] == ps[..j];
      assert before + ps[..j + 1] == seen + [ps[j]];
      ApartMore(seen, ps[j]);
      if !PhysicalOk(name, budget, row, ps[j]) { return; }
      if Overlaps(seen, ps[j]) {
        ApartPrefix(before + ps, before + ps[..j + 1]);
        return;
      }
      seen, reserved, whole := seen + [ps[j]], reserved + ps[j].reserve, whole + ps[j].device;
    }
    assert ps[..|ps|] == ps;
    ok := true;
  }

  lemma ApartPrefix(ps: seq<Physical>, prefix: seq<Physical>)
    requires prefix <= ps && !Apart(prefix)
    ensures !Apart(ps)
  {
  }

  /** The components of one surface, and their sums. */
  method CheckComponents(name: string, row: Row) returns (ok: bool, logical: int, copies: int, peak: int)
    ensures ok <==> ComponentsOk(name, row)
    ensures ok ==> logical == LogicalSum(row.components) && copies == CopySum(row.components) && peak == PeakSum(row.components)
  {
    hide ComponentOk;
    ok, logical, copies, peak := false, 0, 0, 0;
    var cs, owners := row.components, Owners(name);
    hide Owners;
    if |cs| != |owners| { return; }
    for i := 0 to |cs|
      invariant forall k | 0 <= k < i :: ComponentOk(cs[k], owners[k], row.state)
      invariant logical == LogicalSum(cs[..i]) && copies == CopySum(cs[..i]) && peak == PeakSum(cs[..i])
    {
      assert cs[..i + 1][..i] == cs[..i];
      if !ComponentOk(cs[i], owners[i], row.state) { return; }
      logical := logical + Or0(cs[i].logical);
      copies := copies + Or0(cs[i].logical) * Or0(cs[i].copies);
      peak := peak + Or0(cs[i].peak);
    }
    assert cs[..|cs|] == cs;
    ok := true;
  }

  method CheckRow(backend: Backend, name: string, budget: Surface, row: Row, before: seq<Physical>)
    returns (ok: bool, seen: seq<Physical>, whole: int)
    requires Apart(before)
    ensures ok <==> RowCovered(backend, name, budget, row) && Apart(before + row.physical)
    ensures ok ==> seen == before + row.physical && whole == DeviceSum(row.physical)
  {
    hide ComponentsOk, PhysicalOk, Apart, Referenced, MacosUnbounded, LogicalSum, CopySum, PeakSum, ReserveSum;
    ok, seen, whole := false, before, 0;
    if row.owner != budget.owner || row.charge != budget.charge || row.state != budget.state { return; }
    var logical, copies, peak;
    ok, logical, copies, peak := CheckComponents(name, row);
    if !ok { return; }
    if backend.MacosUtm? && MacosUnbounded(name) && !row.state.Unknown? { return false, seen, whole; }
    if row.state.Unknown? {
      ok := row.physical == [] && row.facts.None?;
      assert ok ==> before + row.physical == before;
      return;
    }
    ok := logical <= Or0(budget.logical) && copies <= Or0(budget.logical) * Or0(budget.copies) && peak <= Or0(budget.peak)
          && Referenced(row) && (row.state.Disabled? ==> row.physical == [])
          && (name == "readonly_input" && row.state.Bounded? ==> |row.physical| == 2);
    if !ok { return; }
    var reserved;
    ok, seen, reserved, whole := CheckPhysical(name, budget, row, before);
    ok := ok && reserved <= Or0(budget.hard) && row.facts == Some(true);
  }

  /** The whole devices of every domain, as running totals. */
  ghost predicate Charged(l: Ledger, c: Coverage, names: seq<string>, domains: seq<string>, whole: map<string, int>)
    requires Held(l.surfaces, names) && Listed(c, names)
  {
    forall i | 0 <= i < |domains| :: domains[i] in whole && whole[domains[i]] == Devices(l, c, names, domains[i])
  }

  lemma ChargedMore(l: Ledger, c: Coverage, names: seq<string>, domains: seq<string>, whole: map<string, int>, n: string)
    requires Held(l.surfaces, names + [n]) && Listed(c, names + [n]) && Held(l.surfaces, names) && Listed(c, names)
        && n in l.surfaces && n in c.rows
    requires Charged(l, c, names, domains, whole) && l.surfaces[n].owner in domains
    ensures l.surfaces[n].owner in whole
    ensures Charged(l, c, names + [n], domains, whole[l.surfaces[n].owner := whole[l.surfaces[n].owner] + DeviceSum(c.rows[n].physical)])
  {
  }

  /** The loop over the surfaces. */
  method CheckRows(l: Ledger, c: Coverage, names: seq<string>, domains: seq<string>) returns (ok: bool, whole: map<string, int>)
    requires Held(l.surfaces, names) && Listed(c, names) && forall i | 0 <= i < |names| :: l.surfaces[names[i]].owner in domains
    ensures ok <==> AllCovered(l, c, names) && Apart(AllPhysical(c, names))
    ensures ok ==> Charged(l, c, names, domains, whole)
  {
    hide RowCovered, Apart, Charged, Devices;
    ok, whole := false, map d | d in domains :: 0;
    var seen: seq<Physical> := [];
    StartRows(l, c, domains, whole);
    for k := 0 to |names|
      invariant AllCovered(l, c, names[..k]) && seen == AllPhysical(c, names[..k]) && Apart(seen)
      invariant Charged(l, c, names[..k], domains, whole)
    {
      var name := names[k];
      assert names[..k + 1] == names[..k] + [name] && names[..k + 1][..k] == names[..k];
      var device;
      ghost var before := seen;
      ok, seen, device := CheckRow(c.backend, name, l.surfaces[name], c.rows[name], seen);
      if !ok {
        if !Apart(before + c.rows[name].physical) {
          AllPrefix(c, names, k + 1);
          ApartPrefix(AllPhysical(c, names), AllPhysical(c, names[..k + 1]));
        }
        return;
      }
      ChargedMore(l, c, names[..k], domains, whole, name);
      whole := whole[l.surfaces[name].owner := whole[l.surfaces[name].owner] + device];
    }
    assert names[..|names|] == names;
    ok := true;
  }

  lemma StartRows(l: Ledger, c: Coverage, domains: seq<string>, whole: map<string, int>)
    requires forall d | d in domains :: d in whole && whole[d] == 0
    ensures Charged(l, c, [], domains, whole) && Apart([])
  {
  }

  lemma {:induction false} AllPrefix(c: Coverage, names: seq<string>, k: nat)
    requires Listed(c, names) && k <= |names|
    ensures AllPhysical(c, names[..k]) <= AllPhysical(c, names)
    decreases |names|
  {
    if k == |names| {
      assert names[..k] == names;
    } else {
      AllPrefix(c, names[..|names| - 1], k);
      assert names[..|names| - 1][..k] == names[..k];
    }
  }

  lemma LedgerHolds(l: Ledger)
    requires ValidLedger(Preparation, l)
    ensures Held(l.surfaces, Names(Preparation)) && Owned(l.domains, Domains(Preparation))
    ensures forall i | 0 <= i < |Names(Preparation)| :: l.surfaces[Names(Preparation)[i]].owner in Domains(Preparation)
  {
    hide Names, Domains, RowOk, DomainOk, Fits, Unshared;
    forall i | 0 <= i < |Names(Preparation)| ensures l.surfaces[Names(Preparation)[i]].owner in Domains(Preparation) {
      LedgerRow(l, Names(Preparation)[i]);
    }
  }

  /** `review_host_coverage`: it accepts exactly the valid coverage of a valid ledger. */
  method ReviewHostCoverage(l: Ledger, c: Coverage) returns (ok: bool)
    ensures ok <==> ValidCoverage(l, c)
  {
    hide Names, Domains, ValidLedger, RowCovered, Apart, AllPhysical, Charged, Devices, Within;
    var valid, blockers := ValidateCapacity(Preparation, l);
    if !valid || c.rows.Keys != (set n | n in Names(Preparation)) { return false; }
    LedgerHolds(l);
    assert Listed(c, Names(Preparation));
    var names, domains := Names(Preparation), Domains(Preparation);
    var whole;
    ok, whole := CheckRows(l, c, names, domains);
    if !ok { return; }
    ChargedTotals(l, c, names, domains, whole);
    ok := (forall i | 0 <= i < |domains| :: Within(whole, domains[i], l.domains[domains[i]])) && c.exactFacts;
  }

  predicate Within(whole: map<string, int>, d: string, row: DomainRow) { d in whole && whole[d] <= row.guestDevice }

  lemma ChargedTotals(l: Ledger, c: Coverage, names: seq<string>, domains: seq<string>, whole: map<string, int>)
    requires Held(l.surfaces, names) && Listed(c, names) && Owned(l.domains, domains) && Charged(l, c, names, domains, whole)
    ensures forall i | 0 <= i < |domains| ::
              Within(whole, domains[i], l.domains[domains[i]]) <==> Devices(l, c, names, domains[i]) <= l.domains[domains[i]].guestDevice
  {
  }

  /** The ledger reserves what the worker's mounts may hold. */
  lemma SameSizes()
    ensures FixedHard("preparation_work") == FixedCap(Preparation, "work") == Some(M.Storage(M.Work))
    ensures FixedHard("preparation_result") == FixedCap(Preparation, "result") == Some(M.Storage(M.Result))
    ensures FixedCap(Preparation, "input") == Some(M.Storage(M.Input))
  {
    assert "preparation_work" != "preparation_result" && "work" != "input" && "result" != "input" && "result" != "work";
  }
}
