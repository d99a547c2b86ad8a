/** `validate_capacity`: a ledger of write surfaces charged to domains, and why no accepted
    ledger promises more bytes than its envelope. */
module Capacity {
  import opened Base

  const MIB: int := 1024 * 1024
  const NODE_BYTES: int := 48 * MIB
  const MAX: int := 0x7FFF_FFFF_FFFF_FFFF

  datatype Profile = Preparation | Runtime
  datatype Charge = D | H
  datatype State = Bounded | Disabled | Unknown

  datatype DomainRow = DomainRow(cap: int, guestDevice: int)

  /** One write surface; JSON null is `None`, and `source` is whether a source is well formed. */
  datatype Surface = Surface(owner: string, charge: Charge, state: State, logical: Option<int>, copies: Option<int>,
                             peak: Option<int>, hard: Option<int>, representation: Option<string>, backing: string,
                             mechanism: string, source: Option<bool>)

  datatype Ledger = Ledger(domains: map<string, DomainRow>, surfaces: map<string, Surface>, envelope: int)

  // ---- The fixed tables ----

  const COMMON: seq<string> := ["guest_root_var", "efi_firmware", "guest_swap", "guest_system_tmpfs", "utm_qemu_logs_state",
    "host_swap_crash", "host_jxa_source", "host_evidence_export_source", "host_evidence_retained"]
  const PREP_SURFACES: seq<string> := COMMON + ["readonly_input", "input_media_creation", "input_media_staging_copy",
    "preparation_work", "preparation_result", "host_backing_metadata"]
  const I5_SURFACES: seq<string> := COMMON + ["build", "daemon", "containerd", "builder", "evidence", "diagnostic", "node_tmpfs",
    "host_backing_build", "host_backing_daemon", "host_backing_evidence", "host_backing_diagnostic"]

  function Names(p: Profile): seq<string> { if p.Preparation? then PREP_SURFACES else I5_SURFACES }

  function Domains(p: Profile): seq<string> {
    if p.Preparation? then ["input", "work", "result", "host_retention", "environment"]
    else ["build", "daemon", "evidence", "diagnostic", "node_tmpfs"]
  }

  function FixedCap(p: Profile, domain: string): Option<int> {
    if p.Preparation? then
      if domain == "input" then Some(256 * MIB) else if domain == "work" then Some(128 * MIB)
      else if domain == "result" then Some(8 * MIB) else if domain == "host_retention" then Some(32 * MIB) else None
    else
      if domain == "build" then Some(256 * MIB) else if domain == "daemon" then Some(160 * MIB)
      else if domain == "evidence" then Some(240 * MIB) else if domain == "diagnostic" then Some(64 * MIB) else Some(NODE_BYTES)
  }

  function FixedOwner(p: Profile, name: string): Option<string> {
    if p.Preparation? then
      if name == "readonly_input" then Some("input") else if name == "preparation_work" then Some("work")
      else if name == "preparation_result" then Some("result")
      else if name == "host_evidence_export_source" || name == "host_evidence_retained" then Some("host_retention")
      else Some("environment")
    else
      if name == "build" || name == "host_backing_build" then Some("build")
      else if name in {"daemon", "containerd", "builder", "host_backing_daemon"} then Some("daemon")
      else if name in {"evidence", "host_evidence_retained", "host_backing_evidence"} then Some("evidence")
      else if name in {"diagnostic", "host_jxa_source", "host_evidence_export_source", "host_backing_diagnostic"} then Some("diagnostic")
      else if name == "node_tmpfs" then Some("node_tmpfs") else None
  }

  predicate OnlyH(name: string) {
    || "host_" <= name || name in {"utm_qemu_logs_state", "input_media_creation", "input_media_staging_copy"}
    || name in {"node_tmpfs", "guest_system_tmpfs", "preparation_work", "preparation_result"}
  }

  predicate OnlyD(name: string) { name in {"build", "daemon", "containerd", "builder", "evidence", "diagnostic", "readonly_input"} }

  function DisabledMechanism(name: string): Option<string> {
    if name == "guest_swap" then Some("guest-all-swap-disabled")
    else if name == "host_swap_crash" then Some("host-swap-and-crash-disabled") else None
  }

  function HardMechanism(backing: string): Option<string> {
    if backing == "fixed-block" then Some("fixed-block-device")
    else if backing == "quota-filesystem" then Some("aggregate-filesystem-hard-quota")
    else if backing == "host-quota" then Some("aggregate-host-hard-quota")
    else if backing == "noswap-tmpfs" then Some("kernel-size-and-noswap")
    else if backing == "readonly-media" then Some("existing-readonly-bound-input") else None
  }

  function FixedHard(name: string): Option<int> {
    if name == "preparation_work" then Some(128 * MIB) else if name == "preparation_result" then Some(8 * MIB)
    else if name == "node_tmpfs" then Some(NODE_BYTES) else None
  }

  predicate IdChar(ch: char) {
    'A' <= ch <= 'Z' || 'a' <= ch <= 'z' || '0' <= ch <= '9' || ch == '_' || ch == '.' || ch == ':' || ch == '-'
  }

  predicate Identifier(s: string) { 0 < |s| <= 100 && forall i | 0 <= i < |s| :: IdChar(s[i]) }

  // ---- Rows ----

  predicate DomainOk(p: Profile, name: string, row: DomainRow) {
    && 1 <= row.cap <= MAX && 0 <= row.guestDevice <= MAX
    && (match p
        case Runtime => Some(row.cap) == FixedCap(p, name) && (if name == "node_tmpfs" then row.guestDevice == 0 else row.guestDevice > 0)
        case Preparation => FixedCap(p, name).Some? ==> row.cap <= FixedCap(p, name).value)
    && row.guestDevice <= row.cap
  }

  /** Ownership and charge, whatever the state. */
  predicate ChargeOk(p: Profile, name: string, s: Surface) {
    && s.owner in Domains(p) && (FixedOwner(p, name).Some? ==> s.owner == FixedOwner(p, name).value)
    && (OnlyH(name) ==> s.charge == H) && (OnlyD(name) ==> s.charge == D)
  }

  predicate UnknownOk(s: Surface) {
    && s.logical.None? && s.copies.None? && s.peak.None? && s.hard.None? && s.representation.None?
    && s.backing == "unknown" && s.mechanism == "unknown" && s.source != Some(false)
  }

  predicate DisabledOk(name: string, s: Surface) {
    && s.source == Some(true) && DisabledMechanism(name) == Some(s.mechanism) && s.backing == "disabled"
    && s.logical == s.copies == s.peak == s.hard == Some(0) && s.representation.None?
  }

  predicate In(value: Option<int>, low: int, high: int) { value.Some? && low <= value.value <= high }

  predicate BoundedOk(name: string, s: Surface) {
    && s.source == Some(true)
    && In(s.logical, 1, MAX) && In(s.copies, 1, 16) && In(s.peak, 1, MAX) && In(s.hard, 1, MAX)
    && s.peak.value >= s.logical.value * s.copies.value && s.hard.value >= s.peak.value
    && s.representation.Some? && Identifier(s.representation.value)
    && HardMechanism(s.backing) == Some(s.mechanism)
    && (s.backing == "readonly-media" ==> name == "readonly_input")
    && (name in {"guest_system_tmpfs", "node_tmpfs", "preparation_work", "preparation_result"} ==> s.backing == "noswap-tmpfs")
    && (FixedHard(name).Some? ==> s.hard == FixedHard(name))
  }

  predicate RowOk(p: Profile, name: string, s: Surface) {
    ChargeOk(p, name, s) && match s.state case Unknown => UnknownOk(s) case Disabled => DisabledOk(name,
        s) case Bounded => BoundedOk(name, s)
  }

  // ---- Sums ----

  predicate Held(surfaces: map<string, Surface>, names: seq<string>) { forall i | 0 <= i < |names| :: names[i] in surfaces }

  predicate Owned(domains: map<string, DomainRow>, names: seq<string>) { forall i | 0 <= i < |names| :: names[i] in domains }

  function Hard(s: Surface): int { if s.state.Bounded? && s.hard.Some? then s.hard.value else 0 }

  /** What a list of surfaces reserves of one domain under one charge. */
  function Reserved(surfaces: map<string, Surface>, names: seq<string>, domain: string, charge: Charge): int
    requires Held(surfaces, names)
  {
    if names == [] then 0
    else
      var s := surfaces[names[|names| - 1]];
      Reserved(surfaces, names[..|names| - 1], domain, charge) + if s.owner == domain && s.charge == charge then Hard(s) else 0
  }

  /** The sum of the caps of a list of domains. */
  function Caps(domains: map<string, DomainRow>, names: seq<string>): int
    requires Owned(domains, names)
  {
    if names == [] then 0 else Caps(domains, names[..|names| - 1]) + domains[names[|names| - 1]].cap
  }

  predicate Complete(p: Profile, l: Ledger) {
    && l.domains.Keys == (set d | d in Domains(p)) && l.surfaces.Keys == (set n | n in Names(p))
  }

  predicate Fits(l: Ledger, names: seq<string>, domain: string)
    requires domain in l.domains && Held(l.surfaces, names)
  {
    && Reserved(l.surfaces, names, domain, D) <= l.domains[domain].guestDevice
    && l.domains[domain].guestDevice + Reserved(l.surfaces, names, domain, H) <= l.domains[domain].cap
  }

  /** Bounded surfaces charge distinct representations. */
  predicate Unshared(surfaces: map<string, Surface>, names: seq<string>)
    requires Held(surfaces, names)
  {
    forall i, j | 0 <= i < j < |names| && surfaces[names[i]].state.Bounded? && surfaces[names[j]].state.Bounded? ::
      surfaces[names[i]].representation != surfaces[names[j]].representation
  }

  /** What a ledger must satisfy. */
  predicate ValidLedger(p: Profile, l: Ledger) {
    && Complete(p, l)
    && (forall i | 0 <= i < |Domains(p)| :: DomainOk(p, Domains(p)[i], l.domains[Domains(p)[i]]))
    && 1 <= l.envelope <= MAX && Caps(l.domains, Domains(p)) <= l.envelope && (p.Runtime? ==> l.envelope == 768 * MIB)
    && (forall i | 0 <= i < |Names(p)| :: RowOk(p, Names(p)[i], l.surfaces[Names(p)[i]]))
    && Unshared(l.surfaces, Names(p))
    && (forall i | 0 <= i < |Domains(p)| :: Fits(l, Names(p), Domains(p)[i]))
  }

  // ---- Conservation ----

  /** The hard limits of all bounded surfaces. */
  function HardTotal(surfaces: map<string, Surface>, names: seq<string>): int
    requires Held(surfaces, names)
  {
    if names == [] then 0 else HardTotal(surfaces, names[..|names| - 1]) + Hard(surfaces[names[|names| - 1]])
  }

  function Payload(s: Surface): int {
    if s.state.Bounded? && s.logical.Some? && s.copies.Some? then s.logical.value * s.copies.value else 0
  }

  /** The bytes that all the copies of all bounded surfaces take. */
  function PayloadTotal(surfaces: map<string, Surface>, names: seq<string>): int
    requires Held(surfaces, names)
  {
    if names == [] then 0 else PayloadTotal(surfaces, names[..|names| - 1]) + Payload(surfaces[names[|names| - 1]])
  }

  /** The reserves of a list of domains under both charges. */
  function Across(surfaces: map<string, Surface>, names: seq<string>, domains: seq<string>): int
    requires Held(surfaces, names)
  {
    if domains == [] then 0
    else
      var d := domains[|domains| - 1];
      Across(surfaces, names, domains[..|domains| - 1]) + Reserved(surfaces, names, d, D) + Reserved(surfaces, names, d, H)
  }

  predicate Distinct(list: seq<string>) { forall i, j | 0 <= i < j < |list| :: list[i] != list[j] }

  /** One more surface adds its limit to the reserves of exactly its owner. */
  lemma {:induction false} AcrossMore(surfaces: map<string, Surface>, names: seq<string>, domains: seq<string>)
    requires Held(surfaces, names) && names != [] && Distinct(domains)
    ensures var s := surfaces[names[|names| - 1]];
            Across(surfaces, names, domains) == Across(surfaces, names[..|names| - 1], domains) + if s.owner in domains then Hard(s) else 0
  {
    if domains != [] { AcrossMore(surfaces, names, domains[..|domains| - 1]); }
  }

  /** If every surface is owned by one of the domains, the domains' reserves are the surfaces' limits. */
  lemma {:induction false} Spread(surfaces: map<string, Surface>, names: seq<string>, domains: seq<string>)
    requires Held(surfaces, names) && Distinct(domains) && forall i | 0 <= i < |names| :: surfaces[names[i]].owner in domains
    ensures HardTotal(surfaces, names) == Across(surfaces, names, domains)
  {
    if names == [] {
      NothingReserved(surfaces, domains);
    } else {
      Spread(surfaces, names[..|names| - 1], domains);
      AcrossMore(surfaces, names, domains);
    }
  }

  lemma {:induction false} NothingReserved(surfaces: map<string, Surface>, domains: seq<string>)
    ensures Across(surfaces, [], domains) == 0
  {
    if domains != [] { NothingReserved(surfaces, domains[..|domains| - 1]); }
  }

  /** Reserves that fit their domains fit the caps together. */
  lemma {:induction false} AcrossFits(l: Ledger, names: seq<string>, domains: seq<string>)
    requires Held(l.surfaces, names) && forall i | 0 <= i < |domains| :: domains[i] in l.domains && Fits(l, names, domains[i])
    ensures Across(l.surfaces, names, domains) <= Caps(l.domains, domains)
  {
    if domains != [] {
      assert Fits(l, names, domains[|domains| - 1]);
      AcrossFits(l, names, domains[..|domains| - 1]);
    }
  }

  lemma {:induction false} PayloadBelow(p: Profile, surfaces: map<string, Surface>, names: seq<string>)
    requires Held(surfaces, names) && forall i | 0 <= i < |names| :: RowOk(p, names[i], surfaces[names[i]])
    ensures PayloadTotal(surfaces, names) <= HardTotal(surfaces, names)
  {
    if names != [] {
      assert RowOk(p, names[|names| - 1], surfaces[names[|names| - 1]]);
      PayloadBelow(p, surfaces, names[..|names| - 1]);
    }
  }

  /** An accepted ledger promises no more bytes than its envelope: the hard limits of all its
      bounded surfaces together fit it, and so do all the copies they stand for. */
  lemma Conserved(p: Profile, l: Ledger)
    requires ValidLedger(p, l)
    ensures HardTotal(l.surfaces, Names(p)) <= l.envelope && PayloadTotal(l.surfaces, Names(p)) <= l.envelope
  {
    hide RowOk, DomainOk, Fits, Names, Domains, Unshared;
    forall i | 0 <= i < |Names(p)| ensures l.surfaces[Names(p)[i]].owner in Domains(p) { OwnedOk(p, Names(p)[i], l.surfaces[Names(p)[i]]); }
    DomainsDistinct(p);
    Spread(l.surfaces, Names(p), Domains(p));
    AcrossFits(l, Names(p), Domains(p));
    PayloadBelow(p, l.surfaces, Names(p));
  }

  /** A runtime ledger has no choice: its fixed caps fill the 768 MiB envelope exactly. */
  lemma RuntimeFilled(l: Ledger)
    requires ValidLedger(Runtime, l)
    ensures Owned(l.domains, Domains(Runtime)) && Caps(l.domains, Domains(Runtime)) == l.envelope == 768 * MIB
  {
    hide Names, RowOk, Fits, Unshared, Reserved, Domains;
    var d := Domains(Runtime);
    RuntimeCaps();
    forall i | 0 <= i < |d| ensures Some(l.domains[d[i]].cap) == FixedCap(Runtime, d[i]) {
      assert DomainOk(Runtime, d[i], l.domains[d[i]]);
    }
    hide DomainOk, FixedCap;
    FiveCaps(l.domains, d);
  }

  lemma RuntimeCaps()
    ensures var d := Domains(Runtime);
      && |d| == 5 && FixedCap(Runtime, d[0]) == Some(256 * MIB) && FixedCap(Runtime, d[1]) == Some(160 * MIB)
      && FixedCap(Runtime, d[2]) == Some(240 * MIB) && FixedCap(Runtime, d[3]) == Some(64 * MIB)
      && FixedCap(Runtime, d[4]) == Some(48 * MIB)
  {
  }

  lemma FiveCaps(domains: map<string, DomainRow>, d: seq<string>)
    requires |d| == 5 && Owned(domains, d)
    ensures Caps(domains, d) == domains[d[0]].cap + domains[d[1]].cap + domains[d[2]].cap + domains[d[3]].cap + domains[d[4]].cap
  {
    assert d[..4][..3] == d[..3] && d[..3][..2] == d[..2] && d[..2][..1] == d[..1] && d[..1][..0] == [];
    assert Caps(domains, d[..1]) == Caps(domains, d[..1][..0]) + domains[d[0]].cap;
    assert Caps(domains, d[..2]) == Caps(domains, d[..1]) + domains[d[1]].cap;
    assert Caps(domains, d[..3]) == Caps(domains, d[..2]) + domains[d[2]].cap;
    assert Caps(domains, d[..4]) == Caps(domains, d[..3]) + domains[d[3]].cap;
  }

  /** Nothing is charged zero but swap and crash dumps declared to be off. */
  lemma OnlySwapDisabled(p: Profile, l: Ledger, name: string)
    requires ValidLedger(p, l) && name in Names(p) && name in l.surfaces && l.surfaces[name].state.Disabled?
    ensures name in {"guest_swap", "host_swap_crash"}
  {
    hide Names, Domains, DomainOk, Fits, Unshared, Caps;
    var i :| 0 <= i < |Names(p)| && Names(p)[i] == name;
    assert RowOk(p, Names(p)[i], l.surfaces[Names(p)[i]]);
  }

  lemma OwnedOk(p: Profile, name: string, s: Surface)
    requires RowOk(p, name, s)
    ensures s.owner in Domains(p)
  {
  }

  lemma DomainsDistinct(p: Profile)
    ensures Distinct(Domains(p))
  {
  }

  // ---- The validator ----

  /** The surfaces whose bound is unknown, which block a review. */
  function Unknowns(surfaces: map<string, Surface>, names: seq<string>): seq<string>
    requires Held(surfaces, names)
  {
    if names == [] then []
    else
      var n := names[|names| - 1];
      Unknowns(surfaces, names[..|names| - 1]) + if surfaces[n].state.Unknown? then [n] else []
  }

  predicate Represents(surfaces: map<string, Surface>, names: seq<string>, id: Option<string>)
    requires Held(surfaces, names)
  {
    exists i | 0 <= i < |names| :: surfaces[names[i]].state.Bounded? && surfaces[names[i]].representation == id
  }

  lemma UnsharedMore(surfaces: map<string, Surface>, names: seq<string>, n: string)
    requires Held(surfaces, names) && n in surfaces
    ensures Held(surfaces, names + [n])
    ensures Unshared(surfaces, names + [n]) <==>
              Unshared(surfaces, names) && (surfaces[n].state.Bounded? ==> !Represents(surfaces, names, surfaces[n].representation))
    ensures forall id :: Represents(surfaces, names + [n], id) <==>
              Represents(surfaces, names, id) || (surfaces[n].state.Bounded? && surfaces[n].representation == id)
  {
    var all := names + [n];
    assert forall i | 0 <= i < |names| :: all[i] == names[i];
    assert all[|names|] == n;
    forall id ensures Represents(surfaces, all, id)
        <==> Represents(surfaces, names, id) || (surfaces[n].state.Bounded? && surfaces[n].representation == id) {
      if Represents(surfaces, names, id) {
        var i :| 0 <= i < |names| && surfaces[names[i]].state.Bounded? && surfaces[names[i]].representation == id;
        assert surfaces[all[i]].representation == id;
      }
    }
    if Unshared(surfaces, all) {
      forall i, j | 0 <= i < j < |names| && surfaces[names[i]].state.Bounded? && surfaces[names[j]].state.Bounded?
        ensures surfaces[names[i]].representation != surfaces[names[j]].representation
      {
        assert surfaces[all[i]].representation != surfaces[all[j]].representation;
      }
    }
  }

  /** The reserves of every domain over a list of surfaces, as two running totals. */
  ghost predicate Running(surfaces: map<string, Surface>, names: seq<string>, domains: seq<string>, device: map<string,
      int>, extra: map<string, int>)
    requires Held(surfaces, names)
  {
    forall i | 0 <= i < |domains| ::
      && domains[i] in device && device[domains[i]] == Reserved(surfaces, names, domains[i], D)
      && domains[i] in extra && extra[domains[i]] == Reserved(surfaces, names, domains[i], H)
  }

  /** Charging one surface to its owner keeps the running totals. */
  lemma RunningMore(surfaces: map<string, Surface>, names: seq<string>, domains: seq<string>, device: map<string, int>,
      extra: map<string, int>, n: string)
    requires Held(surfaces, names) && n in surfaces && Running(surfaces, names, domains, device, extra)
    requires surfaces[n].owner in domains
    ensures var s := surfaces[n];
            && Held(surfaces, names + [n]) && s.owner in device && s.owner in extra
            && Running(surfaces, names + [n], domains,
                       if s.charge == D then device[s.owner := device[s.owner] + Hard(s)] else device,
                       if s.charge == H then extra[s.owner := extra[s.owner] + Hard(s)] else extra)
  {
  }

  /** The domain rows, with no reserve yet. */
  method CheckDomains(p: Profile, l: Ledger) returns (ok: bool, device: map<string, int>, extra: map<string, int>)
    requires Complete(p, l)
    ensures ok <==> (forall i | 0 <= i < |Domains(p)| :: DomainOk(p, Domains(p)[i], l.domains[Domains(p)[i]]))
                    && 1 <= l.envelope <= MAX && Caps(l.domains, Domains(p)) <= l.envelope && (p.Runtime? ==> l.envelope == 768 * MIB)
    ensures ok ==> Running(l.surfaces, [], Domains(p), device, extra)
  {
    hide DomainOk, Names;
    device, extra := map[], map[];
    var names := Domains(p);
    hide Domains;
    var total := 0;
    for i := 0 to |names|
      invariant forall k | 0 <= k < i :: DomainOk(p, names[k], l.domains[names[k]])
      invariant forall k | 0 <= k < i :: names[k] in device && device[names[k]] == 0 && names[k] in extra && extra[names[k]] == 0
      invariant total == Caps(l.domains, names[..i])
    {
      if !DomainOk(p, names[i], l.domains[names[i]]) { return false, device, extra; }
      device, extra := device[names[i] := 0], extra[names[i] := 0];
      total := total + l.domains[names[i]].cap;
      assert names[..i + 1][..i] == names[..i];
    }
    assert names[..|names|] == names;
    ok := 1 <= l.envelope <= MAX && total <= l.envelope && (p.Runtime? ==> l.envelope == 768 * MIB);
  }

  /** The surface rows, charged one by one to their owners. */
  method CheckSurfaces(p: Profile, surfaces: map<string, Surface>, names: seq<string>, device0: map<string, int>, extra0: map<string, int>)
    returns (ok: bool, blockers: seq<string>, device: map<string, int>, extra: map<string, int>)
    requires Held(surfaces, names) && Running(surfaces, [], Domains(p), device0, extra0)
    ensures ok <==> (forall i | 0 <= i < |names| :: RowOk(p, names[i], surfaces[names[i]])) && Unshared(surfaces, names)
    ensures ok ==> blockers == Unknowns(surfaces, names) && Running(surfaces, names, Domains(p), device, extra)
  {
    hide Domains, RowOk, Unshared, Represents, Running, Hard, Reserved;
    ok, blockers, device, extra := false, [], device0, extra0;
    var representations: set<Option<string>> := {};
    UnsharedNone(surfaces);
    for k := 0 to |names|
      invariant forall i | 0 <= i < k :: RowOk(p, names[i], surfaces[names[i]])
      invariant Unshared(surfaces, names[..k]) && Running(surfaces, names[..k], Domains(p), device, extra)
      invariant forall id :: id in representations <==> Represents(surfaces, names[..k], id)
      invariant blockers == Unknowns(surfaces, names[..k])
    {
      var name := names[k];
      var row := surfaces[name];
      assert names[..k + 1] == names[..k] + [name] && names[..k + 1][..k] == names[..k];
      UnsharedMore(surfaces, names[..k], name);
      if !RowOk(p, name, row) { return; }
      OwnedOk(p, name, row);
      RunningMore(surfaces, names[..k], Domains(p), device, extra, name);
      if row.state.Unknown? { blockers := blockers + [name]; }
      if row.state.Bounded? {
        if row.representation in representations {
          UnsharedPrefix(surfaces, names, k + 1);
          return;
        }
        representations := representations + {row.representation};
      }
      if row.charge == D {
        device := device[row.owner := device[row.owner] + Hard(row)];
      } else {
        extra := extra[row.owner := extra[row.owner] + Hard(row)];
      }
    }
    assert names[..|names|] == names;
    ok := true;
  }

  lemma CompleteHeld(p: Profile, l: Ledger)
    requires Complete(p, l)
    ensures Held(l.surfaces, Names(p)) && Owned(l.domains, Domains(p))
  {
  }

  /** `validate_capacity`: it accepts exactly the valid ledgers, and reports the unknown surfaces. */
  method ValidateCapacity(p: Profile, l: Ledger) returns (ok: bool, blockers: seq<string>)
    ensures ok <==> ValidLedger(p, l)
    ensures ok ==> blockers == Unknowns(l.surfaces, Names(p))
  {
    hide Names, Domains, DomainOk, RowOk, Unshared, Running, Fits, TotalsFit, Complete;
    if !Complete(p, l) { return false, []; }
    CompleteHeld(p, l);
    var device, extra;
    ok, device, extra := CheckDomains(p, l);
    if !ok { return false, []; }
    ok, blockers, device, extra := CheckSurfaces(p, l.surfaces, Names(p), device, extra);
    if !ok { return; }
    var domains := Domains(p);
    TotalsAreFits(l, Names(p), domains, device, extra);
    ok := forall i | 0 <= i < |domains| :: TotalsFit(l.domains[domains[i]], device, extra, domains[i]);
  }

  predicate TotalsFit(row: DomainRow, device: map<string, int>, extra: map<string, int>, d: string) {
    d in device && d in extra && device[d] <= row.guestDevice && row.guestDevice + extra[d] <= row.cap
  }

  lemma TotalsAreFits(l: Ledger, names: seq<string>, domains: seq<string>, device: map<string, int>, extra: map<string, int>)
    requires Held(l.surfaces, names) && Running(l.surfaces, names, domains, device, extra) && Owned(l.domains, domains)
    ensures forall i | 0 <= i < |domains| :: TotalsFit(l.domains[domains[i]], device, extra, domains[i]) <==> Fits(l, names, domains[i])
  {
  }

  lemma UnsharedNone(surfaces: map<string, Surface>)
    ensures Unshared(surfaces, []) && forall id :: !Represents(surfaces, [], id)
  {
  }

  lemma UnsharedPrefix(surfaces: map<string, Surface>, names: seq<string>, k: nat)
    requires Held(surfaces, names) && k <= |names| && !Unshared(surfaces, names[..k])
    ensures !Unshared(surfaces, names)
  {
  }

  // ---- A ledger that knows nothing ----

  function UnknownSurface(name: string): Surface {
    Surface(FixedOwner(Preparation, name).value, if OnlyD(name) then D else H, Unknown, None, None, None, None, None,
            "unknown", "unknown", None)
  }

  function UnknownLedger(): Ledger {
    Ledger(map d | d in Domains(Preparation) :: DomainRow(1, 0), map n | n in Names(Preparation) :: UnknownSurface(n), 5)
  }

  lemma ChargesApart(name: string)
    ensures !(OnlyH(name) && OnlyD(name))
  {
    if OnlyD(name) {
      assert name[0] != 'h' && name[0] != 'u' && name[0] != 'n' && name[0] != 'g' && name[0] != 'p' && (name[0] == 'i' ==> false);
    }
  }

  lemma UnknownRowOk(name: string)
    ensures RowOk(Preparation, name, UnknownSurface(name)) && Hard(UnknownSurface(name)) == 0 && UnknownSurface(name).state.Unknown?
  {
    ChargesApart(name);
  }

  lemma {:induction false} NothingBounded(surfaces: map<string, Surface>, names: seq<string>, d: string, c: Charge)
    requires Held(surfaces, names) && forall i | 0 <= i < |names| :: Hard(surfaces[names[i]]) == 0
    ensures Reserved(surfaces, names, d, c) == 0
  {
    if names != [] { NothingBounded(surfaces, names[..|names| - 1], d, c); }
  }

  lemma {:induction false} UnitCaps(domains: map<string, DomainRow>, names: seq<string>)
    requires Owned(domains, names) && forall i | 0 <= i < |names| :: domains[names[i]].cap == 1
    ensures Caps(domains, names) == |names|
  {
    if names != [] { UnitCaps(domains, names[..|names| - 1]); }
  }

  lemma UnknownRows(l: Ledger)
    requires l == UnknownLedger()
    ensures Complete(Preparation, l)
    ensures forall d | d in Domains(Preparation) :: d in l.domains && l.domains[d] == DomainRow(1, 0)
    ensures forall n | n in Names(Preparation) :: n in l.surfaces && l.surfaces[n] == UnknownSurface(n)
  {
    hide Names, Domains, UnknownSurface;
  }

  lemma UnitDomains()
    ensures |Domains(Preparation)| == 5 && forall d | d in Domains(Preparation) :: DomainOk(Preparation, d, DomainRow(1, 0))
  {
  }

  /** Knowing no bound is a valid ledger; it only leaves every surface as a blocker. */
  lemma UnknownAccepted()
    ensures ValidLedger(Preparation, UnknownLedger())
  {
    var p, l := Preparation, UnknownLedger();
    UnknownRows(l);
    CompleteHeld(p, l);
    UnitDomains();
    hide Names, Domains, UnknownSurface, RowOk, Hard, Reserved, Complete, DomainOk;
    var names, domains := Names(p), Domains(p);
    UnitCaps(l.domains, domains);
    forall i | 0 <= i < |names| ensures RowOk(p, names[i], l.surfaces[names[i]]) && Hard(l.surfaces[names[i]]) == 0
        && l.surfaces[names[i]].state.Unknown? {
      UnknownRowOk(names[i]);
    }
    forall i | 0 <= i < |domains| ensures Fits(l, names, domains[i]) {
      NothingBounded(l.surfaces, names, domains[i], D);
      NothingBounded(l.surfaces, names, domains[i], H);
    }
  }
}
