/** `ResultExport.collect` and `validate_export`: what the guest packs after a run, and
    the host's independent check of the packet. */
module Export {
  import opened Base
  import S = Supervision

  type Bytes = seq<Byte>

  /** Artifact names by position: 0 is result.json, 1 and 2 the worker's streams, and
      3 + 2k and 4 + 2k the streams of step k of the 25 step labels. */
  const STEPS: nat := 25
  const ARTIFACTS: nat := 3 + 2 * STEPS
  const DATA_LIMIT: nat := 1024 * 1024
  const EXPORT_LIMIT: nat := 2 * 1024 * 1024
  const TEXT_LIMIT: nat := 2048

  /** The text for a file that the quota cut; the artifact's name, which follows, is dropped. */
  const QUOTA: string := "export quota: "

  function Limit(name: int): nat { if name == 0 then 256 * 1024 else 64 * 1024 }

  type StepCount = n: nat | n <= STEPS

  /** A preparation result that `validate_result` accepts: its steps are the first `steps` labels. */
  datatype Summary = Summary(passed: bool, steps: StepCount)

  /** `validate_result`: a result, a rejection, or an error that neither side handles
      (an unhashable field, for instance). */
  datatype Parsed = Valid(summary: Summary) | Rejected(text: string) | Crashed(text: string)

  datatype Artifact = Artifact(name: int, bytes: int, saved: int, digest: nat, base64: string, truncated: bool)

  datatype Packet = Packet(passed: bool, supervision: S.Report, preparation: Option<Summary>,
                           artifacts: seq<Artifact>, errors: seq<string>)

  /** The outside functions: SHA-256, base64 both ways, `validate_result` and the encoded length. */
  datatype Codec = Codec(hash: Bytes -> nat, encode: Bytes -> string, decode: string -> Option<Bytes>,
                         parse: Bytes -> Parsed, size: Packet -> nat)

  ghost predicate Lawful(c: Codec) {
    && (forall b: Bytes :: c.decode(c.encode(b)) == Some(b))
    && (forall b: Bytes :: PassingHasAllSteps(c.parse(b)))
  }

  predicate PassingHasAllSteps(p: Parsed) { p.Valid? && p.summary.passed ==> p.summary.steps == STEPS }

  /** What reading one name meets: nothing there; an exception that `collect` records, from
      the checkpoint or an unsafe or changing file; one that it does not; or a stable file. */
  datatype Fetch = Absent | Stopped(text: string) | Escapes(text: string) | Regular(size: nat, content: Bytes)

  type Directory = d: seq<Fetch> | |d| == ARTIFACTS && forall i | 0 <= i < |d| :: d[i].Regular? ==> |d[i].content| <= d[i].size
    witness seq(ARTIFACTS, i => Absent)

  function Min(a: int, b: int): int { if a < b then a else b }

  // ---- The validator ----

  function Total(artifacts: seq<Artifact>): int {
    if artifacts == [] then 0 else Total(artifacts[..|artifacts| - 1]) + artifacts[|artifacts| - 1].saved
  }

  predicate Named(artifacts: seq<Artifact>, name: int) { exists i | 0 <= i < |artifacts| :: artifacts[i].name == name }

  /** One entry is well formed, and its bytes are what its digest and length say. */
  predicate Sound(c: Codec, a: Artifact) {
    && 0 <= a.name < ARTIFACTS && 0 <= a.saved <= a.bytes && a.saved <= Limit(a.name)
    && a.truncated == (a.saved < a.bytes)
    && c.decode(a.base64).Some?
    && var data := c.decode(a.base64).value;
       c.encode(data) == a.base64 && |data| == a.saved && c.hash(data) == a.digest
  }

  /** The entry that the validator reads the summary from. */
  predicate Whole(a: Artifact) { a.name == 0 && !a.truncated }

  function Parse(c: Codec, a: Artifact): Parsed
    requires Sound(c, a)
  {
    c.parse(c.decode(a.base64).value)
  }

  /** Every name that a run of so many steps must have exported. */
  predicate Complete(artifacts: seq<Artifact>, steps: nat) {
    forall name | 0 <= name < 3 + 2 * steps :: Named(artifacts, name)
  }

  predicate Explained(p: Packet) {
    if p.passed then
      p.preparation.Some? && Complete(p.artifacts, p.preparation.value.steps) && p.preparation.value.passed
      && p.supervision.passed && p.errors == []
    else
      p.errors != [] || !p.supervision.passed || (p.preparation.Some? && !p.preparation.value.passed)
  }

  predicate TextsOk(errors: seq<string>) {
    |errors| <= ARTIFACTS + 1 && forall i | 0 <= i < |errors| :: 0 < |errors[i]| <= TEXT_LIMIT
  }

  predicate Distinct(artifacts: seq<Artifact>) {
    forall i, j | 0 <= i < j < |artifacts| :: artifacts[i].name != artifacts[j].name
  }

  predicate EntryOk(c: Codec, a: Artifact, errors: seq<string>) {
    Sound(c, a) && (a.truncated ==> errors != []) && (Whole(a) ==> !Parse(c, a).Crashed? && (Parse(c, a).Rejected? ==> errors != []))
  }

  predicate EntriesOk(c: Codec, artifacts: seq<Artifact>, errors: seq<string>) {
    forall i | 0 <= i < |artifacts| :: EntryOk(c, artifacts[i], errors)
  }

  /** The packet's summary is the one its result.json carries, and absent without one. */
  predicate SummaryOf(c: Codec, artifacts: seq<Artifact>, errors: seq<string>, s: Option<Summary>)
    requires EntriesOk(c, artifacts, errors)
  {
    && (forall i | 0 <= i < |artifacts| && Whole(artifacts[i]) ::
          Parse(c, artifacts[i]).Valid? ==> s == Some(Parse(c, artifacts[i]).summary))
    && (s.Some? ==> exists i | 0 <= i < |artifacts| && Whole(artifacts[i]) :: Parse(c, artifacts[i]).Valid?)
  }

  predicate ValidExport(c: Codec, p: Packet) {
    && S.ValidSupervision(p.supervision)
    && |p.artifacts| <= ARTIFACTS && TextsOk(p.errors)
    && Distinct(p.artifacts) && EntriesOk(c, p.artifacts, p.errors) && Total(p.artifacts) <= DATA_LIMIT
    && SummaryOf(c, p.artifacts, p.errors, p.preparation)
    && Explained(p)
  }

  lemma {:induction false} TotalGrows(artifacts: seq<Artifact>, k: nat)
    requires k <= |artifacts| && forall i | 0 <= i < |artifacts| :: artifacts[i].saved >= 0
    ensures 0 <= Total(artifacts[..k]) <= Total(artifacts)
    decreases |artifacts|
  {
    if k == |artifacts| {
      assert artifacts[..k] == artifacts;
      if k > 0 { TotalGrows(artifacts[..k - 1], 0); }
    } else {
      TotalGrows(artifacts[..|artifacts| - 1], k);
      assert artifacts[..|artifacts| - 1][..k] == artifacts[..k];
    }
  }

  predicate Cut(artifacts: seq<Artifact>) { exists i | 0 <= i < |artifacts| :: artifacts[i].truncated }

  predicate HasWhole(artifacts: seq<Artifact>) { exists i | 0 <= i < |artifacts| :: Whole(artifacts[i]) }

  lemma FlagsSnoc(artifacts: seq<Artifact>, a: Artifact)
    ensures Cut(artifacts + [a]) <==> Cut(artifacts) || a.truncated
    ensures HasWhole(artifacts + [a]) <==> HasWhole(artifacts) || Whole(a)
    ensures forall j: int :: Named(artifacts + [a], j) <==> Named(artifacts, j) || j == a.name
  {
    var all := artifacts + [a];
    assert all[|artifacts|] == a && forall i | 0 <= i < |artifacts| :: all[i] == artifacts[i];
    forall j: int ensures Named(all, j) <==> Named(artifacts, j) || j == a.name {
      if Named(artifacts, j) { var i :| 0 <= i < |artifacts| && artifacts[i].name == j; assert all[i].name == j; }
    }
  }

  /** In a passable directory nothing is cut and the result parses. */
  lemma PassableStep(c: Codec, dir: Directory, n: nat, artifacts: seq<Artifact>)
    requires n < ARTIFACTS && Passable(c, dir) && Entries(c, dir, n, artifacts) && Exact(dir, n, artifacts, [])
    ensures dir[n].Regular? && !Next(c, dir, n, Total(artifacts)).truncated
    ensures n == 0 ==> c.parse(dir[n].content).Valid?
  {
    assert WholeFile(dir[n], Limit(n));
    forall j | 0 <= j < n ensures dir[j].Regular? { assert WholeFile(dir[j], Limit(j)); }
    SizeMonotone(dir, n + 1, ARTIFACTS);
  }

  lemma DistinctSnoc(artifacts: seq<Artifact>, a: Artifact)
    requires Distinct(artifacts)
    ensures Distinct(artifacts + [a]) <==> !Named(artifacts, a.name)
  {
    var all := artifacts + [a];
    assert all[|artifacts|] == a && forall i | 0 <= i < |artifacts| :: all[i] == artifacts[i];
    if Distinct(all) { assert forall i | 0 <= i < |artifacts| :: all[i].name != all[|artifacts|].name; }
  }

  /** `validate_export` accepts exactly the packets of the declarative check. */
  method ValidateExport(c: Codec, p: Packet) returns (ok: bool)
    ensures ok <==> ValidExport(c, p)
  {
    if !S.ValidSupervision(p.supervision) || |p.artifacts| > ARTIFACTS || !TextsOk(p.errors) { return false; }
    hide S.ValidSupervision, TextsOk, Explained, Distinct, Named, SummaryOf, Sound, Cut, HasWhole;
    var names: set<int>, used, summary: Option<Summary> := {}, 0, None;
    CheckedNone(c, p.errors);
    for k := 0 to |p.artifacts|
      invariant Distinct(p.artifacts[..k]) && EntriesOk(c, p.artifacts[..k], p.errors)
      invariant forall n: int :: n in names <==> Named(p.artifacts[..k], n)
      invariant used == Total(p.artifacts[..k]) <= DATA_LIMIT
      invariant SummaryOf(c, p.artifacts[..k], p.errors, summary)
    {
      var entry := p.artifacts[k];
      assert p.artifacts[..k + 1] == p.artifacts[..k] + [entry] && p.artifacts[..k + 1][..k] == p.artifacts[..k];
      FlagsSnoc(p.artifacts[..k], entry);
      DistinctSnoc(p.artifacts[..k], entry);
      if !Sound(c, entry) || entry.name in names {
        RejectedEntry(c, p, k);
        return false;
      }
      names := names + {entry.name};
      used := used + entry.saved;
      if used > DATA_LIMIT || (entry.truncated && p.errors == []) {
        RejectedEntry(c, p, k);
        return false;
      }
      if Whole(entry) {
        var parsed := Parse(c, entry);
        if parsed.Crashed? || (parsed.Rejected? && p.errors == []) {
          RejectedEntry(c, p, k);
          return false;
        }
        if parsed.Valid? { summary := Some(parsed.summary); }
      }
      SummarySnoc(c, p.artifacts[..k], p.errors, entry, summary);
    }
    assert p.artifacts[..|p.artifacts|] == p.artifacts;
    if p.preparation != summary {
      SummaryUnique(c, p.artifacts, p.errors, summary, p.preparation);
      return false;
    }
    ok := Explained(p);
  }

  lemma CheckedNone(c: Codec, errors: seq<string>)
    ensures Distinct([]) && EntriesOk(c, [], errors) && Total([]) == 0 && SummaryOf(c, [], errors, None)
    ensures forall n: int :: !Named([], n)
  {
  }

  /** A list of entries with distinct names has at most one summary. */
  lemma SummaryUnique(c: Codec, artifacts: seq<Artifact>, errors: seq<string>, s: Option<Summary>, t: Option<Summary>)
    requires EntriesOk(c, artifacts, errors) && SummaryOf(c, artifacts, errors, s) && s != t
    ensures !SummaryOf(c, artifacts, errors, t)
  {
  }

  /** A repeated name, or a total over the limit, is a fault of the whole list. */
  lemma RejectedEntry(c: Codec, p: Packet, k: nat)
    requires k < |p.artifacts|
    requires Named(p.artifacts[..k], p.artifacts[k].name) || !EntryOk(c, p.artifacts[k], p.errors)
        || Total(p.artifacts[..k + 1]) > DATA_LIMIT
    ensures !ValidExport(c, p)
  {
    if ValidExport(c, p) {
      assert EntryOk(c, p.artifacts[k], p.errors);
      forall i | 0 <= i < |p.artifacts| ensures p.artifacts[i].saved >= 0 { assert EntryOk(c, p.artifacts[i], p.errors); }
      TotalGrows(p.artifacts, k + 1);
      assert false;
    }
  }

  lemma SummarySnoc(c: Codec, artifacts: seq<Artifact>, errors: seq<string>, a: Artifact, s: Option<Summary>)
    requires EntriesOk(c, artifacts, errors) && EntryOk(c, a, errors) && Distinct(artifacts + [a])
    requires if Whole(a) && Parse(c, a).Valid? then s == Some(Parse(c, a).summary) else SummaryOf(c, artifacts, errors, s)
    ensures EntriesOk(c, artifacts + [a], errors) && SummaryOf(c, artifacts + [a], errors, s)
  {
    var all := artifacts + [a];
    forall i | 0 <= i < |all| ensures EntryOk(c, all[i], errors) { assert i < |artifacts| ==> EntryOk(c, artifacts[i], errors); }
    if Whole(a) && Parse(c, a).Valid? {
      assert all[|artifacts|] == a;
      forall i | 0 <= i < |artifacts| ensures !Whole(artifacts[i]) { assert all[i].name != all[|artifacts|].name; }
    } else if s.Some? {
      var i :| 0 <= i < |artifacts| && Whole(artifacts[i]) && Parse(c, artifacts[i]).Valid?;
      assert all[i] == artifacts[i];
    }
  }

  // ---- The collector ----

  /** An entry says truly what was read: the first `saved` bytes of the file of its name. */
  ghost predicate Faithful(c: Codec, dir: Directory, a: Artifact) {
    && 0 <= a.name < ARTIFACTS && dir[a.name].Regular? && 0 <= a.saved <= |dir[a.name].content|
    && a == Entry(c, a.name, dir[a.name].size, dir[a.name].content[..a.saved])
    && a.saved <= Limit(a.name)
  }

  function Entry(c: Codec, name: int, size: nat, raw: Bytes): (a: Artifact) {
    Artifact(name, size, |raw|, c.hash(raw), c.encode(raw), |raw| != size)
  }

  /** The bytes of the first `n` names. */
  function SizeTo(dir: Directory, n: nat): nat
    requires n <= ARTIFACTS
  {
    if n == 0 then 0 else SizeTo(dir, n - 1) + if dir[n - 1].Regular? then dir[n - 1].size else 0
  }

  lemma {:induction false} SizeMonotone(dir: Directory, n: nat, m: nat)
    requires n <= m <= ARTIFACTS
    ensures SizeTo(dir, n) <= SizeTo(dir, m)
  {
    if n < m { SizeMonotone(dir, n, m - 1); }
  }

  predicate WholeFile(f: Fetch, limit: nat) { f.Regular? && |f.content| == f.size <= limit }

  /** Every file is there, whole and within its limit, all fit the total, and the result passed. */
  predicate Passable(c: Codec, dir: Directory) {
    && (forall n | 0 <= n < ARTIFACTS :: WholeFile(dir[n], Limit(n)))
    && SizeTo(dir, ARTIFACTS) <= DATA_LIMIT
    && c.parse(dir[0].content).Valid? && c.parse(dir[0].content).summary.passed
  }

  /** Every exception text that the directory or the parser can give is non-empty. */
  predicate TextsGiven(c: Codec, dir: Directory) {
    && (forall n | 0 <= n < ARTIFACTS :: dir[n].Stopped? ==> dir[n].text != "")
    && (dir[0].Regular? && c.parse(dir[0].content).Rejected? ==> c.parse(dir[0].content).text != "")
  }

  /** No exception leaves `collect` other than the one about the packet's size. */
  predicate Contained(c: Codec, dir: Directory) {
    (forall n | 0 <= n < ARTIFACTS :: !dir[n].Escapes?) && (dir[0].Regular? ==> !c.parse(dir[0].content).Crashed?)
  }

  ghost predicate Entries(c: Codec, dir: Directory, n: nat, artifacts: seq<Artifact>) {
    && (forall i | 0 <= i < |artifacts| :: Faithful(c, dir, artifacts[i]) && artifacts[i].name < n)
    && (forall i, j | 0 <= i < j < |artifacts| :: artifacts[i].name < artifacts[j].name)
    && Total(artifacts) <= DATA_LIMIT
  }

  /** A quota error for each cut entry and no other. */
  ghost predicate Quotas(artifacts: seq<Artifact>, errors: seq<string>) {
    && |errors| <= |artifacts| && (forall i | 0 <= i < |errors| :: errors[i] == QUOTA)
    && (errors != [] <==> Cut(artifacts))
  }

  predicate Covers(dir: Directory, n: nat, artifacts: seq<Artifact>)
    requires n <= ARTIFACTS
  {
    forall j | 0 <= j < n && dir[j].Regular? :: Named(artifacts, j)
  }

  /** The summary is what result.json parses to; `bad` is whether its parser rejected it. */
  predicate Held(c: Codec, dir: Directory, artifacts: seq<Artifact>, s: Option<Summary>, bad: bool) {
    if HasWhole(artifacts) then
      && dir[0].Regular?
      && if bad then s.None? && c.parse(dir[0].content).Rejected? else s.Some? && c.parse(dir[0].content) == Valid(s.value)
    else
      s.None? && !bad
  }

  /** With nothing cut and nothing missing, the bytes so far are the sizes so far. */
  predicate Exact(dir: Directory, n: nat, artifacts: seq<Artifact>, errors: seq<string>)
    requires n <= ARTIFACTS
  {
    errors == [] && (forall j | 0 <= j < n :: dir[j].Regular?) ==> Total(artifacts) == SizeTo(dir, n)
  }

  /** What `collect` holds after the names below `n`. */
  ghost predicate Collected(c: Codec, dir: Directory, n: nat, artifacts: seq<Artifact>, s: Option<Summary>,
      errors: seq<string>, bad: bool) {
    && n <= ARTIFACTS && |artifacts| <= n && Entries(c, dir, n, artifacts) && Quotas(artifacts, errors)
    && Covers(dir, n, artifacts) && Held(c, dir, artifacts, s, bad) && Exact(dir, n, artifacts, errors)
    && (Passable(c, dir) ==> errors == [] && !bad)
  }

  /** One file's bytes, in chunks of any size up to the cap. */
  method ReadUpTo(content: Bytes, cap: int) returns (raw: Bytes)
    ensures raw == content[..if cap < 0 then 0 else Min(cap, |content|)]
  {
    raw := [];
    while |raw| < cap
      invariant |raw| <= |content| && (cap < 0 ==> raw == []) && (cap >= 0 ==> |raw| <= cap)
      invariant raw == content[..|raw|]
      decreases |content| - |raw|
    {
      var most := Min(Min(65536, cap - |raw|), |content| - |raw|);
      if most == 0 { break; }
      var size :| 1 <= size <= most;
      var chunk := content[|raw|..|raw| + size];
      raw := raw + chunk;
    }
  }

  function Taken(dir: Directory, n: nat, used: int): (k: nat)
    requires n < ARTIFACTS && dir[n].Regular? && used <= DATA_LIMIT
    ensures k <= |dir[n].content|
  {
    Min(Min(Limit(n), DATA_LIMIT - used), |dir[n].content|)
  }

  /** The entry of a regular file, under the cap that the total leaves. */
  function Next(c: Codec, dir: Directory, n: nat, used: int): (a: Artifact)
    requires n < ARTIFACTS && dir[n].Regular? && used <= DATA_LIMIT
  {
    Entry(c, n, dir[n].size, dir[n].content[..Taken(dir, n, used)])
  }

  lemma TotalBounded(c: Codec, dir: Directory, n: nat, artifacts: seq<Artifact>)
    requires Entries(c, dir, n, artifacts)
    ensures 0 <= Total(artifacts) <= DATA_LIMIT
  {
  }

  lemma NextFaithful(c: Codec, dir: Directory, n: nat, used: nat)
    requires n < ARTIFACTS && used <= DATA_LIMIT && dir[n].Regular?
    ensures Faithful(c, dir, Next(c, dir, n, used)) && used + Next(c, dir, n, used).saved <= DATA_LIMIT
  {
  }

  lemma EntriesSnoc(c: Codec, dir: Directory, n: nat, artifacts: seq<Artifact>)
    requires n < ARTIFACTS && Entries(c, dir, n, artifacts) && dir[n].Regular? && 0 <= Total(artifacts)
    ensures Entries(c, dir, n + 1, artifacts + [Next(c, dir, n, Total(artifacts))])
    ensures Total(artifacts + [Next(c, dir, n, Total(artifacts))]) == Total(artifacts) + Taken(dir, n, Total(artifacts))
  {
    var a := Next(c, dir, n, Total(artifacts));
    NextFaithful(c, dir, n, Total(artifacts));
    TotalSnoc(artifacts, a);
    hide Faithful, Taken, Total;
    var all := artifacts + [a];
    forall i | 0 <= i < |all| ensures Faithful(c, dir, all[i]) && all[i].name < n + 1 { assert i < |artifacts| ==> all[i] == artifacts[i]; }
  }

  lemma TotalSnoc(artifacts: seq<Artifact>, a: Artifact)
    ensures Total(artifacts + [a]) == Total(artifacts) + a.saved
  {
    assert (artifacts + [a])[..|artifacts|] == artifacts;
  }

  lemma QuotasSnoc(artifacts: seq<Artifact>, errors: seq<string>, a: Artifact)
    requires Quotas(artifacts, errors)
    ensures Quotas(artifacts + [a], if a.truncated then errors + [QUOTA] else errors)
  {
    FlagsSnoc(artifacts, a);
    hide Cut;
  }

  lemma CoversSnoc(dir: Directory, n: nat, artifacts: seq<Artifact>, a: Artifact)
    requires n < ARTIFACTS && Covers(dir, n, artifacts) && a.name == n
    ensures Covers(dir, n + 1, artifacts + [a])
  {
    FlagsSnoc(artifacts, a);
    hide Named;
  }

  lemma HeldSnoc(c: Codec, dir: Directory, n: nat, artifacts: seq<Artifact>, s: Option<Summary>, a: Artifact)
    requires n < ARTIFACTS && (n == 0 ==> artifacts == []) && a.name == n && dir[n].Regular? && Held(c, dir, artifacts, s, false)
    requires Whole(a) ==> !c.parse(dir[n].content).Crashed?
    ensures var p := c.parse(dir[n].content);
            Held(c, dir, artifacts + [a], if Whole(a) && p.Valid? then Some(p.summary) else s, Whole(a) && p.Rejected?)
  {
    FlagsSnoc(artifacts, a);
    assert n == 0 ==> !HasWhole(artifacts);
    hide HasWhole;
  }

  lemma ExactSnoc(dir: Directory, n: nat, artifacts: seq<Artifact>, errors: seq<string>, a: Artifact)
    requires n < ARTIFACTS && Exact(dir, n, artifacts, errors) && dir[n].Regular? && (a.truncated || a.saved == dir[n].size)
    ensures Exact(dir, n + 1, artifacts + [a], if a.truncated then errors + [QUOTA] else errors)
  {
  }

  /** A regular file adds its entry, and an error if the quota cut it. */
  lemma EntryStep(c: Codec, dir: Directory, n: nat, artifacts: seq<Artifact>, s: Option<Summary>, errors: seq<string>)
    requires n < ARTIFACTS && Collected(c, dir, n, artifacts, s, errors, false) && dir[n].Regular?
    requires Whole(Next(c, dir, n, Total(artifacts))) ==> !c.parse(dir[n].content).Crashed?
    ensures var a := Next(c, dir, n, Total(artifacts));
            var p := c.parse(dir[n].content);
            Collected(c, dir, n + 1, artifacts + [a], if Whole(a) && p.Valid? then Some(p.summary) else s,
                      if a.truncated then errors + [QUOTA] else errors, Whole(a) && p.Rejected?)
  {
    var a := Next(c, dir, n, Total(artifacts));
    TotalBounded(c, dir, n, artifacts);
    EntriesSnoc(c, dir, n, artifacts);
    QuotasSnoc(artifacts, errors, a);
    CoversSnoc(dir, n, artifacts, a);
    HeldSnoc(c, dir, n, artifacts, s, a);
    ExactSnoc(dir, n, artifacts, errors, a);
    if Passable(c, dir) { PassableStep(c, dir, n, artifacts); }
    hide Passable, Entries, Quotas, Covers, Held, Exact, Total, Taken, WholeFile, Limit;
  }

  lemma AbsentStep(c: Codec, dir: Directory, n: nat, artifacts: seq<Artifact>, s: Option<Summary>, errors: seq<string>)
    requires n < ARTIFACTS && Collected(c, dir, n, artifacts, s, errors, false) && dir[n].Absent?
    ensures Collected(c, dir, n + 1, artifacts, s, errors, false)
  {
  }

  /** Each recorded entry and the summary pass the validator's checks, given an error wherever one is due. */
  lemma CollectedValid(c: Codec, dir: Directory, n: nat, artifacts: seq<Artifact>, s: Option<Summary>,
      errors: seq<string>, bad: bool, all: seq<string>)
    requires Lawful(c) && Collected(c, dir, n, artifacts, s, errors, bad)
    requires errors != [] || bad ==> all != []
    ensures Distinct(artifacts) && EntriesOk(c, artifacts, all) && SummaryOf(c, artifacts, all, s)
  {
    forall i | 0 <= i < |artifacts| ensures EntryOk(c, artifacts[i], all)
        && (Whole(artifacts[i]) ==> Parse(c, artifacts[i]) == c.parse(dir[0].content)) {
      assert Faithful(c, dir, artifacts[i]);
      assert artifacts[i].truncated ==> Cut(artifacts);
      assert Whole(artifacts[i]) ==> HasWhole(artifacts) && dir[0].content[..artifacts[i].saved] == dir[0].content;
    }
    hide EntryOk, Faithful, Cut, Covers, Exact, Parse;
  }

  /** A report that passes has nothing cut, nothing missing and a passing result; the converse
      holds of a finished loop. */
  lemma PassingCollected(c: Codec, dir: Directory, artifacts: seq<Artifact>, s: Option<Summary>)
    requires Lawful(c) && Collected(c, dir, ARTIFACTS, artifacts, s, [], false)
    ensures s.Some? && s.value.passed && Complete(artifacts, s.value.steps) <==> Passable(c, dir)
    ensures Passable(c, dir) ==> s.Some? && s.value.steps == STEPS
  {
    forall j | 0 <= j < ARTIFACTS && Named(artifacts, j) ensures WholeFile(dir[j], Limit(j)) && (j == 0 ==> HasWhole(artifacts)) {
      var i :| 0 <= i < |artifacts| && artifacts[i].name == j;
      assert Faithful(c, dir, artifacts[i]);
      assert !Cut(artifacts);
    }
    if s.Some? && s.value.passed {
      assert HasWhole(artifacts);
      assert PassingHasAllSteps(c.parse(dir[0].content));
      assert s.value.steps == STEPS;
    }
    if Passable(c, dir) {
      forall j | 0 <= j < ARTIFACTS ensures Named(artifacts, j) { assert WholeFile(dir[j], Limit(j)); }
      assert HasWhole(artifacts);
    }
    if s.Some? && s.value.passed && Complete(artifacts, s.value.steps) {
      forall j | 0 <= j < ARTIFACTS ensures WholeFile(dir[j], Limit(j)) { assert Named(artifacts, j); }
    }
  }

  /** How the loop over the names ends: `None`, or the text of the exception that stopped it. */
  ghost predicate Gathered(c: Codec, dir: Directory, n: nat, artifacts: seq<Artifact>, s: Option<Summary>, errors: seq<string>,
                           bad: bool, failure: Option<string>) {
    && Collected(c, dir, n, artifacts, s, errors, bad)
    && (failure.None? ==> n == ARTIFACTS && !bad)
    && (failure.Some? ==> !Passable(c, dir))
    && (failure.Some? && TextsGiven(c, dir) ==> failure.value != "")
  }

  lemma CollectedNone(c: Codec, dir: Directory)
    ensures Collected(c, dir, 0, [], None, [], false) && Total([]) == 0
  {
  }

  lemma NextEntry(c: Codec, dir: Directory, n: nat, used: int, raw: Bytes)
    requires n < ARTIFACTS && dir[n].Regular? && 0 <= used <= DATA_LIMIT
    requires var cap := Min(Limit(n), DATA_LIMIT - used);
             raw == dir[n].content[..if cap < 0 then 0 else Min(cap, |dir[n].content|)]
    ensures Entry(c, n, dir[n].size, raw) == Next(c, dir, n, used) && |raw| == Taken(dir, n, used)
    ensures !Next(c, dir, n, used).truncated ==> raw == dir[n].content
  {
  }

  /** What reading one name raises to `collect`: an exception it records, from the file or from a
      whole result.json that its parser rejects. */
  function Halting(c: Codec, dir: Directory, n: nat): Option<string>
    requires n < ARTIFACTS
  {
    match dir[n]
    case Stopped(text) => Some(text)
    case Regular(_, content) =>
      if n == 0 && WholeFile(dir[n], Limit(n)) && c.parse(content).Rejected? then Some(c.parse(content).text) else None
    case _ => None
  }

  /** The text of the first exception that `collect` records while it goes through the names from `n` on. */
  function Halt(c: Codec, dir: Directory, n: nat): Option<string>
    requires n <= ARTIFACTS
    decreases ARTIFACTS - n
  {
    if n == ARTIFACTS then None
    else if Halting(c, dir, n).Some? then Halting(c, dir, n)
    else Halt(c, dir, n + 1)
  }

  predicate FirstHalt(c: Codec, dir: Directory, n: nat, m: nat, text: string)
    requires m < ARTIFACTS
  {
    Halting(c, dir, m) == Some(text) && forall j | n <= j < m :: Halting(c, dir, j).None?
  }

  /** The recorded text is that of the first name that raises. */
  lemma {:induction false} HaltFirst(c: Codec, dir: Directory, n: nat, text: string)
    requires n <= ARTIFACTS
    ensures Halt(c, dir, n) == Some(text) <==> exists m | n <= m < ARTIFACTS :: FirstHalt(c, dir, n, m, text)
    decreases ARTIFACTS - n
  {
    if n < ARTIFACTS {
      HaltFirst(c, dir, n + 1, text);
      if Halting(c, dir, n) == Some(text) { assert FirstHalt(c, dir, n, n, text); }
      if m :| n <= m < ARTIFACTS && FirstHalt(c, dir, n, m, text) && m > n { assert FirstHalt(c, dir, n + 1, m, text); }
      if Halting(c, dir, n).None? && Halt(c, dir, n + 1) == Some(text) {
        var m :| n + 1 <= m < ARTIFACTS && FirstHalt(c, dir, n + 1, m, text);
        assert FirstHalt(c, dir, n, m, text);
      }
    }
  }

  lemma WholeResult(c: Codec, dir: Directory, n: nat, used: int)
    requires n < ARTIFACTS && dir[n].Regular? && 0 <= used <= DATA_LIMIT && (n == 0 ==> used == 0)
    ensures Whole(Next(c, dir, n, used)) <==> n == 0 && WholeFile(dir[n], Limit(n))
  {
  }

  /** The loop over the artifact names; `escaped` is an exception that leaves `collect`. */
  method Gather(c: Codec, dir: Directory)
    returns (ghost n: nat, artifacts: seq<Artifact>, s: Option<Summary>, errors: seq<string>, ghost bad: bool, failure: Option<string>,
             escaped: Option<string>)
    ensures escaped.None? ==> Gathered(c, dir, n, artifacts, s, errors, bad, failure)
    ensures Contained(c, dir) ==> escaped.None?
    ensures escaped.None? ==> failure == Halt(c, dir, 0)
  {
    hide WholeFile, Entries, Quotas, Covers, Held, Exact, Passable, Taken, Total, Limit;
    var used, name := 0, 0;
    CollectedNone(c, dir);
    n, artifacts, s, errors, bad, failure, escaped := 0, [], None, [], false, None, None;
    while name < ARTIFACTS
      invariant n == name <= ARTIFACTS && used == Total(artifacts) && escaped.None? && failure.None?
      invariant Collected(c, dir, name, artifacts, s, errors, false)
      invariant (name == 0 ==> used == 0) && Halt(c, dir, name) == Halt(c, dir, 0)
    {
      if dir[name].Absent? {
        AbsentStep(c, dir, name, artifacts, s, errors);
      } else if dir[name].Stopped? {
        if Passable(c, dir) { PassableStep(c, dir, name, artifacts); }
        failure, bad := Some(dir[name].text), false;
        return;
      } else if dir[name].Escapes? {
        escaped := Some(dir[name].text);
        return;
      } else {
        TotalBounded(c, dir, name, artifacts);
        var raw := ReadUpTo(dir[name].content, Min(Limit(name), DATA_LIMIT - used));
        var entry := Entry(c, name, dir[name].size, raw);
        NextEntry(c, dir, name, used, raw);
        WholeResult(c, dir, name, used);
        var parsed := if Whole(entry) then c.parse(raw) else Rejected("");
        if parsed.Crashed? {
          escaped := Some(parsed.text);
          return;
        }
        EntryStep(c, dir, name, artifacts, s, errors);
        EntriesSnoc(c, dir, name, artifacts);
        used := used + |raw|;
        artifacts := artifacts + [entry];
        if entry.truncated { errors := errors + [QUOTA]; }
        if Whole(entry) {
          if parsed.Valid? { s := Some(parsed.summary); }
          if parsed.Rejected? {
            failure, n, bad := Some(parsed.text), name + 1, true;
            return;
          }
        }
      }
      name := name + 1;
      n := name;
    }
  }

  /** The quota errors, and behind them the text of the exception that ended the collection. */
  function Recorded(errors: seq<string>, failure: Option<string>): seq<string> {
    if failure.None? then errors else errors + [failure.value[..Min(TEXT_LIMIT, |failure.value|)]]
  }

  predicate NothingEmpty(errors: seq<string>) { forall i | 0 <= i < |errors| :: errors[i] != "" }

  /** A packet built from what the loop collected, with the last failure's text behind its quota errors. */
  lemma PacketConforms(c: Codec, dir: Directory, n: nat, bad: bool, errors: seq<string>, failure: Option<string>, p: Packet)
    requires Lawful(c) && Collected(c, dir, n, p.artifacts, p.preparation, errors, bad)
    requires p.errors == Recorded(errors, failure)
    requires p.passed == (p.supervision.passed && p.preparation.Some? && p.preparation.value.passed && p.errors == [])
    requires failure.None? ==> n == ARTIFACTS && !bad && p.preparation.Some? && Complete(p.artifacts, p.preparation.value.steps)
    ensures ValidExport(c, p) <==> S.ValidSupervision(p.supervision) && NothingEmpty(p.errors)
    ensures NothingEmpty(p.errors) <==> failure != Some("")
    ensures Entries(c, dir, ARTIFACTS, p.artifacts)
    ensures p.passed <==> failure.None? && p.supervision.passed && Passable(c, dir)
    ensures p.passed ==> Complete(p.artifacts, STEPS) && !Cut(p.artifacts)
  {
    CollectedValid(c, dir, n, p.artifacts, p.preparation, errors, bad, p.errors);
    if failure.None? && errors == [] { PassingCollected(c, dir, p.artifacts, p.preparation); }
    assert failure.Some? ==> p.errors[|errors|] == failure.value[..Min(TEXT_LIMIT, |failure.value|)];
    assert forall i | 0 <= i < |errors| :: p.errors[i] == errors[i];
    assert TextsOk(p.errors) <==> NothingEmpty(p.errors) by { hide Cut, Entries, Covers, Held, Exact, Passable, Lawful, Complete; }
    hide EntriesOk, Distinct, SummaryOf, Complete, Covers, Held, Exact, Passable, Lawful, Cut, TextsOk;
  }

  /** `collect`: whatever the directory holds, the packet that leaves is one the host's
      validator accepts, unless the report or an exception text already was not one. */
  method Collect(c: Codec, report: S.Report, dir: Directory, pinned: bool) returns (r: Result<Packet>)
    requires Lawful(c)
    ensures r.Ok? ==> (ValidExport(c, r.value) <==> S.ValidSupervision(report) && NothingEmpty(r.value.errors))
    ensures r.Ok? ==> (ValidExport(c, r.value) <==>
                       S.ValidSupervision(report) && !(report.populationEmpty && report.reaped && pinned && Halt(c, dir, 0) == Some("")))
    ensures r.Ok? && S.ValidSupervision(report) && TextsGiven(c, dir) ==> ValidExport(c, r.value)
    ensures r.Ok? ==> (r.value.passed <==> S.ValidSupervision(report) && report.passed && pinned && Passable(c, dir))
    ensures r.Ok? ==> r.value.supervision == report && Entries(c, dir, ARTIFACTS, r.value.artifacts)
    ensures r.Ok? && r.value.passed ==> Complete(r.value.artifacts, STEPS) && !Cut(r.value.artifacts)
    ensures Contained(c, dir) && (forall p: Packet :: c.size(p) <= EXPORT_LIMIT) ==> r.Ok?
  {
    hide Entries, Quotas, Covers, Held, Exact, Passable, Total, Cut, EntriesOk, SummaryOf, Distinct, Complete,
        TextsGiven, Contained, Lawful;
    ghost var n, bad := 0, false;
    CollectedNone(c, dir);
    var artifacts, errors: seq<string>, s: Option<Summary>, failure: Option<string> := [], [], None, None;
    if !S.ValidSupervision(report) {
      failure := Some("contradictory supervision result");
    } else if !(report.populationEmpty && report.reaped) {
      failure := Some("cannot export while worker descendants remain");
    } else if !pinned {
      failure := Some("export directories not pinned");
    } else {
      var escaped;
      n, artifacts, s, errors, bad, failure, escaped := Gather(c, dir);
      if escaped.Some? { return Raised(escaped.value); }
      if failure.None? {
        if errors == [] { PassingCollected(c, dir, artifacts, s); }
        if s.None? {
          failure := Some("preparation summary missing");
        } else if !Complete(artifacts, s.value.steps) {
          failure := Some("completed step diagnostics missing");
        }
      }
    }
    var all := Recorded(errors, failure);
    var passed := report.passed && s.Some? && s.value.passed && all == [];
    var packet := Packet(passed, report, s, artifacts, all);
    if c.size(packet) > EXPORT_LIMIT { return Raised("serialized export limit"); }
    r := Ok(packet);
    PacketConforms(c, dir, n, bad, errors, failure, packet);
  }

  /** A directory whose result.json is refused without a text, and that holds nothing else: the packet
      that `collect` makes of it is one that its validator does not accept. */
  method CollectSilent(c: Codec, report: S.Report) returns (dir: Directory, r: Result<Packet>)
    requires Lawful(c) && S.ValidSupervision(report) && report.populationEmpty && report.reaped
    ensures dir[0] == Stopped("") && forall n | 0 < n < ARTIFACTS :: dir[n].Absent?
    ensures r.Ok? ==> !ValidExport(c, r.value)
    ensures (forall p: Packet :: c.size(p) <= EXPORT_LIMIT) ==> r.Ok?
  {
    hide Lawful, ValidExport, S.ValidSupervision, Entries, Complete, Cut, Passable;
    dir := seq(ARTIFACTS, i => if i == 0 then Stopped("") else Absent);
    r := Collect(c, report, dir, true);
  }
}
