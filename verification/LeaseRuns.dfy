/** `Lease`: one frame at a time, each extending the silence window only when
    its last byte has arrived. JSON decoding is a parameter. */
module LeaseRuns {
  import opened Base

  const MAX_FRAME: nat := 512
  const NEWLINE: Byte := 10

  datatype Action = Renew | Cancel | Unknown

  /** A decoded frame; `bound` when schema, scope, UUID, nonce and digest match the lease. */
  datatype Message = Message(bound: bool, sequence: int, action: Action)

  /** What a lease is constructed with; `parse` is None when decoding raises. */
  datatype Config = Config(parse: seq<Byte> -> Option<Message>, started: real, total: real, silence: real) {
    function Deadline(): real { started + total }
  }

  datatype State = State(sequence: int, last: real, buffer: seq<Byte>, cancelled: bool)

  function Fresh(c: Config): State { State(-1, c.started, [], false) }

  /** The clauses of `Lease.check`. */
  predicate Live(c: Config, s: State, now: real) {
    now >= s.last && !s.cancelled && now < c.Deadline() && now - s.last < c.silence
  }

  /** The first newline of the buffer, or its length. */
  function LineEnd(b: seq<Byte>): (k: nat)
    ensures k <= |b| && NEWLINE !in b[..k] && (k < |b| ==> b[k] == NEWLINE)
  {
    if b == [] || b[0] == NEWLINE then 0
    else
      assert b == [b[0]] + b[1..];
      assert forall k | 1 <= k <= |b| :: b[..k] == [b[0]] + b[1..][..k - 1];
      1 + LineEnd(b[1..])
  }

  /** A decoded line that this lease may accept next. */
  predicate Acceptable(c: Config, s: State, line: seq<Byte>) {
    match c.parse(line)
    case None => false
    case Some(m) => m.bound && m.sequence == s.sequence + 1 && m.action in {Renew, Cancel}
  }

  /** The state `feed` leaves behind, also when it raises part of the way. */
  function FeedState(c: Config, s: State, raw: seq<Byte>, now: real): State {
    if !Live(c, s, now) || raw == [] || |raw| > MAX_FRAME then s
    else
      var buffer := s.buffer + raw;
      var k := LineEnd(buffer);
      if |buffer| > MAX_FRAME || k == |buffer| || k + 1 < |buffer| then s.(buffer := buffer)
      else if !Acceptable(c, s, buffer[..k]) then s.(buffer := [])
      else State(s.sequence + 1, now, [], c.parse(buffer[..k]).value.action == Cancel)
  }

  /** Whether `feed` returns instead of raising. */
  predicate FeedOk(c: Config, s: State, raw: seq<Byte>, now: real) {
    && Live(c, s, now) && raw != [] && |raw| <= MAX_FRAME
    && |s.buffer + raw| <= MAX_FRAME
    && (var buffer := s.buffer + raw; var k := LineEnd(buffer);
        k == |buffer| || (k + 1 == |buffer| && Acceptable(c, s, buffer[..k]) && Live(c, FeedState(c, s, raw, now), now)))
  }

  class Lease {
    const config: Config
    var sequence: int
    var last: real
    var buffer: seq<Byte>
    var cancelled: bool
    /** The sequence numbers handed to the acknowledgement callback. */
    var acknowledged: seq<int>

    function Now(): State
      reads this
    {
      State(sequence, last, buffer, cancelled)
    }

    constructor (config: Config)
      ensures this.config == config && Now() == Fresh(config) && acknowledged == []
    {
      this.config := config;
      sequence, last, buffer, cancelled, acknowledged := -1, config.started, [], false, [];
    }

    method Check(now: real, requireStarted: bool) returns (r: Result<()>)
      ensures r.Ok? <==>
        now >= last && !cancelled && now < config.started + config.total && now - last < config.silence
            && (requireStarted ==> sequence >= 0)
    {
      if now < last { return Raised("monotonic clock moved backwards"); }
      if cancelled { return Raised("lease cancelled"); }
      if now >= config.Deadline() { return Raised("absolute preparation deadline"); }
      if now - last >= config.silence { return Raised("lease expired"); }
      if requireStarted && sequence < 0 { return Raised("initial lease required"); }
      return Ok(());
    }

    method Feed(raw: seq<Byte>, now: real) returns (r: Result<()>)
      requires sequence >= -1
      modifies this
      ensures Now() == FeedState(config, old(Now()), raw, now) && sequence >= -1
      ensures r.Ok? <==> FeedOk(config, old(Now()), raw, now)
      ensures acknowledged == old(acknowledged) + if r.Ok? && sequence > old(sequence) then [sequence] else []
      ensures acknowledged == old(acknowledged) + Acknowledged(config, old(Now()), [Chunk(raw, now)])
      ensures cancelled <==> old(cancelled) || CancelRead(config, old(Now()), raw, now)
      ensures cancelled ==> r.Raised?
    {
      AcknowledgedOne(config, Now(), Chunk(raw, now));
      CancelsExactly(config, Now(), raw, now);
      var live := Check(now, false);
      if live.Raised? { return live; }
      if raw == [] || |raw| > MAX_FRAME { return Raised("invalid lease read"); }
      buffer := buffer + raw;
      if |buffer| > MAX_FRAME { return Raised("lease frame limit"); }
      var k := LineEnd(buffer);
      if k == |buffer| { return Ok(()); }
      if k + 1 < |buffer| { return Raised("multiple buffered lease frames"); }
      var line := buffer[..k];
      buffer := [];
      match config.parse(line) {
        case None => return Raised("lease frame decoding");
        case Some(m) =>
          if !(m.bound && m.sequence == sequence + 1 && m.action in {Renew, Cancel}) {
            return Raised("stale/invalid lease message");
          }
          sequence, last, cancelled := m.sequence, now, m.action == Cancel;
      }
      r := Check(now, true);
      if r.Ok? { acknowledged := acknowledged + [sequence]; }
    }
  }

  /** Only a read that ends with a newline can move the lease. */
  lemma MovedByLine(c: Config, s: State, raw: seq<Byte>, now: real)
    requires FeedState(c, s, raw, now).sequence != s.sequence
    ensures 0 < |raw| <= MAX_FRAME && raw[|raw| - 1] == NEWLINE
  {
  }

  // ---- Chunked delivery ----

  datatype Chunk = Chunk(raw: seq<Byte>, at: real)

  function Bytes(chunks: seq<Chunk>): seq<Byte> {
    if chunks == [] then [] else chunks[0].raw + Bytes(chunks[1..])
  }

  /** Feeding reads one after another while `feed` returns. */
  function FeedAll(c: Config, s: State, chunks: seq<Chunk>): Option<State>
    decreases |chunks|
  {
    if chunks == [] then Some(s)
    else if FeedOk(c, s, chunks[0].raw, chunks[0].at) then FeedAll(c, FeedState(c, s, chunks[0].raw, chunks[0].at), chunks[1..])
    else None
  }

  /** Nonempty reads inside the live window of `s`, in clock order. */
  ghost predicate Timely(c: Config, s: State, chunks: seq<Chunk>) {
    && (forall i | 0 <= i < |chunks| :: chunks[i].raw != [] && Live(c, s, chunks[i].at))
    && (forall i, j | 0 <= i < j < |chunks| :: chunks[i].at <= chunks[j].at)
  }

  /** Bytes without a newline are only kept: no extension, no acceptance. */
  lemma {:induction false} PartialKeeps(c: Config, s: State, chunks: seq<Chunk>)
    requires Timely(c, s, chunks) && NEWLINE !in s.buffer + Bytes(chunks) && |s.buffer + Bytes(chunks)| <= MAX_FRAME
    ensures FeedAll(c, s, chunks) == Some(s.(buffer := s.buffer + Bytes(chunks)))
    decreases |chunks|
  {
    if chunks == [] {
      assert s.buffer + [] == s.buffer;
    } else {
      var raw := chunks[0].raw;
      var next := s.(buffer := s.buffer + raw);
      assert s.buffer + Bytes(chunks) == next.buffer + Bytes(chunks[1..]);
      assert forall b | b in next.buffer :: b in s.buffer + Bytes(chunks);
      assert FeedState(c, s, raw, chunks[0].at) == next;
      assert forall i | 0 <= i < |chunks[1..]| :: chunks[1..][i] == chunks[i + 1];
      PartialKeeps(c, next, chunks[1..]);
    }
  }

  lemma {:induction false} FeedAllSplit(c: Config, s: State, a: seq<Chunk>, b: seq<Chunk>)
    requires FeedAll(c, s, a).Some?
    ensures FeedAll(c, s, a + b) == FeedAll(c, FeedAll(c, s, a).value, b)
    decreases |a|
  {
    if a == [] {
      assert a + b == b;
    } else {
      assert (a + b)[1..] == a[1..] + b;
      FeedAllSplit(c, FeedState(c, s, a[0].raw, a[0].at), a[1..], b);
    }
  }

  lemma {:induction false} BytesSplit(a: seq<Chunk>, b: seq<Chunk>)
    ensures Bytes(a + b) == Bytes(a) + Bytes(b)
    decreases |a|
  {
    if a == [] {
      assert a + b == b;
    } else {
      assert (a + b)[1..] == a[1..] + b;
      BytesSplit(a[1..], b);
    }
  }

  /** Before the last read only a part of the line has arrived. */
  lemma HeadKeeps(c: Config, s: State, line: seq<Byte>, chunks: seq<Chunk>, i: nat)
    requires s.buffer == [] && NEWLINE !in line && |line| + 1 <= MAX_FRAME
    requires Bytes(chunks) == line + [NEWLINE] && Timely(c, s, chunks) && i < |chunks|
    ensures FeedAll(c, s, chunks[..i]) == Some(s.(buffer := Bytes(chunks[..i])))
    ensures |Bytes(chunks[..i])| <= |line| && Bytes(chunks[..i]) <= line
  {
    assert chunks == chunks[..i] + chunks[i..];
    BytesSplit(chunks[..i], chunks[i..]);
    var head, tail := Bytes(chunks[..i]), Bytes(chunks[i..]);
    assert chunks[i].raw != [] && tail == chunks[i].raw + Bytes(chunks[i..][1..]);
    assert head == (line + [NEWLINE])[..|head|];
    assert head == line[..|head|];
    assert s.buffer + head == head;
    PartialKeeps(c, s, chunks[..i]);
  }

  lemma {:induction false} LineEndAt(line: seq<Byte>)
    requires NEWLINE !in line
    ensures LineEnd(line + [NEWLINE]) == |line| && (line + [NEWLINE])[..|line|] == line
  {
    if line == [] {
      assert line + [NEWLINE] == [NEWLINE];
    } else {
      LineEndAt(line[1..]);
      assert (line + [NEWLINE])[1..] == line[1..] + [NEWLINE] && (line + [NEWLINE])[0] == line[0];
    }
  }

  lemma LastRead(c: Config, s: State, line: seq<Byte>, raw: seq<Byte>, now: real)
    requires s.buffer + raw == line + [NEWLINE] && NEWLINE !in line && |line| + 1 <= MAX_FRAME && raw != []
    requires c.silence > 0.0 && Live(c, s, now) && Acceptable(c, s, line) && c.parse(line).value.action == Renew
    ensures FeedOk(c, s, raw, now) && FeedState(c, s, raw, now) == State(s.sequence + 1, now, [], false)
  {
    LineEndAt(line);
    assert |raw| <= |s.buffer + raw|;
  }

  /** A cancel frame: it is taken, but the read that completes it raises. */
  lemma LastCancel(c: Config, s: State, line: seq<Byte>, raw: seq<Byte>, now: real)
    requires s.buffer + raw == line + [NEWLINE] && NEWLINE !in line && |line| + 1 <= MAX_FRAME && raw != []
    requires Live(c, s, now) && Acceptable(c, s, line) && c.parse(line).value.action == Cancel
    ensures !FeedOk(c, s, raw, now) && FeedState(c, s, raw, now) == State(s.sequence + 1, now, [], true)
  {
    LineEndAt(line);
    assert |raw| <= |s.buffer + raw|;
  }

  /** A frame cut into reads: all of it but the last read is kept in the buffer. */
  lemma FrameCut(c: Config, s: State, line: seq<Byte>, chunks: seq<Chunk>)
    requires s.buffer == [] && NEWLINE !in line && |line| + 1 <= MAX_FRAME
    requires Bytes(chunks) == line + [NEWLINE] && Timely(c, s, chunks)
    ensures chunks != [] && Bytes(chunks[..|chunks| - 1]) + chunks[|chunks| - 1].raw == line + [NEWLINE]
    ensures forall i | 0 <= i < |chunks| :: FeedAll(c, s, chunks[..i]) == Some(s.(buffer := Bytes(chunks[..i])))
  {
    forall i | 0 <= i < |chunks|
      ensures FeedAll(c, s, chunks[..i]) == Some(s.(buffer := Bytes(chunks[..i])))
    {
      HeadKeeps(c, s, line, chunks, i);
    }
    var n := |chunks| - 1;
    assert chunks == chunks[..n] + [chunks[n]];
    BytesSplit(chunks[..n], [chunks[n]]);
    assert [chunks[n]][1..] == [];
    assert Bytes([chunks[n]]) == chunks[n].raw + [] == chunks[n].raw;
  }

  /** However a frame is cut into reads, it is accepted exactly once, at the time
      of the last read; after every earlier read the lease is as it was. */
  lemma ChunkedFrame(c: Config, s: State, line: seq<Byte>, chunks: seq<Chunk>)
    requires s.buffer == [] && c.silence > 0.0 && NEWLINE !in line && |line| + 1 <= MAX_FRAME
    requires Acceptable(c, s, line) && c.parse(line).value.action == Renew
    requires Bytes(chunks) == line + [NEWLINE] && Timely(c, s, chunks)
    ensures chunks != [] && FeedAll(c, s, chunks) == Some(State(s.sequence + 1, chunks[|chunks| - 1].at, [], false))
    ensures forall i | 0 <= i < |chunks| :: FeedAll(c, s, chunks[..i]) == Some(s.(buffer := Bytes(chunks[..i])))
    ensures Acknowledged(c, s, chunks) == [s.sequence + 1]
  {
    FrameCut(c, s, line, chunks);
    var n := |chunks| - 1;
    var final, mid := chunks[n], s.(buffer := Bytes(chunks[..n]));
    assert chunks == chunks[..n] + [final];
    FeedAllSplit(c, s, chunks[..n], [final]);
    LastRead(c, mid, line, final.raw, final.at);
    NotAcknowledged(c, s, chunks[..n], [final], mid);
    AcknowledgedOne(c, mid, final);
  }

  /** However a cancel frame is cut into reads, the last read raises, nothing is acknowledged, and the
      lease is cancelled. */
  lemma ChunkedCancel(c: Config, s: State, line: seq<Byte>, chunks: seq<Chunk>)
    requires s.buffer == [] && NEWLINE !in line && |line| + 1 <= MAX_FRAME
    requires Acceptable(c, s, line) && c.parse(line).value.action == Cancel
    requires Bytes(chunks) == line + [NEWLINE] && Timely(c, s, chunks)
    ensures chunks != [] && FeedAll(c, s, chunks) == None && Acknowledged(c, s, chunks) == []
    ensures forall i | 0 <= i < |chunks| :: FeedAll(c, s, chunks[..i]) == Some(s.(buffer := Bytes(chunks[..i])))
    ensures Final(c, s, chunks) == State(s.sequence + 1, chunks[|chunks| - 1].at, [], true)
  {
    FrameCut(c, s, line, chunks);
    var n := |chunks| - 1;
    var final, mid := chunks[n], s.(buffer := Bytes(chunks[..n]));
    assert chunks == chunks[..n] + [final];
    FeedAllSplit(c, s, chunks[..n], [final]);
    LastCancel(c, mid, line, final.raw, final.at);
    FedFinal(c, s, chunks[..n]);
    FinalSplit(c, s, chunks[..n], [final]);
    FinalOne(c, mid, final);
    NotAcknowledged(c, s, chunks[..n], [final], mid);
    AcknowledgedOne(c, mid, final);
  }

  /** Whatever a cancelled lease reads later, it acknowledges nothing more and no check passes. */
  lemma CancelledForGood(c: Config, s: State, input: seq<Chunk>, later: seq<Chunk>, now: real)
    requires Final(c, s, input).cancelled
    ensures Final(c, s, input + later) == Final(c, s, input) && !Live(c, Final(c, s, input + later), now)
    ensures Acknowledged(c, s, input + later) == Acknowledged(c, s, input)
  {
    FinalSplit(c, s, input, later);
    CancelPermanent(c, Final(c, s, input), later);
    AcknowledgedSplit(c, s, input, later);
    NeverAcknowledged(c, Final(c, s, input), later);
  }

  // ---- Whole runs ----

  /** Reads of arbitrary bytes at arbitrary times, whether or not `feed` raises. */
  function Final(c: Config, s: State, input: seq<Chunk>): State
    decreases |input|
  {
    if input == [] then s else Final(c, FeedState(c, s, input[0].raw, input[0].at), input[1..])
  }

  /** The sequence numbers that a run of `feed` calls acknowledges. */
  function Acknowledged(c: Config, s: State, input: seq<Chunk>): seq<int>
    decreases |input|
  {
    if input == [] then []
    else
      var n := FeedState(c, s, input[0].raw, input[0].at);
      (if FeedOk(c, s, input[0].raw, input[0].at) && n.sequence > s.sequence then [n.sequence] else []) + Acknowledged(c, n, input[1..])
  }

  lemma AcknowledgedOne(c: Config, s: State, read: Chunk)
    ensures Acknowledged(c, s, [read]) ==
      if FeedOk(c, s, read.raw, read.at) && FeedState(c, s, read.raw, read.at).sequence > s.sequence
      then [FeedState(c, s, read.raw, read.at).sequence] else []
  {
    assert [read][1..] == [];
  }

  /** Reads that leave the sequence as it is acknowledge nothing. */
  lemma {:induction false} NotAcknowledged(c: Config, s: State, a: seq<Chunk>, b: seq<Chunk>, t: State)
    requires FeedAll(c, s, a) == Some(t) && t.sequence == s.sequence
    ensures Acknowledged(c, s, a + b) == Acknowledged(c, t, b)
    decreases |a|
  {
    if a == [] {
      assert a + b == b;
    } else {
      var n := FeedState(c, s, a[0].raw, a[0].at);
      assert FeedOk(c, s, a[0].raw, a[0].at) && FeedAll(c, n, a[1..]) == Some(t);
      FedFinal(c, n, a[1..]);
      RunCounts(c, n, a[1..]);
      FeedCounts(c, s, a[0].raw, a[0].at);
      assert (a + b)[1..] == a[1..] + b;
      hide FeedState, FeedOk;
      NotAcknowledged(c, n, a[1..], b, t);
    }
  }

  lemma {:induction false} AcknowledgedSplit(c: Config, s: State, a: seq<Chunk>, b: seq<Chunk>)
    ensures Acknowledged(c, s, a + b) == Acknowledged(c, s, a) + Acknowledged(c, Final(c, s, a), b)
    decreases |a|
  {
    if a == [] {
      assert a + b == b;
    } else {
      assert (a + b)[1..] == a[1..] + b;
      hide FeedState, FeedOk;
      AcknowledgedSplit(c, FeedState(c, s, a[0].raw, a[0].at), a[1..], b);
    }
  }

  lemma {:induction false} NeverAcknowledged(c: Config, s: State, input: seq<Chunk>)
    requires s.cancelled
    ensures Acknowledged(c, s, input) == []
    decreases |input|
  {
    if input != [] {
      FeedCounts(c, s, input[0].raw, input[0].at);
      NeverAcknowledged(c, s, input[1..]);
    }
  }

  lemma {:induction false} FedFinal(c: Config, s: State, input: seq<Chunk>)
    requires FeedAll(c, s, input).Some?
    ensures Final(c, s, input) == FeedAll(c, s, input).value
    decreases |input|
  {
    if input != [] { FedFinal(c, FeedState(c, s, input[0].raw, input[0].at), input[1..]); }
  }

  lemma {:induction false} FinalSplit(c: Config, s: State, a: seq<Chunk>, b: seq<Chunk>)
    ensures Final(c, s, a + b) == Final(c, Final(c, s, a), b)
    decreases |a|
  {
    if a == [] {
      assert a + b == b;
    } else {
      assert (a + b)[1..] == a[1..] + b;
      FinalSplit(c, FeedState(c, s, a[0].raw, a[0].at), a[1..], b);
    }
  }

  lemma FinalOne(c: Config, s: State, read: Chunk)
    ensures Final(c, s, [read]) == FeedState(c, s, read.raw, read.at)
  {
    assert [read][1..] == [];
  }

  /** A read completes a whole cancel frame that the lease is to accept next. */
  predicate CancelRead(c: Config, s: State, raw: seq<Byte>, now: real) {
    var b := s.buffer + raw;
    && Live(c, s, now) && 0 < |raw| <= MAX_FRAME && |b| <= MAX_FRAME && b[|b| - 1] == NEWLINE && NEWLINE !in b[..|b| - 1]
    && Acceptable(c, s, b[..|b| - 1]) && c.parse(b[..|b| - 1]).value.action == Cancel
  }

  predicate ReadsCancel(c: Config, s: State, input: seq<Chunk>, i: nat)
    requires i < |input|
  {
    CancelRead(c, Final(c, s, input[..i]), input[i].raw, input[i].at)
  }

  lemma CancelsExactly(c: Config, s: State, raw: seq<Byte>, now: real)
    ensures FeedState(c, s, raw, now).cancelled <==> s.cancelled || CancelRead(c, s, raw, now)
  {
    var b := s.buffer + raw;
    if b != [] && b[|b| - 1] == NEWLINE && NEWLINE !in b[..|b| - 1] {
      LineEndAt(b[..|b| - 1]);
      assert b == b[..|b| - 1] + [NEWLINE];
    }
  }

  /** A run ends cancelled exactly if one of its reads completed an acceptable cancel frame. */
  lemma {:induction false} CancelledExactly(c: Config, s: State, input: seq<Chunk>)
    ensures Final(c, s, input).cancelled <==> s.cancelled || exists i :: 0 <= i < |input| && ReadsCancel(c, s, input, i)
    decreases |input|
  {
    if input != [] {
      var n, rest := FeedState(c, s, input[0].raw, input[0].at), input[1..];
      CancelsExactly(c, s, input[0].raw, input[0].at);
      CancelledExactly(c, n, rest);
      hide CancelRead, FeedState;
      assert input[..0] == [];
      forall i | 0 < i < |input| ensures ReadsCancel(c, s, input, i) <==> ReadsCancel(c, n, rest, i - 1) {
        assert input[..i][1..] == rest[..i - 1];
      }
      if Final(c, n, rest).cancelled && !n.cancelled {
        var i :| 0 <= i < |rest| && ReadsCancel(c, n, rest, i);
        assert ReadsCancel(c, s, input, i + 1);
      }
      if s.cancelled || ReadsCancel(c, s, input, 0) { assert n.cancelled; }
    }
  }

  /** The accepted sequence numbers of a run with the times of acceptance. */
  function Accepted(c: Config, s: State, input: seq<Chunk>): seq<(int, real)>
    decreases |input|
  {
    if input == [] then []
    else
      var n := FeedState(c, s, input[0].raw, input[0].at);
      (if n.sequence != s.sequence then [(n.sequence, input[0].at)] else []) + Accepted(c, n, input[1..])
  }

  /** What a history `h` of acceptances says about a run from `s` to `f`: the numbers
      count up by one, the silence window starts at the last acceptance, and
      acceptance times do not go back. */
  ghost predicate Counted(s: State, f: State, h: seq<(int, real)>) {
    && f.sequence == s.sequence + |h|
    && (forall i | 0 <= i < |h| :: h[i].0 == s.sequence + 1 + i)
    && (forall i | 0 <= i < |h| :: s.last <= h[i].1 <= f.last)
    && f.last == (if h == [] then s.last else h[|h| - 1].1)
  }

  /** One read: nothing that matters changes, or the next number is accepted now. */
  ghost predicate Counts(s: State, n: State, now: real) {
    (n.sequence == s.sequence && n.last == s.last) || (n.sequence == s.sequence + 1 && n.last == now && now >= s.last)
  }

  lemma FeedCounts(c: Config, s: State, raw: seq<Byte>, now: real)
    ensures Counts(s, FeedState(c, s, raw, now), now) && (s.cancelled ==> FeedState(c, s, raw, now) == s)
  {
  }

  lemma CountOneMore(s: State, n: State, f: State, now: real, rest: seq<(int, real)>)
    requires Counts(s, n, now) && Counted(n, f, rest)
    ensures Counted(s, f, (if n.sequence != s.sequence then [(n.sequence, now)] else []) + rest)
  {
  }

  lemma {:induction false} RunCounts(c: Config, s: State, input: seq<Chunk>)
    ensures Counted(s, Final(c, s, input), Accepted(c, s, input))
    decreases |input|
  {
    if input != [] {
      var n := FeedState(c, s, input[0].raw, input[0].at);
      FeedCounts(c, s, input[0].raw, input[0].at);
      RunCounts(c, n, input[1..]);
      CountOneMore(s, n, Final(c, n, input[1..]), input[0].at, Accepted(c, n, input[1..]));
    }
  }

  /** A cancelled lease never accepts again. */
  lemma {:induction false} CancelPermanent(c: Config, s: State, input: seq<Chunk>)
    requires s.cancelled
    ensures Final(c, s, input) == s && Accepted(c, s, input) == []
    decreases |input|
  {
    if input != [] {
      CancelPermanent(c, s, input[1..]);
    }
  }

  /** A check that passes at `now`, after any run of a fresh lease, bounds both
      the total window and the time since the last acceptance. */
  lemma PassingCheck(c: Config, input: seq<Chunk>, now: real)
    requires Live(c, Final(c, Fresh(c), input), now)
    ensures var h := Accepted(c, Fresh(c), input);
      && now < c.started + c.total
      && now - (if h == [] then c.started else h[|h| - 1].1) < c.silence
      && (forall i | 0 <= i < |h| :: h[i].0 == i && c.started <= h[i].1 <= now)
      && !Final(c, Fresh(c), input).cancelled
  {
    RunCounts(c, Fresh(c), input);
  }
}
