/** The 1024-byte mailbox slot: its codec, and what a reader can get from a slot
    that is being overwritten. SHA-256 is a parameter with 32-byte results. */
module Mailbox {
  import opened Base
  import LeaseRuns

  const SLOT_BYTES: nat := 1024
  const MAGIC: seq<Byte> := [0x49, 0x35, 0x4D, 0x31]

  type Bytes = seq<Byte>
  type Hash = Bytes -> Bytes

  ghost predicate Digest(h: Hash) {
    forall b: Bytes {:trigger h(b)} :: |h(b)| == 32
  }

  function Zeros(n: nat): (z: Bytes)
    ensures |z| == n && forall i | 0 <= i < n :: z[i] == 0
  {
    seq(n, _ => 0)
  }

  function BigEndian(n: nat): (b: Bytes)
    requires n < 0x1_0000_0000
    ensures |b| == 4
  {
    [n / 0x100_0000, n / 0x1_0000 % 256, n / 0x100 % 256, n % 256]
  }

  function FromBigEndian(b: Bytes): (n: nat)
    requires |b| == 4
    ensures n < 0x1_0000_0000
  {
    b[0] as nat * 0x100_0000 + b[1] as nat * 0x1_0000 + b[2] as nat * 0x100 + b[3] as nat
  }

  lemma SizeRoundTrip(n: nat)
    requires n < 0x1_0000_0000
    ensures FromBigEndian(BigEndian(n)) == n
  {
    var a, c := n / 0x100, n / 0x1_0000;
    assert n / 0x100_0000 == c / 0x100 && a / 0x100 == c;
    assert n == a * 0x100 + n % 0x100 && a == c * 0x100 + a % 0x100 && c == c / 0x100 * 0x100 + c % 0x100;
  }

  lemma SizeBytes(b: Bytes)
    requires |b| == 4
    ensures BigEndian(FromBigEndian(b)) == b
  {
    var n := FromBigEndian(b);
    var c := b[0] as nat * 0x100 + b[1] as nat;
    var a := c * 0x100 + b[2] as nat;
    assert n == a * 0x100 + b[3] as nat;
    assert n / 0x100 == a && n % 0x100 == b[3];
    assert a / 0x100 == c && a % 0x100 == b[2];
    assert n / 0x1_0000 == c && n / 0x100_0000 == b[0];
  }

  predicate LegalFrame(frame: Bytes) { 0 < |frame| <= LeaseRuns.MAX_FRAME }

  function PackSlot(h: Hash, frame: Bytes): (r: Result<Bytes>)
    requires Digest(h)
    ensures r.Ok? <==> LegalFrame(frame)
    ensures r.Ok? ==> |r.value| == SLOT_BYTES
  {
    if !LegalFrame(frame) then Raised("mailbox frame size") else Ok(Packed(h, frame))
  }

  function Packed(h: Hash, frame: Bytes): (raw: Bytes)
    requires Digest(h) && LegalFrame(frame)
    ensures |raw| == SLOT_BYTES
  {
    var prefix := MAGIC + BigEndian(|frame|) + h(frame) + frame;
    prefix + Zeros(SLOT_BYTES - |prefix|)
  }

  /** None is "no frame yet"; a wrong slot size is the only error. */
  function UnpackSlot(h: Hash, raw: Bytes): Result<Option<Bytes>>
    requires Digest(h)
  {
    if |raw| != SLOT_BYTES then Raised("mailbox size") else Ok(Unpacked(h, raw))
  }

  function Unpacked(h: Hash, raw: Bytes): Option<Bytes>
    requires Digest(h) && |raw| == SLOT_BYTES
  {
    if raw == Zeros(SLOT_BYTES) then None
    else
      var size := FromBigEndian(raw[4..8]);
      if raw[..4] != MAGIC || !(0 < size <= LeaseRuns.MAX_FRAME) then None
      else
        var frame := raw[40..40 + size];
        if raw[8..40] != h(frame) || exists i | 40 + size <= i < SLOT_BYTES :: raw[i] != 0 then None else Some(frame)
  }

  // ---- The codec ----

  lemma PackedLayout(h: Hash, frame: Bytes)
    requires Digest(h) && LegalFrame(frame)
    ensures var raw := Packed(h, frame);
      && raw[..4] == MAGIC && raw[4..8] == BigEndian(|frame|) && raw[8..40] == h(frame) && raw[40..40 + |frame|] == frame
      && forall i | 40 + |frame| <= i < SLOT_BYTES :: raw[i] == 0
  {
  }

  lemma LayoutPacked(h: Hash, frame: Bytes, raw: Bytes)
    requires Digest(h) && LegalFrame(frame) && |raw| == SLOT_BYTES
    requires raw[..4] == MAGIC && raw[4..8] == BigEndian(|frame|) && raw[8..40] == h(frame) && raw[40..40 + |frame|] == frame
    requires forall i | 40 + |frame| <= i < SLOT_BYTES :: raw[i] == 0
    ensures raw == Packed(h, frame)
  {
  }

  /** Unpacking a packed frame gives the frame back. */
  lemma PackUnpack(h: Hash, frame: Bytes)
    requires Digest(h) && LegalFrame(frame)
    ensures UnpackSlot(h, PackSlot(h, frame).value) == Ok(Some(frame))
  {
    var raw := Packed(h, frame);
    PackedLayout(h, frame);
    SizeRoundTrip(|frame|);
    assert raw[0] == MAGIC[0] != 0;
  }

  /** A slot that yields a frame is, byte for byte, the packing of that frame. */
  lemma UnpackPack(h: Hash, raw: Bytes, frame: Bytes)
    requires Digest(h) && UnpackSlot(h, raw) == Ok(Some(frame))
    ensures PackSlot(h, frame) == Ok(raw)
  {
    SizeBytes(raw[4..8]);
    LayoutPacked(h, frame, raw);
  }

  // ---- Torn overwrites ----

  /** The slot after the first `k` bytes of `after` replaced those of `before`. */
  function Torn(before: Bytes, after: Bytes, k: nat): (raw: Bytes)
    requires |before| == |after| == SLOT_BYTES && k <= SLOT_BYTES
    ensures |raw| == SLOT_BYTES
  {
    after[..k] + before[k..]
  }

  /** No other short frame has the digest of `frame`. */
  ghost predicate NoCollision(h: Hash, frame: Bytes) {
    forall b: Bytes {:trigger h(b)} | LegalFrame(b) && h(b) == h(frame) :: b == frame
  }

  /** One JSON line; what `Lease.feed` does not reject as several buffered frames. */
  predicate Line(frame: Bytes) {
    LegalFrame(frame) && frame[|frame| - 1] == LeaseRuns.NEWLINE
  }

  lemma TornBytes(before: Bytes, after: Bytes, k: nat)
    requires |before| == |after| == SLOT_BYTES && k <= SLOT_BYTES
    ensures forall i | 0 <= i < SLOT_BYTES :: Torn(before, after, k)[i] == if i < k then after[i] else before[i]
  {
  }

  /** What a decoded frame says about the slot it came from. */
  lemma UnpackedBytes(h: Hash, raw: Bytes, f: Bytes)
    requires Digest(h) && |raw| == SLOT_BYTES && Unpacked(h, raw) == Some(f)
    ensures LegalFrame(f) && raw[4..8] == BigEndian(|f|) && raw[8..40] == h(f)
    ensures forall i | 0 <= i < |f| :: raw[40 + i] == f[i]
    ensures forall i | 40 + |f| <= i < SLOT_BYTES :: raw[i] == 0
  {
  }

  /** Two lines in the same zero-padded area are the same line. */
  lemma SamePayload(raw: Bytes, f: Bytes, g: Bytes)
    requires |raw| == SLOT_BYTES && Line(f) && LegalFrame(g) && g[|g| - 1] != 0
    requires forall i | 0 <= i < |f| :: raw[40 + i] == f[i]
    requires forall i | 40 + |f| <= i < SLOT_BYTES :: raw[i] == 0
    requires forall i | 0 <= i < |g| :: raw[40 + i] == g[i]
    requires forall i | 40 + |g| <= i < SLOT_BYTES :: raw[i] == 0
    ensures f == g
  {
  }

  lemma PackedBytes(h: Hash, frame: Bytes)
    requires Digest(h) && LegalFrame(frame)
    ensures Packed(h, frame)[8..40] == h(frame)
    ensures forall i | 0 <= i < |frame| :: Packed(h, frame)[40 + i] == frame[i]
    ensures forall i | 40 + |frame| <= i < SLOT_BYTES :: Packed(h, frame)[i] == 0
  {
  }

  /** A slot torn between two lines decodes to nothing, to one of the two lines, or
      to bytes that are not a line: no renewal that nobody sent. */
  lemma TornRenewal(h: Hash, prior: Bytes, next: Bytes, k: nat, f: Bytes)
    requires Digest(h) && Line(prior) && Line(next) && k <= SLOT_BYTES
    requires NoCollision(h, prior) && NoCollision(h, next)
    requires Unpacked(h, Torn(Packed(h, prior), Packed(h, next), k)) == Some(f) && Line(f)
    ensures f == prior || f == next
  {
    hide Packed, Unpacked, Torn;
    var a, b := Packed(h, prior), Packed(h, next);
    var raw := Torn(a, b, k);
    TornBytes(a, b, k);
    UnpackedBytes(h, raw, f);
    PackedBytes(h, prior);
    PackedBytes(h, next);
    if k <= 8 {
      assert raw[8..40] == a[8..40];
    } else if k >= 40 {
      assert raw[8..40] == b[8..40];
    } else {
      assert forall i | 40 <= i < SLOT_BYTES :: raw[i] == a[i];
      SamePayload(raw, f, prior);
    }
  }

  /** The same for the first write over a blank slot. */
  lemma TornFirst(h: Hash, next: Bytes, k: nat, f: Bytes)
    requires Digest(h) && Line(next) && k <= SLOT_BYTES && NoCollision(h, next)
    requires Unpacked(h, Torn(Zeros(SLOT_BYTES), Packed(h, next), k)) == Some(f) && Line(f)
    ensures f == next
  {
    var b := Packed(h, next);
    var raw := Torn(Zeros(SLOT_BYTES), b, k);
    TornBytes(Zeros(SLOT_BYTES), b, k);
    UnpackedBytes(h, raw, f);
    PackedBytes(h, next);
    assert raw[40 + |f| - 1] == LeaseRuns.NEWLINE;
    assert k >= 40;
    assert raw[8..40] == b[8..40];
  }

  /** So a lease that is fed what the slot yields moves only for a line that was written. */
  lemma TornFeed(h: Hash, prior: Bytes, next: Bytes, k: nat, f: Bytes, c: LeaseRuns.Config, s: LeaseRuns.State, now: real)
    requires Digest(h) && Line(prior) && Line(next) && k <= SLOT_BYTES
    requires NoCollision(h, prior) && NoCollision(h, next)
    requires UnpackSlot(h, Torn(Packed(h, prior), Packed(h, next), k)) == Ok(Some(f))
    requires LeaseRuns.FeedState(c, s, f, now).sequence != s.sequence
    ensures f == prior || f == next
  {
    LeaseRuns.MovedByLine(c, s, f, now);
    TornRenewal(h, prior, next, k, f);
  }

  /** What a reader gets once it has seen anything but the old slot stays away from
      the old slot, and once it has seen the new slot stays the new slot. */
  lemma TornMonotone(before: Bytes, after: Bytes, j: nat, k: nat)
    requires |before| == |after| == SLOT_BYTES && j <= k <= SLOT_BYTES
    ensures Torn(before, after, j) != before ==> Torn(before, after, k) != before
    ensures Torn(before, after, j) == after ==> Torn(before, after, k) == after
  {
  }

  // ---- The reader ----

  /** `GuestMailbox`: it remembers the slot of the last frame that it gave. */
  class GuestMailbox {
    const hash: Hash
    var previous: Bytes
    ghost var given: seq<Bytes>

    ghost predicate Valid()
      reads this
    {
      && Digest(hash)
      && (if given == [] then previous == Zeros(SLOT_BYTES)
          else LegalFrame(given[|given| - 1]) && previous == Packed(hash, given[|given| - 1]))
    }

    constructor (h: Hash)
      requires Digest(h)
      ensures Valid() && hash == h && given == []
    {
      hash, previous, given := h, Zeros(SLOT_BYTES), [];
    }

    /** `read_pending`: a frame is given exactly if the slot holds its packing and it is
        not the frame given last. A slot without a frame changes nothing. */
    method ReadPending(raw: Bytes) returns (r: Result<Option<Bytes>>)
      requires Valid()
      modifies this
      ensures Valid() && (r.Raised? <==> |raw| != SLOT_BYTES)
      ensures forall f | LegalFrame(f) ::
                r == Ok(Some(f)) <==> raw == Packed(hash, f) && (old(given) == [] || f != old(given)[|old(given)| - 1])
      ensures given == if r.Ok? && r.value.Some? then old(given) + [r.value.value] else old(given)
      ensures r.Ok? && r.value.Some? ==> LegalFrame(r.value.value)
    {
      if |raw| != SLOT_BYTES { return Raised("mailbox short/oversized read"); }
      hide Unpacked, Packed;
      forall f | LegalFrame(f) && raw == Packed(hash, f) ensures Unpacked(hash, raw) == Some(f) { PackUnpack(hash, f); }
      if raw == previous {
        if given == [] { NoFrame(hash); }
        return Ok(None);
      }
      var frame := Unpacked(hash, raw);
      if frame.None? { return Ok(None); }
      UnpackPack(hash, raw, frame.value);
      previous, given := raw, given + [frame.value];
      r := Ok(frame);
    }
  }

  lemma NoFrame(h: Hash)
    requires Digest(h)
    ensures Unpacked(h, Zeros(SLOT_BYTES)).None?
  {
  }
}
