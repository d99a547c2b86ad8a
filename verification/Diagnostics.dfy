/** Diagnostic texts and their size on the wire: `channels.encode` writes JSON with
    ASCII escapes and a newline, and `bounded_text` cuts a text to a byte limit. */
module Diagnostics {
  import opened Base

  const SUFFIX: string := " [truncated]"
  const FALLBACK: string := "lifecycle failed"
  const FIRST_ERROR_BYTES: nat := 1536
  const CLEANUP_BYTES: nat := 768
  const ENTRY_BYTES: nat := CLEANUP_BYTES / 2

  /** Bytes of one code point under `json.dumps(ensure_ascii=True)`. */
  function Cost(c: char): nat {
    if c in {'"', '\\', '\n', '\r', '\t', '\U{8}', '\U{C}'} then 2
    else if ' ' <= c <= '~' then 1
    else if c as int < 0x10000 then 6
    else 12
  }

  function Escaped(t: string): nat {
    if t == "" then 0 else Cost(t[0]) + Escaped(t[1..])
  }

  /** Length of `encode(text)`: two quotes and the final newline around the escapes. */
  function EncodedText(t: string): nat { Escaped(t) + 3 }

  function Elements(l: seq<string>): nat {
    if l == [] then 0 else Escaped(l[0]) + 2 + (if |l| > 1 then 1 else 0) + Elements(l[1..])
  }

  /** Length of `encode(list)`: brackets, commas and the final newline. */
  function EncodedList(l: seq<string>): nat { Elements(l) + 3 }

  predicate EndsTruncated(t: string) { |t| >= |SUFFIX| && t[|t| - |SUFFIX|..] == SUFFIX }

  // ---- bounded_text ----

  predicate Fits(text: string, limit: nat, k: nat)
    requires k <= |text|
  {
    EncodedText(text[..k] + SUFFIX) <= limit
  }

  /** The longest prefix up to `k` that fits with the suffix, else the empty one. */
  function Cut(text: string, limit: nat, k: nat): (r: nat)
    requires k <= |text|
    ensures r <= k && (r == 0 || Fits(text, limit, r))
    ensures forall j | r < j <= k :: !Fits(text, limit, j)
  {
    if k == 0 || Fits(text, limit, k) then k else Cut(text, limit, k - 1)
  }

  function Bounded(text: string, limit: nat): (string, bool) {
    if EncodedText(text) <= limit then (text, false)
    else (text[..Cut(text, limit, |text|)] + SUFFIX, true)
  }

  method BoundedText(text: string, limit: nat) returns (r: string, truncated: bool)
    ensures (r, truncated) == Bounded(text, limit)
  {
    if EncodedText(text) <= limit { return text, false; }
    var low, high := 0, |text|;
    while low < high
      invariant 0 <= low <= high <= |text|
      invariant low == 0 || Fits(text, limit, low)
      invariant forall j | high < j <= |text| :: !Fits(text, limit, j)
    {
      var middle := (low + high + 1) / 2;
      if EncodedText(text[..middle] + SUFFIX) <= limit {
        low := middle;
      } else {
        forall j | middle < j <= |text| ensures !Fits(text, limit, j) { FitsShorter(text, limit, middle, j); }
        high := middle - 1;
      }
    }
    return text[..low] + SUFFIX, true;
  }

  lemma {:induction false} EscapedSplit(a: string, b: string)
    ensures Escaped(a + b) == Escaped(a) + Escaped(b)
    decreases |a|
  {
    if a == "" {
      assert a + b == b;
    } else {
      assert (a + b)[1..] == a[1..] + b;
      EscapedSplit(a[1..], b);
    }
  }

  lemma {:induction false} EscapedAtLeast(t: string)
    ensures Escaped(t) >= |t|
    decreases |t|
  {
    if t != "" { EscapedAtLeast(t[1..]); }
  }

  /** A longer prefix costs strictly more, so the binary search is sound. */
  lemma FitsShorter(text: string, limit: nat, j: nat, k: nat)
    requires j <= k <= |text|
    ensures Fits(text, limit, k) ==> Fits(text, limit, j)
    ensures Escaped(text[..j]) + (k - j) <= Escaped(text[..k])
  {
    assert text[..k] == text[..j] + text[j..k];
    EscapedSplit(text[..j], text[j..k]);
    EscapedAtLeast(text[j..k]);
    EscapedSplit(text[..j], SUFFIX);
    EscapedSplit(text[..k], SUFFIX);
  }

  lemma SuffixCost()
    ensures Escaped(SUFFIX) == 12 && |SUFFIX| == 12
  {
  }

  lemma CutText(text: string, limit: nat, k: nat)
    requires k <= |text|
    ensures var r := text[..k] + SUFFIX;
      EndsTruncated(r) && |r| == k + 12 && r[..k] == text[..k] && EncodedText(r) == Escaped(text[..k]) + 15
          && (k == 0 ==> EncodedText(r) == 15)
  {
    SuffixCost();
    EscapedSplit(text[..k], SUFFIX);
    var r := text[..k] + SUFFIX;
    assert r[k..] == SUFFIX;
  }

  /** The result fits exactly when the text did or the bare suffix does; a cut
      result is a prefix with the suffix, and no longer prefix would fit. */
  lemma BoundedLongest(text: string, limit: nat)
    ensures var (r, truncated) := Bounded(text, limit);
      && (EncodedText(r) <= limit <==> EncodedText(text) <= limit || limit >= 15)
      && (truncated <==> EncodedText(text) > limit)
      && (!truncated ==> r == text)
      && (truncated ==> EndsTruncated(r) && r[..|r| - 12] <= text
                        && (forall j | |r| - 12 < j <= |text| :: !Fits(text, limit, j)))
      && (truncated && text != "" ==> |r| - 12 < |text|)
  {
    hide Escaped;
    if EncodedText(text) > limit {
      var k := Cut(text, limit, |text|);
      CutText(text, limit, k);
      CutText(text, limit, 0);
      CutText(text, limit, |text|);
      assert text[..|text|] == text;
      assert |text[..k] + SUFFIX| - 12 == k;
      assert forall j | k < j <= |text| :: !Fits(text, limit, j);
    }
  }

  // ---- The owner's two error lists ----

  /** First failure, cleanup list and their flags, as in `_Owner.facts`. */
  datatype Errors = Errors(first: Option<string>, firstTruncated: bool, cleanup: seq<string>, cleanupTruncated: bool, sessionsReaped: bool)

  const CLEAN: Errors := Errors(None, false, [], false, true)

  function Failed(e: Errors, reason: string): Errors {
    if e.first.Some? then e
    else
      var (text, truncated) := Bounded(reason, FIRST_ERROR_BYTES);
      e.(first := Some(if text == "" then FALLBACK else text), firstTruncated := truncated || EndsTruncated(text))
  }

  function CleanupFailed(e: Errors, reason: string): Errors {
    var f := Failed(e, reason);
    var (text, truncated) := Bounded(reason, ENTRY_BYTES);
    var kept := |f.cleanup| < 16 && EncodedList(f.cleanup + [text]) <= CLEANUP_BYTES;
    f.(sessionsReaped := false, cleanup := if kept then f.cleanup + [text] else f.cleanup,
       cleanupTruncated := f.cleanupTruncated || truncated || !kept || EndsTruncated(text))
  }

  /** The clauses `validate_lifecycle` has about the two lists. */
  predicate WithinLimits(e: Errors) {
    && (e.first.Some? ==> 0 < |e.first.value| <= 2048 && EncodedText(e.first.value) <= FIRST_ERROR_BYTES)
    && (e.firstTruncated ==> e.first.Some? && EndsTruncated(e.first.value))
    && |e.cleanup| <= 16 && EncodedList(e.cleanup) <= CLEANUP_BYTES
    && (forall i | 0 <= i < |e.cleanup| :: |e.cleanup[i]| <= 2048)
    && e.sessionsReaped == (e.cleanup == [] && !e.cleanupTruncated)
    && (!e.sessionsReaped ==> e.first.Some?)
  }

  lemma FailedWithin(e: Errors, reason: string)
    requires WithinLimits(e)
    ensures WithinLimits(Failed(e, reason)) && Failed(e, reason).first.Some?
    ensures e.first.Some? ==> Failed(e, reason) == e
  {
    BoundedLongest(reason, FIRST_ERROR_BYTES);
    EscapedAtLeast(Bounded(reason, FIRST_ERROR_BYTES).0);
    EscapedAtMost(FALLBACK);
  }

  lemma {:induction false} EscapedAtMost(t: string)
    ensures Escaped(t) <= 12 * |t|
    decreases |t|
  {
    if t != "" { EscapedAtMost(t[1..]); }
  }

  lemma {:induction false} ElementShort(l: seq<string>, i: nat)
    requires i < |l|
    ensures |l[i]| <= Elements(l)
    decreases |l|
  {
    EscapedAtLeast(l[0]);
    if i > 0 { ElementShort(l[1..], i - 1); }
  }

  lemma CleanupWithin(e: Errors, reason: string)
    requires WithinLimits(e)
    ensures var n := CleanupFailed(e, reason);
      WithinLimits(n) && n.first.Some? && !n.sessionsReaped && (reason != "" && "" !in e.cleanup ==> "" !in n.cleanup)
  {
    FailedWithin(e, reason);
    BoundedLongest(reason, ENTRY_BYTES);
    var n := CleanupFailed(e, reason);
    forall i | 0 <= i < |n.cleanup| ensures |n.cleanup[i]| <= 2048 { ElementShort(n.cleanup, i); }
  }

  /** What is recorded is what was reported: a first reason that fits is kept as it is, a longer one as its
      longest prefix that fits, and a cleanup error likewise while the list has room. */
  lemma Kept(e: Errors, reason: string)
    requires reason != ""
    ensures var f := Failed(e, reason);
      e.first.None? ==> f.first.Some? && (if EncodedText(reason) <= FIRST_ERROR_BYTES then f.first == Some(reason)
                                          else f.firstTruncated && f.first.value[..|f.first.value| - 12] <= reason)
    ensures var n := CleanupFailed(e, reason);
      && e.cleanup <= n.cleanup && |n.cleanup| <= |e.cleanup| + 1 && n.first == Failed(e, reason).first
      && (EncodedText(reason) <= ENTRY_BYTES && |e.cleanup| < 16 && EncodedList(e.cleanup + [reason]) <= CLEANUP_BYTES ==>
            n.cleanup == e.cleanup + [reason])
      && (n.cleanup == e.cleanup || EncodedText(reason) > ENTRY_BYTES ==> n.cleanupTruncated)
  {
    BoundedLongest(reason, FIRST_ERROR_BYTES);
    BoundedLongest(reason, ENTRY_BYTES);
    hide EncodedText, EncodedList;
  }

  /** One call of `fail` or of `cleanup_error`. */
  datatype Call = Fail(reason: string) | CleanupError(reason: string)

  function After(e: Errors, calls: seq<Call>): Errors
    decreases |calls|
  {
    if calls == [] then e
    else After(OneCall(e, calls[0]), calls[1..])
  }

  function OneCall(e: Errors, c: Call): Errors { if c.Fail? then Failed(e, c.reason) else CleanupFailed(e, c.reason) }

  lemma CallWithin(e: Errors, c: Call)
    requires WithinLimits(e)
    ensures var n := OneCall(e, c);
      WithinLimits(n) && n.first.Some? && (e.first.Some? ==> n.first == e.first) && (n.sessionsReaped <==> e.sessionsReaped && c.Fail?)
  {
    FailedWithin(e, c.reason);
    CleanupWithin(e, c.reason);
    hide WithinLimits, Bounded;
  }

  lemma {:induction false} AfterWithin(e: Errors, calls: seq<Call>)
    requires WithinLimits(e)
    ensures WithinLimits(After(e, calls))
    ensures if e.first.Some? then After(e, calls).first == e.first else (After(e, calls).first.None? <==> calls == [])
    ensures After(e, calls).sessionsReaped <==> e.sessionsReaped && forall i | 0 <= i < |calls| :: calls[i].Fail?
    decreases |calls|
  {
    if calls != [] {
      var rest, n := calls[1..], OneCall(e, calls[0]);
      CallWithin(e, calls[0]);
      hide OneCall, WithinLimits;
      AfterWithin(n, rest);
      assert forall i | 0 <= i < |rest| :: rest[i] == calls[i + 1];
    }
  }

  /** After any calls, both lists are within their limits, the first failure is the
      first one reported, and sessions count as reaped exactly when no cleanup
      error was reported, that is, when none was kept and none truncated. */
  lemma AnyCalls(calls: seq<Call>)
    ensures var e := After(CLEAN, calls);
      && WithinLimits(e)
      && (e.first.None? <==> calls == [])
      && (e.sessionsReaped <==> forall i | 0 <= i < |calls| :: calls[i].Fail?)
      && (e.sessionsReaped <==> e.cleanup == [] && !e.cleanupTruncated)
  {
    CleanWithin();
    AfterWithin(CLEAN, calls);
    hide After, EncodedText, EncodedList;
  }

  lemma CleanWithin()
    ensures WithinLimits(CLEAN)
  {
  }
}
