/** The per-process event token bucket: floor division with a time carry, 64-bit
    products that may wrap, and what any run of it can grant. */
module RateBucket {
  import opened Widths

  const NSEC_PER_SEC: nat := 1_000_000_000

  datatype Bucket = Bucket(last: nat, tokens: nat)

  /** Rates and token counts are u32, times are u64. */
  predicate Fits(b: Bucket, rate: nat) {
    rate < U32 && b.tokens < U32 && b.last < U64
  }

  // ----- one refill -----

  /** Whole tokens for an elapsed time, from a product kept in 64 bits. */
  function Added(elapsed: nat, rate: nat): nat {
    (elapsed * rate) % U64 / NSEC_PER_SEC
  }

  /** The time those tokens account for. */
  function Consumed(added: nat, rate: nat): nat
    requires rate > 0
  {
    added * NSEC_PER_SEC / rate
  }

  function Min(a: nat, b: nat): nat {
    if a < b then a else b
  }

  function Max(a: nat, b: nat): nat {
    if a < b then b else a
  }

  function Refilled(b: Bucket, now: nat, rate: nat): Bucket {
    if rate == 0 then b
    else if b.tokens >= rate then Bucket(now, rate)
    else
      var elapsed := Wrap(now - b.last);
      var added := Added(elapsed, rate);
      if added == 0 then b
      else Bucket(Wrap(b.last + Consumed(added, rate)), Min(b.tokens + added, rate))
  }

  /** floor(n / d) written as an inequality. */
  lemma Floor(n: nat, d: nat)
    requires d > 0
    ensures d * (n / d) <= n < d * (n / d) + d
  {}

  lemma Cancel(d: nat, a: nat, b: nat)
    requires d > 0
    ensures a > b ==> d * a > b * d
  {}

  /** The time carried forward never overtakes the clock: the clamp in the refill
      cannot fire, and the second product cannot wrap. */
  lemma ConsumedWithinElapsed(elapsed: nat, rate: nat)
    requires 0 < rate
    ensures Added(elapsed, rate) * NSEC_PER_SEC < U64
    ensures Consumed(Added(elapsed, rate), rate) <= elapsed
  {
    var p := elapsed * rate;
    var added := Added(elapsed, rate);
    Floor(p % U64, NSEC_PER_SEC);
    Floor(added * NSEC_PER_SEC, rate);
    assert p % U64 <= p;
    Cancel(rate, Consumed(added, rate), elapsed);
  }

  /** A product that wraps can only lose tokens, and it does lose some. */
  lemma WrapOnlyUnderCredits(elapsed: nat, rate: nat)
    ensures Added(elapsed, rate) <= elapsed * rate / NSEC_PER_SEC
    ensures Added(elapsed, rate) == elapsed * rate / NSEC_PER_SEC <==> elapsed * rate < U64
  {
    var p := elapsed * rate;
    WrappedQuotient(p);
  }

  lemma WrappedQuotient(p: nat)
    ensures p % U64 / NSEC_PER_SEC <= p / NSEC_PER_SEC
    ensures p % U64 / NSEC_PER_SEC == p / NSEC_PER_SEC <==> p < U64
  {}

  lemma SmallIsUnwrapped(n: nat)
    requires n < U64
    ensures n % U64 == n
  {}

  // ----- the object -----

  class RateBucket {
    var lastRefillNs: nat
    var tokens: nat

    function View(): Bucket
      reads this
    {
      Bucket(lastRefillNs, tokens)
    }

    constructor (now: nat, rate: nat)
      ensures View() == Bucket(now, rate)
    {
      lastRefillNs, tokens := now, rate;
    }

    method Refill(now: nat, rate: nat)
      requires Fits(View(), rate) && now < U64
      modifies this
      ensures View() == Refilled(old(View()), now, rate) && Fits(View(), rate)
      ensures 0 < rate <= old(tokens) ==> tokens == rate && lastRefillNs == now
      ensures 0 < rate ==> tokens <= rate
    {
      if rate == 0 {
        return;
      }
      if tokens >= rate {
        tokens := rate;
        lastRefillNs := now;
        return;
      }
      var elapsed := (now - lastRefillNs) % U64;
      if elapsed == 0 {
        return;
      }
      var added := (elapsed * rate) % U64 / NSEC_PER_SEC;
      assert added == Added(elapsed, rate);
      if added == 0 {
        return;
      }
      ConsumedWithinElapsed(elapsed, rate);
      SmallIsUnwrapped(added * NSEC_PER_SEC);
      hide Added;
      var sum := tokens + added;
      if sum > rate {
        sum := rate;
      }
      tokens := sum;
      var consumed := (added * NSEC_PER_SEC) % U64 / rate;
      if consumed > elapsed {
        consumed := elapsed;
      }
      lastRefillNs := (lastRefillNs + consumed) % U64;
    }

    method Reserve(now: nat, rate: nat, count: nat) returns (granted: bool)
      requires Fits(View(), rate) && now < U64
      modifies this
      ensures Fits(View(), rate)
      ensures count == 0 ==> !granted && View() == old(View())
      ensures
        var b := Refilled(old(View()), now, rate);
        count > 0 ==>
          && (granted <==> count <= b.tokens)
          && View() == if granted then b.(tokens := b.tokens - count) else b
    {
      if count == 0 {
        return false;
      }
      Refill(now, rate);
      if tokens < count {
        return false;
      }
      tokens := tokens - count;
      return true;
    }

    method Refund(rate: nat, count: nat)
      requires Fits(View(), rate)
      modifies this`tokens
      ensures View() == old(View()).(tokens := if count == 0 then old(tokens) else Min(old(tokens) + count, rate))
    {
      if count == 0 {
        return;
      }
      var sum := tokens + count;
      if sum > rate {
        sum := rate;
      }
      tokens := sum;
    }
  }

  /** Lowers every bucket of the list to a new rate, and raises none. */
  method Reconfigure(buckets: seq<RateBucket>, rate: nat)
    modifies buckets
    ensures forall b :: b in buckets ==>
              b.View() == old(b.View()).(tokens := if rate == 0 then old(b.tokens) else Min(old(b.tokens), rate))
  {
    if rate == 0 {
      return;
    }
    for i := 0 to |buckets|
      invariant forall b :: b in buckets ==> b.lastRefillNs == old(b.lastRefillNs)
      invariant forall b :: b in buckets ==> b.tokens == old(b.tokens) || b.tokens == Min(old(b.tokens), rate)
      invariant forall j :: 0 <= j < i ==> buckets[j].tokens == Min(old(buckets[j].tokens), rate)
    {
      if buckets[i].tokens > rate {
        buckets[i].tokens := rate;
      }
    }
  }

  // ----- runs at a fixed rate -----

  /** What a stretch of time is worth, in billionths of a token. */
  function Worth(rate: nat, time: nat): nat {
    rate * time
  }

  lemma WorthAdds(rate: nat, x: nat, y: nat)
    ensures Worth(rate, x + y) == Worth(rate, x) + Worth(rate, y)
  {}

  lemma WorthGrows(rate: nat, x: nat, y: nat)
    requires x <= y
    ensures Worth(rate, x) <= Worth(rate, y)
  {}

  datatype Op = DoReserve(now: nat, count: nat) | DoRefund(count: nat)

  /** `credited` and `refunded` count tokens that reached the bucket, `raw` the
      tokens before the cap, `refills` the refills that credited any. */
  datatype Tally = Tally(credited: nat, raw: nat, refills: nat, granted: nat, refunded: nat)

  /** `clock` is the latest sample so far. */
  datatype Run = Run(b: Bucket, clock: nat, t: Tally)

  function Start(b: Bucket): Run {
    Run(b, b.last, Tally(0, 0, 0, 0, 0))
  }

  function RefillRun(r: Run, now: nat, rate: nat): Run {
    var b := Refilled(r.b, now, rate);
    var added := if rate == 0 || r.b.tokens >= rate then 0 else Added(Wrap(now - r.b.last), rate);
    Run(b, Max(r.clock, now),
        r.t.(credited := r.t.credited + (if b.tokens >= r.b.tokens then b.tokens - r.b.tokens else 0),
             raw := r.t.raw + added, refills := r.t.refills + if added > 0 then 1 else 0))
  }

  function Do(r: Run, op: Op, rate: nat): Run {
    match op
    case DoReserve(now, count) =>
      var f := RefillRun(r, now, rate);
      if count == 0 then r
      else if count <= f.b.tokens
      then f.(b := f.b.(tokens := f.b.tokens - count), t := f.t.(granted := f.t.granted + count))
      else f
    case DoRefund(count) =>
      var tokens := if count == 0 then r.b.tokens else Min(r.b.tokens + count, rate);
      r.(b := r.b.(tokens := tokens),
         t := r.t.(refunded := r.t.refunded + if tokens >= r.b.tokens then tokens - r.b.tokens else 0))
  }

  function Execute(b: Bucket, ops: seq<Op>, rate: nat): Run {
    if ops == [] then Start(b) else Do(Execute(b, ops[..|ops| - 1], rate), ops[|ops| - 1], rate)
  }

  /** Every sampled clock value is at or after the last refill it meets.  Samples are
      taken before the lock, so one may well be older than the one before it. */
  predicate Ordered(b: Bucket, ops: seq<Op>, rate: nat) {
    forall k :: 0 <= k < |ops| ==> OrderedAt(Execute(b, ops[..k], rate), ops[k])
  }

  predicate OrderedAt(r: Run, op: Op) {
    op.DoReserve? ==> r.b.last <= op.now < U64
  }

  /** What every ordered run from `b` keeps at rate `rate`. */
  predicate Accounted(b: Bucket, r: Run, rate: nat) {
    && r.b.tokens <= rate
    && r.b.tokens + r.t.granted == b.tokens + r.t.credited + r.t.refunded
    && b.last <= r.b.last <= r.clock
    && r.t.credited <= r.t.raw
    && r.t.raw * NSEC_PER_SEC <= Worth(rate, r.b.last - b.last + r.t.refills)
  }

  lemma Unwrapped(last: nat, now: nat, consumed: nat)
    requires last <= now < U64 && consumed <= now - last
    ensures Wrap(now - last) == now - last && Wrap(last + consumed) == last + consumed
  {}

  /** One refill, with the clock in order. */
  lemma RefillFacts(b: Bucket, now: nat, rate: nat)
    requires 0 < rate && b.last <= now < U64 && b.tokens < rate
    ensures
      var added := Added(Wrap(now - b.last), rate);
      var r := Refilled(b, now, rate);
      && b.last <= r.last <= now
      && (added == 0 ==> r == b)
      && Worth(rate, r.last - b.last) <= added * NSEC_PER_SEC
      && (added > 0 ==> added * NSEC_PER_SEC < Worth(rate, r.last - b.last + 1))
      && b.tokens <= r.tokens == Min(rate, b.tokens + added)
  {
    var elapsed := now - b.last;
    var added := Added(elapsed, rate);
    var consumed := Consumed(added, rate);
    ConsumedWithinElapsed(elapsed, rate);
    Unwrapped(b.last, now, consumed);
    ConsumedIsFloor(added, rate);
    hide Added;
    hide Consumed;
    hide Wrap;
    hide Worth;
  }

  lemma ConsumedIsFloor(added: nat, rate: nat)
    requires 0 < rate
    ensures Worth(rate, Consumed(added, rate)) <= added * NSEC_PER_SEC < Worth(rate, Consumed(added, rate) + 1)
    ensures Worth(rate, 0) == 0
  {
    Floor(added * NSEC_PER_SEC, rate);
    WorthAdds(rate, Consumed(added, rate), 1);
  }

  lemma DoAccounted(b: Bucket, r: Run, op: Op, rate: nat)
    requires 0 < rate && Accounted(b, r, rate) && OrderedAt(r, op)
    ensures Accounted(b, Do(r, op, rate), rate)
  {
    hide Worth;
    hide RefillRun;
    if op.DoReserve? {
      RefillAccounted(b, r, op.now, rate);
    }
  }

  lemma RefillAccounted(b: Bucket, r: Run, now: nat, rate: nat)
    requires 0 < rate && Accounted(b, r, rate) && r.b.last <= now < U64
    ensures Accounted(b, RefillRun(r, now, rate), rate)
  {
    hide Worth;
    hide Added;
    var f := RefillRun(r, now, rate);
    if r.b.tokens < rate {
      RefillFacts(r.b, now, rate);
      hide Refilled;
      hide Wrap;
      var added := Added(Wrap(now - r.b.last), rate);
      var more := f.b.last - r.b.last + if added > 0 then 1 else 0;
      WorthAdds(rate, r.b.last - b.last + r.t.refills, more);
    } else {
      WorthGrows(rate, r.b.last - b.last + r.t.refills, now - b.last + r.t.refills);
    }
  }

  lemma {:induction false} AlwaysAccounted(b: Bucket, ops: seq<Op>, rate: nat)
    requires 0 < rate && b.tokens <= rate && Ordered(b, ops, rate)
    ensures Accounted(b, Execute(b, ops, rate), rate)
  {
    if ops != [] {
      var ps := ops[..|ops| - 1];
      forall k | 0 <= k < |ps| ensures OrderedAt(Execute(b, ps[..k], rate), ps[k]) {
        assert ps[..k] == ops[..k];
        assert OrderedAt(Execute(b, ops[..k], rate), ops[k]);
      }
      AlwaysAccounted(b, ps, rate);
      assert OrderedAt(Execute(b, ops[..|ps|], rate), ops[|ps|]);
      DoAccounted(b, Execute(b, ps, rate), ops[|ps|], rate);
    }
  }

  /** Tokens never exceed the rate, and over any run, saturated or not, the tokens
      credited in elapsed time E by n crediting refills satisfy
      C * 10^9 <= rate * (E + n); so what is granted is bounded too. */
  lemma NeverOverCredits(b: Bucket, ops: seq<Op>, rate: nat)
    requires 0 < rate && b.tokens <= rate && Ordered(b, ops, rate)
    ensures
      var r := Execute(b, ops, rate);
      && r.b.tokens <= rate
      && b.last <= r.clock
      && r.t.credited * NSEC_PER_SEC <= rate * (r.clock - b.last + r.t.refills)
      && r.t.granted <= b.tokens + r.t.credited + r.t.refunded
  {
    hide Execute;
    hide Ordered;
    hide Worth;
    AlwaysAccounted(b, ops, rate);
    CreditBound(b, Execute(b, ops, rate), rate);
  }

  lemma CreditBound(b: Bucket, r: Run, rate: nat)
    requires Accounted(b, r, rate)
    ensures r.t.credited * NSEC_PER_SEC <= rate * (r.clock - b.last + r.t.refills)
  {
    WorthGrows(rate, r.b.last - b.last + r.t.refills, r.clock - b.last + r.t.refills);
  }

  // ----- bursts -----

  function Plus(t: Tally, u: Tally): Tally {
    Tally(t.credited + u.credited, t.raw + u.raw, t.refills + u.refills, t.granted + u.granted, t.refunded + u.refunded)
  }

  lemma DoAdds(t: Tally, r: Run, q: Run, op: Op, rate: nat)
    requires r.b == q.b && r.t == Plus(t, q.t)
    ensures Do(r, op, rate).b == Do(q, op, rate).b && Do(r, op, rate).t == Plus(t, Do(q, op, rate).t)
  {
    hide Refilled;
    hide Added;
  }

  /** A run that goes on is the run of its rest, from where the bucket stands. */
  lemma {:induction false} RunsOn(b: Bucket, ps: seq<Op>, qs: seq<Op>, rate: nat)
    ensures
      var r0, r1, r := Execute(b, ps, rate), Execute(Execute(b, ps, rate).b, qs, rate), Execute(b, ps + qs, rate);
      r.b == r1.b && r.t == Plus(r0.t, r1.t)
  {
    hide Do;
    if qs == [] {
      assert ps + qs == ps;
    } else {
      var rest := qs[..|qs| - 1];
      RunsOn(b, ps, rest, rate);
      assert (ps + qs)[..|ps + qs| - 1] == ps + rest;
      var r0 := Execute(b, ps, rate);
      DoAdds(r0.t, Execute(b, ps + rest, rate), Execute(r0.b, rest, rate), qs[|qs| - 1], rate);
    }
  }

  lemma RestIsOrdered(b: Bucket, ops: seq<Op>, m: nat, rate: nat)
    requires m <= |ops| && Ordered(b, ops, rate)
    ensures Ordered(b, ops[..m], rate) && Ordered(Execute(b, ops[..m], rate).b, ops[m..], rate)
  {
    hide Execute;
    hide Do;
    forall k | 0 <= k < m ensures OrderedAt(Execute(b, ops[..m][..k], rate), ops[..m][k]) {
      assert ops[..m][..k] == ops[..k];
      assert OrderedAt(Execute(b, ops[..k], rate), ops[k]);
    }
    var qs := ops[m..];
    forall k | 0 <= k < |qs|
      ensures OrderedAt(Execute(Execute(b, ops[..m], rate).b, qs[..k], rate), qs[k])
    {
      RunsOn(b, ops[..m], qs[..k], rate);
      assert ops[..m] + qs[..k] == ops[..m + k];
      assert OrderedAt(Execute(b, ops[..m + k], rate), ops[m + k]);
    }
  }

  /** The latest clock value that the reservations of a run look at. */
  function LastSample(ops: seq<Op>, from: nat): nat {
    if ops == [] then from
    else
      var op, before := ops[|ops| - 1], LastSample(ops[..|ops| - 1], from);
      if op.DoReserve? && op.count > 0 then Max(before, op.now) else before
  }

  lemma {:induction false} ClockIsLastSample(b: Bucket, ops: seq<Op>, rate: nat)
    ensures Execute(b, ops, rate).clock == LastSample(ops, b.last)
  {
    hide Refilled;
    hide Added;
    if ops != [] {
      ClockIsLastSample(b, ops[..|ops| - 1], rate);
    }
  }

  /** Reservation `m` of the run meets a full bucket. */
  predicate MeetsFull(b: Bucket, ops: seq<Op>, m: nat, rate: nat) {
    m < |ops| && ops[m].DoReserve? && ops[m].count > 0 && Execute(b, ops[..m], rate).b.tokens == rate
  }

  /** Time a bucket spends full is worth nothing: after a reservation that met a full
      bucket with sample s, credits C are covered by the time since s alone, however
      long the bucket had been full, and what is granted from there on, that
      reservation included, is at most one full bucket, C and the refunds. */
  lemma BurstAfterFull(b: Bucket, ops: seq<Op>, m: nat, rate: nat)
    requires 0 < rate && b.tokens <= rate && Ordered(b, ops, rate) && MeetsFull(b, ops, m, rate)
    ensures
      var before, r, now := Execute(b, ops[..m], rate), Execute(b, ops, rate), ops[m].now;
      var credits, refills := r.t.credited - before.t.credited, r.t.refills - before.t.refills;
      && 0 <= refills && now <= LastSample(ops[m + 1..], now)
      && credits * NSEC_PER_SEC <= rate * (LastSample(ops[m + 1..], now) - now + refills)
      && r.t.granted - before.t.granted <= rate + credits + (r.t.refunded - before.t.refunded)
  {
    hide Execute;
    hide Ordered;
    hide Do;
    hide LastSample;
    var qs := ops[m + 1..];
    var after := Execute(b, ops[..m + 1], rate);
    FullReservation(b, ops, m, rate);
    RestIsOrdered(b, ops, m + 1, rate);
    NeverOverCredits(after.b, qs, rate);
    ClockIsLastSample(after.b, qs, rate);
    RunsOn(b, ops[..m + 1], qs, rate);
    assert ops[..m + 1] + qs == ops;
  }

  lemma FullReservation(b: Bucket, ops: seq<Op>, m: nat, rate: nat)
    requires 0 < rate && MeetsFull(b, ops, m, rate)
    ensures
      var before, after := Execute(b, ops[..m], rate), Execute(b, ops[..m + 1], rate);
      && after.b.last == ops[m].now && after.b.tokens + after.t.granted == rate + before.t.granted
      && after.b.tokens <= rate
      && after.t == before.t.(granted := after.t.granted)
  {
    assert ops[..m + 1][..m] == ops[..m];
    assert ops[..m + 1][m] == ops[m];
  }

  /** At rate zero nothing is ever credited, whatever the clock does. */
  lemma {:induction false} ZeroRateOnlyDrains(b: Bucket, ops: seq<Op>)
    ensures
      var r := Execute(b, ops, 0);
      r.t.credited == 0 && r.t.refunded == 0 && r.b.tokens + r.t.granted <= b.tokens
  {
    if ops != [] {
      ZeroRateOnlyDrains(b, ops[..|ops| - 1]);
    }
  }

  // ----- the lower bound -----

  /** A refill that neither finds the bucket full nor fills it over, and whose
      product fits 64 bits. */
  predicate Unsaturated(r: Run, op: Op, rate: nat) {
    op.DoReserve? ==>
      && r.b.tokens < rate
      && r.b.last <= op.now
      && r.b.tokens + Added(Wrap(op.now - r.b.last), rate) <= rate
      && (op.now - r.b.last) * rate < U64
  }

  predicate UnsaturatedRun(b: Bucket, ops: seq<Op>, rate: nat) {
    forall k :: 0 <= k < |ops| ==> Unsaturated(Execute(b, ops[..k], rate), ops[k], rate)
  }

  /** Credit is never behind the time it accounts for, and less than one token behind
      the latest sample. */
  predicate Covered(b: Bucket, r: Run, rate: nat) {
    && b.last <= r.b.last && b.last <= r.clock && r.t.raw == r.t.credited
    && Worth(rate, r.b.last - b.last) <= r.t.credited * NSEC_PER_SEC
    && Worth(rate, r.clock - b.last) < r.t.credited * NSEC_PER_SEC + NSEC_PER_SEC
  }

  lemma {:induction false} CreditCoversTime(b: Bucket, ops: seq<Op>, rate: nat)
    requires 0 < rate && b.tokens <= rate && Ordered(b, ops, rate) && UnsaturatedRun(b, ops, rate)
    ensures Covered(b, Execute(b, ops, rate), rate)
  {
    hide Worth;
    hide RefillRun;
    hide Ordered;
    hide UnsaturatedRun;
    WorthOfNothing(rate);
    if ops == [] {
    } else {
      var ps, op := ops[..|ops| - 1], ops[|ops| - 1];
      RunPrefix(b, ops, rate);
      CreditCoversTime(b, ps, rate);
      if op.DoReserve? {
        RefillCoversTime(b, Execute(b, ps, rate), op.now, rate);
      }
    }
  }

  lemma RefillCoversTime(b: Bucket, r: Run, now: nat, rate: nat)
    requires 0 < rate && Covered(b, r, rate) && r.b.last <= now < U64 && r.b.tokens < rate
    requires r.b.tokens + Added(Wrap(now - r.b.last), rate) <= rate && (now - r.b.last) * rate < U64
    ensures Covered(b, RefillRun(r, now, rate), rate)
  {
    var elapsed := now - r.b.last;
    RefillFacts(r.b, now, rate);
    Unwrapped(r.b.last, now, 0);
    LastCredit(elapsed, rate);
    hide Worth;
    hide Added;
    hide Refilled;
    hide Wrap;
    var f := RefillRun(r, now, rate);
    WorthAdds(rate, r.b.last - b.last, f.b.last - r.b.last);
    WorthAdds(rate, r.b.last - b.last, elapsed);
  }

  lemma RunPrefix(b: Bucket, ops: seq<Op>, rate: nat)
    requires ops != [] && Ordered(b, ops, rate) && UnsaturatedRun(b, ops, rate)
    ensures
      var ps := ops[..|ops| - 1];
      && Ordered(b, ps, rate) && UnsaturatedRun(b, ps, rate)
      && OrderedAt(Execute(b, ps, rate), ops[|ps|]) && Unsaturated(Execute(b, ps, rate), ops[|ps|], rate)
  {
    var ps := ops[..|ops| - 1];
    forall k | 0 <= k < |ps|
      ensures OrderedAt(Execute(b, ps[..k], rate), ps[k]) && Unsaturated(Execute(b, ps[..k], rate), ps[k], rate)
    {
      assert ps[..k] == ops[..k];
      assert OrderedAt(Execute(b, ops[..k], rate), ops[k]) && Unsaturated(Execute(b, ops[..k], rate), ops[k], rate);
    }
    assert ops[..|ps|] == ps;
    assert OrderedAt(Execute(b, ops[..|ps|], rate), ops[|ps|]) &&
           Unsaturated(Execute(b, ops[..|ps|], rate), ops[|ps|], rate);
  }

  /** No time is lost: with E up to the latest sample, an unsaturated run has credited
      C * 10^9 > rate * E - 10^9. */
  lemma NeverUnderCredits(b: Bucket, ops: seq<Op>, rate: nat)
    requires 0 < rate && b.tokens <= rate && Ordered(b, ops, rate) && UnsaturatedRun(b, ops, rate)
    ensures
      var r := Execute(b, ops, rate);
      && b.last <= r.clock
      && (forall k :: 0 <= k < |ops| && ops[k].DoReserve? && ops[k].count > 0 ==> ops[k].now <= r.clock)
      && r.t.credited * NSEC_PER_SEC > rate * (r.clock - b.last) - NSEC_PER_SEC
  {
    CreditCoversTime(b, ops, rate);
    LatestSample(b, ops, rate);
    hide Execute;
    var r := Execute(b, ops, rate);
    assert Worth(rate, r.clock - b.last) == rate * (r.clock - b.last);
  }

  lemma {:induction false} LatestSample(b: Bucket, ops: seq<Op>, rate: nat)
    ensures forall k :: 0 <= k < |ops| && ops[k].DoReserve? && ops[k].count > 0 ==>
              ops[k].now <= Execute(b, ops, rate).clock
  {
    hide Refilled;
    hide Added;
    if ops != [] {
      var ps := ops[..|ops| - 1];
      LatestSample(b, ps, rate);
      forall k | 0 <= k < |ops| && ops[k].DoReserve? && ops[k].count > 0
        ensures ops[k].now <= Execute(b, ops, rate).clock
      {
        if k < |ps| {
          assert ps[k] == ops[k];
        }
      }
    }
  }

  lemma LastCredit(elapsed: nat, rate: nat)
    requires elapsed * rate < U64
    ensures Worth(rate, elapsed) < Added(elapsed, rate) * NSEC_PER_SEC + NSEC_PER_SEC
  {
    Floor(elapsed * rate, NSEC_PER_SEC);
  }

  lemma WorthOfNothing(rate: nat)
    ensures Worth(rate, 0) == 0
  {}
}
