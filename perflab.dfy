/**
 * The Performance Lab page's bookkeeping: the metrics record, the DOM
 * sandbox counters, the interval storm's timer handles, the chunked and
 * cancellable prime scan, and the soft-navigation route table.
 *
 * Clock readings (`performance.now()` differences, the local time of day)
 * are parameters. Timers are abstract handles drawn from a counter.
 */
module PerfLab {
  import opened JsValues
  import opened RumEvents
  import Rum

  /** The tag `boot()` sends first, naming the page group "Performance Lab". */
  const BootTag: seq<Value> := [Str("pageGroup"), Str("Performance Lab")]

  /** The boot tag makes "Performance Lab" the page group and keeps logging and the tracepoints. */
  lemma BootTagged(r: Rum.Rec)
    ensures Rum.Dispatch(r, BootTag).rec.settings == r.settings.(pageGroup := "Performance Lab")
  {
    Rum.PageGroupTagged(r, "Performance Lab");
  }

  // ------------------------------------------------------------------
  // Input clamps
  // ------------------------------------------------------------------

  /** `Math.max(500, Math.min(20000, Number(v) || 5000))` */
  function DomCount(v: string): (n: int)
    ensures 500 <= n <= 20000
  {
    ClampBounds(NumberOr(v, 5000), 500, 20000);
    Clamp(NumberOr(v, 5000), 500, 20000)
  }

  /** `Math.max(5, Math.min(300, Number(v) || 80))` */
  function StormCount(v: string): (n: int)
    ensures 5 <= n <= 300
  {
    ClampBounds(NumberOr(v, 80), 5, 300);
    Clamp(NumberOr(v, 80), 5, 300)
  }

  /** `Math.max(5000, Math.min(250000, Number(v) || 60000))` */
  function ScanLimit(v: string): (n: int)
    ensures 5000 <= n <= 250000
  {
    ClampBounds(NumberOr(v, 60000), 5000, 250000);
    Clamp(NumberOr(v, 60000), 5000, 250000)
  }

  /** An empty or unreadable input takes the default; a readable one in range is kept. */
  lemma ClampDefaults(v: string)
    ensures StringToNumber(v).None? || Trim(v) == "" ==>
      DomCount(v) == 5000 && StormCount(v) == 80 && ScanLimit(v) == 60000
    ensures StringToNumber(v).Some? && 500 <= StringToNumber(v).value <= 20000 ==> DomCount(v) == StringToNumber(v).value
    ensures StringToNumber(v).Some? && 5 <= StringToNumber(v).value <= 300 ==> StormCount(v) == StringToNumber(v).value
    ensures StringToNumber(v).Some? && 5000 <= StringToNumber(v).value <= 250000 ==> ScanLimit(v) == StringToNumber(v).value
  {
  }

  // ------------------------------------------------------------------
  // Number formatting
  // ------------------------------------------------------------------

  /** Three digits with leading zeros. */
  function Pad3(n: nat): string
    requires n < 1000
  {
    if n < 10 then "00" + NatToString(n) else if n < 100 then "0" + NatToString(n) else NatToString(n)
  }

  /** `n.toLocaleString()` in the en-US locale: groups of three digits separated by commas. */
  function Grouped(n: nat): string
    decreases n
  {
    if n < 1000 then NatToString(n) else Grouped(n / 1000) + "," + Pad3(n % 1000)
  }

  /** `Number(d) || 0`: NaN and zero become zero, everything else is kept. */
  function DurationOrZero(d: JsNumber): (r: JsNumber)
    ensures r != NaN
    ensures d.NaN? || d == Finite(0.0) <==> r == Finite(0.0)
    ensures r != Finite(0.0) ==> r == d
  {
    if d.NaN? || d == Finite(0.0) then Finite(0.0) else d
  }

  // ------------------------------------------------------------------
  // The metrics record
  // ------------------------------------------------------------------

  const EmDash := "\U{2014}"

  class Metrics {
    var lastAction: string
    var lastDuration: JsNumber
    var nodesCreated: nat
    var intervalsRunning: nat
    var lastActionTime: string

    predicate Initial()
      reads this
    {
      lastAction == EmDash && lastDuration == Finite(0.0) && nodesCreated == 0
      && intervalsRunning == 0 && lastActionTime == EmDash
    }

    constructor ()
      ensures Initial()
    {
      lastAction, lastDuration, nodesCreated, intervalsRunning, lastActionTime := EmDash, Finite(0.0), 0, 0, EmDash;
    }

    /** `setMetric(action, durationMs)`; `now` is the local time of day. */
    method Set(action: string, d: JsNumber, now: string)
      modifies this
      ensures lastAction == action && lastDuration == DurationOrZero(d) && lastActionTime == now
      ensures nodesCreated == old(nodesCreated) && intervalsRunning == old(intervalsRunning)
    {
      lastAction := action;
      lastDuration := DurationOrZero(d);
      lastActionTime := now;
    }

    /** The "clear metrics" button: all five fields back to their first values. */
    method Clear()
      modifies this
      ensures Initial()
    {
      lastAction, lastDuration, nodesCreated, intervalsRunning, lastActionTime := EmDash, Finite(0.0), 0, 0, EmDash;
    }
  }

  // ------------------------------------------------------------------
  // Primes by trial division
  // ------------------------------------------------------------------

  predicate Prime(x: nat) {
    x >= 2 && forall d :: 2 <= d < x ==> x % d != 0
  }

  /** `Math.floor(Math.sqrt(x))`, exact for the integers the scan reaches. */
  function FloorSqrt(x: nat): (r: nat)
    ensures r * r <= x < (r + 1) * (r + 1)
  {
    if x == 0 then 0
    else
      var s := FloorSqrt(x - 1);
      if (s + 1) * (s + 1) <= x then s + 1 else s
  }

  /** No `i` with `2 <= i <= r` divides `x`. */
  predicate NoDivisorUpTo(x: nat, r: nat)
    decreases r
  {
    r < 2 || (x % r != 0 && NoDivisorUpTo(x, r - 1))
  }

  lemma {:induction false} NoDivisorUpToMeaning(x: nat, r: nat)
    ensures NoDivisorUpTo(x, r) <==> forall i :: 2 <= i <= r ==> x % i != 0
    decreases r
  {
    if r >= 2 {
      NoDivisorUpToMeaning(x, r - 1);
    }
  }

  lemma MulMonotone(a: nat, b: nat, c: nat, d: nat)
    requires a <= b && c <= d
    ensures a * c <= b * d
  {
    assert a * c <= b * c;
    assert b * c <= b * d;
  }

  lemma MulDivides(q: nat, d: nat)
    requires q > 0
    ensures (q * d) % q == 0
  {
    var x := q * d;
    var k, r := x / q, x % q;
    assert x == q * k + r;
    assert q * (d - k) == r;
    MulBetween(q, d - k);
  }

  lemma MulBetween(q: int, t: int)
    requires q > 0 && 0 <= q * t < q
    ensures t == 0
  {
    if t > 0 {
      MulMonotone(q, q, 1, t);
    }
  }

  /** A composite `x` has a divisor no larger than its square root. */
  lemma SmallDivisor(x: nat, d: nat, r: nat)
    requires 2 <= d < x && x % d == 0 && r * r <= x < (r + 1) * (r + 1)
    ensures exists e :: 2 <= e <= r && x % e == 0
  {
    var q := x / d;
    assert x == d * q;
    if d <= r {
      assert 2 <= d <= r && x % d == 0;
    } else {
      assert q >= 2 by {
        if q <= 1 {
          MulMonotone(d, d, q, 1);
        }
      }
      if q > r {
        MulMonotone(r + 1, d, r + 1, q);
      }
      MulDivides(q, d);
      assert x == q * d;
      assert 2 <= q <= r && x % q == 0;
    }
  }

  /** `isPrime` tests exactly primality for every number the scan reaches. */
  lemma TrialDivision(x: nat)
    requires x >= 2
    ensures NoDivisorUpTo(x, FloorSqrt(x)) <==> Prime(x)
  {
    var r := FloorSqrt(x);
    NoDivisorUpToMeaning(x, r);
    if r >= 2 {
      MulMonotone(2, r, r, r);
      assert r < x;
    }
    if !Prime(x) {
      var d :| 2 <= d < x && x % d == 0;
      SmallDivisor(x, d, r);
    }
  }

  /** `isPrime(x)` */
  method IsPrime(x: nat) returns (b: bool)
    ensures b == NoDivisorUpTo(x, FloorSqrt(x))
    ensures x >= 2 ==> (b <==> Prime(x))
  {
    var r := FloorSqrt(x);
    NoDivisorUpToMeaning(x, r);
    if x >= 2 {
      TrialDivision(x);
    }
    var i := 2;
    while i <= r
      invariant 2 <= i && (i <= r + 1 || r < 2)
      invariant forall j :: 2 <= j < i ==> x % j != 0
    {
      if x % i == 0 {
        return false;
      }
      i := i + 1;
    }
    return true;
  }

  /** The primes in `[a, b)`, in increasing order. */
  function PrimesIn(a: nat, b: nat): seq<nat>
    decreases b
  {
    if b <= a then [] else PrimesIn(a, b - 1) + (if Prime(b - 1) then [b - 1] else [])
  }

  predicate Increasing(s: seq<nat>) {
    forall i, j :: 0 <= i < j < |s| ==> s[i] < s[j]
  }

  /** The scan's list is strictly increasing and holds exactly the primes it tested. */
  lemma {:induction false} PrimesInLaws(a: nat, b: nat)
    ensures Increasing(PrimesIn(a, b))
    ensures forall x :: x in PrimesIn(a, b) <==> a <= x < b && Prime(x)
    decreases b
  {
    if b > a {
      PrimesInLaws(a, b - 1);
      var s := PrimesIn(a, b - 1);
      assert forall x :: x in s ==> x < b - 1;
      forall i, j | 0 <= i < j < |PrimesIn(a, b)| ensures PrimesIn(a, b)[i] < PrimesIn(a, b)[j] {
        if j >= |s| {
          assert s[i] in s;
        }
      }
    }
  }

  // ------------------------------------------------------------------
  // Where the scan stops
  // ------------------------------------------------------------------

  /** The last number one chunk tests: `Math.min(limit, n + 700)`. */
  function ChunkEnd(n: nat, limit: nat): nat {
    if limit < n + 700 then limit else n + 700
  }

  /**
   * The first number the scan does not test, as `chunk` is written: after a
   * chunk it schedules another only while `n < limit`.
   */
  function ScanEndAsWritten(n: nat, limit: nat): nat
    requires n <= limit
    decreases limit - n
  {
    var next := ChunkEnd(n, limit) + 1;
    if next < limit then ScanEndAsWritten(next, limit) else next
  }

  /** The same with the evidently intended condition `n <= limit`. */
  function ScanEnd(n: nat, limit: nat): nat
    requires n <= limit
    decreases limit - n
  {
    var next := ChunkEnd(n, limit) + 1;
    if next <= limit then ScanEnd(next, limit) else next
  }

  /** With `n <= limit`, the scan tests every number up to and including the limit. */
  lemma {:induction false} ScanEndCoversLimit(n: nat, limit: nat)
    requires n <= limit
    ensures ScanEnd(n, limit) == limit + 1
    decreases limit - n
  {
    var next := ChunkEnd(n, limit) + 1;
    if next <= limit {
      ScanEndCoversLimit(next, limit);
    }
  }

  /**
   * As written, a limit of the form `2 + 701k` is never tested: every chunk
   * ends exactly 701 numbers later, and the last one stops at `n == limit`.
   */
  lemma {:induction false} ScanMissesLimit(j: nat, k: nat)
    requires j < k
    ensures ScanEndAsWritten(2 + 701 * j, 2 + 701 * k) == 2 + 701 * k
    decreases k - j
  {
    var n, limit := 2 + 701 * j, 2 + 701 * k;
    assert ChunkEnd(n, limit) + 1 == 2 + 701 * (j + 1);
    if j + 1 < k {
      ScanMissesLimit(j + 1, k);
    }
  }

  lemma FloorSqrt6311()
    ensures FloorSqrt(6311) == 79
  {
    var r := FloorSqrt(6311);
    if r <= 78 {
      MulMonotone(r + 1, 79, r + 1, 79);
    } else if r >= 80 {
      MulMonotone(80, r, 80, r);
    }
  }

  lemma Prime6311()
    ensures Prime(6311)
  {
    FloorSqrt6311();
    NoDivisor6311To79();
    TrialDivision(6311);
  }

  lemma NoDivisor6311To30()
    ensures NoDivisorUpTo(6311, 30)
  {
    assert NoDivisorUpTo(6311, 10);
    assert NoDivisorUpTo(6311, 20);
  }

  lemma NoDivisor6311To60()
    ensures NoDivisorUpTo(6311, 60)
  {
    NoDivisor6311To30();
    assert NoDivisorUpTo(6311, 40);
    assert NoDivisorUpTo(6311, 50);
  }

  lemma NoDivisor6311To79()
    ensures NoDivisorUpTo(6311, 79)
  {
    NoDivisor6311To60();
    assert NoDivisorUpTo(6311, 70);
  }

  lemma ScanLimit6311()
    ensures ScanLimit("6311") == 6311
  {
    TrimUnspaced("6311");
    assert "6311"[1..] == "311" && "6311"[..3] == "631" && "631"[..2] == "63" && "63"[..1] == "6";
    assert DigitsValue("6311") == 6311;
  }

  /**
   * With the input 6311 the clamp keeps the limit, 6311 is prime, and the
   * scan as written reports its primes "up to 6311" without 6311.
   */
  lemma MissedPrime()
    ensures ScanLimit("6311") == 6311 && Prime(6311)
    ensures ScanEndAsWritten(2, 6311) == 6311
    ensures 6311 !in PrimesIn(2, ScanEndAsWritten(2, 6311))
    ensures 6311 in PrimesIn(2, ScanEnd(2, 6311))
  {
    ScanLimit6311();
    Prime6311();
    ScanMissesLimit(0, 9);
    PrimesInLaws(2, 6311);
    ScanEndCoversLimit(2, 6311);
    PrimesInLaws(2, 6312);
  }

  // ------------------------------------------------------------------
  // The scan
  // ------------------------------------------------------------------

  datatype ScanStatus = Idle | Running | Done | Cancelled(at: nat)

  /** `startCompute`, its `chunk` timer chain and `stopCompute`. */
  class PrimeScan {
    var limit: nat
    var n: nat
    var primes: seq<nat>
    var cancel: bool
    var status: ScanStatus

    predicate Valid()
      reads this
    {
      2 <= n && primes == PrimesIn(2, n)
      && (status.Running? ==> n <= limit)
      && (status.Done? ==> n == limit + 1)
      && (status.Cancelled? ==> status.at == n)
    }

    constructor ()
      ensures Valid() && status == Idle && !cancel
    {
      limit, n, primes, cancel, status := 0, 2, [], false, Idle;
    }

    /**
     * One `chunk` call: with the cancel flag up it stops at the next number
     * without testing it; otherwise it tests every number up to
     * `min(limit, n + 700)` and schedules another chunk while `n <= limit`.
     */
    method Chunk(m: Metrics, elapsed: real, now: string)
      requires Valid() && status == Running
      modifies this, m
      ensures Valid() && limit == old(limit) && cancel == old(cancel)
      ensures old(cancel) ==> status == Cancelled(old(n)) && n == old(n) && primes == old(primes)
      ensures !old(cancel) ==>
        (n == ChunkEnd(old(n), limit) + 1 && n - old(n) <= 701
        && primes == old(primes) + PrimesIn(old(n), n)
        && (status == Running <==> n <= limit) && (status == Done <==> n > limit))
      ensures status.Cancelled? ==> m.lastAction == "Computation cancelled" && m.lastDuration == DurationOrZero(Finite(elapsed))
      ensures status.Done? ==> m.lastAction == "Heavy computation finished" && m.lastDuration == DurationOrZero(Finite(elapsed))
      ensures status.Running? ==> m.lastAction == old(m.lastAction) && m.lastDuration == old(m.lastDuration)
      ensures m.lastActionTime == if status.Running? then old(m.lastActionTime) else now
      ensures m.nodesCreated == old(m.nodesCreated) && m.intervalsRunning == old(m.intervalsRunning)
    {
      var end := ChunkEnd(n, limit);
      var k := n;
      var found := primes;
      var stopped := false;
      while k <= end && !stopped
        invariant n <= k <= end + 1
        invariant found == PrimesIn(2, k)
        invariant stopped ==> cancel
        invariant cancel ==> k == n
        modifies {}
        decreases end + 1 - k, if stopped then 0 else 1
      {
        if cancel {
          stopped := true;
        } else {
          var p := IsPrime(k);
          PrimesInNext(2, k, p);
          found := found + (if p then [k] else []);
          k := k + 1;
        }
      }
      if stopped {
        status := Cancelled(k);
        m.Set("Computation cancelled", Finite(elapsed), now);
        return;
      }
      PrimesInSplit(2, n, k);
      n, primes := k, found;
      if n <= limit {
        status := Running;
      } else {
        status := Done;
        m.Set("Heavy computation finished", Finite(elapsed), now);
      }
    }

    /** `startCompute(v)`: reset, then the first chunk. */
    method Start(v: string, m: Metrics, elapsed: real, now: string)
      modifies this, m
      ensures Valid() && limit == ScanLimit(v) && !cancel && status != Idle && !status.Cancelled?
      ensures n == ChunkEnd(2, limit) + 1 && primes == PrimesIn(2, n)
      ensures status.Done? ==> m.lastAction == "Heavy computation finished" && m.lastDuration == DurationOrZero(Finite(elapsed))
      ensures status.Running? ==> m.lastAction == old(m.lastAction) && m.lastDuration == old(m.lastDuration)
      ensures m.lastActionTime == if status.Running? then old(m.lastActionTime) else now
      ensures m.nodesCreated == old(m.nodesCreated) && m.intervalsRunning == old(m.intervalsRunning)
    {
      limit := ScanLimit(v);
      cancel := false;
      n, primes, status := 2, [], Running;
      Chunk(m, elapsed, now);
    }

    /** `stopCompute()` */
    method Stop()
      modifies this
      ensures cancel && limit == old(limit) && n == old(n) && primes == old(primes) && status == old(status)
    {
      cancel := true;
    }

    /**
     * The chain of chunks with nothing cancelling it: it ends with every
     * prime up to and including the limit.
     */
    method Finish(m: Metrics, elapsed: real, now: string)
      requires Valid() && !cancel
      modifies this, m
      ensures Valid() && limit == old(limit) && !cancel
      ensures old(status) == Running ==>
        (status == Done && n == ScanEnd(old(n), limit) && primes == PrimesIn(2, limit + 1))
      ensures old(status) != Running ==> status == old(status) && primes == old(primes)
      ensures old(status) == Running ==>
        m.lastAction == "Heavy computation finished" && m.lastDuration == DurationOrZero(Finite(elapsed))
        && m.lastActionTime == now
      ensures old(status) != Running ==>
        m.lastAction == old(m.lastAction) && m.lastDuration == old(m.lastDuration)
        && m.lastActionTime == old(m.lastActionTime)
      ensures m.nodesCreated == old(m.nodesCreated) && m.intervalsRunning == old(m.intervalsRunning)
    {
      ghost var start := n;
      if status == Running {
        ScanEndCoversLimit(n, limit);
      }
      while status == Running
        invariant Valid() && !cancel && limit == old(limit)
        invariant old(status) == Running ==> start <= n && (status.Running? || status.Done?)
        invariant old(status) == Running && status == Running ==> ScanEnd(n, limit) == ScanEnd(start, limit)
        invariant old(status) != Running ==> status == old(status) && primes == old(primes)
        invariant old(status) == Running && status == Done ==>
          m.lastAction == "Heavy computation finished" && m.lastDuration == DurationOrZero(Finite(elapsed))
          && m.lastActionTime == now
        invariant old(status) != Running ==>
          m.lastAction == old(m.lastAction) && m.lastDuration == old(m.lastDuration)
          && m.lastActionTime == old(m.lastActionTime)
        invariant m.nodesCreated == old(m.nodesCreated) && m.intervalsRunning == old(m.intervalsRunning)
        decreases limit + 1 - n, if status == Running then 1 else 0
      {
        ghost var before := n;
        Chunk(m, elapsed, now);
        if status == Running {
          assert ScanEnd(before, limit) == ScanEnd(n, limit);
        }
      }
      if old(status) == Running {
        ScanEndCoversLimit(start, limit);
      }
    }
  }

  lemma PrimesInNext(a: nat, b: nat, p: bool)
    requires a <= b && (p <==> Prime(b))
    ensures PrimesIn(a, b + 1) == PrimesIn(a, b) + (if p then [b] else [])
  {
  }

  lemma {:induction false} PrimesInSplit(a: nat, b: nat, c: nat)
    requires a <= b <= c
    ensures PrimesIn(a, c) == PrimesIn(a, b) + PrimesIn(b, c)
    decreases c
  {
    if c > b {
      PrimesInSplit(a, b, c - 1);
    }
  }

  // ------------------------------------------------------------------
  // DOM sandbox, timer storm and soft navigation
  // ------------------------------------------------------------------

  /** A pending timer: its delay and whether it repeats (an interval). */
  datatype Timer = Timer(delay: nat, repeats: bool)

  /** The `i`-th interval of a storm. */
  function StormInterval(i: nat): Timer {
    Timer(50 + (i % 7) * 10, true)
  }

  /** The `i`-th timeout of a storm. */
  function StormTimeout(i: nat): Timer {
    Timer(500 + i * 10, false)
  }

  function Min(a: int, b: int): int {
    if a < b then a else b
  }

  const RouteKeys: seq<string> := ["#overview", "#dom", "#compute", "#layout"]

  /** `ROUTES[hash] || ROUTES['#overview']`: the route a hash shows. */
  function RouteFor(hash: string): (r: string)
    ensures r in RouteKeys
    ensures r == hash || r == "#overview"
    ensures hash in RouteKeys <==> r == hash
  {
    if hash in RouteKeys then hash else "#overview"
  }

  function RouteTitle(key: string): string {
    if key == "#dom" then "DOM route"
    else if key == "#compute" then "Compute route"
    else if key == "#layout" then "Layout route"
    else "Overview"
  }

  /** `location.hash || '#overview'` */
  function HashOrDefault(hash: string): (r: string)
    ensures r != "" && (hash != "" ==> r == hash)
  {
    if hash == "" then "#overview" else hash
  }

  /** The storm's `setInterval` or `setTimeout` loop: `count` timers on the handles from `base` on. */
  method SetTimers(t: map<nat, Timer>, base: nat, count: nat, intervals: bool) returns (t': map<nat, Timer>, ids: seq<nat>)
    requires forall h :: h in t ==> h < base
    ensures |ids| == count
    ensures forall j :: 0 <= j < count ==>
      (ids[j] == base + j && ids[j] in t' && t'[ids[j]] == if intervals then StormInterval(j) else StormTimeout(j))
    ensures forall h :: h in t ==> h in t' && t'[h] == t[h]
    ensures forall h :: h in t' ==> h in t || h in ids
    ensures forall h :: h in t' ==> h < base + count
  {
    t', ids := t, [];
    var i := 0;
    while i < count
      invariant 0 <= i <= count && |ids| == i
      invariant forall j :: 0 <= j < i ==>
        (ids[j] == base + j && ids[j] in t' && t'[ids[j]] == if intervals then StormInterval(j) else StormTimeout(j))
      invariant forall h :: h in t ==> h in t' && t'[h] == t[h]
      invariant forall h :: h in t' ==> h in t || h in ids
      invariant forall h :: h in t' ==> h < base + i
    {
      t' := t'[base + i := if intervals then StormInterval(i) else StormTimeout(i)];
      ids := ids + [base + i];
      i := i + 1;
    }
  }

  class Lab {
    const metrics: Metrics
    /** Nodes in the DOM sandbox. */
    var sandbox: nat
    var intervalIds: seq<nat>
    var timeoutIds: seq<nat>
    /** The page's pending timers by handle. */
    var timers: map<nat, Timer>
    /** The next handle the browser hands out. */
    var nextHandle: nat
    /** The soft-navigation view: its title and the chips it holds. */
    var viewTitle: string
    var viewChips: nat

    predicate Valid()
      reads this
    {
      (forall h :: h in timers ==> h < nextHandle)
      && (forall h :: h in intervalIds ==> h < nextHandle)
      && (forall h :: h in timeoutIds ==> h < nextHandle)
      && (intervalIds == [] ==> timeoutIds == [])
    }

    constructor (metrics: Metrics)
      ensures Valid() && this.metrics == metrics && intervalIds == [] && timers == map[]
    {
      this.metrics := metrics;
      sandbox, intervalIds, timeoutIds, timers, nextHandle := 0, [], [], map[], 1;
      viewTitle, viewChips := "", 0;
    }

    /** `generateDom()`: appends `count` nodes and adds `count` to the counter. */
    method GenerateDom(v: string, elapsed: real, now: string)
      modifies this, metrics
      ensures sandbox == old(sandbox) + DomCount(v)
      ensures metrics.nodesCreated == old(metrics.nodesCreated) + DomCount(v)
      ensures metrics.lastAction == "Generated " + Grouped(DomCount(v)) + " DOM nodes"
      ensures metrics.intervalsRunning == old(metrics.intervalsRunning)
      ensures intervalIds == old(intervalIds) && timeoutIds == old(timeoutIds) && timers == old(timers) && nextHandle == old(nextHandle)
      ensures metrics.lastDuration == DurationOrZero(Finite(elapsed)) && metrics.lastActionTime == now
      ensures viewTitle == old(viewTitle) && viewChips == old(viewChips)
    {
      var count := DomCount(v);
      sandbox := sandbox + count;
      metrics.nodesCreated := metrics.nodesCreated + count;
      metrics.Set("Generated " + Grouped(count) + " DOM nodes", Finite(elapsed), now);
    }

    /** `clearDom()`: empties the sandbox; the created-nodes counter stays. */
    method ClearDom(elapsed: real, now: string)
      modifies this, metrics
      ensures sandbox == 0 && metrics.nodesCreated == old(metrics.nodesCreated)
      ensures metrics.lastAction == "Cleared DOM sandbox" && metrics.intervalsRunning == old(metrics.intervalsRunning)
      ensures intervalIds == old(intervalIds) && timeoutIds == old(timeoutIds) && timers == old(timers) && nextHandle == old(nextHandle)
      ensures metrics.lastDuration == DurationOrZero(Finite(elapsed)) && metrics.lastActionTime == now
      ensures viewTitle == old(viewTitle) && viewChips == old(viewChips)
    {
      sandbox := 0;
      metrics.Set("Cleared DOM sandbox", Finite(elapsed), now);
    }

    /** `stopStorm()`: clears every recorded handle; harmless with nothing running. */
    method StopStorm(elapsed: real, now: string)
      requires Valid()
      modifies this, metrics
      ensures Valid() && intervalIds == [] && timeoutIds == [] && metrics.intervalsRunning == 0
      ensures timers == map h | h in old(timers) && h !in old(intervalIds) && h !in old(timeoutIds) :: old(timers)[h]
      ensures nextHandle == old(nextHandle) && sandbox == old(sandbox) && metrics.nodesCreated == old(metrics.nodesCreated)
      ensures metrics.lastAction == "Stopped timer storm"
      ensures metrics.lastDuration == DurationOrZero(Finite(elapsed)) && metrics.lastActionTime == now
      ensures viewTitle == old(viewTitle) && viewChips == old(viewChips)
    {
      timers := map h | h in timers && h !in intervalIds && h !in timeoutIds :: timers[h];
      intervalIds, timeoutIds := [], [];
      metrics.intervalsRunning := 0;
      metrics.Set("Stopped timer storm", Finite(elapsed), now);
    }

    /**
     * `startStorm()`: stops a running storm, then sets `count` intervals and
     * `min(120, count)` timeouts on fresh handles.
     */
    method StartStorm(v: string, stopElapsed: real, elapsed: real, now: string)
      requires Valid()
      modifies this, metrics
      ensures Valid()
      ensures |intervalIds| == StormCount(v) && |timeoutIds| == Min(120, StormCount(v))
      ensures metrics.intervalsRunning == |intervalIds|
      ensures forall i :: 0 <= i < |intervalIds| ==>
        (intervalIds[i] >= old(nextHandle) && intervalIds[i] in timers && timers[intervalIds[i]] == StormInterval(i))
      ensures forall i :: 0 <= i < |timeoutIds| ==>
        (timeoutIds[i] >= old(nextHandle) && timeoutIds[i] in timers && timers[timeoutIds[i]] == StormTimeout(i))
      ensures forall h :: h in old(intervalIds) || h in old(timeoutIds) ==> h !in timers
      ensures forall h :: h in old(timers) && h !in old(intervalIds) && h !in old(timeoutIds) ==>
        h in timers && timers[h] == old(timers)[h]
      ensures forall h :: h in timers ==> h in old(timers) || h in intervalIds || h in timeoutIds
      ensures metrics.lastAction == "Started " + IntToString(StormCount(v)) + " intervals"
      ensures sandbox == old(sandbox) && metrics.nodesCreated == old(metrics.nodesCreated)
      ensures metrics.lastDuration == DurationOrZero(Finite(elapsed)) && metrics.lastActionTime == now
      ensures viewTitle == old(viewTitle) && viewChips == old(viewChips)
    {
      var count := StormCount(v);
      if |intervalIds| > 0 {
        StopStorm(stopElapsed, now);
      }
      Launch(count, elapsed, now);
    }

    /** The second half of `startStorm()`, with no storm running: the new timers on fresh handles. */
    method Launch(count: nat, elapsed: real, now: string)
      requires Valid() && intervalIds == [] && timeoutIds == []
      modifies this, metrics
      ensures Valid()
      ensures |intervalIds| == count && |timeoutIds| == Min(120, count)
      ensures metrics.intervalsRunning == count
      ensures forall i :: 0 <= i < |intervalIds| ==>
        (intervalIds[i] >= old(nextHandle) && intervalIds[i] in timers && timers[intervalIds[i]] == StormInterval(i))
      ensures forall i :: 0 <= i < |timeoutIds| ==>
        (timeoutIds[i] >= old(nextHandle) && timeoutIds[i] in timers && timers[timeoutIds[i]] == StormTimeout(i))
      ensures forall h :: h in old(timers) ==> h in timers && timers[h] == old(timers)[h]
      ensures forall h :: h in timers ==> h in old(timers) || h in intervalIds || h in timeoutIds
      ensures forall h :: h in intervalIds || h in timeoutIds ==> h >= old(nextHandle)
      ensures metrics.lastAction == "Started " + IntToString(count) + " intervals"
      ensures sandbox == old(sandbox) && metrics.nodesCreated == old(metrics.nodesCreated)
      ensures metrics.lastDuration == DurationOrZero(Finite(elapsed)) && metrics.lastActionTime == now
      ensures viewTitle == old(viewTitle) && viewChips == old(viewChips)
    {
      var base := nextHandle;
      var t, ids := SetTimers(timers, base, count, true);
      var limit := Min(120, count);
      var t2, tids := SetTimers(t, base + count, limit, false);
      timers, intervalIds, timeoutIds, nextHandle := t2, ids, tids, base + count + limit;
      metrics.intervalsRunning := count;
      metrics.Set("Started " + IntToString(count) + " intervals", Finite(elapsed), now);
    }

    /**
     * `renderRoute(hash)`: an unknown hash shows the overview; the DOM route
     * adds 60 chips to the freshly written view; the `softnav` tracepoint
     * carries the hash as given.
     */
    method RenderRoute(hash: string, elapsed: real, now: string) returns (tag: seq<Value>)
      modifies this, metrics
      ensures tag == [Str("tracepoint"), Str("softnav"), Str(hash)]
      ensures viewTitle == RouteTitle(RouteFor(hash))
      ensures viewChips == if RouteFor(hash) == "#dom" then 60 else 0
      ensures metrics.lastAction == "Soft navigation \U{2192} " + hash
      ensures metrics.lastDuration == DurationOrZero(Finite(elapsed)) && metrics.lastActionTime == now
      ensures metrics.nodesCreated == old(metrics.nodesCreated) && metrics.intervalsRunning == old(metrics.intervalsRunning)
      ensures sandbox == old(sandbox) && timers == old(timers) && intervalIds == old(intervalIds)
        && timeoutIds == old(timeoutIds) && nextHandle == old(nextHandle)
    {
      var key := RouteFor(hash);
      viewTitle := RouteTitle(key);
      viewChips := 0;
      if key == "#dom" {
        viewChips := viewChips + 60;
      } else if key == "#compute" {
        metrics.Set("Soft nav compute blip", Finite(elapsed), now);
      }
      tag := [Str("tracepoint"), Str("softnav"), Str(hash)];
      metrics.Set("Soft navigation \U{2192} " + hash, Finite(elapsed), now);
    }
  }

  /**
   * A storm followed by a stop leaves none of its timers pending, and the
   * page's other timers as they were.
   */
  method StormThenStop(lab: Lab, v: string, e1: real, e2: real, e3: real, now: string)
    requires lab.Valid() && lab.intervalIds == []
    modifies lab, lab.metrics
    ensures lab.Valid() && lab.timers == old(lab.timers) && lab.metrics.intervalsRunning == 0
  {
    lab.StartStorm(v, e1, e2, now);
    ghost var started := lab.timers;
    lab.StopStorm(e3, now);
    assert lab.timers == old(lab.timers);
  }
}
