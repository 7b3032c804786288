/**
  The sliding ingress window: two adjacent counters stand for the admissions of
  the last two windows, and the older one fades out linearly.  `f64` is modelled
  by `real`.
 */
module Ingress {
  import opened Tables

  /** Moves the pair of counters forward until `now` lies in the current window. */
  function Roll(b: Bucket, now: int, w: Millis): Bucket {
    var elapsed := now - b.start;
    if elapsed < w then b
    else if elapsed / w == 1 then Bucket(b.start + w, 0, b.current)
    else Bucket(now - elapsed % w, 0, 0)
  }

  function Clamp(x: real): real {
    if x < 0.0 then 0.0 else if x > 1.0 then 1.0 else x
  }

  function Estimate(b: Bucket, now: int, w: Millis): real {
    var weight := Clamp((w as real - (now - b.start) as real) / w as real);
    b.previous as real * weight + b.current as real
  }

  function Current(existing: Option<Bucket>, now: int, w: Millis): Bucket {
    Roll(if existing.Some? then existing.value else Bucket(now, 0, 0), now, w)
  }

  /** The bucket to store if one more job may enter, else `None`. */
  function AdmitOne(rule: Rule, existing: Option<Bucket>, now: int): Option<Bucket> {
    if rule.maxJobs == 0 then None
    else
      var b := Current(existing, now, rule.windowMs);
      if Estimate(b, now, rule.windowMs) >= rule.maxJobs as real then None
      else Some(b.(current := b.current + 1))
  }

  /** `admit`: the counters after an admission, or `None` if the facet is throttled. */
  function Admit(rules: map<string, Rule>, counts: map<string, Bucket>, facet: string,
                 now: int): Option<map<string, Bucket>> {
    if facet !in rules then Some(counts)
    else
      var existing := if facet in counts then Some(counts[facet]) else None;
      match AdmitOne(rules[facet], existing, now)
      case None => None
      case Some(b) => Some(counts[facet := b])
  }

  /** `status`: what an operator is told at `now`. */
  function Throttled(rules: map<string, Rule>, counts: map<string, Bucket>, facet: string, now: int): bool {
    if facet !in rules then false
    else
      var rule := rules[facet];
      var estimated := if facet in counts
        then Estimate(Roll(counts[facet], now, rule.windowMs), now, rule.windowMs) else 0.0;
      rule.maxJobs == 0 || estimated >= rule.maxJobs as real
  }

  /** The reported status is the admission decision. */
  lemma StatusAgreesWithAdmit(rules: map<string, Rule>, counts: map<string, Bucket>, facet: string, now: int)
    ensures Throttled(rules, counts, facet, now) <==> Admit(rules, counts, facet, now).None?
  {
  }

  // ---- Rolling ----

  lemma MulNonneg(d: nat, w: nat)
    ensures 0 <= d * w
  {
  }

  lemma MulMono(a: int, b: int, w: Millis)
    ensures a <= b ==> a * w <= b * w
    ensures a < b ==> a * w + w <= b * w
  {
    if a < b {
      MulNonneg(b - a - 1, w);
      assert (b - a - 1) * w == b * w - a * w - w;
    }
  }

  lemma DivSteps(x: int, w: Millis, k: int)
    requires k * w <= x < k * w + w
    ensures x / w == k
  {
    var q := x / w;
    assert x == q * w + x % w;
    MulMono(q, k, w);
    MulMono(k, q, w);
  }

  /** Rolled, the window holds `now` and still starts a whole number of windows later. */
  lemma RollLands(b: Bucket, now: int, w: Millis)
    requires b.start <= now
    ensures var r, k := Roll(b, now, w), (now - b.start) / w;
            && 0 <= k
            && r.start <= now < r.start + w
            && r.start == b.start + k * w
            && r == (if k == 0 then b else if k == 1 then Bucket(r.start, 0, b.current) else Bucket(r.start, 0, 0))
  {
    var elapsed := now - b.start;
    assert elapsed == (elapsed / w) * w + elapsed % w;
    if elapsed < w { DivSteps(elapsed, w, 0); }
    MulMono(elapsed / w, 0, w);
  }

  lemma DivOf(x: int, w: Millis)
    ensures (x / w) * w <= x < (x / w) * w + w
  {
  }

  lemma StepsBetween(x: int, y: int, w: Millis, p: int, q: int)
    requires 0 <= x <= y && p * w <= x < p * w + w && q * w <= y < q * w + w
    ensures 0 <= p <= q
    ensures (q - p) * w <= y - p * w < (q - p) * w + w
  {
    MulMono(q, p, w);
    MulMono(p, 0, w);
    assert (q - p) * w == q * w - p * w;
  }

  lemma QuotientsAdd(x: nat, y: nat, w: Millis)
    requires x <= y
    ensures (y - (x / w) * w) / w == y / w - x / w
    ensures 0 <= x / w <= y / w
  {
    DivOf(x, w);
    DivOf(y, w);
    var p, q := x / w, y / w;
    StepsBetween(x, y, w, p, q);
    DivSteps(y - p * w, w, q - p);
  }

  /** Rolling in two steps is rolling in one. */
  lemma RollComposes(b: Bucket, t1: int, t2: int, w: Millis)
    requires b.start <= t1 <= t2
    ensures Roll(Roll(b, t1, w), t2, w) == Roll(b, t2, w)
  {
    RollLands(b, t1, w);
    RollLands(b, t2, w);
    QuotientsAdd(t1 - b.start, t2 - b.start, w);
    RollAgain(b, Roll(b, t1, w), t2, w, (t1 - b.start) / w, (t2 - b.start) / w);
  }

  lemma RollAgain(b: Bucket, r: Bucket, now: int, w: Millis, k1: nat, k2: nat)
    requires b.start <= r.start <= now && k1 <= k2
    requires r == (if k1 == 0 then b else if k1 == 1 then Bucket(r.start, 0, b.current) else Bucket(r.start, 0, 0))
    requires (now - b.start) / w == k2 && (now - r.start) / w == k2 - k1
    requires r.start == b.start + k1 * w
    ensures Roll(r, now, w) == Roll(b, now, w)
  {
    RollLands(b, now, w);
    RollLands(r, now, w);
    assert k2 * w == k1 * w + (k2 - k1) * w;
  }

  // ---- The estimate in whole numbers ----

  lemma ScaleUp(x: real, y: real, w: real)
    requires w > 0.0
    ensures x >= y <==> x * w >= y * w
  {
  }

  /** The weight of the previous window, cleared of its division. */
  lemma WeightExact(e: real, w: real)
    requires 0.0 <= e <= w && w > 0.0
    ensures Clamp((w - e) / w) * w == w - e
  {
    var weight := (w - e) / w;
    assert weight * w == w - e && 0.0 * w == 0.0 && 1.0 * w == w;
    ScaleUp(weight, 0.0, w);
    ScaleUp(1.0, weight, w);
    assert 0.0 <= weight <= 1.0;
  }

  lemma Distribute(p: real, x: real, c: real, w: real)
    ensures (p * x + c) * w == p * (x * w) + c * w
  {
  }

  /** Throttled exactly when P * (w - e) + c * w reaches m * w. */
  lemma EstimateExact(b: Bucket, now: int, w: Millis, m: nat)
    requires b.start <= now < b.start + w
    ensures var e := now - b.start;
            Estimate(b, now, w) >= m as real <==> b.previous * (w - e) + b.current * w >= m * w
  {
    var e := now - b.start;
    var weight := Clamp((w as real - e as real) / w as real);
    WeightExact(e as real, w as real);
    ScaleUp(Estimate(b, now, w), m as real, w as real);
    Distribute(b.previous as real, weight, b.current as real, w as real);
    Exactly(b.previous, w - e, b.current, w, m);
  }

  lemma Exactly(p: int, d: int, c: int, w: int, m: int)
    ensures (p as real) * (d as real) + (c as real) * (w as real) >= (m as real) * (w as real)
            <==> p * d + c * w >= m * w
  {
    Product(p, d);
    Product(c, w);
    Product(m, w);
  }

  lemma Product(a: int, b: int)
    ensures (a as real) * (b as real) == (a * b) as real
  {
  }

  // ---- Admissions of one facet under an unchanged rule ----

  /** The times recorded for a facet. */
  function Times(m: map<string, seq<int>>, f: string): seq<int> {
    if f in m then m[f] else []
  }

  /** How many of the recorded times lie in [lo, hi). */
  function CountIn(log: seq<int>, lo: int, hi: int): nat {
    if log == [] then 0
    else
      var n := |log| - 1;
      CountIn(log[..n], lo, hi) + if lo <= log[n] < hi then 1 else 0
  }

  predicate Ordered(log: seq<int>) {
    forall i, j | 0 <= i < j < |log| :: log[i] <= log[j]
  }

  /** Start of the `k`-th window of the grid whose first window starts at `a`. */
  function Grid(a: int, w: Millis, k: int): int {
    a + k * w
  }

  /** Admissions in the `k`-th window of the grid anchored at the first admission. */
  function Window(log: seq<int>, w: Millis, k: int): nat
    requires log != []
  {
    CountIn(log, Grid(log[0], w, k), Grid(log[0], w, k) + w)
  }

  /** The pair counts the `k`-th window, which the last admission lies in or before, and the one before it. */
  predicate CountsAt(b: Bucket, log: seq<int>, w: Millis, k: int) {
    && log != []
    && b.start == Grid(log[0], w, k)
    && log[|log| - 1] < b.start + w
    && b.current == Window(log, w, k)
    && b.previous == Window(log, w, k - 1)
  }

  /** What the table holds for a facet agrees with its admissions since the rule was set. */
  ghost predicate Agrees(b: Option<Bucket>, log: seq<int>, w: Millis) {
    && Ordered(log)
    && (b.None? <==> log == [])
    && (b.Some? ==> b.value.start <= log[|log| - 1] && exists k: int :: CountsAt(b.value, log, w, k))
  }

  /** No window of the grid ever admitted more than `m`. */
  ghost predicate WindowsHold(log: seq<int>, w: Millis, m: nat) {
    log != [] ==> forall k: int :: Window(log, w, k) <= m
  }

  /** The grid window a time lies in, and how far into it. */
  function WindowOf(log: seq<int>, w: Millis, now: int): int
    requires log != []
  {
    (now - log[0]) / w
  }

  function OffsetIn(log: seq<int>, w: Millis, now: int): int
    requires log != []
  {
    (now - log[0]) % w
  }

  /**
    The `j`-th admission was let in with room: w * (P + c) < w * (m + 1) + P * e, where c counts the admissions
    of its own window up to and with it, P those of the window before, and e is its offset.
   */
  predicate RoomAt(log: seq<int>, w: Millis, m: nat, j: nat)
    requires j < |log|
  {
    var k, sofar := WindowOf(log, w, log[j]), log[..j + 1];
    var c, p := Window(sofar, w, k), Window(sofar, w, k - 1);
    w * (p + c) < w * (m + 1) + p * OffsetIn(log, w, log[j])
  }

  predicate RoomLeft(log: seq<int>, w: Millis, m: nat) {
    forall j | 0 <= j < |log| :: RoomAt(log, w, m, j)
  }

  lemma {:induction false} NoneLater(log: seq<int>, lo: int, hi: int)
    requires forall i | 0 <= i < |log| :: log[i] < lo
    ensures CountIn(log, lo, hi) == 0
  {
    if log != [] { NoneLater(log[..|log| - 1], lo, hi); }
  }

  lemma GridStep(a: int, w: Millis, k: int, d: int)
    ensures Grid(a, w, k + d) == Grid(a, w, k) + d * w
  {
    assert (k + d) * w == k * w + d * w;
  }

  /** Rolled to `now`, the pair counts the grid window of `now` and the one before. */
  lemma RollCounts(b: Bucket, log: seq<int>, w: Millis, k: int, now: int)
    requires CountsAt(b, log, w, k) && Ordered(log) && log[|log| - 1] <= now && b.start <= now
    ensures CountsAt(Roll(b, now, w), log, w, k + (now - b.start) / w)
    ensures Roll(b, now, w).start <= now < Roll(b, now, w).start + w
  {
    RollLands(b, now, w);
    var r, d := Roll(b, now, w), (now - b.start) / w;
    GridStep(log[0], w, k, d);
    GridStep(log[0], w, k, d - 1);
    GridStep(log[0], w, k, 0);
    assert (d - 1) * w == d * w - w;
    if d >= 1 {
      MulMono(1, d, w);
      NoneLater(log, r.start, r.start + w);
      if d >= 2 {
        MulMono(2, d, w);
        NoneLater(log, r.start - w, r.start);
      }
    }
  }

  /** Whatever is stored, the counters used for a decision at `now` are those of the grid. */
  lemma CurrentCounts(b: Option<Bucket>, log: seq<int>, w: Millis, now: int) returns (k: int)
    requires Agrees(b, log, w) && (log != [] ==> log[|log| - 1] <= now)
    ensures Current(b, now, w).start <= now < Current(b, now, w).start + w
    ensures log != [] ==> CountsAt(Current(b, now, w), log, w, k)
    ensures log == [] ==> Current(b, now, w) == Bucket(now, 0, 0)
  {
    if b.Some? {
      var k0: int :| CountsAt(b.value, log, w, k0);
      RollCounts(b.value, log, w, k0, now);
      k := k0 + (now - b.value.start) / w;
    } else {
      k := 0;
    }
  }

  /** The window of a decision is that of its time. */
  lemma LandsIn(log: seq<int>, w: Millis, now: int, k: int)
    requires log != [] && Grid(log[0], w, k) <= now < Grid(log[0], w, k) + w
    ensures WindowOf(log, w, now) == k && OffsetIn(log, w, now) == now - Grid(log[0], w, k)
  {
    DivSteps(now - log[0], w, k);
    assert now - log[0] == k * w + (now - log[0]) % w;
  }

  /**
    A job is refused at `now` exactly when P * (w - e) + c * w reaches m * w, with P and c counting the
    admissions of the previous and of the current grid window; before the first admission, exactly when m is 0.
   */
  lemma Decision(rule: Rule, b: Option<Bucket>, log: seq<int>, now: int)
    requires Agrees(b, log, rule.windowMs) && (log != [] ==> log[|log| - 1] <= now)
    ensures log == [] ==> (AdmitOne(rule, b, now).None? <==> rule.maxJobs == 0)
    ensures log != [] ==>
              var w, k, e := rule.windowMs, WindowOf(log, rule.windowMs, now), OffsetIn(log, rule.windowMs, now);
              (AdmitOne(rule, b, now).None? <==>
               Window(log, w, k - 1) * (w - e) + Window(log, w, k) * w >= rule.maxJobs * w)
  {
    var w, m := rule.windowMs, rule.maxJobs;
    var k := CurrentCounts(b, log, w, now);
    EstimateExact(Current(b, now, w), now, w, m);
    if log != [] {
      LandsIn(log, w, now, k);
      if m == 0 {
        Nonneg(Window(log, w, k - 1), w - OffsetIn(log, w, now));
        Nonneg(Window(log, w, k), w);
      }
    }
  }

  lemma Nonneg(a: nat, b: nat)
    ensures a * b >= 0
  {
  }

  // ---- One more admission ----

  lemma CountAppend(log: seq<int>, t: int, lo: int, hi: int)
    ensures CountIn(log + [t], lo, hi) == CountIn(log, lo, hi) + if lo <= t < hi then 1 else 0
  {
    assert (log + [t])[..|log|] == log;
  }

  /** A time lies in one window of the grid only. */
  lemma OneWindow(a: int, w: Millis, j: int, k: int, t: int)
    requires Grid(a, w, k) <= t < Grid(a, w, k) + w
    ensures Grid(a, w, j) <= t < Grid(a, w, j) + w <==> j == k
  {
    MulMono(j, k, w);
    MulMono(k, j, w);
  }

  lemma WindowAppend(log: seq<int>, w: Millis, k: int, t: int, j: int)
    requires log != [] && Grid(log[0], w, k) <= t < Grid(log[0], w, k) + w
    ensures Window(log + [t], w, j) == Window(log, w, j) + if j == k then 1 else 0
  {
    OneWindow(log[0], w, j, k, t);
    CountAppend(log, t, Grid(log[0], w, j), Grid(log[0], w, j) + w);
  }

  lemma FirstWindow(w: Millis, t: int, j: int)
    ensures Window([t], w, j) == if j == 0 then 1 else 0
  {
    OneWindow(t, w, j, 0, t);
    CountAppend([], t, Grid(t, w, j), Grid(t, w, j) + w);
    assert [] + [t] == [t];
  }

  lemma OrderedAppend(log: seq<int>, t: int)
    requires Ordered(log) && (log != [] ==> log[|log| - 1] <= t)
    ensures Ordered(log + [t])
  {
  }

  /**
    An admission keeps the counters in agreement with the admissions, keeps every window within
    the limit, and happens only while w * (P + c) < w * (m + 1) + P * e, where c counts it.
   */
  lemma AdmissionKeeps(rule: Rule, b: Option<Bucket>, log: seq<int>, now: int)
    requires Agrees(b, log, rule.windowMs) && WindowsHold(log, rule.windowMs, rule.maxJobs)
    requires log != [] ==> log[|log| - 1] <= now
    requires AdmitOne(rule, b, now).Some?
    ensures Agrees(AdmitOne(rule, b, now), log + [now], rule.windowMs)
    ensures WindowsHold(log + [now], rule.windowMs, rule.maxJobs)
    ensures var s, w := AdmitOne(rule, b, now).value, rule.windowMs;
            var e := now - s.start;
            0 <= e < w && w * (s.previous + s.current) < w * (rule.maxJobs + 1) + s.previous * e
  {
    var w, m := rule.windowMs, rule.maxJobs;
    var k := CurrentCounts(b, log, w, now);
    var c := Current(b, now, w);
    var s, log' := AdmitOne(rule, b, now).value, log + [now];
    EstimateExact(c, now, w, m);
    Room(c, now, w, m);
    OrderedAppend(log, now);
    if log == [] {
      assert log' == [now];
      FirstWindow(w, now, 0);
      FirstWindow(w, now, -1);
      assert CountsAt(s, log', w, 0);
      forall j: int ensures Window(log', w, j) <= m { FirstWindow(w, now, j); }
    } else {
      WindowAppend(log, w, k, now, k);
      WindowAppend(log, w, k, now, k - 1);
      assert CountsAt(s, log', w, k);
      forall j: int ensures Window(log', w, j) <= m { WindowAppend(log, w, k, now, j); }
    }
  }

  lemma RoomStays(log: seq<int>, w: Millis, m: nat, t: int, j: nat)
    requires j < |log| && RoomAt(log, w, m, j)
    ensures RoomAt(log + [t], w, m, j)
  {
    assert (log + [t])[..j + 1] == log[..j + 1];
  }

  /** The admission itself had room. */
  lemma RoomForNew(log: seq<int>, w: Millis, m: nat, s: Bucket, k: int)
    requires CountsAt(s, log, w, k) && s.start <= log[|log| - 1]
    requires w * (s.previous + s.current) < w * (m + 1) + s.previous * (log[|log| - 1] - s.start)
    ensures RoomAt(log, w, m, |log| - 1)
  {
    LandsIn(log, w, log[|log| - 1], k);
    assert log[..|log| - 1 + 1] == log;
  }

  /** So every admission leaves every admission with room. */
  lemma RoomKept(rule: Rule, b: Option<Bucket>, log: seq<int>, now: int)
    requires Agrees(b, log, rule.windowMs) && WindowsHold(log, rule.windowMs, rule.maxJobs)
    requires log != [] ==> log[|log| - 1] <= now
    requires AdmitOne(rule, b, now).Some? && RoomLeft(log, rule.windowMs, rule.maxJobs)
    ensures RoomLeft(log + [now], rule.windowMs, rule.maxJobs)
  {
    var w, m, log' := rule.windowMs, rule.maxJobs, log + [now];
    AdmissionKeeps(rule, b, log, now);
    var s := AdmitOne(rule, b, now).value;
    var k: int :| CountsAt(s, log', w, k);
    RoomForNew(log', w, m, s, k);
    forall j | 0 <= j < |log'| ensures RoomAt(log', w, m, j) {
      if j < |log| { RoomStays(log, w, m, now, j); }
    }
  }

  lemma Room(c: Bucket, now: int, w: Millis, m: nat)
    requires c.start <= now < c.start + w && 0 <= c.previous
    requires c.previous * (w - (now - c.start)) + c.current * w < m * w
    ensures c.current < m
    ensures w * (c.previous + (c.current + 1)) < w * (m + 1) + c.previous * (now - c.start)
  {
    var e := now - c.start;
    assert c.previous * (w - e) == c.previous * w - c.previous * e;
    assert c.previous * (w - e) >= 0;
    MulMono(m, c.current, w);
  }

  // ---- Any span of one window length ----

  lemma {:induction false} CountSplit(log: seq<int>, lo: int, mid: int, hi: int)
    requires lo <= mid <= hi
    ensures CountIn(log, lo, hi) == CountIn(log, lo, mid) + CountIn(log, mid, hi)
  {
    if log != [] { CountSplit(log[..|log| - 1], lo, mid, hi); }
  }

  /** Any span as long as the window admits at most twice the limit. */
  lemma SpanBound(log: seq<int>, w: Millis, m: nat, t: int)
    requires WindowsHold(log, w, m)
    ensures CountIn(log, t, t + w) <= 2 * m
  {
    if log != [] {
      var a := log[0];
      var k := (t - a) / w;
      assert t - a == k * w + (t - a) % w;
      GridStep(a, w, k, 1);
      var lo, mid, hi := Grid(a, w, k), Grid(a, w, k + 1), Grid(a, w, k + 1) + w;
      assert lo <= t < mid <= t + w <= hi && mid == lo + w;
      CountSplit(log, lo, t, mid);
      CountSplit(log, t, mid, t + w);
      CountSplit(log, mid, t + w, hi);
      assert Window(log, w, k) <= m && Window(log, w, k + 1) <= m;
    }
  }
}
