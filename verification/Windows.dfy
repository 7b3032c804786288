/**
  The fixed dispatch window.  A facet's window opens at its first claim and
  counts claims until it runs out; selection and consumption look at the same
  instant, so the count never passes the limit.
 */
module Windows {
  import opened Tables
  import opened Ingress
  import opened Dispatch

  // ---- Counting ----

  lemma {:induction false} CountConcat(a: seq<int>, b: seq<int>, lo: int, hi: int)
    ensures CountIn(a + b, lo, hi) == CountIn(a, lo, hi) + CountIn(b, lo, hi)
  {
    if b == [] {
      assert a + b == a;
    } else {
      var n := |b| - 1;
      assert (a + b)[..|a| + n] == a + b[..n];
      CountConcat(a, b[..n], lo, hi);
    }
  }

  lemma {:induction false} CountAtMost(log: seq<int>, lo: int, hi: int)
    ensures CountIn(log, lo, hi) <= |log|
  {
    if log != [] { CountAtMost(log[..|log| - 1], lo, hi); }
  }

  lemma {:induction false} CountWider(log: seq<int>, lo: int, hi: int, lo': int, hi': int)
    requires lo' <= lo && hi <= hi'
    ensures CountIn(log, lo, hi) <= CountIn(log, lo', hi')
  {
    if log != [] { CountWider(log[..|log| - 1], lo, hi, lo', hi'); }
  }

  // ---- One facet under an unchanged rule ----

  /** The claims made in the open window come last; `older` are those of earlier windows. */
  function Older(log: seq<int>, count: nat): seq<int>
    requires count <= |log|
  {
    log[..|log| - count]
  }

  /**
    The window that opened at `start` has counted the last `count` claims, and the window before it held at
    most `m`.
   */
  predicate InWindow(log: seq<int>, count: nat, start: int, w: Millis, m: nat) {
    && 1 <= count <= m && count <= |log|
    && (forall i | 0 <= i < |log| - count :: log[i] < start)
    && (forall i | |log| - count <= i < |log| :: start <= log[i] < start + w)
    && CountIn(Older(log, count), start - w + 1, start) <= m
  }

  /** Claims in the span of length `w` that starts at `t`. */
  function Span(log: seq<int>, w: Millis, t: int): nat {
    CountIn(log, t, t + w)
  }

  /** Every span as long as the window holds at most `2 * m` claims. */
  ghost predicate SpansHold(log: seq<int>, w: Millis, m: nat) {
    forall t: int :: Span(log, w, t) <= 2 * m
  }

  ghost predicate Paced(rule: Rule, c: Option<WindowCount>, log: seq<int>) {
    && (c.None? <==> log == [])
    && (c.Some? ==>
          && 0 <= c.value.count
          && InWindow(log, c.value.count, c.value.expiresAt - rule.windowMs, rule.windowMs, rule.maxJobs))
    && SpansHold(log, rule.windowMs, rule.maxJobs)
  }

  /** Claims newer than a window's length before `now` all belong to the window that has just run out. */
  lemma RecentAreOneWindow(log: seq<int>, count: nat, start: int, w: Millis, m: nat, lo: int, hi: int)
    requires InWindow(log, count, start, w, m) && start <= lo
    ensures CountIn(log, lo, hi) <= m
  {
    var older, last := Older(log, count), log[|log| - count..];
    assert log == older + last;
    CountConcat(older, last, lo, hi);
    NoneLater(older, lo, hi);
    CountAtMost(last, lo, hi);
  }

  lemma OpensWindow(log: seq<int>, w: Millis, m: nat, now: int)
    requires m >= 1 && SpansHold(log, w, m)
    requires forall i | 0 <= i < |log| :: log[i] < now
    requires forall lo, hi | now - w < lo :: CountIn(log, lo, hi) <= m
    ensures InWindow(log + [now], 1, now, w, m) && SpansHold(log + [now], w, m)
  {
    assert Older(log + [now], 1) == log;
    forall t: int ensures Span(log + [now], w, t) <= 2 * m {
      CountAppend(log, now, t, t + w);
      assert Span(log, w, t) <= 2 * m;
    }
  }

  lemma CountsOn(log: seq<int>, count: nat, start: int, w: Millis, m: nat, now: int)
    requires InWindow(log, count, start, w, m) && SpansHold(log, w, m) && count < m
    requires log[|log| - 1] <= now < start + w
    ensures InWindow(log + [now], count + 1, start, w, m) && SpansHold(log + [now], w, m)
  {
    var older, last := Older(log, count), log[|log| - count..];
    assert Older(log + [now], count + 1) == older && log == older + last;
    forall t: int ensures Span(log + [now], w, t) <= 2 * m {
      CountAppend(log, now, t, t + w);
      assert Span(log, w, t) <= 2 * m;
      if t <= now < t + w {
        CountConcat(older, last, t, t + w);
        CountAtMost(last, t, t + w);
        OlderInSpan(older, start, w, t);
      }
    }
  }

  /** Claims of earlier windows in a span that reaches past `start - w`. */
  lemma OlderInSpan(older: seq<int>, start: int, w: Millis, t: int)
    requires start - w < t && forall i | 0 <= i < |older| :: older[i] < start
    ensures CountIn(older, t, t + w) <= CountIn(older, start - w + 1, start)
  {
    if t <= start {
      CountSplit(older, t, start, t + w);
      NoneLater(older, start, t + w);
      CountWider(older, t, start, start - w + 1, start);
    } else {
      NoneLater(older, t, t + w);
    }
  }

  /** A claim that selection let through keeps the window within its limit and every span within twice the limit. */
  lemma ConsumeKeepsPace(rule: Rule, c: Option<WindowCount>, log: seq<int>, now: int)
    requires Paced(rule, c, log) && (log != [] ==> log[|log| - 1] <= now) && now + rule.windowMs <= I64_MAX
    requires -I64_MAX - 1 <= now + rule.windowMs
    requires rule.maxJobs > 0 && !(c.Some? && c.value.expiresAt > now && c.value.count >= rule.maxJobs)
    ensures Paced(rule, Some(Consumed(c, rule.windowMs, now)), log + [now])
  {
    var w, m := rule.windowMs, rule.maxJobs;
    if c.None? {
      OpensWindow(log, w, m, now);
    } else {
      var start := c.value.expiresAt - w;
      if c.value.expiresAt <= now {
        forall lo, hi | now - w < lo ensures CountIn(log, lo, hi) <= m {
          RecentAreOneWindow(log, c.value.count, start, w, m, lo, hi);
        }
        OpensWindow(log, w, m, now);
      } else {
        CountsOn(log, c.value.count, start, w, m, now);
      }
    }
  }

  // ---- All facets ----

  ghost predicate RateAt(rules: map<string, Rule>, counts: map<string, WindowCount>, claims: map<string, seq<int>>,
                         clock: int, f: string) {
    if f in rules
    then Paced(rules[f], Lookup(counts, f), Times(claims, f))
         && (Times(claims, f) != [] ==> Times(claims, f)[|Times(claims, f)| - 1] <= clock)
    else f !in counts
  }

  ghost predicate RateLaw(s: Store, claims: map<string, seq<int>>, clock: int) {
    forall f: string :: RateAt(s.rateRules, s.rateCounts, claims, clock, f)
  }

  /** Clock readings that no window added to them can push past the end of time. */
  ghost predicate FarFromEnd(rules: map<string, Rule>, now: int) {
    -I64_MAX - 1 <= now && forall f | f in rules :: now + rules[f].windowMs <= I64_MAX
  }

  function Claimed(claims: map<string, seq<int>>, facet: Option<string>, now: int): map<string, seq<int>> {
    if facet.None? then claims else claims[facet.value := Times(claims, facet.value) + [now]]
  }

  lemma ClaimKeepsRate(s: Store, claims: map<string, seq<int>>, clock: int, facet: Option<string>, now: int, f: string)
    requires RateAt(s.rateRules, s.rateCounts, claims, clock, f) && clock <= now && FarFromEnd(s.rateRules, now)
    requires facet.Some? ==> !FacetBlocked(s, facet.value, now)
    ensures RateAt(s.rateRules, Consume(s, facet, now), Claimed(claims, facet, now), now, f)
  {
    if f in s.rateRules && facet == Some(f) {
      ConsumeKeepsPace(s.rateRules[f], Lookup(s.rateCounts, f), Times(claims, f), now);
    }
  }

  lemma FreshRule(rule: Rule)
    ensures Paced(rule, None, [])
  {
  }

  /** Setting or removing a rule starts the facet's window afresh. */
  lemma RuleStartsAfresh(rules: map<string, Rule>, counts: map<string, WindowCount>, claims: map<string, seq<int>>,
                         clock: int, f: string, facet: string, rule: Rule)
    requires RateAt(rules, counts, claims, clock, f)
    ensures RateAt(rules[facet := rule], counts - {facet}, claims - {facet}, clock, f)
    ensures RateAt(rules - {facet}, counts - {facet}, claims - {facet}, clock, f)
  {
    FreshRule(rule);
  }

  /**
    While a rule stands, its count stays within the limit and any span of its window's length holds at most
    twice it.
   */
  lemma RateSpan(s: Store, claims: map<string, seq<int>>, clock: int, f: string, t: int)
    requires RateLaw(s, claims, clock) && f in s.rateRules
    ensures f in s.rateCounts ==> 1 <= s.rateCounts[f].count <= s.rateRules[f].maxJobs
    ensures Span(Times(claims, f), s.rateRules[f].windowMs, t) <= 2 * s.rateRules[f].maxJobs
  {
    assert RateAt(s.rateRules, s.rateCounts, claims, clock, f);
  }
}
