/**
  Least recently served first.  Turn numbers stay distinct, nobody is served
  twice while somebody else who could be served waits, and while the same k
  facets compete, k claims serve each of them once.
 */
module Fairness {
  import opened Tables
  import opened Dispatch
  import opened Sets

  type Turns = map<string, Served>

  // ---- Turn numbers ----

  /** Turn numbers are positive and no two facets share one. */
  predicate Ranked(t: Turns) {
    && (forall f | f in t :: t[f].seqNo >= 1)
    && (forall f, g | f in t && g in t && f != g :: t[f].seqNo != t[g].seqNo)
  }

  predicate Serves(t: Turns, f: string, t': Turns) {
    f in t' && t' == t[f := t'[f]] && t'[f].seqNo == LastSeq(t) + 1
  }

  lemma ServingRanks(t: Turns, f: string, t': Turns)
    requires Ranked(t) && Serves(t, f, t')
    ensures Ranked(t')
  {
    LastSeqNonneg(t);
  }

  lemma LastSeqNonneg(t: Turns)
    requires Ranked(t)
    ensures LastSeq(t) >= 0
  {
  }

  lemma PruningRanks(t: Turns, gone: set<string>)
    requires Ranked(t)
    ensures Ranked(t - gone)
  {
  }

  /** The facet just served is behind every other one. */
  lemma ServedIsLast(t: Turns, f: string, t': Turns, g: string)
    requires Ranked(t) && Serves(t, f, t') && g != f
    ensures LastServed(t', g) < LastServed(t', f) && LastServed(t', g) == LastServed(t, g)
    ensures LastServed(t, f) < LastServed(t', f)
  {
    LastSeqNonneg(t);
  }

  // ---- A stretch of steps in which no turn is forgotten ----

  /** `tables[i + 1]` is `tables[i]` after serving `turns[i]`, if that step served anyone. */
  predicate Rounds(tables: seq<Turns>, turns: seq<Option<string>>) {
    && |tables| == |turns| + 1
    && Ranked(tables[0])
    && forall i | 0 <= i < |turns| :: Turn(tables[i], turns[i], tables[i + 1])
  }

  predicate Turn(t: Turns, f: Option<string>, t': Turns) {
    if f.None? then t' == t else Serves(t, f.value, t')
  }

  lemma {:induction false} StaysRanked(tables: seq<Turns>, turns: seq<Option<string>>, i: nat)
    requires Rounds(tables, turns) && i < |tables|
    ensures Ranked(tables[i])
  {
    if i > 0 {
      StaysRanked(tables, turns, i - 1);
      assert Turn(tables[i - 1], turns[i - 1], tables[i - 1 + 1]);
      if turns[i - 1].Some? { ServingRanks(tables[i - 1], turns[i - 1].value, tables[i]); }
    }
  }

  /** Until `b` is served, it stays ahead of `a`, which was served at step `i`. */
  lemma {:induction false} StaysAhead(tables: seq<Turns>, turns: seq<Option<string>>, i: nat, k: nat, a: string,
                                      b: string)
    requires Rounds(tables, turns) && i < k < |tables| && turns[i] == Some(a) && a != b
    requires forall j | i < j < k :: turns[j] != Some(b)
    ensures LastServed(tables[k], b) < LastServed(tables[k], a)
  {
    assert Turn(tables[k - 1], turns[k - 1], tables[k - 1 + 1]);
    StaysRanked(tables, turns, k - 1);
    if k == i + 1 {
      ServedIsLast(tables[i], a, tables[k], b);
    } else {
      StaysAhead(tables, turns, i, k - 1, a, b);
      if turns[k - 1].Some? {
        var c := turns[k - 1].value;
        ServedIsLast(tables[k - 1], c, tables[k], b);
        if c != a { ServedIsLast(tables[k - 1], c, tables[k], a); }
      }
    }
  }

  /** A facet is not served twice while another that was at least as entitled at the second time went unserved. */
  lemma NobodyIsSkipped(tables: seq<Turns>, turns: seq<Option<string>>, i: nat, k: nat, a: string, b: string)
    requires Rounds(tables, turns) && i < k < |turns| && turns[i] == Some(a) && turns[k] == Some(a) && a != b
    requires LastServed(tables[k], a) <= LastServed(tables[k], b)
    ensures exists j :: i < j < k && turns[j] == Some(b)
  {
    if forall j | i < j < k :: turns[j] != Some(b) {
      StaysAhead(tables, turns, i, k, a, b);
    }
  }

  // ---- k facets, k claims ----

  /** Each step serves the facet of `field` that waited longest. */
  predicate Competes(tables: seq<Turns>, served: seq<string>, field: set<string>) {
    && |tables| == |served| + 1
    && forall i | 0 <= i < |served| ::
         served[i] in field && forall g | g in field :: LastServed(tables[i], served[i]) <= LastServed(tables[i], g)
  }

  function Everyone(served: seq<string>): seq<Option<string>> {
    seq(|served|, i requires 0 <= i < |served| => Some(served[i]))
  }

  function Among(served: seq<string>, lo: nat, hi: nat): set<string>
    requires lo <= hi <= |served|
  {
    set j | lo <= j < hi :: served[j]
  }

  lemma {:induction false} AmongSize(served: seq<string>, lo: nat, hi: nat)
    requires lo <= hi <= |served|
    ensures |Among(served, lo, hi)| <= hi - lo
    ensures (forall i, j | lo <= i < j < hi :: served[i] != served[j]) ==> |Among(served, lo, hi)| == hi - lo
    decreases hi - lo
  {
    if lo < hi {
      AmongSize(served, lo, hi - 1);
      assert Among(served, lo, hi) == Among(served, lo, hi - 1) + {served[hi - 1]};
    }
  }

  /** Between two turns of one facet every other facet of the field has a turn. */
  lemma OthersBetween(tables: seq<Turns>, served: seq<string>, field: set<string>, i: nat, k: nat)
    requires Rounds(tables, Everyone(served)) && Competes(tables, served, field)
    requires i < k < |served| && served[i] == served[k]
    ensures |field| <= k - i
  {
    var a := served[i];
    forall b | b in field - {a} ensures b in Among(served, i + 1, k) {
      NobodyIsSkipped(tables, Everyone(served), i, k, a, b);
      var j :| i < j < k && Everyone(served)[j] == Some(b);
      assert served[j] == b;
    }
    AmongSize(served, i + 1, k);
    SubsetSize(field - {a}, Among(served, i + 1, k));
    assert field == field - {a} + {a};
  }

  /** While exactly k facets compete, k claims serve each of them exactly once. */
  lemma RoundRobin(tables: seq<Turns>, served: seq<string>, field: set<string>)
    requires Rounds(tables, Everyone(served)) && Competes(tables, served, field) && |field| == |served|
    ensures forall i, k | 0 <= i < k < |served| :: served[i] != served[k]
    ensures Among(served, 0, |served|) == field
  {
    forall i, k | 0 <= i < k < |served| ensures served[i] != served[k] {
      if served[i] == served[k] { OthersBetween(tables, served, field, i, k); }
    }
    AmongSize(served, 0, |served|);
    SubsetSize(Among(served, 0, |served|), field);
  }

  // ---- What a poll does ----

  predicate Granted(cfg: Config, s: Store, r: PollRequest, now: int) {
    !BadPoll(r) && Pick(cfg, s, r.names, now).Some?
    && s.jobs[Pick(cfg, s, r.names, now).value].attempts + 1 <= U32_MAX
  }

  /** The facet a poll serves, if it hands out a job. */
  function TurnOf(cfg: Config, s: Store, r: PollRequest, now: int): Option<string> {
    if Granted(cfg, s, r, now) then Some(FacetKey(s.jobs[Pick(cfg, s, r.names, now).value])) else None
  }

  lemma PollTakesTurn(cfg: Config, s: Store, r: PollRequest, now: int, now2: int)
    requires cfg.fairness
    ensures Turn(s.facets, TurnOf(cfg, s, r, now), Poll(cfg, s, r, now, now2).0.facets)
  {
  }

  /** A granted poll serves a facet that has waited no less than any other eligible at its priority. */
  lemma LongestWaitFirst(cfg: Config, s: Store, r: PollRequest, now: int, y: Id)
    requires cfg.fairness && Granted(cfg, s, r, now) && Eligible(s, r.names, now, y)
    requires s.jobs[y].card.priority == s.jobs[Pick(cfg, s, r.names, now).value].card.priority
    ensures LastServed(s.facets, TurnOf(cfg, s, r, now).value) <= LastServed(s.facets, FacetKey(s.jobs[y]))
  {
    PickIsBest(cfg, s, r.names, now, y);
  }
}
