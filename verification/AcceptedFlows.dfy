/**
  Which trees a call accepts, said of the nodes they are made of.
 */
module AcceptedFlows {
  import opened Tables
  import opened Flatten
  import opened Flow
  import opened FlowRows
  import opened FlowCalls

  predicate Fine(b: Body) {
    && (b.key == "" || (!Blank(b.key) && Utf8Length(b.key) <= 256))
    && 0 <= b.delayMs && 0 <= b.backoffMs && 0 <= b.backoffMaxMs
    && (b.backoffMaxMs == 0 || b.backoffMs <= b.backoffMaxMs)
    && 0.0 <= b.jitter <= 1.0
  }

  predicate AllFine(nodes: seq<FlowJob>) {
    forall i | 0 <= i < |nodes| :: Fine(nodes[i].body)
  }

  lemma FineSplit(a: seq<FlowJob>, b: seq<FlowJob>)
    ensures AllFine(a + b) <==> AllFine(a) && AllFine(b)
  {
    var c := a + b;
    if AllFine(c) {
      forall i | 0 <= i < |a| ensures Fine(a[i].body) { assert c[i] == a[i]; }
      forall i | 0 <= i < |b| ensures Fine(b[i].body) { assert c[|a| + i] == b[i]; }
    }
  }

  lemma FineOne(n: FlowJob)
    ensures AllFine([n]) <==> BodyOk(n.body)
  {
    assert AllFine([n]) <==> Fine([n][0].body);
  }

  lemma {:induction false} TreeFine(n: FlowJob)
    ensures TreeOk(n) <==> AllFine(Preorder(n))
    decreases n, 1
  {
    ForestFine(n.children);
    FineSplit([n], PreorderAll(n.children));
    FineOne(n);
  }

  lemma {:induction false} ForestFine(ns: seq<FlowJob>)
    ensures ForestOk(ns) <==> AllFine(PreorderAll(ns))
    decreases ns, 0
  {
    if ns != [] {
      TreeFine(ns[0]);
      ForestFine(ns[1..]);
      FineSplit(Preorder(ns[0]), PreorderAll(ns[1..]));
    }
  }

  /** The keys that nodes ask for, in order. */
  function KeysOf(nodes: seq<FlowJob>): seq<Slot> {
    if nodes == [] then []
    else (if nodes[0].body.key == "" then [] else [Slot(nodes[0].body.name, nodes[0].body.key)]) + KeysOf(nodes[1..])
  }

  lemma {:induction false} KeysConcat(a: seq<FlowJob>, b: seq<FlowJob>)
    ensures KeysOf(a + b) == KeysOf(a) + KeysOf(b)
    decreases |a|
  {
    if a == [] {
      assert a + b == b;
    } else {
      assert (a + b)[1..] == a[1..] + b;
      KeysConcat(a[1..], b);
    }
  }

  lemma KeysOfOne(n: FlowJob)
    ensures KeysOf([n]) == OwnSlots(n.body)
  {
    assert [n][1..] == [];
  }

  lemma {:induction false} TreeKeys(n: FlowJob)
    ensures KeysOf(Preorder(n)) == Slots(n)
    decreases n, 1
  {
    ForestKeys(n.children);
    KeysConcat([n], PreorderAll(n.children));
    KeysOfOne(n);
  }

  lemma {:induction false} ForestKeys(ns: seq<FlowJob>)
    ensures KeysOf(PreorderAll(ns)) == SlotsAll(ns)
    decreases ns, 0
  {
    if ns != [] {
      TreeKeys(ns[0]);
      ForestKeys(ns[1..]);
      KeysConcat(Preorder(ns[0]), PreorderAll(ns[1..]));
    }
  }

  /** Each tree is within the caps and made of fine nodes. */
  predicate AllFit(cfg: Config, flows: seq<FlowJob>) {
    forall f | 0 <= f < |flows| ::
      && Height(flows[f]) <= cfg.maxFlowDepth && Size(flows[f]) <= cfg.maxFlowNodes
      && AllFine(Preorder(flows[f]))
  }

  lemma FitSplit(cfg: Config, flows: seq<FlowJob>)
    requires flows != []
    ensures AllFit(cfg, flows) <==> AllFit(cfg, flows[..1]) && AllFit(cfg, flows[1..])
    ensures AllFit(cfg, flows[..1]) <==>
            Height(flows[0]) <= cfg.maxFlowDepth && Size(flows[0]) <= cfg.maxFlowNodes && AllFine(Preorder(flows[0]))
  {
    if AllFit(cfg, flows[..1]) && AllFit(cfg, flows[1..]) {
      forall f | 0 <= f < |flows|
        ensures Height(flows[f]) <= cfg.maxFlowDepth && Size(flows[f]) <= cfg.maxFlowNodes
        ensures AllFine(Preorder(flows[f]))
      {
        assert f > 0 ==> flows[f] == flows[1..][f - 1];
        assert flows[..1][0] == flows[0];
      }
    }
    assert flows[..1][0] == flows[0];
  }

  /**
    Trees are accepted together exactly if each is within the caps and made of fine nodes, and no key is asked
    for twice in the whole call or is among those seen before.
   */
  lemma {:induction false} AcceptedExactly(cfg: Config, flows: seq<FlowJob>, seen: set<Slot>)
    ensures AcceptableTrees(cfg, flows, seen) <==> AllFit(cfg, flows) && Unused(KeysOf(AllNodes(flows)), seen)
    decreases |flows|
  {
    if flows != [] {
      var a, b := Preorder(flows[0]), AllNodes(flows[1..]);
      AcceptedExactly(cfg, flows[1..], seen + SlotSet(Slots(flows[0])));
      FitSplit(cfg, flows);
      TreeFine(flows[0]);
      TreeKeys(flows[0]);
      KeysConcat(a, b);
      UnusedConcat(KeysOf(a), KeysOf(b), seen);
    }
  }
}
