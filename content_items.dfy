/**
 * The item projection pass of src/mixins/ContentItemsMixin.js: the items
 * memoized on the identity of the component's content, the per-item
 * calculations and update descriptions, and the render step that captures
 * each item's original snapshot once and applies its updates.
 *
 * What the layers below this one supply (`super.items`, `super.itemCalcs`,
 * `super.itemUpdates`) arrives as a `Base` value on each call; a missing
 * layer is `null` or `None`.
 */
module ContentItemsMixin {
  import opened Dom

  /**
   * The lower layers' contributions, as seen at the time of one call;
   * `renders` says whether a lower layer defines a render step.
   */
  datatype Base = Base(
    renders: bool,
    items: NodeList?,
    calcs: Option<(Node, nat) -> Calcs>,
    updates: Option<(Node, Calcs, Props) -> Updates>)

  /**
   * `itemCalcs`: `{ index }` underneath whatever the lower layer computes,
   * so a lower layer's own `index` field wins.
   */
  function ItemCalcs(base: Option<(Node, nat) -> Calcs>, item: Node, index: nat): (r: Calcs)
    ensures base.None? ==> r == map["index" := Number(index)]
    ensures base.Some? ==> r.Keys == base.value(item, index).Keys + {"index"}
    ensures base.Some? ==> forall k :: k in base.value(item, index) ==> r[k] == base.value(item, index)[k]
    ensures base.None? || "index" !in base.value(item, index) ==> r["index"] == Number(index)
  {
    var lower := if base.Some? then base.value(item, index) else map[];
    map["index" := Number(index)] + lower
  }

  /** `itemUpdates`: the empty description unless a lower layer supplies one, which is kept as is. */
  function ItemUpdates(base: Option<(Node, Calcs, Props) -> Updates>, item: Node, calcs: Calcs, original: Props): (r: Updates)
    ensures base.None? ==> r == NoUpdates
    ensures base.Some? ==> r == base.value(item, calcs, original)
  {
    if base.Some? then base.value(item, calcs, original) else NoUpdates
  }

  /** Whether the items memo has been filled, and for which content (`previousContentKey`). */
  datatype Seen = Unseen | Seen(content: NodeList?)

  /** What render does, in order: the lower layer's render, then one update per item. */
  datatype Step = LowerRender | Apply(item: Node, index: nat, original: Props, update: Updates)

  /** The props of `n` after the updates for `n` among `steps` are applied, in order, to `props`. */
  function Replay(apply: (Props, Updates) -> Props, props: Props, steps: seq<Step>, n: Node): Props
  {
    if steps == [] then props
    else
      var last := steps[|steps| - 1];
      var before := Replay(apply, props, steps[..|steps| - 1], n);
      if last.Apply? && last.item == n then apply(before, last.update) else before
  }

  /** Replaying one more step changes only the node that step updates. */
  lemma ReplayAppend(apply: (Props, Updates) -> Props, props: Props, steps: seq<Step>, last: Step, n: Node)
    ensures Replay(apply, props, steps + [last], n)
      == if last.Apply? && last.item == n then apply(Replay(apply, props, steps, n), last.update)
         else Replay(apply, props, steps, n)
  {
    assert (steps + [last])[..|steps|] == steps;
  }

  predicate Touches(steps: seq<Step>, n: Node)
  {
    exists j :: 0 <= j < |steps| && steps[j].Apply? && steps[j].item == n
  }

  /** A node no step updates keeps its props. */
  lemma {:induction false} ReplayUntouched(apply: (Props, Updates) -> Props, props: Props, steps: seq<Step>, n: Node)
    requires !Touches(steps, n)
    ensures Replay(apply, props, steps, n) == props
  {
    if steps != [] {
      var init := steps[..|steps| - 1];
      assert !Touches(init, n) by {
        forall j | 0 <= j < |init| ensures !(init[j].Apply? && init[j].item == n) {
          assert init[j] == steps[j];
        }
      }
      ReplayUntouched(apply, props, init, n);
    }
  }

  /** When every step updates a different node, each node is updated exactly once, by its own step. */
  lemma {:induction false} ReplayOnce(apply: (Props, Updates) -> Props, props: Props, steps: seq<Step>, k: nat)
    requires k < |steps|
    requires forall j :: 0 <= j < |steps| ==> steps[j].Apply?
    requires forall i, j :: 0 <= i < j < |steps| ==> steps[i].item != steps[j].item
    ensures Replay(apply, props, steps, steps[k].item) == apply(props, steps[k].update)
  {
    var init := steps[..|steps| - 1];
    if k == |steps| - 1 {
      assert !Touches(init, steps[k].item) by {
        forall j | 0 <= j < |init| ensures !(init[j].Apply? && init[j].item == steps[k].item) {
          assert init[j] == steps[j];
        }
      }
      ReplayUntouched(apply, props, init, steps[k].item);
    } else {
      assert init[k] == steps[k];
      ReplayOnce(apply, props, init, k);
    }
  }

  /** The snapshot an item holds after render: the stored one, else what `current` reads from `props`. */
  function Settled(original: Option<Props>, props: Props, current: Props -> Props): (o: Option<Props>)
    ensures o.Some?
    ensures original.Some? ==> o == original
  {
    if original.Some? then original else Some(current(props))
  }

  /** The update render applies to `item` at `index`, from its calculations and its stored original. */
  function Planned(base: Base, item: Node, index: nat, original: Props): Updates
  {
    ItemUpdates(base.updates, item, ItemCalcs(base.calcs, item, index), original)
  }

  /** Every step is an update computed from its item's calculations and the original it was given. */
  predicate PlannedSteps(base: Base, steps: seq<Step>)
  {
    steps == [] ||
      (var last := steps[|steps| - 1];
       && PlannedSteps(base, steps[..|steps| - 1])
       && last.Apply? && last.update == Planned(base, last.item, last.index, last.original))
  }

  lemma {:induction false} PlannedAppend(base: Base, steps: seq<Step>, last: Step)
    requires PlannedSteps(base, steps)
    requires last.Apply? && last.update == Planned(base, last.item, last.index, last.original)
    ensures PlannedSteps(base, steps + [last])
  {
    assert (steps + [last])[..|steps|] == steps;
  }

  /** Each logged step of a planned render carries the update planned for its item and index. */
  lemma {:induction false} PlannedAt(base: Base, steps: seq<Step>, j: nat)
    requires PlannedSteps(base, steps) && j < |steps|
    ensures steps[j].Apply? && steps[j].update == Planned(base, steps[j].item, steps[j].index, steps[j].original)
    decreases |steps|
  {
    if j < |steps| - 1 {
      PlannedAt(base, steps[..|steps| - 1], j);
    }
  }

  /**
   * `substantiveElements` of content.js, which is not part of this model:
   * the nodes that `keep` accepts, in their order.
   */
  function Substantive(nodes: seq<Node>, keep: Node -> bool): (r: seq<Node>)
    ensures forall n :: n in r ==> n in nodes && keep(n)
    ensures forall n :: n in nodes && keep(n) ==> n in r
    ensures |r| <= |nodes|
  {
    if nodes == [] then []
    else (if keep(nodes[0]) then [nodes[0]] else []) + Substantive(nodes[1..], keep)
  }

  class ContentItems {
    /** Which nodes content.js deems substantive. */
    const isSubstantive: Node -> bool
    /** `previousContentKey` */
    var previousContent: Seen
    /** `itemsKey` */
    var memo: NodeList?
    /** How many times `itemsForState` has been called. */
    ghost var recomputations: nat
    /** What the render passes did, in order. */
    ghost var trace: seq<Step>

    /** The memo always holds the items of the content it was computed for. */
    ghost predicate Valid()
      reads this`previousContent, this`memo
    {
      previousContent.Seen? ==>
        var c := previousContent.content;
        (memo == null <==> c == null) && (memo != null && c != null ==> memo.nodes == Substantive(c.nodes, isSubstantive))
    }

    /** The items the `items` getter will return for this base and content, as a sequence (`[]` for null). */
    ghost function Upcoming(base: NodeList?, content: NodeList?): seq<Node>
      reads this`previousContent, this`memo
    {
      if base != null then base.nodes
      else if previousContent == Seen(content) then (if memo == null then [] else memo.nodes)
      else if content == null then []
      else Substantive(content.nodes, isSubstantive)
    }

    constructor (isSubstantive: Node -> bool)
      ensures this.isSubstantive == isSubstantive
      ensures Valid() && previousContent == Unseen
      ensures recomputations == 0 && trace == []
    {
      this.isSubstantive := isSubstantive;
      previousContent := Unseen;
      memo := null;
      recomputations := 0;
      trace := [];
    }

    /** `itemsForState`: null without content, else a new list of its substantive elements. */
    method ItemsForState(content: NodeList?) returns (r: NodeList?)
      ensures content == null ==> r == null
      ensures content != null ==> r != null && fresh(r) && r.nodes == Substantive(content.nodes, isSubstantive)
    {
      if content == null {
        r := null;
      } else {
        r := new NodeList(Substantive(content.nodes, isSubstantive));
      }
    }

    /**
     * The `items` getter: a lower layer's list wins; otherwise the list is
     * recomputed only when the content's identity differs from the last one
     * seen, and the same list is returned until then.
     */
    method Items(base: NodeList?, content: NodeList?) returns (r: NodeList?)
      requires Valid()
      modifies this`previousContent, this`memo, this`recomputations
      ensures Valid()
      ensures (if r == null then [] else r.nodes) == old(Upcoming(base, content))
      ensures base != null ==>
        r == base && previousContent == old(previousContent) && memo == old(memo) && recomputations == old(recomputations)
      ensures base == null && old(previousContent) == Seen(content) ==>
        r == old(memo) && previousContent == old(previousContent) && memo == old(memo) && recomputations == old(recomputations)
      ensures base == null && old(previousContent) != Seen(content) ==>
        previousContent == Seen(content) && memo == r && recomputations == old(recomputations) + 1
        && (r != null ==> fresh(r))
      ensures base == null ==> previousContent == Seen(content) && memo == r
      ensures base == null ==>
        (r == null <==> content == null) && (r != null && content != null ==> r.nodes == Substantive(content.nodes, isSubstantive))
    {
      if base != null {
        return base;
      }
      if previousContent != Seen(content) {
        memo := ItemsForState(content);
        recomputations := recomputations + 1;
        previousContent := Seen(content);
      }
      r := memo;
    }

    /**
     * What reading `items` does to the memo: with a lower layer's list, or
     * with the content identity seen last time, the memo fields are kept and
     * `itemsForState` is not called; otherwise it is called once and the
     * content becomes the remembered one.
     */
    twostate predicate Remembered(base: NodeList?, content: NodeList?)
      reads this
    {
      && (base == null ==> previousContent == Seen(content))
      && (base != null || old(previousContent) == Seen(content) ==>
            previousContent == old(previousContent) && memo == old(memo) && recomputations == old(recomputations))
      && (base == null && old(previousContent) != Seen(content) ==>
            recomputations == old(recomputations) + 1)
    }

    /** `this.items || []`: the items getter's list, with no list read as the empty one. */
    method ItemList(base: NodeList?, content: NodeList?) returns (items: seq<Node>)
      requires Valid()
      modifies this`previousContent, this`memo, this`recomputations
      ensures Valid() && items == old(Upcoming(base, content))
      ensures Remembered(base, content)
    {
      var list := Items(base, content);
      items := if list == null then [] else list.nodes;
    }

    /**
     * The render step: the lower layer renders first; then the items the
     * `items` getter yields are updated one by one, in order.
     */
    method Render(base: Base, content: NodeList?, host: Updater) returns (ghost steps: seq<Step>)
      requires Valid()
      modifies this`previousContent, this`memo, this`recomputations, this`trace
      modifies set n: Node | n in Upcoming(base.items, content)
      ensures Valid()
      ensures Remembered(base.items, content)
      ensures trace == old(trace) + (if base.renders then [LowerRender] else []) + steps
      ensures var items := old(Upcoming(base.items, content));
        var (after, s) := RenderPass(base, host, old(Holding(items)), items);
        steps == s && forall n :: n in items ==> Held(n.original, n.props) == after[n]
    {
      if base.renders {
        trace := trace + [LowerRender];
      }
      var items := ItemList(base.items, content);
      steps := RenderItems(items, base, host, old(Holding(items)));
      trace := trace + steps;
    }
  }

  /**
   * The body of render's per-item callback: capture the original snapshot
   * only when the item has none, then apply the update computed from the
   * item's calculations and its stored snapshot.
   */
  method RenderItem(item: Node, index: nat, base: Base, host: Updater)
    modifies item
    ensures item.original == Settled(old(item.original), old(item.props), host.current)
    ensures item.props == host.apply(old(item.props), Planned(base, item, index, item.original.value))
  {
    if item.original == None {
      item.original := Some(host.current(item.props));
    }
    var calcs := ItemCalcs(base.calcs, item, index);
    var update := ItemUpdates(base.updates, item, calcs, item.original.value);
    item.props := host.apply(item.props, update);
  }

  /** The part of a node that render reads and writes. */
  datatype Held = Held(original: Option<Props>, props: Props)

  /** What each of `items` holds now. */
  function Holding(items: seq<Node>): (h: map<Node, Held>)
    reads set n: Node | n in items
    ensures h.Keys == set n: Node | n in items
  {
    map n: Node | n in items :: Held(n.original, n.props)
  }

  /**
   * The per-item loop of render as a function of what the nodes hold:
   * each of `items`, in order, settles its original and receives one
   * update. Returns what the nodes hold afterwards and the steps taken.
   */
  function RenderPass(base: Base, host: Updater, held: map<Node, Held>, items: seq<Node>): (r: (map<Node, Held>, seq<Step>))
    requires forall n :: n in items ==> n in held
    ensures r.0.Keys == held.Keys && |r.1| == |items|
    decreases |items|
  {
    if items == [] then (held, [])
    else PassItem(base, host, RenderPass(base, host, held, items[..|items| - 1]), items[|items| - 1], |items| - 1)
  }

  /** One callback of the pass, on what the nodes hold and the steps so far. */
  function PassItem(base: Base, host: Updater, pass: (map<Node, Held>, seq<Step>), item: Node, index: nat): (r: (map<Node, Held>, seq<Step>))
    requires item in pass.0
    ensures r.0.Keys == pass.0.Keys && |r.1| == |pass.1| + 1
  {
    var (before, steps) := pass;
    var original := Settled(before[item].original, before[item].props, host.current).value;
    var update := Planned(base, item, index, original);
    (before[item := Held(Some(original), host.apply(before[item].props, update))], steps + [Apply(item, index, original, update)])
  }

  /**
   * One callback settles the item's original, logs one step with the update
   * planned from that original, applies that update once to the item's
   * props, and leaves every other node alone.
   */
  lemma PassItemSettles(base: Base, host: Updater, pass: (map<Node, Held>, seq<Step>), item: Node, index: nat)
    requires item in pass.0
    ensures var r := PassItem(base, host, pass, item, index);
      && r.0[item].original == Settled(pass.0[item].original, pass.0[item].props, host.current)
      && r.1 == pass.1 + [Apply(item, index, r.0[item].original.value, Planned(base, item, index, r.0[item].original.value))]
      && r.0[item].props == host.apply(pass.0[item].props, r.1[|pass.1|].update)
      && forall n :: n in pass.0 && n != item ==> r.0[n] == pass.0[n]
  {
  }

  /** Every step of the pass carries the update planned from its item's calculations and original. */
  lemma {:induction false} RenderPassPlans(base: Base, host: Updater, held: map<Node, Held>, items: seq<Node>)
    requires forall n :: n in items ==> n in held
    ensures PlannedSteps(base, RenderPass(base, host, held, items).1)
    decreases |items|
  {
    if items != [] {
      var i := |items| - 1;
      RenderPassPlans(base, host, held, items[..i]);
      var steps := RenderPass(base, host, held, items[..i]).1;
      var steps' := RenderPass(base, host, held, items).1;
      PlannedAppend(base, steps, steps'[i]);
      assert steps' == steps + [steps'[i]];
    }
  }

  /**
   * The pass takes exactly one step per item, in index order, and each
   * step's original is the one the item ends up holding.
   */
  lemma {:induction false} RenderPassSteps(base: Base, host: Updater, held: map<Node, Held>, items: seq<Node>)
    requires forall n :: n in items ==> n in held
    ensures var (after, steps) := RenderPass(base, host, held, items);
      forall j :: 0 <= j < |items| ==>
        && steps[j].Apply? && steps[j].item == items[j] && steps[j].index == j
        && after[items[j]].original == Some(steps[j].original)
    decreases |items|
  {
    if items != [] {
      var i := |items| - 1;
      RenderPassSteps(base, host, held, items[..i]);
      var (before, steps) := RenderPass(base, host, held, items[..i]);
      var (after, steps') := RenderPass(base, host, held, items);
      forall j | 0 <= j < i
        ensures steps'[j] == steps[j] && steps[j].item == items[j] && steps[j].index == j
        ensures after[items[j]].original == Some(steps[j].original)
      {
        assert items[..i][j] == items[j];
        if items[j] == items[i] {
          assert before[items[i]].original == Some(steps[j].original);
        }
      }
    }
  }

  /**
   * Originals are captured once: every item ends up holding the original it
   * had, or, when it had none, `current` of its props before the pass; a
   * node outside `items` is left alone.
   */
  lemma {:induction false} RenderPassSettles(base: Base, host: Updater, held: map<Node, Held>, items: seq<Node>)
    requires forall n :: n in items ==> n in held
    ensures var after := RenderPass(base, host, held, items).0;
      && (forall n :: n in items ==> after[n].original == Settled(held[n].original, held[n].props, host.current))
      && (forall n :: n in held && n !in items ==> after[n] == held[n])
    decreases |items|
  {
    if items != [] {
      var i := |items| - 1;
      RenderPassSettles(base, host, held, items[..i]);
      assert forall n :: n in items ==> n in items[..i] || n == items[i];
      assert forall n :: n in items[..i] ==> n in items;
    }
  }

  /** Every node ends up holding its props before the pass with its own updates applied in order. */
  lemma {:induction false} RenderPassReplays(base: Base, host: Updater, held: map<Node, Held>, items: seq<Node>)
    requires forall n :: n in items ==> n in held
    ensures var (after, steps) := RenderPass(base, host, held, items);
      forall n :: n in held ==> after[n].props == Replay(host.apply, held[n].props, steps, n)
    decreases |items|
  {
    if items != [] {
      var i := |items| - 1;
      RenderPassReplays(base, host, held, items[..i]);
      var (before, steps) := RenderPass(base, host, held, items[..i]);
      var (after, steps') := RenderPass(base, host, held, items);
      forall n | n in held
        ensures after[n].props == Replay(host.apply, held[n].props, steps', n)
      {
        ReplayAppend(host.apply, held[n].props, steps, steps'[i], n);
        assert steps' == steps + [steps'[i]];
      }
    }
  }

  /** No DOM node occurs twice among `items`. */
  predicate Distinct(items: seq<Node>)
  {
    forall i, j :: 0 <= i < j < |items| ==> items[i] != items[j]
  }

  /**
   * When the items are distinct nodes, each receives exactly one `apply`,
   * on top of its props before the pass, with the update planned from its
   * own index and the original it ends up holding.
   */
  lemma RenderPassOnce(base: Base, host: Updater, held: map<Node, Held>, items: seq<Node>, k: nat)
    requires forall n :: n in items ==> n in held
    requires Distinct(items) && k < |items|
    ensures var after := RenderPass(base, host, held, items).0;
      var n := items[k];
      && after[n].original.Some?
      && after[n].props == host.apply(held[n].props, Planned(base, n, k, after[n].original.value))
  {
    var (after, steps) := RenderPass(base, host, held, items);
    RenderPassSteps(base, host, held, items);
    RenderPassReplays(base, host, held, items);
    RenderPassPlans(base, host, held, items);
    PlannedAt(base, steps, k);
    ReplayOnce(host.apply, held[items[k]].props, steps, k);
  }

  /**
   * With an idempotent `apply`, a second pass over the same distinct items,
   * starting from what the first pass left, changes nothing: originals are
   * kept, so every item is planned the same update again.
   */
  lemma RenderPassIdempotent(base: Base, host: Updater, held: map<Node, Held>, items: seq<Node>)
    requires forall n :: n in items ==> n in held
    requires Distinct(items)
    requires forall d, u :: host.apply(host.apply(d, u), u) == host.apply(d, u)
    ensures var once := RenderPass(base, host, held, items).0;
      RenderPass(base, host, once, items).0 == once
  {
    var once := RenderPass(base, host, held, items).0;
    var twice := RenderPass(base, host, once, items).0;
    RenderPassSettles(base, host, held, items);
    RenderPassSettles(base, host, once, items);
    forall n | n in once
      ensures twice[n] == once[n]
    {
      if n in items {
        var k :| 0 <= k < |items| && items[k] == n;
        RenderPassOnce(base, host, held, items, k);
        RenderPassOnce(base, host, once, items, k);
      }
    }
  }

  /** The per-item loop of render (`items.forEach`), proved to do what `RenderPass` describes. */
  method RenderItems(items: seq<Node>, base: Base, host: Updater, ghost held: map<Node, Held>) returns (ghost steps: seq<Step>)
    requires forall n :: n in items ==> n in held && held[n] == Held(n.original, n.props)
    modifies set n: Node | n in items
    ensures var (after, s) := RenderPass(base, host, held, items);
      steps == s && forall n :: n in items ==> Held(n.original, n.props) == after[n]
  {
    ghost var pass := (held, []);
    var i := 0;
    while i < |items|
      invariant 0 <= i <= |items|
      invariant pass == RenderPass(base, host, held, items[..i])
      invariant forall n :: n in items ==> n in pass.0 && Held(n.original, n.props) == pass.0[n]
    {
      var item := items[i];
      RenderItem(item, i, base, host);
      pass := PassItem(base, host, pass, item, i);
      assert items[..i + 1][..i] == items[..i];
      i := i + 1;
    }
    assert items[..i] == items;
    steps := pass.1;
  }
}
