/** The scenario tree of the CLI: nodes registered by `describe`/`it`, an
    outline printer and a sequential runner. Both walk the tree depth-first in
    pre-order; `Outline` is that order, and each walk is proved to follow it. */
module Scenario {
  import opened Values

  /** A node's action. What it does is outside the model; `throws` says
      whether awaiting it rejects. */
  datatype Callback = Callback(id: nat, throws: bool)

  /** A registered node. An absent `children` list is the empty list. */
  datatype Item = Item(itemType: string, name: string, callback: Option<Callback>, children: seq<Item>)

  /** `intent(level)`: the indentation of a line at depth `level`. */
  function Intent(level: nat): (r: string)
    ensures |r| == 2 * level
    ensures forall i :: 0 <= i < |r| ==> r[i] == ' '
  {
    if level == 0 then "" else "  " + Intent(level - 1)
  }

  /** The line `print` logs for a node at depth `level`. */
  function Line(item: Item, level: nat): string {
    Intent(level) + "- " + item.itemType + " " + item.name
  }

  // ---------------------------------------------------------------------------
  // Pre-order

  /** Every node of the tree under `item` with its depth, in pre-order. */
  function Outline(item: Item, level: nat): (o: seq<(Item, nat)>)
    ensures |o| >= 1 && o[0] == (item, level)
    decreases item, 1
  {
    [(item, level)] + OutlineAll(item.children, level)
  }

  /** The pre-order of a list of siblings, at depth `level + 1`. */
  function OutlineAll(items: seq<Item>, level: nat): seq<(Item, nat)>
    decreases items, 0
  {
    if items == [] then []
    else Outline(items[0], level + 1) + OutlineAll(items[1..], level)
  }

  /** Number of nodes in a tree. */
  function Size(item: Item): nat
    decreases item, 1
  {
    1 + SizeAll(item.children)
  }

  function SizeAll(items: seq<Item>): nat
    decreases items, 0
  {
    if items == [] then 0 else Size(items[0]) + SizeAll(items[1..])
  }

  /** The outline has as many entries as the tree has nodes. */
  lemma {:induction false} OutlineSize(item: Item, level: nat)
    ensures |Outline(item, level)| == Size(item)
    decreases item, 1
  {
    OutlineAllSize(item.children, level);
  }

  lemma {:induction false} OutlineAllSize(items: seq<Item>, level: nat)
    ensures |OutlineAll(items, level)| == SizeAll(items)
    decreases items, 0
  {
    if items != [] {
      OutlineSize(items[0], level + 1);
      OutlineAllSize(items[1..], level);
    }
  }

  // ---------------------------------------------------------------------------
  // Printing

  function Lines(o: seq<(Item, nat)>): (ls: seq<string>)
    ensures |ls| == |o|
  {
    if o == [] then [] else [Line(o[0].0, o[0].1)] + Lines(o[1..])
  }

  lemma {:induction false} LinesAppend(a: seq<(Item, nat)>, b: seq<(Item, nat)>)
    ensures Lines(a + b) == Lines(a) + Lines(b)
  {
    if a != [] {
      assert (a + b)[1..] == a[1..] + b;
      LinesAppend(a[1..], b);
    } else {
      assert a + b == b;
    }
  }

  /** `print(item, level)`. */
  function Print(item: Item, level: nat): seq<string>
    decreases item, 1
  {
    [Line(item, level)] + PrintAll(item.children, level)
  }

  /** `item.children?.forEach((child) => print(child, level + 1))`. */
  function PrintAll(items: seq<Item>, level: nat): seq<string>
    decreases items, 0
  {
    if items == [] then [] else Print(items[0], level + 1) + PrintAll(items[1..], level)
  }

  /** `printRoot(root)`: the root's children at depth 0; the root itself is
      not printed. */
  function PrintRoot(root: Item): seq<string> {
    PrintAllAt(root.children, 0)
  }

  /** `children.forEach((child) => print(child, level))`. */
  function PrintAllAt(items: seq<Item>, level: nat): seq<string>
    decreases items
  {
    if items == [] then [] else Print(items[0], level) + PrintAllAt(items[1..], level)
  }

  /** `print` emits one line per node, in pre-order, each indented by its
      depth. */
  lemma {:induction false} PrintFollowsOutline(item: Item, level: nat)
    ensures Print(item, level) == Lines(Outline(item, level))
    decreases item, 1
  {
    PrintAllFollowsOutline(item.children, level);
    LinesAppend([(item, level)], OutlineAll(item.children, level));
  }

  lemma {:induction false} PrintAllFollowsOutline(items: seq<Item>, level: nat)
    ensures PrintAll(items, level) == Lines(OutlineAll(items, level))
    decreases items, 0
  {
    if items != [] {
      PrintFollowsOutline(items[0], level + 1);
      PrintAllFollowsOutline(items[1..], level);
      LinesAppend(Outline(items[0], level + 1), OutlineAll(items[1..], level));
    }
  }

  /** The outline of the whole tree without the root, every node one level
      shallower than in `Outline(root, 0)`. */
  function RootOutline(root: Item): seq<(Item, nat)> {
    OutlineAllAt(root.children, 0)
  }

  function OutlineAllAt(items: seq<Item>, level: nat): seq<(Item, nat)>
    decreases items
  {
    if items == [] then [] else Outline(items[0], level) + OutlineAllAt(items[1..], level)
  }

  /** `printRoot` prints the tree's pre-order without its root, each line
      indented by its depth below the root's children. */
  lemma {:induction false} PrintRootFollowsOutline(root: Item)
    ensures PrintRoot(root) == Lines(RootOutline(root))
    ensures |PrintRoot(root)| == Size(root) - 1
  {
    PrintAllAtFollowsOutline(root.children, 0);
  }

  lemma {:induction false} PrintAllAtFollowsOutline(items: seq<Item>, level: nat)
    ensures PrintAllAt(items, level) == Lines(OutlineAllAt(items, level))
    ensures |PrintAllAt(items, level)| == SizeAll(items)
    decreases items
  {
    if items != [] {
      PrintFollowsOutline(items[0], level);
      OutlineSize(items[0], level);
      PrintAllAtFollowsOutline(items[1..], level);
      LinesAppend(Outline(items[0], level), OutlineAllAt(items[1..], level));
    }
  }

  // ---------------------------------------------------------------------------
  // Running

  datatype RunStep = Log(text: string) | Invoke(id: nat)

  /** The steps of a run and whether it finished (no awaited callback
      rejected). */
  datatype Run = Run(steps: seq<RunStep>, completed: bool)

  /** The line `runItem` logs before a node. For a node with a callback the
      source writes an opening parenthesis before the name and never closes
      it; the model keeps that. */
  function RunLine(item: Item, level: nat): string {
    if item.callback.Some? then Intent(level) + "- [RUN] " + item.itemType + " (" + item.name
    else Line(item, level)
  }

  /** `runItem(item, level)`: log, invoke and await the callback if there is
      one, then run the children one after another, each to completion. A
      rejected callback rejects every enclosing run. */
  function RunOf(item: Item, level: nat): Run
    decreases item, 1
  {
    var head := [Log(RunLine(item, level))] +
                (if item.callback.Some? then [Invoke(item.callback.value.id)] else []);
    if item.callback.Some? && item.callback.value.throws then Run(head, false)
    else
      var rest := RunAll(item.children, level);
      Run(head + rest.steps, rest.completed)
  }

  /** `for (const child of item.children) await runItem(child, level + 1)`. */
  function RunAll(items: seq<Item>, level: nat): Run
    decreases items, 0
  {
    if items == [] then Run([], true)
    else
      var first := RunOf(items[0], level + 1);
      if !first.completed then first
      else
        var rest := RunAll(items[1..], level);
        Run(first.steps + rest.steps, rest.completed)
  }

  /** `runItem` as the program runs it: log, await the callback, then the
      sequential loop over the children. */
  method RunItem(item: Item, level: nat) returns (steps: seq<RunStep>, completed: bool)
    ensures Run(steps, completed) == RunOf(item, level)
    decreases item, 1
  {
    steps := [Log(RunLine(item, level))];
    if item.callback.Some? {
      steps := steps + [Invoke(item.callback.value.id)];
      if item.callback.value.throws {
        return steps, false;
      }
    }
    var childSteps;
    childSteps, completed := RunChildren(item.children, level);
    steps := steps + childSteps;
  }

  /** The loop `for (const child of item.children) await runItem(child,
      level + 1)`: each child runs to completion before the next starts. */
  method RunChildren(children: seq<Item>, level: nat) returns (steps: seq<RunStep>, completed: bool)
    ensures Run(steps, completed) == RunAll(children, level)
    decreases children, 0
  {
    steps := [];
    var k := 0;
    while k < |children|
      invariant 0 <= k <= |children|
      invariant var rest := RunAll(children[k..], level);
        RunAll(children, level) == Run(steps + rest.steps, rest.completed)
    {
      var childSteps, childCompleted := RunItem(children[k], level + 1);
      RunAllStep(children, k, level, steps, Run(childSteps, childCompleted));
      if !childCompleted {
        return steps + childSteps, false;
      }
      steps := steps + childSteps;
      k := k + 1;
    }
    assert children[k..] == [];
    completed := true;
  }

  /** One turn of the children loop: after `done` and the run `first` of
      child `k`, the loop stops if that child rejected and goes on otherwise. */
  lemma RunAllStep(items: seq<Item>, k: nat, level: nat, done: seq<RunStep>, first: Run)
    requires k < |items| && first == RunOf(items[k], level + 1)
    ensures var rest := RunAll(items[k..], level);
      !first.completed ==> Run(done + rest.steps, rest.completed) == Run(done + first.steps, false)
    ensures var rest, next := RunAll(items[k..], level), RunAll(items[k + 1..], level);
      first.completed ==>
        Run(done + rest.steps, rest.completed) == Run((done + first.steps) + next.steps, next.completed)
  {
    assert items[k..][0] == items[k] && items[k..][1..] == items[k + 1..];
    var next := RunAll(items[k + 1..], level);
    assert done + (first.steps + next.steps) == (done + first.steps) + next.steps;
  }

  /** The callbacks of an outline, in its order. */
  function Callbacks(o: seq<(Item, nat)>): seq<nat> {
    if o == [] then []
    else (if o[0].0.callback.Some? then [o[0].0.callback.value.id] else []) + Callbacks(o[1..])
  }

  /** The callbacks a run invoked, in invocation order. */
  function Invocations(steps: seq<RunStep>): seq<nat> {
    if steps == [] then []
    else (if steps[0].Invoke? then [steps[0].id] else []) + Invocations(steps[1..])
  }

  lemma {:induction false} CallbacksAppend(a: seq<(Item, nat)>, b: seq<(Item, nat)>)
    ensures Callbacks(a + b) == Callbacks(a) + Callbacks(b)
  {
    if a != [] {
      assert (a + b)[1..] == a[1..] + b;
      CallbacksAppend(a[1..], b);
    } else {
      assert a + b == b;
    }
  }

  lemma {:induction false} InvocationsAppend(a: seq<RunStep>, b: seq<RunStep>)
    ensures Invocations(a + b) == Invocations(a) + Invocations(b)
  {
    if a != [] {
      assert (a + b)[1..] == a[1..] + b;
      InvocationsAppend(a[1..], b);
    } else {
      assert a + b == b;
    }
  }

  /** Some callback in the tree rejects. */
  predicate Throws(item: Item)
    decreases item, 1
  {
    (item.callback.Some? && item.callback.value.throws) || ThrowsAll(item.children)
  }

  predicate ThrowsAll(items: seq<Item>)
    decreases items, 0
  {
    items != [] && (Throws(items[0]) || ThrowsAll(items[1..]))
  }

  /** The node's own callback rejects. */
  predicate Rejects(item: Item) {
    item.callback.Some? && item.callback.value.throws
  }

  /** Some node of an outline has a rejecting callback. */
  predicate ThrowsIn(o: seq<(Item, nat)>) {
    o != [] && (Rejects(o[0].0) || ThrowsIn(o[1..]))
  }

  /** The callbacks of an outline, in its order, up to and including the
      first one that rejects. */
  function Until(o: seq<(Item, nat)>): seq<nat> {
    if o == [] then []
    else if Rejects(o[0].0) then [o[0].0.callback.value.id]
    else (if o[0].0.callback.Some? then [o[0].0.callback.value.id] else []) + Until(o[1..])
  }

  /** Stopping at the first rejection cuts the callbacks of an outline short,
      and cuts nothing when no callback rejects. */
  lemma {:induction false} UntilPrefix(o: seq<(Item, nat)>)
    ensures Until(o) <= Callbacks(o)
    ensures !ThrowsIn(o) ==> Until(o) == Callbacks(o)
    ensures ThrowsIn(o) ==> Until(o) != []
  {
    if o != [] {
      UntilPrefix(o[1..]);
    }
  }

  lemma {:induction false} UntilAppend(a: seq<(Item, nat)>, b: seq<(Item, nat)>)
    ensures ThrowsIn(a + b) <==> ThrowsIn(a) || ThrowsIn(b)
    ensures Until(a + b) == if ThrowsIn(a) then Until(a) else Until(a) + Until(b)
  {
    if a == [] {
      assert a + b == b;
    } else {
      assert (a + b)[0] == a[0] && (a + b)[1..] == a[1..] + b;
      UntilAppend(a[1..], b);
    }
  }

  /** A tree throws exactly when its outline holds a rejecting callback. */
  lemma {:induction false} ThrowsOutline(item: Item, level: nat)
    ensures Throws(item) <==> ThrowsIn(Outline(item, level))
    decreases item, 1
  {
    var o := Outline(item, level);
    assert o[0] == (item, level) && o[1..] == OutlineAll(item.children, level);
    ThrowsAllOutline(item.children, level);
  }

  lemma {:induction false} ThrowsAllOutline(items: seq<Item>, level: nat)
    ensures ThrowsAll(items) <==> ThrowsIn(OutlineAll(items, level))
    decreases items, 0
  {
    if items != [] {
      ThrowsOutline(items[0], level + 1);
      ThrowsAllOutline(items[1..], level);
      UntilAppend(Outline(items[0], level + 1), OutlineAll(items[1..], level));
    }
  }

  /** The runner invokes callbacks in pre-order, each node's callback before
      anything below it and each subtree before the next sibling, and stops
      right after the first callback that rejects: the invoked callbacks are
      the outline's callbacks up to and including the first rejecting one,
      all of them exactly when no callback rejects. */
  lemma {:induction false} RunFollowsOutline(item: Item, level: nat)
    ensures RunOf(item, level).completed <==> !Throws(item)
    ensures Invocations(RunOf(item, level).steps) == Until(Outline(item, level))
    ensures Invocations(RunOf(item, level).steps) <= Callbacks(Outline(item, level))
    ensures RunOf(item, level).completed ==>
      Invocations(RunOf(item, level).steps) == Callbacks(Outline(item, level))
    decreases item, 1
  {
    ThrowsOutline(item, level);
    UntilPrefix(Outline(item, level));
    var head := [Log(RunLine(item, level))] +
                (if item.callback.Some? then [Invoke(item.callback.value.id)] else []);
    var mine := if item.callback.Some? then [item.callback.value.id] else [];
    assert Invocations(head) == mine by {
      if item.callback.Some? {
        assert head[1..] == [Invoke(item.callback.value.id)];
        assert head[1..][1..] == [];
        assert Invocations(head[1..]) == [item.callback.value.id] + Invocations([]);
        assert Invocations(head) == [] + Invocations(head[1..]);
      } else {
        assert head[1..] == [];
        assert Invocations(head) == [] + Invocations([]);
      }
    }
    CallbacksAppend([(item, level)], OutlineAll(item.children, level));
    assert Callbacks([(item, level)]) == mine;
    var o := Outline(item, level);
    assert o[0] == (item, level) && o[1..] == OutlineAll(item.children, level);
    if !(item.callback.Some? && item.callback.value.throws) {
      RunAllFollowsOutline(item.children, level);
      InvocationsAppend(head, RunAll(item.children, level).steps);
    }
  }

  lemma {:induction false} RunAllFollowsOutline(items: seq<Item>, level: nat)
    ensures RunAll(items, level).completed <==> !ThrowsAll(items)
    ensures Invocations(RunAll(items, level).steps) == Until(OutlineAll(items, level))
    ensures Invocations(RunAll(items, level).steps) <= Callbacks(OutlineAll(items, level))
    ensures RunAll(items, level).completed ==>
      Invocations(RunAll(items, level).steps) == Callbacks(OutlineAll(items, level))
    decreases items, 0
  {
    ThrowsAllOutline(items, level);
    UntilPrefix(OutlineAll(items, level));
    if items != [] {
      var first := RunOf(items[0], level + 1);
      RunFollowsOutline(items[0], level + 1);
      ThrowsOutline(items[0], level + 1);
      UntilAppend(Outline(items[0], level + 1), OutlineAll(items[1..], level));
      if first.completed {
        RunAllFollowsOutline(items[1..], level);
        InvocationsAppend(first.steps, RunAll(items[1..], level).steps);
      }
    }
  }

  // ---------------------------------------------------------------------------
  // A registered tree

  function Action(name: string, id: nat): Item {
    Item("it", name, Some(Callback(id, false)), [])
  }

  /** The tree the DeploymentConfig scenario registers: a group holding a
      nested group with one action, then two actions of its own. Node types
      are written `describe` and `it`. */
  function DeploymentConfigTree(): Item {
    Item("root", "", None, [
      Item("describe", "DeploymentConfig", None, [
        Item("describe", "level 2", None, [
          Item("describe", "level 3", None, [Action("automatically start a Pod based on x", 1)])]),
        Action("automatically start these Pods after a second", 2),
        Action("automatically removes all Pods if the DC is deleted", 3)])])
  }

  /** Its outline prints in registration order, each node at its depth. */
  lemma DeploymentConfigPrintOrder()
    ensures var dc := DeploymentConfigTree().children[0];
      PrintRoot(DeploymentConfigTree()) == [
        Line(dc, 0),
        Line(dc.children[0], 1),
        Line(dc.children[0].children[0], 2),
        Line(Action("automatically start a Pod based on x", 1), 3),
        Line(Action("automatically start these Pods after a second", 2), 1),
        Line(Action("automatically removes all Pods if the DC is deleted", 3), 1)]
  {
    var dc := DeploymentConfigTree().children[0];
    var l2 := dc.children[0];
    var l3 := l2.children[0];
    assert Print(l3, 2) == [Line(l3, 2)] + Print(l3.children[0], 3);
    assert Print(l2, 1) == [Line(l2, 1)] + Print(l3, 2);
    assert PrintAll(dc.children[2..], 0) == Print(dc.children[2], 1);
    assert PrintAll(dc.children[1..], 0) == Print(dc.children[1], 1) + PrintAll(dc.children[2..], 0);
    assert Print(dc, 0) == [Line(dc, 0)] + PrintAll(dc.children, 0);
  }

  /** The runner invokes its actions in registration order, all three of
      them, since none rejects. */
  lemma DeploymentConfigRunOrder()
    ensures RunOf(DeploymentConfigTree().children[0], 0).completed
    ensures Invocations(RunOf(DeploymentConfigTree().children[0], 0).steps) == [1, 2, 3]
  {
    var dc := DeploymentConfigTree().children[0];
    var l2 := dc.children[0];
    var l3 := l2.children[0];
    var a1, a2, a3 := l3.children[0], dc.children[1], dc.children[2];
    assert !ThrowsAll(dc.children[2..]) by {
      assert !Throws(a3) && !ThrowsAll(dc.children[3..]);
    }
    assert !ThrowsAll(dc.children[1..]) by { assert !Throws(a2); }
    assert !Throws(l2) by {
      assert !Throws(a1) && !ThrowsAll(l3.children[1..]);
      assert !Throws(l3) && !ThrowsAll(l2.children[1..]);
    }
    assert !Throws(dc);
    ActionCallbacks(a1, 3);
    ActionCallbacks(a2, 1);
    ActionCallbacks(a3, 1);
    GroupCallbacks(l3, 2, [1]);
    GroupCallbacks(l2, 1, [1]);
    assert OutlineAll(dc.children[2..], 0) == Outline(a3, 1) + OutlineAll([], 0);
    CallbacksAppend(Outline(a2, 1), OutlineAll(dc.children[2..], 0));
    CallbacksAppend(Outline(l2, 1), OutlineAll(dc.children[1..], 0));
    CallbacksAppend([(dc, 0)], OutlineAll(dc.children, 0));
    RunFollowsOutline(dc, 0);
  }

  /** A leaf's outline holds only its own callback. */
  lemma ActionCallbacks(a: Item, level: nat)
    requires a.children == [] && a.callback.Some?
    ensures Callbacks(Outline(a, level)) == [a.callback.value.id]
  {
    assert Outline(a, level) == [(a, level)];
  }

  /** A group without a callback holding one child lists that child's callbacks. */
  lemma GroupCallbacks(g: Item, level: nat, ids: seq<nat>)
    requires g.callback.None? && |g.children| == 1
    requires Callbacks(Outline(g.children[0], level + 1)) == ids
    ensures Callbacks(Outline(g, level)) == ids
  {
    assert OutlineAll(g.children, level) == Outline(g.children[0], level + 1) + OutlineAll([], level);
    var o := Outline(g.children[0], level + 1);
    assert OutlineAll(g.children, level) == o;
    assert Callbacks([(g, level)]) == [] + Callbacks([]);
    CallbacksAppend([(g, level)], o);
    assert Outline(g, level) == [(g, level)] + o;
  }
}

