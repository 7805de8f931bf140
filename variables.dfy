/**
 * The variable dictionary `runRoute` sends with each request and updates
 * from the assignment items of each response.
 */
module Variables {

  /** One item of a response batch: `{expr, result, assign}`. */
  datatype Item = Item(expr: string, result: string, assign: bool)

  /** The variable dictionary: expression name to value. */
  type Dict = map<string, string>

  /** Number of items in `items` flagged `assign === true`. */
  function AssignmentCount(items: seq<Item>): nat
  {
    if items == [] then 0
    else AssignmentCount(items[..|items| - 1]) + (if items[|items| - 1].assign then 1 else 0)
  }

  /**
   * The dictionary a batch leaves, as the source computes it: every
   * assignment writes `{...pre, [expr]: result}` from the dictionary `pre`
   * the batch started with, so the last write of the batch is the one kept.
   */
  function BatchAssign(pre: Dict, items: seq<Item>): (d: Dict)
    ensures AssignmentCount(items) == 0 ==> d == pre
    ensures d == pre || exists j :: 0 <= j < |items| && items[j].assign && d == pre[items[j].expr := items[j].result]
  {
    if items == [] then pre
    else
      var last := items[|items| - 1];
      if last.assign then
        pre[last.expr := last.result]
      else
        var d := BatchAssign(pre, items[..|items| - 1]);
        assert forall j :: 0 <= j < |items| - 1 ==> items[..|items| - 1][j] == items[j];
        d
  }

  /** Reference semantics: assignments applied one after another, each on top of the previous. */
  function SequentialAssign(pre: Dict, items: seq<Item>): Dict
  {
    if items == [] then pre
    else
      var d := SequentialAssign(pre, items[..|items| - 1]);
      var last := items[|items| - 1];
      if last.assign then d[last.expr := last.result] else d
  }

  /** A batch without assignments leaves the reference dictionary alone. */
  lemma {:induction false} SequentialWithoutAssignments(pre: Dict, items: seq<Item>)
    requires AssignmentCount(items) == 0
    ensures SequentialAssign(pre, items) == pre
  {
    if items != [] {
      SequentialWithoutAssignments(pre, items[..|items| - 1]);
    }
  }

  /** With at most one assignment in a batch, the source's merge is the sequential one. */
  lemma {:induction false} BatchIsSequentialForOneAssignment(pre: Dict, items: seq<Item>)
    requires AssignmentCount(items) <= 1
    ensures BatchAssign(pre, items) == SequentialAssign(pre, items)
  {
    if items != [] {
      var init := items[..|items| - 1];
      if items[|items| - 1].assign {
        SequentialWithoutAssignments(pre, init);
      } else {
        BatchIsSequentialForOneAssignment(pre, init);
      }
    }
  }

  /** A later assignment in the batch writes its own key, so its value is the one seen. */
  lemma {:induction false} LastAssignmentWins(pre: Dict, items: seq<Item>, j: nat)
    requires j < |items| && items[j].assign
    requires forall k :: j < k < |items| ==> !items[k].assign
    ensures BatchAssign(pre, items) == pre[items[j].expr := items[j].result]
  {
    if j < |items| - 1 {
      var init := items[..|items| - 1];
      assert init[j] == items[j];
      LastAssignmentWins(pre, init, j);
    }
  }

  /**
   * Two assignments to different names in one batch: the source keeps only
   * the second, where assigning one after the other keeps both.
   */
  lemma EarlierAssignmentIsDropped()
    ensures BatchAssign(map[], [Item("x", "2", true), Item("y", "3", true)]) == map["y" := "3"]
    ensures SequentialAssign(map[], [Item("x", "2", true), Item("y", "3", true)]) == map["x" := "2", "y" := "3"]
  {
  }

  /** The assignment `x = 2` followed by the expression `x + 3`: only `x` is bound. */
  lemma AssignmentThenExpression()
    ensures BatchAssign(map[], [Item("x", "2", true), Item("x+3", "5", false)]) == map["x" := "2"]
  {
  }
}
