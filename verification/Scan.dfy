/** Reading stages with their steps: the left join of the two tables, one row per
    step, and the loop that groups the rows back into stages. */
module Scan {
  import opened Core

  /** A row of the join; a stage without steps has one row whose step columns are
      null. */
  datatype Row = Row(stage: Stage, step: Option<Step>)

  /** A stage record together with its steps. */
  datatype Item = Item(stage: Stage, steps: seq<Step>)

  // ---------- flattening ----------

  function RowsOf(item: Item): seq<Row> {
    if |item.steps| == 0 then [Row(item.stage, None)]
    else seq(|item.steps|, i requires 0 <= i < |item.steps| => Row(item.stage, Some(item.steps[i])))
  }

  function Flatten(items: seq<Item>): seq<Row> {
    if |items| == 0 then [] else Flatten(items[..|items| - 1]) + RowsOf(items[|items| - 1])
  }

  // ---------- grouping ----------

  /** The step a row carries: a null id reads as zero, and zero means no step. */
  function StepOf(row: Row): seq<Step> {
    if row.step.Some? && row.step.value.id != 0 then [row.step.value] else []
  }

  function Grow(items: seq<Item>, row: Row): seq<Item> {
    var n := |items|;
    if n == 0 || items[n - 1].stage.id != row.stage.id then items + [Item(row.stage, StepOf(row))]
    else items[n - 1 := Item(items[n - 1].stage, items[n - 1].steps + StepOf(row))]
  }

  function Scanned(rows: seq<Row>): seq<Item> {
    if |rows| == 0 then [] else Grow(Scanned(rows[..|rows| - 1]), rows[|rows| - 1])
  }

  /** The loop body in two steps: open a stage if needed, then add the step. */
  lemma {:induction false} GrowIs(items: seq<Item>, row: Row, items': seq<Item>)
    requires var first := |items| == 0 || items[|items| - 1].stage.id != row.stage.id;
             var base := if first then items + [Item(row.stage, [])] else items;
             var curr := base[|base| - 1];
             items' == if StepOf(row) == [] then base else base[|base| - 1 := curr.(steps := curr.steps + StepOf(row))]
    ensures items' == Grow(items, row)
  {
    if |items| > 0 && items[|items| - 1].stage.id == row.stage.id {
      var curr := items[|items| - 1];
      assert StepOf(row) == [] ==> curr.steps + StepOf(row) == curr.steps;
    } else {
      assert [] + StepOf(row) == StepOf(row);
    }
  }

  method ScanRowsWithSteps(rows: seq<Row>) returns (stages: seq<Item>)
    ensures stages == Scanned(rows)
  {
    stages := [];
    for i := 0 to |rows|
      invariant stages == Scanned(rows[..i])
    {
      assert rows[..i + 1][..i] == rows[..i];
      var row := rows[i];
      ghost var before := stages;
      if stages == [] || stages[|stages| - 1].stage.id != row.stage.id {
        stages := stages + [Item(row.stage, [])];
      }
      if row.step.Some? && row.step.value.id != 0 {
        var curr := stages[|stages| - 1];
        stages := stages[|stages| - 1 := curr.(steps := curr.steps + [row.step.value])];
      }
      GrowIs(before, row, stages);
    }
    assert rows[..|rows|] == rows;
  }

  // ---------- scanning what was flattened ----------

  ghost predicate Proper(items: seq<Item>) {
    && (forall i :: 0 < i < |items| ==> items[i - 1].stage.id != items[i].stage.id)
    && (forall i, s :: 0 <= i < |items| && s in items[i].steps ==> s.id != 0)
  }

  lemma {:induction false} ScannedIsProper(rows: seq<Row>)
    ensures Proper(Scanned(rows))
  {
    if |rows| == 0 {
    } else {
      ScannedIsProper(rows[..|rows| - 1]);
    }
  }

  lemma {:induction false} ScanNext(rows: seq<Row>, row: Row)
    ensures Scanned(rows + [row]) == Grow(Scanned(rows), row)
  {
    assert (rows + [row])[..|rows|] == rows;
  }

  lemma {:induction false} ScanShort(rows: seq<Row>, item: Item)
    requires |item.steps| < 2 && forall s :: s in item.steps ==> s.id != 0
    requires |Scanned(rows)| == 0 || Scanned(rows)[|Scanned(rows)| - 1].stage.id != item.stage.id
    ensures Scanned(rows + RowsOf(item)) == Scanned(rows) + [item]
  {
    var row := RowsOf(item)[0];
    assert RowsOf(item) == [row];
    assert StepOf(row) == item.steps;
    ScanNext(rows, row);
  }

  function Shorter(item: Item): Item
    requires |item.steps| > 0
  {
    item.(steps := item.steps[..|item.steps| - 1])
  }

  lemma {:induction false} GrowLast(items: seq<Item>, item: Item, row: Row)
    requires |item.steps| > 0 && row == Row(item.stage, Some(item.steps[|item.steps| - 1])) && row.step.value.id != 0
    ensures Grow(items + [Shorter(item)], row) == items + [item]
  {
    assert Shorter(item).steps + StepOf(row) == item.steps;
  }

  lemma {:induction false} ScanItem(rows: seq<Row>, item: Item)
    requires forall s :: s in item.steps ==> s.id != 0
    requires |Scanned(rows)| == 0 || Scanned(rows)[|Scanned(rows)| - 1].stage.id != item.stage.id
    ensures Scanned(rows + RowsOf(item)) == Scanned(rows) + [item]
    decreases |item.steps|
  {
    var n := |item.steps|;
    if n < 2 {
      ScanShort(rows, item);
    } else {
      var less, row := Shorter(item), Row(item.stage, Some(item.steps[n - 1]));
      ScanItem(rows, less);
      assert rows + RowsOf(item) == rows + RowsOf(less) + [row];
      ScanNext(rows + RowsOf(less), row);
      GrowLast(Scanned(rows), item, row);
    }
  }

  /** Join round trip: flattening stages and scanning the rows gives them back
      exactly when neighbouring stage ids differ and no step id is zero. */
  lemma {:induction false} RoundTrip(items: seq<Item>)
    ensures Scanned(Flatten(items)) == items <==> Proper(items)
  {
    ScannedIsProper(Flatten(items));
    if Proper(items) {
      FlattenThenScan(items);
    }
  }

  lemma {:induction false} FlattenThenScan(items: seq<Item>)
    requires Proper(items)
    ensures Scanned(Flatten(items)) == items
  {
    if |items| == 0 {
    } else {
      var n := |items| - 1;
      FlattenThenScan(items[..n]);
      assert n > 0 ==> items[..n][n - 1] == items[n - 1];
      ScanItem(Flatten(items[..n]), items[n]);
      assert items[..n] + [items[n]] == items;
    }
  }

  // ---------- flattening what was scanned ----------

  ghost predicate Ordered(a: Row, b: Row) {
    a.stage.id < b.stage.id || (a.stage == b.stage && a.step.Some? && b.step.Some? && a.step.value.id < b.step.value.id)
  }

  /** The answer to the query over the stages of a build and the table of steps: the
      left join, by ascending stage id and step id. */
  ghost predicate Answer(stages: set<Stage>, steps: set<Step>, rows: seq<Row>) {
    && (forall k :: 0 <= k < |rows| ==> InJoin(stages, steps, rows[k]))
    && (forall row :: InJoin(stages, steps, row) ==> row in rows)
    && (forall j, k :: 0 <= j < k < |rows| ==> Ordered(rows[j], rows[k]))
  }

  ghost predicate InJoin(stages: set<Stage>, steps: set<Step>, row: Row) {
    && row.stage in stages
    && match row.step
       case Some(s) => s in steps && s.stageId == row.stage.id
       case None => forall s :: s in steps ==> s.stageId != row.stage.id
  }

  ghost predicate NonZero(rows: seq<Row>) {
    forall k :: 0 <= k < |rows| && rows[k].step.Some? ==> rows[k].step.value.id != 0
  }

  ghost predicate InOrder(rows: seq<Row>) {
    forall j, k :: 0 <= j < k < |rows| ==> Ordered(rows[j], rows[k])
  }

  /** The last item is the last row's stage, with a step exactly if the row has. */
  ghost predicate EndsWith(items: seq<Item>, row: Row) {
    |items| > 0 && items[|items| - 1].stage == row.stage && (|items[|items| - 1].steps| == 0 <==> row.step.None?)
  }

  /** What holds of the items read so far and the rows they came from. */
  ghost predicate Reads(items: seq<Item>, rows: seq<Row>) {
    Flatten(items) == rows && (|rows| > 0 ==> EndsWith(items, rows[|rows| - 1])) && (|rows| == 0 ==> items == [])
  }

  lemma {:induction false} GrowFlattens(items: seq<Item>, row: Row)
    requires row.step.Some? ==> row.step.value.id != 0
    requires |items| > 0 && items[|items| - 1].stage.id == row.stage.id ==>
               items[|items| - 1].stage == row.stage && row.step.Some? && |items[|items| - 1].steps| > 0
    ensures Flatten(Grow(items, row)) == Flatten(items) + [row]
  {
    var n := |items|;
    var grown := Grow(items, row);
    if n > 0 && items[n - 1].stage.id == row.stage.id {
      assert grown[..n - 1] == items[..n - 1];
      assert RowsOf(grown[n - 1]) == RowsOf(items[n - 1]) + [row];
    } else {
      assert grown[..n] == items;
      assert RowsOf(grown[n]) == [row];
    }
  }

  lemma {:induction false} GrowEnds(items: seq<Item>, row: Row)
    requires row.step.Some? ==> row.step.value.id != 0
    requires |items| > 0 && items[|items| - 1].stage.id == row.stage.id ==>
               items[|items| - 1].stage == row.stage && row.step.Some? && |items[|items| - 1].steps| > 0
    ensures EndsWith(Grow(items, row), row)
  {
  }

  lemma {:induction false} ReadsNext(items: seq<Item>, rows: seq<Row>, row: Row)
    requires Reads(items, rows) && (row.step.Some? ==> row.step.value.id != 0)
    requires |rows| > 0 ==> Ordered(rows[|rows| - 1], row)
    ensures Reads(Grow(items, row), rows + [row])
  {
    GrowFlattens(items, row);
    GrowEnds(items, row);
  }

  lemma {:induction false} ScanThenFlatten(rows: seq<Row>)
    requires InOrder(rows) && NonZero(rows)
    ensures Reads(Scanned(rows), rows)
  {
    if |rows| == 0 {
    } else {
      var n := |rows| - 1;
      var front := rows[..n];
      ScanThenFlatten(front);
      assert n > 0 ==> Ordered(rows[n - 1], rows[n]) && front[n - 1] == rows[n - 1];
      ReadsNext(Scanned(front), front, rows[n]);
      assert front + [rows[n]] == rows;
    }
  }

  lemma {:induction false} FlattenMember(items: seq<Item>, row: Row)
    ensures row in Flatten(items) <==> exists i :: 0 <= i < |items| && row in RowsOf(items[i])
  {
    if |items| == 0 {
    } else {
      var n := |items| - 1;
      FlattenMember(items[..n], row);
      assert forall i :: 0 <= i < n ==> items[..n][i] == items[i];
      if i :| 0 <= i < |items| && row in RowsOf(items[i]) {
        assert i == n || row in RowsOf(items[..n][i]);
      }
    }
  }

  // ---------- what the query and the scan return together ----------

  /** The stages ascend, and each carries exactly its own steps, which ascend. */
  ghost predicate Grouped(stages: set<Stage>, steps: set<Step>, items: seq<Item>) {
    && (forall i, j :: 0 <= i < j < |items| ==> items[i].stage.id < items[j].stage.id)
    && (forall st :: st in stages <==> exists i :: 0 <= i < |items| && items[i].stage == st)
    && (forall i :: 0 <= i < |items| ==> StepsOf(steps, items[i]))
  }

  ghost predicate StepsOf(steps: set<Step>, item: Item) {
    && (forall s :: s in item.steps <==> s in steps && s.stageId == item.stage.id)
    && (forall j, k :: 0 <= j < k < |item.steps| ==> item.steps[j].id < item.steps[k].id)
  }

  function Offset(items: seq<Item>, i: nat): nat
    requires i <= |items|
  {
    |Flatten(items[..i])|
  }

  lemma {:induction false} OffsetNext(items: seq<Item>, i: nat)
    requires i < |items|
    ensures Offset(items, i + 1) == Offset(items, i) + |RowsOf(items[i])|
  {
    assert items[..i + 1][..i] == items[..i];
  }

  lemma {:induction false} OffsetGrows(items: seq<Item>, i: nat, j: nat)
    requires i < j <= |items|
    ensures Offset(items, i) + |RowsOf(items[i])| <= Offset(items, j)
    decreases j - i
  {
    OffsetNext(items, i);
    if i + 1 < j {
      OffsetGrows(items, i + 1, j);
    }
  }

  /** Where the rows of the i-th item stand. */
  lemma {:induction false} FlattenAt(items: seq<Item>, i: nat, k: nat)
    requires i < |items| && k < |RowsOf(items[i])|
    ensures Offset(items, i) + k < |Flatten(items)|
    ensures Flatten(items)[Offset(items, i) + k] == RowsOf(items[i])[k]
    decreases |items|
  {
    var n := |items| - 1;
    if i < n {
      FlattenAt(items[..n], i, k);
      assert items[..n][..i] == items[..i];
    }
  }

  lemma {:induction false} StagesAscend(items: seq<Item>, i: nat, j: nat)
    requires InOrder(Flatten(items)) && Proper(items) && i < j < |items|
    ensures items[i].stage.id < items[j].stage.id
  {
    RowsAscend(items, i, j);
    RowsAscend(items, j - 1, j);
    if i < j - 1 {
      RowsAscend(items, i, j - 1);
    }
  }

  lemma {:induction false} RowsAscend(items: seq<Item>, i: nat, j: nat)
    requires InOrder(Flatten(items)) && i < j < |items|
    ensures items[i].stage.id <= items[j].stage.id
  {
    FlattenAt(items, i, 0);
    FlattenAt(items, j, 0);
    OffsetGrows(items, i, j);
    assert Ordered(Flatten(items)[Offset(items, i)], Flatten(items)[Offset(items, j)]);
  }

  lemma {:induction false} StepsAscend(items: seq<Item>, i: nat, j: nat, k: nat)
    requires InOrder(Flatten(items)) && i < |items| && j < k < |items[i].steps|
    ensures items[i].steps[j].id < items[i].steps[k].id
  {
    FlattenAt(items, i, j);
    FlattenAt(items, i, k);
    assert Ordered(Flatten(items)[Offset(items, i) + j], Flatten(items)[Offset(items, i) + k]);
  }

  lemma {:induction false} StageListed(stages: set<Stage>, steps: set<Step>, rows: seq<Row>, items: seq<Item>,
                                       st: Stage)
    requires Answer(stages, steps, rows) && Flatten(items) == rows
    ensures st in stages <==> exists i :: 0 <= i < |items| && items[i].stage == st
  {
    if st in stages {
      var row := Row(st, None);
      if s :| s in steps && s.stageId == st.id {
        row := Row(st, Some(s));
      }
      assert InJoin(stages, steps, row);
      FlattenMember(items, row);
    }
    forall i | 0 <= i < |items| ensures items[i].stage in stages {
      FlattenAt(items, i, 0);
      assert InJoin(stages, steps, rows[Offset(items, i)]);
    }
  }

  lemma {:induction false} StepListed(stages: set<Stage>, steps: set<Step>, rows: seq<Row>, items: seq<Item>,
                                      i: nat, s: Step)
    requires Answer(stages, steps, rows) && Flatten(items) == rows && Proper(items) && i < |items|
    ensures s in items[i].steps <==> s in steps && s.stageId == items[i].stage.id
  {
    var row := Row(items[i].stage, Some(s));
    if s in items[i].steps {
      var k :| 0 <= k < |items[i].steps| && items[i].steps[k] == s;
      FlattenAt(items, i, k);
      assert InJoin(stages, steps, row);
    }
    if s in steps && s.stageId == items[i].stage.id {
      StageListed(stages, steps, rows, items, items[i].stage);
      assert InJoin(stages, steps, row);
      FlattenMember(items, row);
      var j :| 0 <= j < |items| && row in RowsOf(items[j]);
      if i < j {
        StagesAscend(items, i, j);
      } else if j < i {
        StagesAscend(items, j, i);
      }
    }
  }

  /** Scanning the answer to the query gives every stage once, by ascending id, with
      exactly its own steps by ascending id, and loses no row. */
  lemma {:induction false} QueryThenScan(stages: set<Stage>, steps: set<Step>, rows: seq<Row>)
    requires Answer(stages, steps, rows) && NonZero(rows)
    ensures Grouped(stages, steps, Scanned(rows)) && Flatten(Scanned(rows)) == rows
  {
    var items := Scanned(rows);
    ScanThenFlatten(rows);
    ScannedIsProper(rows);
    forall i, j | 0 <= i < j < |items| ensures items[i].stage.id < items[j].stage.id {
      StagesAscend(items, i, j);
    }
    forall st ensures st in stages <==> exists i :: 0 <= i < |items| && items[i].stage == st {
      StageListed(stages, steps, rows, items, st);
    }
    forall i | 0 <= i < |items| ensures StepsOf(steps, items[i]) {
      ItemSteps(stages, steps, rows, items, i);
    }
  }

  lemma {:induction false} ItemSteps(stages: set<Stage>, steps: set<Step>, rows: seq<Row>, items: seq<Item>, i: nat)
    requires Answer(stages, steps, rows) && Flatten(items) == rows && Proper(items) && i < |items|
    ensures StepsOf(steps, items[i])
  {
    forall s ensures s in items[i].steps <==> s in steps && s.stageId == items[i].stage.id {
      StepListed(stages, steps, rows, items, i, s);
    }
    forall j, k | 0 <= j < k < |items[i].steps| ensures items[i].steps[j].id < items[i].steps[k].id {
      StepsAscend(items, i, j, k);
    }
  }
}
