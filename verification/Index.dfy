/** The MySQL index of unfinished stages: a second table kept in step with the
    stages table by an insert and an update trigger, and the queries that use it. */
module Index {
  import opened Core
  import opened Sets
  import opened Store

  ghost predicate Keyed(rows: Stages) {
    forall id :: id in rows ==> rows[id].id == id
  }

  ghost function UnfinishedIds(rows: Stages): set<int> {
    set id | id in rows && UnfinishedStatus(rows[id].status)
  }

  // ---------- queries ----------

  /** The answer to: rows with an id in ids and a status in states, by ascending id. */
  ghost predicate Answers(rows: Stages, ids: set<int>, states: set<Status>, list: seq<Stage>) {
    && (forall k :: 0 <= k < |list| ==> Selected(rows, ids, states, list[k].id) && rows[list[k].id] == list[k])
    && (forall id :: Selected(rows, ids, states, id) ==> rows[id] in list)
    && (forall j, k :: 0 <= j < k < |list| ==> list[j].id < list[k].id)
  }

  ghost predicate Selected(rows: Stages, ids: set<int>, states: set<Status>, id: int) {
    id in rows && id in ids && rows[id].status in states
  }

  /** Ascending lists of the same rows are the same list. */
  lemma {:induction false} SameRows(a: seq<Stage>, b: seq<Stage>)
    requires forall x :: x in a <==> x in b
    requires forall j, k :: 0 <= j < k < |a| ==> a[j].id < a[k].id
    requires forall j, k :: 0 <= j < k < |b| ==> b[j].id < b[k].id
    ensures a == b
  {
    assert |b| > 0 ==> b[0] in b;
    if |a| > 0 {
      assert a[0] in a;
      assert a[0] == b[0];
      forall x ensures x in a[1..] <==> x in b[1..] {
        assert x in a[1..] ==> x in a && x != a[0];
        assert x in b[1..] ==> x in b && x != b[0];
      }
      SameRows(a[1..], b[1..]);
    }
  }

  /** With the index in step, a query for unfinished states through the index
      answers the query over the whole table. */
  lemma IndexAnswers(rows: Stages, unfinished: set<int>, states: set<Status>, list: seq<Stage>)
    requires unfinished == UnfinishedIds(rows) && forall s :: s in states ==> UnfinishedStatus(s)
    requires Answers(rows, unfinished, states, list)
    ensures Answers(rows, rows.Keys, states, list)
  {
    assert forall id :: Selected(rows, unfinished, states, id) <==> Selected(rows, rows.Keys, states, id);
  }

  /** Two answers to one query are the same list, so both drivers return it. */
  lemma DriversAgree(rows: Stages, unfinished: set<int>, states: set<Status>, a: seq<Stage>, b: seq<Stage>)
    requires unfinished == UnfinishedIds(rows) && forall s :: s in states ==> UnfinishedStatus(s)
    requires Answers(rows, unfinished, states, a) && Answers(rows, rows.Keys, states, b)
    ensures a == b
  {
    IndexAnswers(rows, unfinished, states, a);
    forall x ensures x in a <==> x in b {
      assert x in a || x in b ==> Selected(rows, rows.Keys, states, x.id);
    }
    SameRows(a, b);
  }

  /** And only then: an index that misses an unfinished row loses it from the list. */
  lemma MissingIdIsLost(rows: Stages, unfinished: set<int>, id: int, a: seq<Stage>)
    requires Keyed(rows) && id in UnfinishedIds(rows) && id !in unfinished
    requires Answers(rows, unfinished, {Pending, Running}, a)
    ensures !Answers(rows, rows.Keys, {Pending, Running}, a)
  {
    assert Selected(rows, rows.Keys, {Pending, Running}, id);
    assert forall k :: 0 <= k < |a| ==> a[k].id in unfinished;
  }

  // ---------- the tables ----------

  class StageTable {
    var stages: Stages
    var unfinished: set<int>
    const mysql: bool

    /** The index holds exactly the ids of pending and running rows. */
    ghost predicate Valid()
      reads this
    {
      Keyed(stages) && unfinished == UnfinishedIds(stages)
    }

    constructor (mysql: bool)
      ensures Valid() && stages == map[] && this.mysql == mysql
    {
      stages, unfinished, this.mysql := map[], {}, mysql;
    }

    /** Insert under a new key.  The trigger's plain insert into the index never
        meets an existing key, so the statement succeeds. */
    method Insert(row: Stage) returns (ok: bool)
      requires Valid() && row.id !in stages
      modifies this
      ensures Valid() && ok && stages == old(stages)[row.id := row.(version := 1)]
    {
      ok := true;
      if row.status.Pending? || row.status.Running? {
        ok := row.id !in unfinished;
        unfinished := unfinished + {row.id};
      }
      if ok {
        stages := stages[row.id := row.(version := 1)];
      }
    }

    method Update(copy: Stage) returns (ok: bool)
      requires Valid()
      modifies this
      ensures Valid() && ok == Current(old(stages), copy) && stages == Committed(old(stages), copy)
    {
      var was := if copy.id in stages then stages[copy.id] else copy;
      var rows, copy';
      ok, rows, copy' := CompareAndSet(stages, copy);
      if ok {
        stages := rows;
        var now := stages[copy.id];
        if now.status.Pending? || now.status.Running? {
          unfinished := unfinished + {now.id};
        } else if was.status.Pending? || was.status.Running? {
          unfinished := unfinished - {was.id};
        }
      }
    }

    method Select(ids: set<int>, states: set<Status>) returns (list: seq<Stage>)
      requires Valid() && ids <= stages.Keys
      ensures Answers(stages, ids, states, list)
    {
      list := [];
      var rest := ids;
      while |rest| != 0
        invariant rest <= ids
        invariant Answers(stages, ids - rest, states, list)
        invariant forall x, y :: x in rest && y in ids && y !in rest ==> y < x
        decreases |rest|
      {
        var id := Smallest(rest);
        if stages[id].status in states {
          list := list + [stages[id]];
        }
        rest := rest - {id};
      }
      assert ids - rest == ids;
    }

    /** On either driver: every pending and running row, oldest first. */
    method ListIncomplete() returns (list: seq<Stage>)
      requires Valid()
      ensures Answers(stages, stages.Keys, {Pending, Running}, list)
    {
      list := Select(if mysql then unfinished else stages.Keys, {Pending, Running});
      if mysql {
        IndexAnswers(stages, unfinished, {Pending, Running}, list);
      }
    }

    method ListState(state: Status) returns (list: seq<Stage>)
      requires Valid()
      ensures Answers(stages, stages.Keys, {state}, list)
    {
      var indexed := (state.Pending? || state.Running?) && mysql;
      list := Select(if indexed then unfinished else stages.Keys, {state});
      if indexed {
        IndexAnswers(stages, unfinished, {state}, list);
      }
    }
  }
}
