/** The queue as a concurrent system: the store changes, workers come and go, and
    one dispatcher loop takes wake-ups, lists the unfinished stages and runs a
    pass.  Every commit of an available stage, every registration and every resume
    is followed, at some later point, by a send on the capacity-one channel. */
module Dispatch {
  import opened Core
  import opened Queue
  import opened Greedy
  import opened Sets
  import Index
  import Protocol

  datatype Dispatcher =
    | Asleep                        // waiting for a wake-up or the timer
    | Awake                         // signal was called
    | Checked                       // not paused, some worker
    | Listed(items: seq<Stage>)     // holds a snapshot

  datatype State = State(
    rows: map<int, Stage>,
    entered: set<int>,              // stages that have ever been pending or running
    delivered: set<int>,            // stages handed to some worker
    workers: set<Worker>,
    paused: bool,
    ready: bool,
    owed: nat,                      // sends that are still to come
    disp: Dispatcher)

  datatype Action =
    | Commit(row: Stage)
    | Register(w: Worker)
    | Leave(w: Worker)
    | Pause
    | Resume
    | Send
    | Take
    | Tick
    | Check
    | List(items: seq<Stage>)
    | Match(after: set<Worker>, ds: seq<Delivery>)

  predicate Unfinished(r: Stage) {
    UnfinishedStatus(r.status)
  }

  predicate Available(r: Stage) {
    r.status.Pending? && r.machine == ""
  }

  ghost predicate Snapshot(rows: map<int, Stage>, items: seq<Stage>) {
    && (forall i :: 0 <= i < |items| ==> items[i].id in rows && rows[items[i].id] == items[i] && Unfinished(items[i]))
    && (forall id :: id in rows && Unfinished(rows[id]) ==> rows[id] in items)
    && (forall i, j :: 0 <= i < j < |items| ==> items[i].id < items[j].id)
  }

  /** A snapshot is an answer to the queue's ListIncomplete. */
  lemma SnapshotIsListIncomplete(rows: map<int, Stage>, items: seq<Stage>)
    ensures Snapshot(rows, items) <==> Index.Answers(rows, rows.Keys, {Pending, Running}, items)
  {
    assert forall id :: Index.Selected(rows, rows.Keys, {Pending, Running}, id) <==> id in rows && Unfinished(rows[id]);
  }

  /** What a pass over that snapshot may hand over is what the protocol calls ready. */
  lemma EligibleIsReady(rows: map<int, Stage>, items: seq<Stage>, i: int)
    requires Snapshot(rows, items) && 0 <= i < |items| && (forall id :: id in rows ==> rows[id].id == id)
    ensures Eligible(items, i) <==> items[i].id in Protocol.Ready(rows)
  {
    var r := items[i];
    CountIsBelow(r, items);
    forall y ensures y in Below(Group(items, r.repoId, r.name), r.id) <==> y in Protocol.OlderSiblings(rows, r) {
      if y in Protocol.OlderSiblings(rows, r) {
        assert rows[y] in items;
      }
    }
    assert Below(Group(items, r.repoId, r.name), r.id) == Protocol.OlderSiblings(rows, r);
  }

  lemma ReadyIsListed(rows: map<int, Stage>, items: seq<Stage>, id: int)
    requires Snapshot(rows, items) && id in Protocol.Ready(rows)
    ensures exists i :: 0 <= i < |items| && items[i] == rows[id]
  {
    assert rows[id] in items;
  }

  ghost function IdsOf(items: seq<Stage>, ds: seq<Delivery>): set<int>
    requires forall k :: 0 <= k < |ds| ==> 0 <= ds[k].index < |items|
  {
    set k | 0 <= k < |ds| :: items[ds[k].index].id
  }

  ghost predicate Next(s: State, a: Action, s': State) {
    match a
    case Commit(row) =>
      var opens := Available(row) && !(row.id in s.rows && s.rows[row.id] == row);
      s' == s.(rows := s.rows[row.id := row],
               entered := if Unfinished(row) then s.entered + {row.id} else s.entered,
               owed := if opens then s.owed + 1 else s.owed)
    case Register(w) => s' == s.(workers := s.workers + {w}, owed := s.owed + 1)
    case Leave(w) => s' == s.(workers := s.workers - {w})
    case Pause => s' == s.(paused := true)
    case Resume => s' == s.(paused := false, owed := s.owed + 1)
    case Send => s.owed > 0 && s' == s.(owed := s.owed - 1, ready := true)
    case Take => s.disp.Asleep? && s.ready && s' == s.(ready := false, disp := Awake)
    case Tick => s.disp.Asleep? && s' == s.(disp := Awake)
    case Check => s.disp.Awake? && s' == s.(disp := if s.paused || |s.workers| == 0 then Asleep else Checked)
    case List(items) => s.disp.Checked? && Snapshot(s.rows, items) && s' == s.(disp := Listed(items))
    case Match(after, ds) =>
      && s.disp.Listed? && PassOK(s.disp.items, s.workers, after, ds)
      && s' == s.(workers := after, delivered := s.delivered + IdsOf(s.disp.items, ds), disp := Asleep)
  }

  ghost predicate Init(s: State) {
    s == State(map[], {}, {}, {}, false, false, 0, Asleep)
  }

  ghost predicate Run(states: seq<State>, acts: seq<Action>) {
    && |states| == |acts| + 1 && Init(states[0])
    && (forall i :: 0 <= i < |acts| ==> Next(states[i], acts[i], states[i + 1]))
  }

  // ---------- no lost wake-up ----------

  /** A waiting worker and an available, unlimited, undelivered stage that match. */
  ghost predicate Pair(s: State, w: Worker, x: int) {
    && w in s.workers && x in s.rows && Available(s.rows[x]) && s.rows[x].limit == 0 && x !in s.delivered
    && Matches(w.platform, s.rows[x].platform)
  }

  /** Something will make the dispatcher look at stage x. */
  ghost predicate Coming(s: State, x: int) {
    || s.paused || s.ready || s.owed > 0
    || s.disp.Awake? || s.disp.Checked?
    || (s.disp.Listed? && x in s.rows && s.rows[x] in s.disp.items)
  }

  ghost predicate Inv(s: State) {
    && (forall id :: id in s.rows ==> s.rows[id].id == id)
    && (forall w, x :: Pair(s, w, x) ==> Coming(s, x))
  }

  predicate Unlimited(r: Stage) {
    Available(r) && r.limit == 0
  }

  /** A pass that leaves a matching worker has served every listed stage it could. */
  lemma PassServes(items: seq<Stage>, before: set<Worker>, after: set<Worker>, ds: seq<Delivery>, w: Worker, r: Stage)
    requires PassOK(items, before, after, ds)
    requires w in after && r in items && Available(r) && r.limit == 0 && Matches(w.platform, r.platform)
    ensures r.id in IdsOf(items, ds)
  {
    var i :| 0 <= i < |items| && items[i] == r;
    assert Eligible(items, i);
    var k :| 0 <= k < |ds| && ds[k].index == i;
    assert items[ds[k].index].id in IdsOf(items, ds);
  }

  lemma MatchServes(s: State, a: Action, s': State)
    requires a.Match? && Next(s, a, s')
    ensures forall w, r :: w in s'.workers && r in s.disp.items && Unlimited(r) && Matches(w.platform, r.platform)
              ==> r.id in s'.delivered
  {
    forall w, r | w in s'.workers && r in s.disp.items && Unlimited(r) && Matches(w.platform, r.platform)
      ensures r.id in s'.delivered
    {
      PassServes(s.disp.items, s.workers, s'.workers, a.ds, w, r);
    }
  }

  lemma StepKeepsInv(s: State, a: Action, s': State)
    requires Inv(s) && Next(s, a, s')
    ensures Inv(s')
  {
    if a.Match? {
      MatchServes(s, a, s');
    }
    forall w, x | Pair(s', w, x) ensures Coming(s', x) {
      if a.Match? {
        assert Pair(s, w, x);
      } else if s'.owed <= s.owed {
        assert Pair(s, w, x);
      }
    }
  }

  lemma {:induction false} RunKeepsInv(states: seq<State>, acts: seq<Action>, n: nat)
    requires Run(states, acts) && n < |states|
    ensures Inv(states[n])
  {
    if n == 0 {
    } else {
      RunKeepsInv(states, acts, n - 1);
      StepKeepsInv(states[n - 1], acts[n - 1], states[n]);
    }
  }

  /** No lost wake-up: whenever the queue is not paused, the dispatcher sleeps, no
      token is in the channel and no send is owed, no waiting worker matches an
      available, unlimited stage that was never delivered. */
  lemma NoLostWakeup(states: seq<State>, acts: seq<Action>, n: nat)
    requires Run(states, acts) && n < |states|
    requires !states[n].paused && states[n].disp.Asleep? && !states[n].ready && states[n].owed == 0
    ensures forall w, x | w in states[n].workers && x in states[n].rows && x !in states[n].delivered ::
              var r := states[n].rows[x];
              r.status == Pending && r.machine == "" && r.limit == 0 ==>
                var p, q := w.platform, r.platform;
                || p.os != q.os || p.arch != q.arch || (q.variant != "" && q.variant != p.variant)
                || (q.kernel != "" && q.kernel != p.kernel) || p.labels != q.labels
  {
    RunKeepsInv(states, acts, n);
    assert forall w, x :: Pair(states[n], w, x) ==> Coming(states[n], x);
    forall w, x | w in states[n].workers && x in states[n].rows && Available(states[n].rows[x])
                  && states[n].rows[x].limit == 0 && x !in states[n].delivered
      ensures !Matches(w.platform, states[n].rows[x].platform)
    {
      assert !Pair(states[n], w, x);
    }
  }

  // ---------- the concurrency limit over whole runs ----------

  ghost predicate InGroup(r: Stage, repo: int, name: string) {
    r.repoId == repo && r.name == name
  }

  ghost predicate Active(r: Stage) {
    r.status.Running? || (r.status.Pending? && r.machine != "")
  }

  ghost function Unfinisheds(s: State, repo: int, name: string): set<int> {
    set id | id in s.rows && InGroup(s.rows[id], repo, name) && Unfinished(s.rows[id])
  }

  ghost function Actives(s: State, repo: int, name: string): set<int> {
    set id | id in s.rows && InGroup(s.rows[id], repo, name) && Active(s.rows[id])
  }

  /** Writers of the group share the limit, keep the identity columns, let stages
      become pending in id order and never again, and assign only what was
      delivered. */
  ghost predicate Orderly(s: State, a: Action, repo: int, name: string, limit: int) {
    a.Commit? ==>
      var r := a.row;
      && (r.id in s.rows ==> s.rows[r.id].repoId == r.repoId && s.rows[r.id].name == r.name)
      && (InGroup(r, repo, name) ==>
            && r.limit == limit
            && (Unfinished(r) && !(r.id in s.rows && Unfinished(s.rows[r.id])) ==>
                  forall y :: y in s.entered && y in s.rows && InGroup(s.rows[y], repo, name) ==> y < r.id)
            && (Active(r) ==> r.id in s.delivered))
  }

  ghost predicate Limited(s: State, repo: int, name: string, limit: int) {
    && s.delivered <= s.rows.Keys
    && (forall id :: id in s.rows ==> s.rows[id].id == id && (Unfinished(s.rows[id]) ==> id in s.entered))
    && (forall id :: id in s.rows && InGroup(s.rows[id], repo, name) ==>
          s.rows[id].limit == limit && (Active(s.rows[id]) ==> id in s.delivered))
    && (forall x :: x in s.delivered && x in s.rows && InGroup(s.rows[x], repo, name) ==>
          x in s.entered && |Below(Unfinisheds(s, repo, name), x)| < limit)
    && (s.disp.Listed? ==> Fits(s, s.disp.items, repo, name, limit))
  }

  /** An old snapshot still covers every unfinished stage older than one it lists. */
  ghost predicate Fits(s: State, items: seq<Stage>, repo: int, name: string, limit: int) {
    && Distinct(items)
    && (forall i :: 0 <= i < |items| ==>
          items[i].id in s.rows && items[i].id in s.entered
          && s.rows[items[i].id].repoId == items[i].repoId && s.rows[items[i].id].name == items[i].name
          && (InGroup(items[i], repo, name) ==> items[i].limit == limit))
    && (forall i, y :: 0 <= i < |items| && InGroup(items[i], repo, name)
                       && y in Below(Unfinisheds(s, repo, name), items[i].id) ==>
          y in Group(items, repo, name))
  }

  /** An id that has entered gains no smaller unfinished ids. */
  lemma BelowShrinks(s: State, a: Action, s': State, repo: int, name: string, limit: int, x: int)
    requires Limited(s, repo, name, limit) && Next(s, a, s') && Orderly(s, a, repo, name, limit)
    requires x in s.entered && x in s.rows && InGroup(s.rows[x], repo, name)
    ensures Below(Unfinisheds(s', repo, name), x) <= Below(Unfinisheds(s, repo, name), x)
    ensures |Below(Unfinisheds(s', repo, name), x)| <= |Below(Unfinisheds(s, repo, name), x)|
  {
    SubsetSize(Below(Unfinisheds(s', repo, name), x), Below(Unfinisheds(s, repo, name), x));
  }

  lemma DeliveredFits(s: State, items: seq<Stage>, repo: int, name: string, limit: int, i: int)
    requires limit > 0 && Fits(s, items, repo, name, limit) && 0 <= i < |items| && Eligible(items, i)
    requires InGroup(items[i], repo, name)
    ensures |Below(Unfinisheds(s, repo, name), items[i].id)| < limit
  {
    CountIsBelow(items[i], items);
    SubsetSize(Below(Unfinisheds(s, repo, name), items[i].id), Below(Group(items, repo, name), items[i].id));
  }

  lemma FitsKept(s: State, a: Action, s': State, repo: int, name: string, limit: int)
    requires Limited(s, repo, name, limit) && Next(s, a, s') && Orderly(s, a, repo, name, limit) && s'.disp.Listed?
    ensures Fits(s', s'.disp.items, repo, name, limit)
  {
    var items := s'.disp.items;
    if a.List? {
      forall i, y | 0 <= i < |items| && y in Unfinisheds(s, repo, name) && y < items[i].id
        ensures y in Group(items, repo, name)
      {
        assert s.rows[y] in items;
      }
    } else {
      forall i, y | 0 <= i < |items| && InGroup(items[i], repo, name)
                    && y in Unfinisheds(s', repo, name) && y < items[i].id
        ensures y in Group(items, repo, name)
      {
        assert y in Unfinisheds(s, repo, name);
      }
    }
  }

  lemma DeliveriesKept(s: State, a: Action, s': State, repo: int, name: string, limit: int, x: int)
    requires limit > 0 && Limited(s, repo, name, limit) && Next(s, a, s') && Orderly(s, a, repo, name, limit)
    requires x in s'.delivered && x in s'.rows && InGroup(s'.rows[x], repo, name)
    ensures x in s'.entered && |Below(Unfinisheds(s', repo, name), x)| < limit
  {
    if x in s.delivered {
      BelowShrinks(s, a, s', repo, name, limit, x);
    } else {
      NewDelivery(s, a, s', repo, name, limit, x);
    }
  }

  lemma NewDelivery(s: State, a: Action, s': State, repo: int, name: string, limit: int, x: int)
    requires limit > 0 && Limited(s, repo, name, limit) && Next(s, a, s')
    requires x in s'.delivered && x !in s.delivered && x in s'.rows && InGroup(s'.rows[x], repo, name)
    ensures x in s'.entered && |Below(Unfinisheds(s', repo, name), x)| < limit
  {
    var items := s.disp.items;
    var k :| 0 <= k < |a.ds| && items[a.ds[k].index].id == x;
    DeliveredFits(s, items, repo, name, limit, a.ds[k].index);
    assert Unfinisheds(s', repo, name) == Unfinisheds(s, repo, name);
  }

  lemma StepKeepsLimited(s: State, a: Action, s': State, repo: int, name: string, limit: int)
    requires limit > 0 && Limited(s, repo, name, limit) && Next(s, a, s') && Orderly(s, a, repo, name, limit)
    ensures Limited(s', repo, name, limit)
  {
    forall x | x in s'.delivered && x in s'.rows && InGroup(s'.rows[x], repo, name)
      ensures x in s'.entered && |Below(Unfinisheds(s', repo, name), x)| < limit
    {
      DeliveriesKept(s, a, s', repo, name, limit, x);
    }
    if s'.disp.Listed? {
      FitsKept(s, a, s', repo, name, limit);
    }
  }

  lemma {:induction false} RunKeepsLimited(states: seq<State>, acts: seq<Action>, repo: int, name: string,
                                           limit: int, n: nat)
    requires limit > 0 && Run(states, acts) && n < |states|
    requires forall i :: 0 <= i < |acts| ==> Orderly(states[i], acts[i], repo, name, limit)
    ensures Limited(states[n], repo, name, limit)
  {
    if n == 0 {
    } else {
      RunKeepsLimited(states, acts, repo, name, limit, n - 1);
      StepKeepsLimited(states[n - 1], acts[n - 1], states[n], repo, name, limit);
    }
  }

  /** The concurrency limit holds over whole runs: at most limit stages of the
      group are assigned or running in any reachable state, although dispatch
      decides on stale snapshots. */
  lemma LimitHolds(states: seq<State>, acts: seq<Action>, repo: int, name: string, limit: int, n: nat)
    requires limit > 0 && Run(states, acts) && n < |states|
    requires forall i :: 0 <= i < |acts| ==> Orderly(states[i], acts[i], repo, name, limit)
    ensures |Actives(states[n], repo, name)| <= limit
  {
    var s := states[n];
    RunKeepsLimited(states, acts, repo, name, limit, n);
    var active := Actives(s, repo, name);
    if |active| != 0 {
      var m := Largest(active);
      var rest := active - {m};
      assert forall y :: y in rest ==> y in Unfinisheds(s, repo, name) && y < m;
      SubsetSize(rest, Below(Unfinisheds(s, repo, name), m));
    }
  }
}
