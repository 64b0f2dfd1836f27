/** The in-memory queue: workers wait for stages, and each signal pass hands
    pending stages to workers that match, in list order. */
module Queue {
  import opened Core

  /** A waiting Request call; id stands for the identity of the call. */
  datatype Worker = Worker(id: nat, platform: Platform)

  /** A hand-over: the stage at this position of the list went to this worker. */
  datatype Delivery = Delivery(index: int, worker: Worker)

  // ---------- matching ----------

  /** What a worker must offer: the platform, and labels equal as maps. */
  predicate Matches(w: Platform, item: Platform) {
    && w.os == item.os && w.arch == item.arch
    && (item.variant != "" ==> item.variant == w.variant)
    && (item.kernel != "" ==> item.kernel == w.kernel)
    && item.labels == w.labels
  }

  lemma SubmapEqual(a: map<string, string>, b: map<string, string>)
    requires |a| == |b| && forall k :: k in a ==> k in b && a[k] == b[k]
    ensures a == b
  {
    assert a.Keys <= b.Keys;
    assert |a.Keys| == |b.Keys|;
    var extra := b.Keys - a.Keys;
    assert b.Keys == a.Keys + extra;
    assert |b.Keys| == |a.Keys| + |extra|;
    assert extra == {};
  }

  method CheckLabels(a: map<string, string>, b: map<string, string>) returns (r: bool)
    ensures r <==> a == b
  {
    if |a| != |b| {
      return false;
    }
    var rest := a.Keys;
    while rest != {}
      invariant rest <= a.Keys
      invariant forall k :: k in a && k !in rest ==> k in b && a[k] == b[k]
      decreases |rest|
    {
      var k :| k in rest;
      if k !in b || a[k] != b[k] {
        return false;
      }
      rest := rest - {k};
    }
    SubmapEqual(a, b);
    return true;
  }

  /** The chain of tests of the inner loop. */
  method WorkerMatches(w: Worker, item: Stage) returns (r: bool)
    ensures r <==> Matches(w.platform, item.platform)
    ensures r <==>
              && w.platform.os == item.platform.os && w.platform.arch == item.platform.arch
              && (item.platform.variant == "" || item.platform.variant == w.platform.variant)
              && (item.platform.kernel == "" || item.platform.kernel == w.platform.kernel)
              && item.platform.labels == w.platform.labels
  {
    var p, q := w.platform, item.platform;
    if p.os != q.os {
      return false;
    }
    if p.arch != q.arch {
      return false;
    }
    if q.variant != "" && q.variant != p.variant {
      return false;
    }
    if q.kernel != "" && q.kernel != p.kernel {
      return false;
    }
    if |q.labels| > 0 || |p.labels| > 0 {
      r := CheckLabels(q.labels, p.labels);
      return;
    }
    SubmapEqual(q.labels, p.labels);
    return true;
  }

  // ---------- concurrency limits ----------

  predicate Older(a: Stage, b: Stage) {
    a.repoId == b.repoId && a.name == b.name && a.id < b.id
  }

  /** How many of the listed siblings of a stage are older. */
  function CountOlder(stage: Stage, siblings: seq<Stage>): nat {
    if |siblings| == 0 then 0
    else CountOlder(stage, siblings[..|siblings| - 1]) + if Older(siblings[|siblings| - 1], stage) then 1 else 0
  }

  /** The positions of the older siblings. */
  ghost function OlderAt(stage: Stage, siblings: seq<Stage>): set<int> {
    set i | 0 <= i < |siblings| && Older(siblings[i], stage)
  }

  lemma {:induction false} CountIs(stage: Stage, siblings: seq<Stage>)
    ensures CountOlder(stage, siblings) == |OlderAt(stage, siblings)|
  {
    if |siblings| > 0 {
      var n := |siblings| - 1;
      CountIs(stage, siblings[..n]);
      var before := OlderAt(stage, siblings[..n]);
      assert OlderAt(stage, siblings) == if Older(siblings[n], stage) then before + {n} else before;
    }
  }

  predicate WithinLimits(stage: Stage, siblings: seq<Stage>) {
    stage.limit == 0 || CountOlder(stage, siblings) < stage.limit
  }

  method CheckLimits(stage: Stage, siblings: seq<Stage>) returns (r: bool)
    ensures r <==> WithinLimits(stage, siblings)
    ensures r <==> stage.limit == 0 || |set i | 0 <= i < |siblings| && siblings[i].repoId == stage.repoId
                                               && siblings[i].name == stage.name && siblings[i].id < stage.id|
                                       < stage.limit
  {
    CountIs(stage, siblings);
    assert OlderAt(stage, siblings) == set i | 0 <= i < |siblings| && siblings[i].repoId == stage.repoId
                                               && siblings[i].name == stage.name && siblings[i].id < stage.id;
    if stage.limit == 0 {
      return true;
    }
    var count := 0;
    for i := 0 to |siblings|
      invariant count == CountOlder(stage, siblings[..i])
    {
      assert siblings[..i + 1][..i] == siblings[..i];
      var sibling := siblings[i];
      if sibling.repoId != stage.repoId || sibling.id == stage.id || sibling.name != stage.name {
        continue;
      }
      if sibling.id < stage.id {
        count := count + 1;
      }
    }
    assert siblings[..|siblings|] == siblings;
    return count < stage.limit;
  }

  predicate Eligible(items: seq<Stage>, i: int)
    requires 0 <= i < |items|
  {
    !items[i].status.Running? && items[i].machine == "" && WithinLimits(items[i], items)
  }

  // ---------- one pass ----------

  ghost predicate Delivered(ds: seq<Delivery>, i: int) {
    exists k :: 0 <= k < |ds| && ds[k].index == i
  }

  ghost predicate Used(ds: seq<Delivery>, w: Worker) {
    exists k :: 0 <= k < |ds| && ds[k].worker == w
  }

  /** A pass over the first n items took the workers from before to after. */
  ghost predicate PassUpTo(items: seq<Stage>, n: int, before: set<Worker>, after: set<Worker>, ds: seq<Delivery>) {
    && 0 <= n <= |items|
    && (forall k :: 0 <= k < |ds| ==>
          && 0 <= ds[k].index < n && Eligible(items, ds[k].index)
          && ds[k].worker in before && Matches(ds[k].worker.platform, items[ds[k].index].platform))
    && (forall k, l :: 0 <= k < l < |ds| ==> ds[k].index < ds[l].index && ds[k].worker != ds[l].worker)
    && (forall w :: w in after <==> w in before && !Used(ds, w))
    && (forall i, w :: 0 <= i < n && Eligible(items, i) && !Delivered(ds, i) && w in after
          ==> !Matches(w.platform, items[i].platform))
    && (forall i, k :: 0 <= i < n && Eligible(items, i) && !Delivered(ds, i) && 0 <= k < |ds| && i < ds[k].index
          ==> !Matches(ds[k].worker.platform, items[i].platform))
  }

  /** Each stage and each worker is used at most once, every delivery is eligible
      and matches, no remaining worker matches an undelivered eligible stage, and
      no stage takes a worker an earlier undelivered eligible stage could use. */
  ghost predicate PassOK(items: seq<Stage>, before: set<Worker>, after: set<Worker>, ds: seq<Delivery>) {
    PassUpTo(items, |items|, before, after, ds)
  }

  lemma PassTurn(items: seq<Stage>, n: int, before: set<Worker>, after: set<Worker>, ds: seq<Delivery>, w: Worker)
    requires PassUpTo(items, n, before, after, ds) && n < |items| && Eligible(items, n)
    requires w in after && Matches(w.platform, items[n].platform)
    ensures PassUpTo(items, n + 1, before, after - {w}, ds + [Delivery(n, w)])
  {
    var ds' := ds + [Delivery(n, w)];
    assert ds'[|ds|] == Delivery(n, w);
    forall i ensures Delivered(ds', i) <==> Delivered(ds, i) || i == n {
      if Delivered(ds, i) {
        var k :| 0 <= k < |ds| && ds[k].index == i;
        assert ds'[k].index == i;
      }
    }
    forall v ensures Used(ds', v) <==> Used(ds, v) || v == w {
      if Used(ds, v) {
        var k :| 0 <= k < |ds| && ds[k].worker == v;
        assert ds'[k].worker == v;
      }
    }
  }

  lemma PassSkip(items: seq<Stage>, n: int, before: set<Worker>, after: set<Worker>, ds: seq<Delivery>)
    requires PassUpTo(items, n, before, after, ds) && n < |items|
    requires Eligible(items, n) ==> forall w :: w in after ==> !Matches(w.platform, items[n].platform)
    ensures PassUpTo(items, n + 1, before, after, ds)
  {
  }

  class Queue {
    var paused: bool
    var ready: bool             // the capacity-one wake-up channel
    var workers: set<Worker>

    constructor ()
      ensures !paused && !ready && workers == {}
    {
      paused, ready, workers := false, false, {};
    }

    /** A full channel already holds the wake-up. */
    method Schedule()
      modifies this`ready
      ensures ready
    {
      if !ready {
        ready := true;
      }
    }

    method Pause()
      modifies this`paused
      ensures paused
    {
      paused := true;
    }

    method Resume()
      modifies this`paused, this`ready
      ensures !paused && ready
    {
      paused := false;
      Schedule();
    }

    /** The first half of Request: register, then signal. */
    method Register(w: Worker)
      modifies this`workers, this`ready
      ensures workers == old(workers) + {w} && ready
    {
      workers := workers + {w};
      Schedule();
    }

    /** The inner loop: any worker that matches, if there is one. */
    method FindWorker(item: Stage) returns (found: Option<Worker>)
      ensures found.Some? ==> found.value in workers && Matches(found.value.platform, item.platform)
      ensures found.None? ==> forall w :: w in workers ==> !Matches(w.platform, item.platform)
    {
      var rest := workers;
      while rest != {}
        invariant rest <= workers
        invariant forall w :: w in workers && w !in rest ==> !Matches(w.platform, item.platform)
        decreases |rest|
      {
        var w :| w in rest;
        var ok := WorkerMatches(w, item);
        if ok {
          return Some(w);
        }
        rest := rest - {w};
      }
      return None;
    }

    /** The part of signal that runs under the lock, on a listed snapshot. */
    method Pass(items: seq<Stage>) returns (ds: seq<Delivery>)
      modifies this`workers
      ensures PassOK(items, old(workers), workers, ds)
      ensures forall k :: 0 <= k < |ds| ==>
                && 0 <= ds[k].index < |items| && ds[k].worker in old(workers)
                && items[ds[k].index].status != Running && items[ds[k].index].machine == ""
                && WithinLimits(items[ds[k].index], items)
                && var p, q := ds[k].worker.platform, items[ds[k].index].platform;
                   && p.os == q.os && p.arch == q.arch && (q.variant == "" || q.variant == p.variant)
                   && (q.kernel == "" || q.kernel == p.kernel) && p.labels == q.labels
      ensures forall i, w :: 0 <= i < |items| && !Delivered(ds, i) && w in workers ==>
                var p, q := w.platform, items[i].platform;
                || items[i].status == Running || items[i].machine != "" || !WithinLimits(items[i], items)
                || p.os != q.os || p.arch != q.arch || (q.variant != "" && q.variant != p.variant)
                || (q.kernel != "" && q.kernel != p.kernel) || p.labels != q.labels
    {
      ds := [];
      for n := 0 to |items|
        invariant PassUpTo(items, n, old(workers), workers, ds)
      {
        if items[n].status.Running? || items[n].machine != "" {
          PassSkip(items, n, old(workers), workers, ds);
          continue;
        }
        var within := CheckLimits(items[n], items);
        if !within {
          PassSkip(items, n, old(workers), workers, ds);
          continue;
        }
        var found := FindWorker(items[n]);
        match found
        case None =>
          PassSkip(items, n, old(workers), workers, ds);
        case Some(w) =>
          PassTurn(items, n, old(workers), workers, ds, w);
          workers := workers - {w};
          ds := ds + [Delivery(n, w)];
      }
    }

    /** signal: nothing happens while paused or without workers. */
    method Signal(items: seq<Stage>) returns (ds: seq<Delivery>)
      modifies this`workers
      ensures paused || old(workers) == {} ==> ds == [] && workers == old(workers)
      ensures !paused ==> PassOK(items, old(workers), workers, ds)
      ensures forall k :: 0 <= k < |ds| ==>
                && 0 <= ds[k].index < |items| && ds[k].worker in old(workers)
                && items[ds[k].index].status != Running && items[ds[k].index].machine == ""
                && WithinLimits(items[ds[k].index], items)
                && var p, q := ds[k].worker.platform, items[ds[k].index].platform;
                   && p.os == q.os && p.arch == q.arch && (q.variant == "" || q.variant == p.variant)
                   && (q.kernel == "" || q.kernel == p.kernel) && p.labels == q.labels
      ensures !paused ==> forall i, w :: 0 <= i < |items| && !Delivered(ds, i) && w in workers ==>
                var p, q := w.platform, items[i].platform;
                || items[i].status == Running || items[i].machine != "" || !WithinLimits(items[i], items)
                || p.os != q.os || p.arch != q.arch || (q.variant != "" && q.variant != p.variant)
                || (q.kernel != "" && q.kernel != p.kernel) || p.labels != q.labels
    {
      if paused {
        return [];
      }
      if |workers| == 0 {
        ds := [];
        assert forall k :: Used(ds, k) <==> false;
        return;
      }
      ds := Pass(items);
    }
  }
}
