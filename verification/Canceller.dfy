/** The cancel table of the scheduler: cancelled builds are remembered for five
    minutes, and every registered watcher of a cancelled build is woken. */
module Canceller {
  import opened Sets

  /** Five minutes in nanoseconds. */
  const TTL: int := 5 * 60 * 1_000_000_000

  /** A watcher's channel, by identity. */
  datatype Channel = Channel(id: nat)

  /** One Cancel call with its two clock readings: when the build was entered and
      when the table was swept. */
  datatype Entry = Entry(build: int, marked: int, swept: int)

  // ---------- the table as a function of the cancels ----------

  /** The clock never runs backwards. */
  ghost predicate Clocked(h: seq<Entry>) {
    && (forall i :: 0 <= i < |h| ==> h[i].marked <= h[i].swept)
    && (forall i, j :: 0 <= i < j < |h| ==> h[i].swept <= h[j].marked)
  }

  function Unexpired(table: map<int, int>, now: int): map<int, int> {
    map build | build in table && now <= table[build] :: table[build]
  }

  function Table(h: seq<Entry>): map<int, int> {
    if |h| == 0 then map[]
    else
      var e := h[|h| - 1];
      Unexpired(Table(h[..|h| - 1])[e.build := e.marked + TTL], e.swept)
  }

  ghost predicate LastCancel(h: seq<Entry>, build: int, i: int) {
    0 <= i < |h| && h[i].build == build && forall j :: i < j < |h| ==> h[j].build != build
  }

  lemma {:induction false} LastCancelExists(h: seq<Entry>, build: int, i: int) returns (k: int)
    requires 0 <= i < |h| && h[i].build == build
    ensures i <= k && LastCancel(h, build, k)
    decreases |h| - i
  {
    k := i;
    if j :| i < j < |h| && h[j].build == build {
      k := LastCancelExists(h, build, j);
    }
  }

  /** After any run of cancels the table holds exactly the builds last cancelled no
      more than five minutes before the latest sweep, each with its own expiry. */
  lemma {:induction false} TableHolds(h: seq<Entry>, build: int)
    requires Clocked(h)
    ensures build in Table(h) <==>
              exists i :: LastCancel(h, build, i) && h[|h| - 1].swept <= h[i].marked + 300_000_000_000
    ensures forall i :: LastCancel(h, build, i) && build in Table(h) ==>
              Table(h)[build] == h[i].marked + 300_000_000_000
  {
    if |h| == 0 {
    } else {
      var n := |h| - 1;
      var rest := h[..n];
      TableHolds(rest, build);
      if h[n].build == build {
        assert LastCancel(h, build, n);
      } else {
        assert forall i :: LastCancel(rest, build, i) <==> LastCancel(h, build, i);
        assert n > 0 ==> rest[n - 1].swept <= h[n].swept;
      }
    }
  }

  /** A poll that finds the build in the table reports a real cancel, and a poll no
      later than five minutes after a cancel finds it. */
  lemma PollIsRight(h: seq<Entry>, build: int, now: int)
    requires Clocked(h) && forall i :: 0 <= i < |h| ==> h[i].swept <= now
    ensures build in Table(h) ==> exists i :: 0 <= i < |h| && h[i].build == build
    ensures (exists i :: 0 <= i < |h| && h[i].build == build && now <= h[i].marked + 300_000_000_000) ==>
              build in Table(h)
  {
    TableHolds(h, build);
    if i :| 0 <= i < |h| && h[i].build == build && now <= h[i].marked + 300_000_000_000 {
      var k := LastCancelExists(h, build, i);
      assert h[i].marked <= h[k].marked;
      assert h[|h| - 1].swept <= now;
    }
  }

  // ---------- the canceller ----------

  class Canceller {
    var subscribers: map<Channel, int>
    var cancelled: map<int, int>
    var closed: set<Channel>
    ghost var history: seq<Entry>
    ghost var since: map<Channel, nat>    // length of the history when a watcher registered

    /** The table is the one the history determines, and a registered watcher has
        been woken exactly when its build was cancelled after it registered. */
    ghost predicate Valid()
      reads this
    {
      && Clocked(history)
      && cancelled == Table(history)
      && subscribers.Keys <= since.Keys
      && closed <= since.Keys
      && (forall c :: c in since ==> since[c] <= |history|)
      && (forall c :: c in subscribers ==> (c in closed <==> CancelledSince(history, since[c], subscribers[c])))
    }

    constructor ()
      ensures Valid() && history == [] && subscribers == map[] && closed == {}
    {
      subscribers, cancelled, closed := map[], map[], {};
      history, since := [], map[];
    }

    /** Close the channel of every watcher of the build.  Closing a channel twice
        panics, so the loop panics exactly if a watcher of the build was woken before
        and is still registered. */
    method WakeAll(build: int) returns (panics: bool)
      modifies this`closed
      ensures panics <==> exists c :: c in subscribers && subscribers[c] == build && c in old(closed)
      ensures !panics ==> closed == old(closed) + set c | c in subscribers && subscribers[c] == build
    {
      var rest := subscribers.Keys;
      while rest != {}
        invariant rest <= subscribers.Keys
        invariant closed == old(closed) + set c | c in subscribers && c !in rest && subscribers[c] == build
        invariant forall c :: c in subscribers && c !in rest && subscribers[c] == build ==> c !in old(closed)
        decreases |rest|
      {
        var c := Pick(rest);
        if subscribers[c] == build {
          if c in closed {
            return true;
          }
          closed := closed + {c};
        }
        rest := rest - {c};
      }
      return false;
    }

    method Collect(now: int)
      modifies this`cancelled
      ensures cancelled == Unexpired(old(cancelled), now)
    {
      var rest := cancelled.Keys;
      while |rest| != 0
        invariant rest <= cancelled.Keys
        invariant cancelled ==
                    map b | b in old(cancelled) && (b in rest || now <= old(cancelled)[b]) :: old(cancelled)[b]
        decreases |rest|
      {
        var b := Pick(rest);
        if now > cancelled[b] {
          cancelled := cancelled - {b};
        }
        rest := rest - {b};
      }
    }

    /** A panic leaves the lock held; nothing is promised after it. */
    method Cancel(build: int, marked: int, swept: int) returns (panics: bool)
      requires Valid() && marked <= swept
      requires forall i :: 0 <= i < |history| ==> history[i].swept <= marked
      modifies this
      ensures panics <==> exists c :: c in old(subscribers) && old(subscribers)[c] == build && c in old(closed)
      ensures !panics ==> Valid() && history == old(history) + [Entry(build, marked, swept)]
      ensures !panics ==> subscribers == old(subscribers) && since == old(since)
      ensures !panics ==> closed == old(closed) + set c | c in subscribers && subscribers[c] == build
    {
      cancelled := cancelled[build := marked + TTL];
      panics := WakeAll(build);
      if panics {
        return;
      }
      Collect(swept);
      history := history + [Entry(build, marked, swept)];
      assert history[..|history| - 1] == old(history);
      forall c | c in subscribers ensures c in closed <==> CancelledSince(history, since[c], subscribers[c]) {
        CancelledSinceGrows(old(history), history[|old(history)|], since[c], subscribers[c]);
      }
    }

    method Register(c: Channel, build: int)
      requires Valid() && c !in since
      modifies this`subscribers, this`since
      ensures Valid()
      ensures subscribers == old(subscribers)[c := build] && since == old(since)[c := |history|]
    {
      subscribers := subscribers[c := build];
      since := since[c := |history|];
    }

    /** One minute has passed: look the build up.  True means it was cancelled;
        false means it was not cancelled in the last five minutes. */
    method Poll(c: Channel, now: int) returns (r: bool)
      requires Valid() && c in subscribers
      requires forall i :: 0 <= i < |history| ==> history[i].swept <= now
      ensures r ==> exists i :: 0 <= i < |history| && history[i].build == subscribers[c]
      ensures !r ==>
                forall i :: 0 <= i < |history| && history[i].build == subscribers[c] ==>
                  history[i].marked + 300_000_000_000 < now
    {
      PollIsRight(history, subscribers[c], now);
      r := subscribers[c] in cancelled;
    }

    /** The watcher's own channel is closed exactly when its build was cancelled
        since it registered, so a waiting watcher misses no cancel. */
    method Woken(c: Channel) returns (r: bool)
      requires Valid() && c in subscribers
      ensures r <==> exists i :: since[c] <= i < |history| && history[i].build == subscribers[c]
    {
      r := c in closed;
    }

    method Unregister(c: Channel)
      requires Valid()
      modifies this`subscribers
      ensures Valid() && subscribers == old(subscribers) - {c}
    {
      subscribers := subscribers - {c};
    }
  }

  ghost predicate CancelledSince(h: seq<Entry>, from: nat, build: int) {
    exists i :: from <= i < |h| && h[i].build == build
  }

  lemma CancelledSinceGrows(h: seq<Entry>, e: Entry, from: nat, build: int)
    requires from <= |h|
    ensures CancelledSince(h + [e], from, build) <==> CancelledSince(h, from, build) || e.build == build
  {
    var h' := h + [e];
    assert h'[|h|] == e;
    if CancelledSince(h, from, build) {
      var i :| from <= i < |h| && h[i].build == build;
      assert h'[i] == h[i];
    }
  }
}
