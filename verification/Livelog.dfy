/** The live log stream: a bounded history, replayed to each new subscriber, then
    followed line by line through a bounded channel. */
module Livelog {
  import opened Sets

  datatype Line = Line(number: int, message: string, timestamp: int)

  const BUFFER_SIZE: nat := 5000

  // ---------- sequences of lines ----------

  function Last(s: seq<Line>, n: nat): seq<Line> {
    if |s| <= n then s else s[|s| - n..]
  }

  /** Append, then cut at capacity: the last lines again. */
  lemma LastGrows(written: seq<Line>, line: Line)
    ensures var h := Last(written, BUFFER_SIZE) + [line];
      Last(written + [line], BUFFER_SIZE) == if |h| >= BUFFER_SIZE then h[|h| - BUFFER_SIZE..] else h
  {
  }

  /** What a subscriber that joined after the first n lines is due: the history at
      that point, then every later line. */
  function Due(written: seq<Line>, n: nat): seq<Line>
    requires n <= |written|
  {
    Last(written[..n], BUFFER_SIZE) + written[n..]
  }

  lemma DueNext(written: seq<Line>, line: Line, n: nat)
    requires n <= |written|
    ensures Due((written + [line])[..|written| + 1], n) == Due(written[..|written|], n) + [line]
  {
    assert (written + [line])[..|written| + 1] == written + [line] && written[..|written|] == written;
    assert (written + [line])[..n] == written[..n];
    assert (written + [line])[n..] == written[n..] + [line];
  }

  /** Line i of a is line at[i] of b. */
  ghost predicate Same(a: seq<Line>, b: seq<Line>, at: seq<nat>, i: int) {
    0 <= i < |a| && i < |at| && at[i] < |b| && a[i] == b[at[i]]
  }

  ghost predicate Before(at: seq<nat>, i: int, j: int) {
    0 <= i < |at| && 0 <= j < |at| && at[i] < at[j]
  }

  /** The lines of a are the lines of b at these positions, in order. */
  ghost predicate Embeds(a: seq<Line>, b: seq<Line>, at: seq<nat>) {
    && |at| == |a|
    && (forall i {:trigger Same(a, b, at, i)} :: 0 <= i < |a| ==> Same(a, b, at, i))
    && (forall i, j {:trigger Before(at, i, j)} :: 0 <= i < j < |at| ==> Before(at, i, j))
  }

  lemma EmbedsSkip(a: seq<Line>, b: seq<Line>, at: seq<nat>, x: Line)
    requires Embeds(a, b, at)
    ensures Embeds(a, b + [x], at)
  {
    forall i | 0 <= i < |a| ensures Same(a, b + [x], at, i) {
      assert Same(a, b, at, i);
    }
  }

  lemma EmbedsTake(a: seq<Line>, b: seq<Line>, at: seq<nat>, x: Line)
    requires Embeds(a, b, at)
    ensures Embeds(a + [x], b + [x], at + [|b|])
  {
    forall i | 0 <= i < |a| + 1 ensures Same(a + [x], b + [x], at + [|b|], i) {
      assert i < |a| ==> Same(a, b, at, i);
    }
    forall i, j | 0 <= i < j < |at| + 1 ensures Before(at + [|b|], i, j) {
      assert j < |at| ==> Before(at, i, j);
      assert Same(a, b, at, i);
    }
  }

  // ---------- a subscriber ----------

  class Subscriber {
    var handler: seq<Line>          // the channel's buffer
    var closed: bool
    ghost const joined: nat         // lines written before it subscribed
    ghost var received: seq<Line>   // lines its reader has taken
    ghost var offered: seq<Line>    // lines published to it
    ghost var at: seq<nat>          // where received and buffered lines stand in those
    ghost var overflow: bool        // some publish met a full buffer
    ghost var lossy: bool           // some publish dropped its line

    /** Received and buffered lines are, in order, among the lines offered, and are
        all of them unless a line was dropped, which does not happen while the
        subscriber is open and the buffer never was full. */
    ghost predicate Valid()
      reads this
    {
      && |handler| <= BUFFER_SIZE
      && Embeds(received + handler, offered, at)
      && (!lossy ==> received + handler == offered)
      && (!closed && !overflow ==> !lossy)
    }

    /** What a publish of the line does, given the fields before it. */
    ghost predicate Went(line: Line, h: seq<Line>, r: seq<Line>, o: seq<Line>, c: bool)
      reads this
    {
      && offered == o + [line] && received == r && closed == c
      && (!c && |h| < BUFFER_SIZE ==> handler == h + [line])
    }

    /** Everything but the close flag. */
    ghost function Contents(): (seq<Line>, seq<Line>, seq<Line>, seq<nat>, bool, bool)
      reads this
    {
      (handler, received, offered, at, overflow, lossy)
    }

    constructor (ghost n: nat)
      ensures Valid() && joined == n && !closed && !overflow && handler == received == offered == []
    {
      handler, closed := [], false;
      joined, received, offered, at, overflow, lossy := n, [], [], [], false, false;
    }

    /** The three-way select: with the close channel closed and room in the buffer,
        either case may be taken. */
    method Publish(line: Line)
      requires Valid()
      modifies this
      ensures Valid()
      ensures offered == old(offered) + [line] && received == old(received) && closed == old(closed)
      ensures overflow == (old(overflow) || |old(handler)| == BUFFER_SIZE)
      ensures lossy == (old(lossy) || handler == old(handler))
      ensures handler == old(handler) || handler == old(handler) + [line]
      ensures !closed && |old(handler)| < BUFFER_SIZE ==> handler == old(handler) + [line]
    {
      var take := |handler| < BUFFER_SIZE;
      if closed && take {
        take := *;
      }
      if take {
        EmbedsTake(received + handler, offered, at, line);
        assert received + (handler + [line]) == received + handler + [line];
        handler, at := handler + [line], at + [|offered|];
      } else {
        EmbedsSkip(received + handler, offered, at, line);
        overflow, lossy := overflow || |handler| == BUFFER_SIZE, true;
      }
      offered := offered + [line];
    }

    /** The reader takes the oldest buffered line. */
    method Receive() returns (line: Line)
      requires Valid() && |handler| > 0
      modifies this`handler, this`received
      ensures Valid()
      ensures old(handler) == [line] + handler && received == old(received) + [line]
    {
      line := handler[0];
      assert received + handler == received + [line] + handler[1..];
      received := received + [line];
      handler := handler[1..];
    }

    method Close()
      modifies this`closed
      ensures closed && (old(Valid()) ==> Valid())
    {
      if !closed {
        closed := true;
      }
    }
  }

  // ---------- the stream ----------

  class Stream {
    var hist: seq<Line>
    var list: set<Subscriber>
    ghost var written: seq<Line>
    ghost var gone: map<Subscriber, nat>    // removed subscribers, with the lines written by then

    /** The history is the last lines written, at most BUFFER_SIZE of them, and every
        subscriber, listed or removed, was offered exactly what it is due. */
    ghost predicate Valid()
      reads this, list, gone.Keys
    {
      && hist == Last(written, BUFFER_SIZE) && list !! gone.Keys
      && (forall s :: s in list ==> Served(s, |written|))
      && (forall s :: s in gone ==> Served(s, gone[s]))
    }

    /** The subscriber was offered the history when it joined and all lines up to the n-th. */
    ghost predicate Served(sub: Subscriber, n: nat)
      reads this, sub
    {
      sub.Valid() && sub.joined <= n <= |written| && sub.offered == Due(written[..n], sub.joined)
    }

    /** What a subscriber is due: replay and every line until it was removed. */
    ghost function DueTo(sub: Subscriber): seq<Line>
      reads this, list, gone.Keys
      requires Valid() && (sub in list || sub in gone)
    {
      var n := if sub in list then |written| else gone[sub];
      assert Served(sub, n);
      Due(written[..n], sub.joined)
    }

    constructor ()
      ensures Valid() && written == [] && list == {} && gone == map[]
    {
      hist, list, written, gone := [], {}, [], map[];
      new;
      assert |written| < BUFFER_SIZE;
    }

    method Write(line: Line)
      requires Valid()
      modifies this, list
      ensures Valid() && written == old(written) + [line] && list == old(list) && gone == old(gone)
      ensures |hist| == (if |written| < 5000 then |written| else 5000) && hist == written[|written| - |hist|..]
      ensures forall s :: s in list ==> s.received == old(s.received) && s.closed == old(s.closed)
      ensures forall s :: s in list && !s.closed && |old(s.handler)| < BUFFER_SIZE ==>
                s.handler == old(s.handler) + [line]
    {
      hist := hist + [line];
      PublishAll(line);
      if |hist| >= BUFFER_SIZE {
        hist := hist[|hist| - BUFFER_SIZE..];
      }
      LastGrows(written, line);
      ghost var was := written;
      written := written + [line];
      forall s | s in list ensures Served(s, |written|) {
        DueNext(was, line, s.joined);
      }
      forall s | s in gone ensures Served(s, gone[s]) {
        assert old(Served(s, gone[s]));
        assert written[..gone[s]] == was[..gone[s]];
      }
    }

    method PublishAll(line: Line)
      requires forall s :: s in list ==> s.Valid()
      modifies list
      ensures forall s :: s in list ==>
                s.Valid() && s.Went(line, old(s.handler), old(s.received), old(s.offered), old(s.closed))
    {
      var rest := list;
      while rest != {}
        invariant rest <= list
        invariant forall s :: s in rest ==> s.Contents() == old(s.Contents()) && s.closed == old(s.closed)
        invariant forall s :: s in list && s !in rest ==>
                    s.Valid() && s.Went(line, old(s.handler), old(s.received), old(s.offered), old(s.closed))
        decreases |rest|
      {
        var s := Pick(rest);
        s.Publish(line);
        rest := rest - {s};
      }
    }

    /** Replay, then follow: the new subscriber starts with the whole history, of
        which no line was dropped. */
    method Subscribe() returns (sub: Subscriber)
      requires Valid()
      modifies this`list
      ensures Valid() && fresh(sub) && list == old(list) + {sub} && hist == old(hist) && gone == old(gone)
      ensures sub.joined == |written| && sub.handler == hist && !sub.overflow && !sub.closed && sub.received == []
    {
      sub := new Subscriber(|written|);
      Replay(sub, hist);
      assert written[..|written|] == written && written[|written|..] == [];
      assert Served(sub, |written|);
      list := list + {sub};
    }

    static method Replay(sub: Subscriber, lines: seq<Line>)
      requires sub.Valid() && sub.handler == sub.offered == sub.received == [] && !sub.overflow && !sub.closed
      requires |lines| <= BUFFER_SIZE
      modifies sub
      ensures sub.Valid() && sub.handler == sub.offered == lines && sub.received == [] && !sub.overflow && !sub.closed
    {
      for i := 0 to |lines|
        invariant sub.Valid() && sub.handler == sub.offered == lines[..i]
        invariant !sub.overflow && !sub.closed && sub.received == []
      {
        sub.Publish(lines[i]);
      }
    }

    /** A reader's step; the stream's lock is not involved, and a removed subscriber
        can still be drained. */
    method Read(sub: Subscriber) returns (line: Line)
      requires Valid() && (sub in list || sub in gone) && |sub.handler| > 0
      modifies sub`handler, sub`received
      ensures Valid() && old(sub.handler) == [line] + sub.handler && sub.received == old(sub.received) + [line]
    {
      line := sub.Receive();
    }

    /** The reader's context ends; the subscriber closes but stays listed. */
    method Leave(sub: Subscriber)
      requires Valid() && (sub in list || sub in gone)
      modifies sub`closed
      ensures Valid() && sub.closed
    {
      sub.Close();
    }

    method Close()
      requires Valid()
      modifies this`list, this`gone, list
      ensures Valid() && list == {} && gone.Keys == old(gone).Keys + old(list)
      ensures forall s :: s in old(list) ==> s.closed && gone[s] == |written|
      ensures forall s :: s in old(list) ==>
                s.handler == old(s.handler) && s.received == old(s.received) && s.lossy == old(s.lossy)
    {
      CloseListed();
      Retire();
    }

    method CloseListed()
      requires Valid()
      modifies list
      ensures Valid() && forall s :: s in list ==> s.closed && s.Contents() == old(s.Contents())
    {
      CloseAll(list);
      forall s | s in list ensures Served(s, |written|) {
        assert old(Served(s, |written|));
      }
      forall s | s in gone ensures Served(s, gone[s]) {
        assert old(Served(s, gone[s]));
      }
    }

    method Retire()
      requires Valid()
      modifies this`list, this`gone
      ensures Valid() && list == {} && gone.Keys == old(gone).Keys + old(list)
      ensures forall s :: s in old(list) ==> gone[s] == |written|
    {
      gone := gone + map s | s in list :: |written|;
      list := {};
    }

    static method CloseAll(subs: set<Subscriber>)
      modifies subs
      ensures forall s :: s in subs ==> s.closed && (old(s.Valid()) ==> s.Valid()) && s.Contents() == old(s.Contents())
    {
      var rest := subs;
      while |rest| != 0
        invariant rest <= subs
        invariant forall s :: s in subs ==> s.Contents() == old(s.Contents())
        invariant forall s :: s in subs ==> s.closed == (s !in rest || old(s.closed))
        decreases |rest|
      {
        var s := Pick(rest);
        rest := rest - {s};
        s.Close();
      }
    }

    /** Log handover: what a subscriber, listed or removed, has received and buffered is
        an in-order part of the replayed history followed by all later lines, and all
        of it unless a line was dropped; no line is dropped while the subscriber is open
        and no publish met a full buffer. */
    lemma Handover(sub: Subscriber) returns (at: seq<nat>)
      requires Valid() && (sub in list || sub in gone)
      ensures |at| == |sub.received + sub.handler|
      ensures forall i :: 0 <= i < |at| ==>
                at[i] < |DueTo(sub)| && (sub.received + sub.handler)[i] == DueTo(sub)[at[i]]
      ensures forall i, j :: 0 <= i < j < |at| ==> at[i] < at[j]
      ensures !sub.lossy ==> sub.received + sub.handler == DueTo(sub)
      ensures !sub.closed && !sub.overflow ==> !sub.lossy
    {
      at := sub.at;
      forall i | 0 <= i < |at|
        ensures at[i] < |DueTo(sub)| && (sub.received + sub.handler)[i] == DueTo(sub)[at[i]]
      {
        assert Same(sub.received + sub.handler, sub.offered, at, i);
      }
      forall i, j | 0 <= i < j < |at| ensures at[i] < at[j] {
        assert Before(at, i, j);
      }
    }
  }
}
