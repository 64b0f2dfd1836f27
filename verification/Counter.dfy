/** Build numbers: the repository counter under optimistic retry.  Any number of
    clients read the row, increment it or save other columns by a compare-and-set on the
    version; synchronization refreshes some columns and leaves the version alone. */
module Counter {
  import opened Core

  /** A repository row; remote stands for the columns that mirror the source-control
      system (names, urls, branch, privacy), settings for the others that are saved. */
  datatype Repo = Repo(id: int, counter: int, version: int, settings: string, remote: string)

  /** The row, and the build numbers handed out so far. */
  datatype Shared = Shared(row: Option<Repo>, numbers: seq<int>)

  datatype Client =
    | Idle
    | Holding(copy: Repo, first: int, fails: nat)  // first: version of the first copy read
    | Retrying(first: int, fails: nat)             // an update was rejected

  datatype State = State(shared: Shared, clients: map<nat, Client>)

  datatype Action =
    | Read(c: nat)
    | Attempt(c: nat)          // Counter++, then Update
    | Refind(c: nat)
    | Save(c: nat, settings: string)
    | Refresh(remote: string)  // the batch of a synchronization
    | Delete

  predicate Current(s: Shared, copy: Repo) {
    s.row.Some? && s.row.value.id == copy.id && s.row.value.version == copy.version
  }

  function Stored(copy: Repo): Repo {
    copy.(version := copy.version + 1)
  }

  /** The shared state after a winning increment of the copy. */
  function Incremented(s: Shared, copy: Repo): Shared {
    Shared(Some(Stored(copy.(counter := copy.counter + 1))), s.numbers + [copy.counter + 1])
  }

  ghost predicate Next(s: State, a: Action, s': State) {
    match a
    case Read(c) =>
      && c in s.clients && s.clients[c].Idle? && s.shared.row.Some?
      && s' == s.(clients := s.clients[c := Holding(s.shared.row.value, s.shared.row.value.version, 0)])
    case Attempt(c) =>
      && c in s.clients && s.clients[c].Holding?
      && var cl := s.clients[c];
      s' == if Current(s.shared, cl.copy) then State(Incremented(s.shared, cl.copy), s.clients[c := Idle])
            else s.(clients := s.clients[c := Retrying(cl.first, cl.fails + 1)])
    case Refind(c) =>
      && c in s.clients && s.clients[c].Retrying?
      && var cl := s.clients[c];
      var next := if s.shared.row.None? then Idle else Holding(s.shared.row.value, cl.first, cl.fails);
      s' == s.(clients := s.clients[c := next])
    case Save(c, settings) =>
      && c in s.clients && s.clients[c].Holding?
      && var copy := s.clients[c].copy;
      var saved := s.shared.(row := Some(Stored(copy.(settings := settings))));
      s' == State(if Current(s.shared, copy) then saved else s.shared, s.clients[c := Idle])
    case Refresh(remote) =>
      s.shared.row.Some? && s' == s.(shared := s.shared.(row := Some(s.shared.row.value.(remote := remote))))
    case Delete => s' == s.(shared := s.shared.(row := None))
  }

  ghost predicate Init(s: State, start: Repo) {
    s.shared == Shared(Some(start), []) && forall c :: c in s.clients ==> s.clients[c].Idle?
  }

  ghost predicate Run(states: seq<State>, acts: seq<Action>, start: Repo) {
    && |states| == |acts| + 1 && Init(states[0], start)
    && (forall i :: 0 <= i < |acts| ==> Next(states[i], acts[i], states[i + 1]))
  }

  // ---------- invariant ----------

  /** Numbers count up from the starting counter, one by one. */
  predicate Consecutive(s: Shared, start: Repo) {
    && (forall i :: 0 <= i < |s.numbers| ==> s.numbers[i] == start.counter + 1 + i)
    && (s.row.Some? ==> s.row.value.id == start.id && s.row.value.counter == start.counter + |s.numbers|)
  }

  /** A copy is never ahead of the row, and counts what the row counts unless it is
      behind. */
  ghost predicate CopyOK(s: Shared, copy: Repo) {
    s.row.Some? ==>
      && copy.id == s.row.value.id && copy.version <= s.row.value.version
      && (copy.version == s.row.value.version ==> copy.counter == s.row.value.counter)
  }

  /** Every failed attempt is paid for by a commit since the first copy was read, or
      by the deletion of the row. */
  ghost predicate FailsOK(s: Shared, cl: Client) {
    match cl
    case Idle => true
    case Holding(copy, first, fails) => CopyOK(s, copy) && fails <= copy.version - first
    case Retrying(first, fails) => s.row.Some? ==> fails <= s.row.value.version - first
  }

  ghost predicate Inv(s: State, start: Repo) {
    Consecutive(s.shared, start) && forall c :: c in s.clients ==> FailsOK(s.shared, s.clients[c])
  }

  /** What a step by anyone may do to the shared state: versions only grow, an
      unchanged version means an unchanged counter and no new number, and a deleted row
      stays deleted. */
  predicate Rely(s: Shared, s': Shared) {
    && s.numbers <= s'.numbers
    && (s.row.None? ==> s' == s)
    && (s.row.Some? && s'.row.Some? ==>
          && s'.row.value.version >= s.row.value.version && s'.row.value.id == s.row.value.id
          && (s'.row.value.version == s.row.value.version ==>
                s'.row.value.counter == s.row.value.counter && s'.numbers == s.numbers))
  }

  lemma StepRelies(s: State, a: Action, s': State, start: Repo)
    requires Inv(s, start) && Next(s, a, s')
    ensures Rely(s.shared, s'.shared) && Consecutive(s'.shared, start)
  {
    if a.Attempt? || a.Save? {
      assert FailsOK(s.shared, s.clients[a.c]);
    }
  }

  lemma StepKeepsInv(s: State, a: Action, s': State, start: Repo)
    requires Inv(s, start) && Next(s, a, s')
    ensures Inv(s', start)
  {
    StepRelies(s, a, s', start);
    forall c | c in s'.clients ensures FailsOK(s'.shared, s'.clients[c]) {
      assert FailsOK(s.shared, s.clients[c]);
    }
  }

  lemma {:induction false} RunKeepsInv(states: seq<State>, acts: seq<Action>, start: Repo, n: nat)
    requires Run(states, acts, start) && n < |states|
    ensures Inv(states[n], start)
  {
    if n == 0 {
    } else {
      RunKeepsInv(states, acts, start, n - 1);
      StepKeepsInv(states[n - 1], acts[n - 1], states[n], start);
    }
  }

  // ---------- theorems ----------

  /** Unique build numbers: over every run the numbers returned are consecutive, so
      pairwise distinct, and the stored counter is the last of them. */
  lemma UniqueNumbers(states: seq<State>, acts: seq<Action>, start: Repo, n: nat)
    requires Run(states, acts, start) && n < |states|
    ensures var s := states[n].shared;
            && (forall i :: 0 <= i < |s.numbers| ==> s.numbers[i] == start.counter + 1 + i)
            && (forall i, j :: 0 <= i < j < |s.numbers| ==> s.numbers[i] != s.numbers[j])
            && (s.row.Some? ==> s.row.value.counter == start.counter + |s.numbers|)
  {
    RunKeepsInv(states, acts, start, n);
  }

  /** A rejected attempt means that the row is gone or was written since the copy
      was read; retries are bounded by the commits since the first read. */
  lemma RetriesBounded(states: seq<State>, acts: seq<Action>, start: Repo, n: nat, c: nat)
    requires Run(states, acts, start) && n < |acts| && acts[n] == Attempt(c) && states[n + 1].clients[c].Retrying?
    ensures var s, cl := states[n].shared, states[n].clients[c];
            && (s.row.Some? ==> s.row.value.version > cl.copy.version)
            && cl.fails <= cl.copy.version - cl.first
            && (s.row.Some? ==> states[n + 1].clients[c].fails <= s.row.value.version - cl.first)
  {
    RunKeepsInv(states, acts, start, n);
    RunKeepsInv(states, acts, start, n + 1);
    assert FailsOK(states[n].shared, states[n].clients[c]);
    assert FailsOK(states[n + 1].shared, states[n + 1].clients[c]);
  }

  /** Any two points of a run are related by Rely. */
  lemma {:induction false} RunRelies(states: seq<State>, acts: seq<Action>, start: Repo, m: nat, n: nat)
    requires Run(states, acts, start) && m <= n < |states|
    ensures Rely(states[m].shared, states[n].shared)
    decreases n - m
  {
    if m == n {
    } else {
      RunRelies(states, acts, start, m, n - 1);
      RunKeepsInv(states, acts, start, n - 1);
      StepRelies(states[n - 1], acts[n - 1], states[n], start);
    }
  }

  // ---------- columns that synchronization refreshes ----------

  ghost predicate Steps(states: seq<State>, acts: seq<Action>) {
    |states| == |acts| + 1 && forall i :: 0 <= i < |acts| ==> Next(states[i], acts[i], states[i + 1])
  }

  /** A continuation without another synchronization. */
  ghost predicate Unrefreshed(states: seq<State>, acts: seq<Action>) {
    Steps(states, acts) && forall i :: 0 <= i < |acts| ==> !acts[i].Refresh?
  }

  /** Whatever other clients do, the row keeps its refreshed columns. */
  ghost predicate Survives(s: State) {
    forall states, acts :: Unrefreshed(states, acts) && states[0] == s ==> KeepsRemote(s, states[|acts|])
  }

  ghost predicate KeepsRemote(s: State, s': State) {
    s.shared.row.Some? && s'.shared.row.Some? ==> s'.shared.row.value.remote == s.shared.row.value.remote
  }

  /** Nobody holds a copy of the current version with older columns. */
  ghost predicate Refreshed(s: State) {
    forall c :: c in s.clients && s.clients[c].Holding? && Current(s.shared, s.clients[c].copy) ==>
      s.clients[c].copy.remote == s.shared.row.value.remote
  }

  lemma RefreshedStep(s: State, a: Action, s': State, start: Repo)
    requires Inv(s, start) && Refreshed(s) && Next(s, a, s') && !a.Refresh?
    ensures Refreshed(s') && KeepsRemote(s, s')
  {
    forall c | c in s.clients ensures FailsOK(s.shared, s.clients[c]) {
    }
  }

  lemma {:induction false} RefreshedSteps(states: seq<State>, acts: seq<Action>, start: Repo, n: nat)
    requires Unrefreshed(states, acts) && Inv(states[0], start) && Refreshed(states[0]) && n < |states|
    ensures Inv(states[n], start) && Refreshed(states[n]) && KeepsRemote(states[0], states[n])
    ensures states[0].shared.row.None? ==> states[n].shared.row.None?
  {
    if n == 0 {
    } else {
      RefreshedSteps(states, acts, start, n - 1);
      StepKeepsInv(states[n - 1], acts[n - 1], states[n], start);
      RefreshedStep(states[n - 1], acts[n - 1], states[n], start);
    }
  }

  /** The row a synchronization has refreshed keeps those columns, whatever clients do until
      the next one, if and only if nobody holds a copy of the current version that was
      read before: the batch does not bump the version, so such a copy still wins and
      writes the old columns back. */
  lemma RefreshSurvives(states: seq<State>, acts: seq<Action>, start: Repo, n: nat)
    requires Run(states, acts, start) && n < |states|
    ensures Survives(states[n]) <==> Refreshed(states[n])
  {
    var s := states[n];
    RunKeepsInv(states, acts, start, n);
    if Refreshed(s) {
      forall later, acts' | Unrefreshed(later, acts') && later[0] == s ensures KeepsRemote(s, later[|acts'|]) {
        RefreshedSteps(later, acts', start, |acts'|);
      }
    } else {
      var c :| c in s.clients && s.clients[c].Holding? && Current(s.shared, s.clients[c].copy)
               && s.clients[c].copy.remote != s.shared.row.value.remote;
      var s' := WritesBack(s, c);
      assert !KeepsRemote(s, s');
    }
  }

  lemma WritesBack(s: State, c: nat) returns (s': State)
    requires c in s.clients && s.clients[c].Holding? && Current(s.shared, s.clients[c].copy)
    ensures exists states, acts :: Unrefreshed(states, acts) && states[0] == s && states[|acts|] == s'
    ensures s'.shared.row == Some(Stored(s.clients[c].copy))
  {
    var copy := s.clients[c].copy;
    s' := State(s.shared.(row := Some(Stored(copy))), s.clients[c := Idle]);
    var states, acts := [s, s'], [Save(c, copy.settings)];
    assert Unrefreshed(states, acts) && states[0] == s && states[|acts|] == s';
  }

  /** Such a run exists: a client reads the row, a synchronization refreshes it, and the
      client saves what it read. */
  lemma RefreshIsLost(s: State, start: Repo, c: nat, remote: string) returns (states: seq<State>, acts: seq<Action>)
    requires Init(s, start) && c in s.clients && remote != start.remote
    ensures Run(states, acts, start) && |acts| == 3 && acts[1] == Refresh(remote)
    ensures states[2].shared.row == Some(start.(remote := remote))
    ensures states[3].shared.row == Some(start.(version := start.version + 1))
  {
    var s1 := s.(clients := s.clients[c := Holding(start, start.version, 0)]);
    var s2 := s1.(shared := s1.shared.(row := Some(start.(remote := remote))));
    var s3 := State(s2.shared.(row := Some(Stored(start))), s2.clients[c := Idle]);
    states, acts := [s, s1, s2, s3], [Read(c), Refresh(remote), Save(c, start.settings)];
  }

  // ---------- writers that set the counter ----------

  /** A save by an administrator that stores counter v. */
  function Overwritten(s: Shared, v: int): Shared
    requires s.row.Some?
  {
    s.(row := Some(Stored(s.row.value.(counter := v))))
  }

  /** k increments in a row. */
  function After(s: Shared, k: nat): (r: Shared)
    requires s.row.Some?
    ensures r.row.Some?
  {
    if k == 0 then s else
    var t := After(s, k - 1);
    Incremented(t, t.row.value)
  }

  ghost predicate Distinct(numbers: seq<int>) {
    forall i, j :: 0 <= i < j < |numbers| ==> numbers[i] != numbers[j]
  }

  lemma {:induction false} AfterNumbers(s: Shared, k: nat)
    requires s.row.Some?
    ensures After(s, k).row.value.counter == s.row.value.counter + k
    ensures |After(s, k).numbers| == |s.numbers| + k && s.numbers <= After(s, k).numbers
    ensures forall i :: |s.numbers| <= i < |s.numbers| + k ==>
              After(s, k).numbers[i] == s.row.value.counter + 1 + i - |s.numbers|
  {
    if k == 0 {
    } else {
      AfterNumbers(s, k - 1);
    }
  }

  /** An administrator may store any counter, any number of times.  Later numbers stay
      distinct from the earlier ones exactly when no earlier one is above the stored
      counter. */
  lemma OverwriteIsSafe(s: Shared, v: int)
    requires s.row.Some? && Distinct(s.numbers)
    ensures (forall k: nat :: Distinct(After(Overwritten(s, v), k).numbers))
            <==> forall i :: 0 <= i < |s.numbers| ==> s.numbers[i] <= v
  {
    var o, n := Overwritten(s, v), |s.numbers|;
    if forall i :: 0 <= i < n ==> s.numbers[i] <= v {
      forall k: nat ensures Distinct(After(o, k).numbers) {
        AfterNumbers(o, k);
        assert forall i :: 0 <= i < n ==> After(o, k).numbers[i] == s.numbers[i];
      }
    } else {
      var i :| 0 <= i < n && s.numbers[i] > v;
      var k := s.numbers[i] - v;
      AfterNumbers(o, k);
      var numbers := After(o, k).numbers;
      assert numbers[i] == numbers[n + k - 1];
    }
  }

  // ---------- the loop ----------

  datatype Outcome = Ok(repo: Repo) | NotFound

  /** The store as one Increment call sees it: other clients act between its own
      operations, in any way a run allows, and a finite number of times. */
  class RepoStore {
    var now: Shared
    var budget: nat         // changes that other clients will still make
    const start: Repo

    ghost predicate Valid()
      reads this
    {
      Consecutive(now, start)
    }

    constructor (r: Repo, n: nat)
      ensures Valid() && now == Shared(Some(r), []) && budget == n && start == r
    {
      now, budget, start := Shared(Some(r), []), n, r;
    }

    method Others()
      requires Valid()
      modifies this`now, this`budget
      ensures Valid() && Rely(old(now), now)
      ensures if now == old(now) then budget == old(budget) else budget < old(budget)
    {
      var next: Shared := *;
      if budget > 0 && next != now && Rely(now, next) && Consecutive(next, start) {
        now, budget := next, budget - 1;
      }
    }

    /** The compare-and-set; it hands out no number. */
    method Update(copy: Repo) returns (ok: bool, copy': Repo)
      modifies this`now
      ensures ok <==>
                old(now).row.Some? && old(now).row.value.id == copy.id && old(now).row.value.version == copy.version
      ensures ok ==> copy' == copy.(version := copy.version + 1) && now == old(now).(row := Some(copy'))
      ensures !ok ==> copy' == copy && now == old(now)
    {
      ok, copy' := Current(now, copy), copy;
      if ok {
        copy' := Stored(copy);
        now := now.(row := Some(copy'));
      }
    }

    method Find() returns (r: Option<Repo>)
      ensures r == now.row
    {
      r := now.row;
    }

    /** Whatever the others do, Increment ends: with the next number, which is also
        the stored counter, or with an error if the row was deleted. */
    method Increment(repo: Repo) returns (r: Outcome)
      requires Valid() && CopyOK(now, repo)
      modifies this`now, this`budget
      ensures Valid() && budget <= old(budget)
      ensures old(now).numbers <= now.numbers
      ensures r.Ok? ==> now.row == Some(r.repo) && |now.numbers| > |old(now).numbers|
                        && now.numbers[|now.numbers| - 1] == r.repo.counter == start.counter + |now.numbers|
      ensures r.NotFound? ==> now.row.None?
    {
      var copy := repo;
      ghost var left := budget + 1;
      while true
        invariant Valid() && CopyOK(now, copy) && old(now).numbers <= now.numbers && budget <= old(budget)
        invariant left == budget || (left == budget + 1 && copy == repo)
        invariant left == budget ==> now.row == Some(copy)
        decreases left
      {
        ghost var before := now;
        Others();
        copy := copy.(counter := copy.counter + 1);
        var ok, copy' := Update(copy);
        if ok {
          now := now.(numbers := now.numbers + [copy'.counter]);
          return Ok(copy');
        }
        assert before == now ==> left > budget;
        Others();
        var found := Find();
        if found.None? {
          return NotFound;
        }
        copy := found.value;
        left := budget;
      }
    }
  }
}
