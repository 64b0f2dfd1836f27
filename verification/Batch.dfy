/** The repository and permission tables, and the transaction that applies one
    user's synchronization batch to them. */
module Batch {
  import opened Core

  /** A repository row; settings stands for the columns that only other writers
      change. */
  datatype Repo = Repo(
    id: int,
    uid: string,
    namespace: string,
    name: string,
    slug: string,
    httpUrl: string,
    sshUrl: string,
    link: string,
    isPrivate: bool,
    branch: string,
    settings: string,
    synced: int,
    created: int,
    updated: int,
    version: int)

  datatype Key = Key(user: int, uid: string)

  datatype Perm = Perm(read: bool, write: bool, admin: bool, synced: int, created: int, updated: int)

  /** The repositories, by their unique uid, and the permissions. */
  datatype Db = Db(repos: map<string, Repo>, perms: map<Key, Perm>, nextId: int)

  datatype Work = Work(inserts: seq<Repo>, updates: seq<Repo>, revokes: seq<Repo>)

  /** Row ids and slugs are unique. */
  ghost predicate Valid(db: Db) {
    && (forall u :: u in db.repos ==> db.repos[u].uid == u && db.repos[u].id < db.nextId)
    && (forall u, v :: u in db.repos && v in db.repos && u != v ==>
          db.repos[u].id != db.repos[v].id && db.repos[u].slug != db.repos[v].slug)
  }

  // ---------- the statements ----------

  predicate SlugTaken(repos: map<string, Repo>, slug: string) {
    exists u :: u in repos && repos[u].slug == slug
  }

  function ResetPerms(perms: map<Key, Perm>, user: int, now: int): map<Key, Perm> {
    map k | k in perms :: if k.user == user then perms[k].(synced := 0, updated := now) else perms[k]
  }

  /** Insert or ignore: a row that violates a unique column is dropped. */
  function InsertRepo(db: Db, r: Repo): Db {
    if r.uid in db.repos || SlugTaken(db.repos, r.slug) then db
    else db.(repos := db.repos[r.uid := r.(id := db.nextId)], nextId := db.nextId + 1)
  }

  function NewPerm(now: int): Perm {
    Perm(true, false, false, 0, now, now)
  }

  function Grant(db: Db, k: Key, now: int): Db {
    if k in db.perms then db else db.(perms := db.perms[k := NewPerm(now)])
  }

  /** The columns the update names. */
  function Refreshed(row: Repo, r: Repo): Repo {
    row.(namespace := r.namespace, name := r.name, slug := r.slug, httpUrl := r.httpUrl, sshUrl := r.sshUrl,
         link := r.link, isPrivate := r.isPrivate, branch := r.branch, updated := r.updated)
  }

  predicate Clashes(repos: map<string, Repo>, r: Repo) {
    && (exists u :: u in repos && repos[u].id == r.id)
    && (exists u :: u in repos && repos[u].id != r.id && repos[u].slug == r.slug)
  }

  /** Update by id; a slug that another row holds is an error. */
  function UpdateRepo(db: Db, r: Repo): Option<Db> {
    if Clashes(db.repos, r) then None
    else
      Some(db.(repos := map u | u in db.repos ::
                          if db.repos[u].id == r.id then Refreshed(db.repos[u], r) else db.repos[u]))
  }

  // ---------- the loops ----------

  function Inserted(db: Db, user: int, now: int, rs: seq<Repo>): Db {
    if |rs| == 0 then db else
    var r := rs[|rs| - 1];
    Grant(InsertRepo(Inserted(db, user, now, rs[..|rs| - 1]), r), Key(user, r.uid), now)
  }

  function Updated(db: Db, user: int, now: int, rs: seq<Repo>): Option<Db> {
    if |rs| == 0 then Some(db) else
    var r := rs[|rs| - 1];
    match Updated(db, user, now, rs[..|rs| - 1])
    case None => None
    case Some(d) =>
      match UpdateRepo(d, r)
      case None => None
      case Some(d') => Some(Grant(d', Key(user, r.uid), now))
  }

  function Revoked(db: Db, user: int, rs: seq<Repo>): Db {
    if |rs| == 0 then db else
    var d := Revoked(db, user, rs[..|rs| - 1]);
    d.(perms := d.perms - {Key(user, rs[|rs| - 1].uid)})
  }

  /** The whole transaction; none means it was rolled back. */
  function Applied(db: Db, user: int, now: int, w: Work): Option<Db> {
    var d := Inserted(db.(perms := ResetPerms(db.perms, user, now)), user, now, w.inserts);
    match Updated(d, user, now, w.updates)
    case None => None
    case Some(d') => Some(Revoked(d', user, w.revokes))
  }

  class Batcher {
    var db: Db

    constructor (start: Db)
      ensures db == start
    {
      db := start;
    }

    /** The transaction commits the effect of every statement, or nothing. */
    method Batch(user: int, now: int, w: Work) returns (ok: bool)
      modifies this
      ensures ok == Applied(old(db), user, now, w).Some?
      ensures db == if ok then Applied(old(db), user, now, w).value else old(db)
    {
      var tx := db.(perms := ResetPerms(db.perms, user, now));
      ghost var reset := tx;
      for i := 0 to |w.inserts|
        invariant tx == Inserted(reset, user, now, w.inserts[..i])
      {
        assert w.inserts[..i + 1][..i] == w.inserts[..i];
        tx := InsertRepo(tx, w.inserts[i]);
        tx := Grant(tx, Key(user, w.inserts[i].uid), now);
      }
      assert w.inserts[..|w.inserts|] == w.inserts;
      ghost var grown := tx;
      ok, tx := ApplyUpdates(user, now, w.updates, tx);
      if !ok {
        return;
      }
      ghost var updated := tx;
      for i := 0 to |w.revokes|
        invariant tx == Revoked(updated, user, w.revokes[..i])
      {
        assert w.revokes[..i + 1][..i] == w.revokes[..i];
        tx := tx.(perms := tx.perms - {Key(user, w.revokes[i].uid)});
      }
      assert w.revokes[..|w.revokes|] == w.revokes;
      db := tx;
    }

    static method ApplyUpdates(user: int, now: int, rs: seq<Repo>, start: Db) returns (ok: bool, tx: Db)
      ensures ok == Updated(start, user, now, rs).Some?
      ensures ok ==> tx == Updated(start, user, now, rs).value
    {
      tx := start;
      for i := 0 to |rs|
        invariant Updated(start, user, now, rs[..i]) == Some(tx)
      {
        assert rs[..i + 1][..i] == rs[..i];
        var next := UpdateRepo(tx, rs[i]);
        if next.None? {
          FailureStays(start, user, now, rs, i + 1);
          return false, start;
        }
        tx := Grant(next.value, Key(user, rs[i].uid), now);
      }
      assert rs[..|rs|] == rs;
      return true, tx;
    }
  }

  lemma {:induction false} FailureStays(db: Db, user: int, now: int, rs: seq<Repo>, n: nat)
    requires n <= |rs| && Updated(db, user, now, rs[..n]).None?
    ensures Updated(db, user, now, rs).None?
    decreases |rs|
  {
    if n < |rs| {
      assert rs[..|rs| - 1][..n] == rs[..n];
      FailureStays(db, user, now, rs[..|rs| - 1], n);
    } else {
      assert rs[..n] == rs;
    }
  }

  // ---------- lists of records ----------

  /** The records of a list by uid. */
  function Named(rs: seq<Repo>): map<string, Repo> {
    if |rs| == 0 then map[] else Named(rs[..|rs| - 1])[rs[|rs| - 1].uid := rs[|rs| - 1]]
  }

  ghost predicate Distinct(rs: seq<Repo>) {
    |rs| > 0 ==> Distinct(rs[..|rs| - 1]) && rs[|rs| - 1].uid !in Named(rs[..|rs| - 1])
  }

  /** The list holds exactly the records of the map, in some order. */
  ghost predicate Lists(rs: seq<Repo>, m: map<string, Repo>) {
    Distinct(rs) && Named(rs) == m
  }

  lemma ListsNext(rs: seq<Repo>, m: map<string, Repo>, r: Repo)
    requires Lists(rs, m) && r.uid !in m
    ensures Lists(rs + [r], m[r.uid := r])
  {
    assert (rs + [r])[..|rs|] == rs;
  }

  /** Member by member: the list has one record for each key of the map, under that uid. */
  lemma {:induction false} ListsMembers(rs: seq<Repo>, m: map<string, Repo>)
    requires Lists(rs, m)
    ensures forall r :: r in rs <==> r.uid in m && m[r.uid] == r
    ensures forall u :: u in m ==> m[u] in rs && m[u].uid == u
  {
    if |rs| > 0 {
      var n := |rs| - 1;
      ListsMembers(rs[..n], Named(rs[..n]));
      assert rs == rs[..n] + [rs[n]];
    }
  }

  /** A list of an empty map is empty, and the other way round. */
  lemma ListsEmpty(rs: seq<Repo>, m: map<string, Repo>)
    requires Lists(rs, m)
    ensures rs == [] <==> m == map[]
  {
    assert |rs| > 0 ==> rs[|rs| - 1].uid in Named(rs);
  }

  // ---------- what the transaction does to the permissions ----------

  ghost function KeysOf(user: int, uids: set<string>): set<Key> {
    set u | u in uids :: Key(user, u)
  }

  /** The user's new rows are granted, every other row stays as it was. */
  ghost predicate Granted(before: map<Key, Perm>, after: map<Key, Perm>, user: int, now: int, uids: set<string>) {
    && after.Keys == before.Keys + KeysOf(user, uids)
    && (forall k :: k in after ==> after[k] == if k in before then before[k] else NewPerm(now))
  }

  lemma GrantNext(before: map<Key, Perm>, db: Db, user: int, now: int, uids: set<string>, u: string)
    requires Granted(before, db.perms, user, now, uids)
    ensures Granted(before, Grant(db, Key(user, u), now).perms, user, now, uids + {u})
  {
    assert KeysOf(user, uids + {u}) == KeysOf(user, uids) + {Key(user, u)};
  }

  lemma {:induction false} InsertedPerms(db: Db, user: int, now: int, rs: seq<Repo>)
    ensures Granted(db.perms, Inserted(db, user, now, rs).perms, user, now, Named(rs).Keys)
  {
    if |rs| == 0 {
    } else {
      var n := |rs| - 1;
      var d := Inserted(db, user, now, rs[..n]);
      InsertedPerms(db, user, now, rs[..n]);
      GrantNext(db.perms, InsertRepo(d, rs[n]), user, now, Named(rs[..n]).Keys, rs[n].uid);
      assert Named(rs).Keys == Named(rs[..n]).Keys + {rs[n].uid};
    }
  }

  lemma {:induction false} UpdatedPerms(db: Db, user: int, now: int, rs: seq<Repo>)
    requires Updated(db, user, now, rs).Some?
    ensures Granted(db.perms, Updated(db, user, now, rs).value.perms, user, now, Named(rs).Keys)
  {
    if |rs| == 0 {
    } else {
      var n := |rs| - 1;
      var d := Updated(db, user, now, rs[..n]).value;
      UpdatedPerms(db, user, now, rs[..n]);
      GrantNext(db.perms, UpdateRepo(d, rs[n]).value, user, now, Named(rs[..n]).Keys, rs[n].uid);
      assert Named(rs).Keys == Named(rs[..n]).Keys + {rs[n].uid};
    }
  }

  lemma {:induction false} RevokedPerms(db: Db, user: int, rs: seq<Repo>)
    ensures Revoked(db, user, rs) == db.(perms := db.perms - KeysOf(user, Named(rs).Keys))
  {
    if |rs| == 0 {
    } else {
      var n := |rs| - 1;
      RevokedPerms(db, user, rs[..n]);
      assert KeysOf(user, Named(rs).Keys) == KeysOf(user, Named(rs[..n]).Keys) + {Key(user, rs[n].uid)};
    }
  }

  // ---------- what it does to the repositories ----------

  /** Old rows stay; a new row is one of the records under a fresh id; a record
      without a row lost to a row with its slug. */
  ghost predicate Extended(before: map<string, Repo>, after: map<string, Repo>, m: map<string, Repo>) {
    && (forall u :: u in before ==> u in after && after[u] == before[u])
    && (forall u :: u in after && u !in before ==> u in m && after[u] == m[u].(id := after[u].id))
    && (forall u :: u in m ==> u in after || SlugTaken(after, m[u].slug))
  }

  lemma InsertValid(db: Db, r: Repo)
    requires Valid(db)
    ensures Valid(InsertRepo(db, r))
  {
  }

  lemma InsertKeeps(db: Db, r: Repo)
    ensures forall u :: u in db.repos ==> u in InsertRepo(db, r).repos && InsertRepo(db, r).repos[u] == db.repos[u]
    ensures forall u :: u in InsertRepo(db, r).repos && u !in db.repos ==>
              u == r.uid && InsertRepo(db, r).repos[u] == r.(id := db.nextId)
    ensures r.uid in InsertRepo(db, r).repos || SlugTaken(InsertRepo(db, r).repos, r.slug)
    ensures forall slug :: SlugTaken(db.repos, slug) ==> SlugTaken(InsertRepo(db, r).repos, slug)
  {
    var after := InsertRepo(db, r).repos;
    forall slug | SlugTaken(db.repos, slug) ensures SlugTaken(after, slug) {
      var v :| v in db.repos && db.repos[v].slug == slug;
      assert v in after && after[v].slug == slug;
    }
  }

  lemma InsertExtends(before: map<string, Repo>, db: Db, r: Repo, m: map<string, Repo>)
    requires Extended(before, db.repos, m) && r.uid !in m
    ensures Extended(before, InsertRepo(db, r).repos, m[r.uid := r])
  {
    InsertKeeps(db, r);
  }

  lemma {:induction false} InsertedRows(db: Db, user: int, now: int, rs: seq<Repo>)
    requires Valid(db) && Distinct(rs)
    ensures Valid(Inserted(db, user, now, rs)) && Extended(db.repos, Inserted(db, user, now, rs).repos, Named(rs))
  {
    if |rs| == 0 {
    } else {
      var n := |rs| - 1;
      var d := Inserted(db, user, now, rs[..n]);
      InsertedRows(db, user, now, rs[..n]);
      InsertValid(d, rs[n]);
      InsertExtends(db.repos, d, rs[n], Named(rs[..n]));
    }
  }

  /** The records name rows by id. */
  ghost predicate NamesRows(repos: map<string, Repo>, m: map<string, Repo>) {
    forall u :: u in m ==> m[u].uid == u && u in repos && repos[u].id == m[u].id
  }

  /** Exactly the named rows are refreshed. */
  ghost predicate Changed(before: map<string, Repo>, after: map<string, Repo>, m: map<string, Repo>) {
    && after.Keys == before.Keys
    && (forall u :: u in before ==> after[u] == if u in m then Refreshed(before[u], m[u]) else before[u])
  }

  /** An update touches one row and keeps slugs unique. */
  lemma UpdateOne(db: Db, r: Repo)
    requires Valid(db) && r.uid in db.repos && db.repos[r.uid].id == r.id && UpdateRepo(db, r).Some?
    ensures UpdateRepo(db, r).value.repos == db.repos[r.uid := Refreshed(db.repos[r.uid], r)]
    ensures Valid(UpdateRepo(db, r).value)
  {
    var after := UpdateRepo(db, r).value;
    assert after.repos == db.repos[r.uid := Refreshed(db.repos[r.uid], r)];
  }

  lemma ChangedNext(before: map<string, Repo>, mid: map<string, Repo>, r: Repo, m: map<string, Repo>)
    requires Changed(before, mid, m) && r.uid in before && r.uid !in m
    ensures Changed(before, mid[r.uid := Refreshed(mid[r.uid], r)], m[r.uid := r])
  {
  }

  lemma {:induction false} UpdatedRows(db: Db, user: int, now: int, rs: seq<Repo>)
    requires Valid(db) && Distinct(rs) && NamesRows(db.repos, Named(rs)) && Updated(db, user, now, rs).Some?
    ensures Valid(Updated(db, user, now, rs).value)
    ensures Changed(db.repos, Updated(db, user, now, rs).value.repos, Named(rs))
  {
    if |rs| == 0 {
    } else {
      var n := |rs| - 1;
      var r, d := rs[n], Updated(db, user, now, rs[..n]).value;
      NamedPrefix(db.repos, rs);
      UpdatedRows(db, user, now, rs[..n]);
      UpdateOne(d, r);
      ChangedNext(db.repos, d.repos, r, Named(rs[..n]));
      assert Updated(db, user, now, rs).value.repos == UpdateRepo(d, r).value.repos;
    }
  }

  lemma NamedPrefix(repos: map<string, Repo>, rs: seq<Repo>)
    requires |rs| > 0 && Distinct(rs) && NamesRows(repos, Named(rs))
    ensures NamesRows(repos, Named(rs[..|rs| - 1])) && rs[|rs| - 1].uid in repos
    ensures repos[rs[|rs| - 1].uid].id == rs[|rs| - 1].id
  {
    var front := Named(rs[..|rs| - 1]);
    assert forall u :: u in front ==> Named(rs)[u] == front[u];
    assert Named(rs)[rs[|rs| - 1].uid] == rs[|rs| - 1];
  }

  // ---------- when it succeeds ----------

  /** No record takes the slug of another row or of another record. */
  ghost predicate NoClash(repos: map<string, Repo>, m: map<string, Repo>) {
    && (forall u, v :: u in m && v in repos && u != v ==> m[u].slug != repos[v].slug)
    && (forall u, v :: u in m && v in m && u != v ==> m[u].slug != m[v].slug)
  }

  lemma NoClashPrefix(repos: map<string, Repo>, m: map<string, Repo>, r: Repo)
    requires NoClash(repos, m[r.uid := r]) && r.uid !in m
    ensures NoClash(repos, m)
  {
    assert forall u :: u in m ==> m[r.uid := r][u] == m[u];
  }

  lemma NoClashNext(before: map<string, Repo>, mid: map<string, Repo>, r: Repo, m: map<string, Repo>)
    requires NoClash(before, m[r.uid := r]) && Changed(before, mid, m) && r.uid !in m
    requires r.uid in before && before[r.uid].id == r.id
    ensures !Clashes(mid, r)
  {
    var m' := m[r.uid := r];
    assert forall u :: u in m ==> m'[u] == m[u];
    assert m'[r.uid] == r;
    forall u | u in mid && mid[u].id != r.id ensures mid[u].slug != r.slug {
      assert u != r.uid;
    }
  }

  lemma {:induction false} UpdatesSucceed(db: Db, user: int, now: int, rs: seq<Repo>)
    requires Valid(db) && Distinct(rs) && NamesRows(db.repos, Named(rs)) && NoClash(db.repos, Named(rs))
    ensures Updated(db, user, now, rs).Some?
  {
    if |rs| == 0 {
    } else {
      var n := |rs| - 1;
      NamedPrefix(db.repos, rs);
      NoClashPrefix(db.repos, Named(rs[..n]), rs[n]);
      UpdatesSucceed(db, user, now, rs[..n]);
      UpdatedRows(db, user, now, rs[..n]);
      NoClashNext(db.repos, Updated(db, user, now, rs[..n]).value.repos, rs[n], Named(rs[..n]));
    }
  }
}
