/** Synchronizing one user: compare the remote listing with the rows the user may
    see, and apply the difference. */
module Syncer {
  import opened Core
  import opened Batch
  import opened Sets

  // ---------- merge and diff ----------

  function Join(namespace: string, name: string): string {
    namespace + "/" + name
  }

  /** An empty remote link does not replace a stored one. */
  function Merge(dst: Repo, src: Repo): Repo {
    dst.(namespace := src.namespace, name := src.name, httpUrl := src.httpUrl, sshUrl := src.sshUrl,
         isPrivate := src.isPrivate, branch := src.branch, slug := Join(src.namespace, src.name),
         link := if src.link != "" then src.link else dst.link)
  }

  predicate Diff(a: Repo, b: Repo) {
    || a.namespace != b.namespace || a.name != b.name || a.httpUrl != b.httpUrl || a.sshUrl != b.sshUrl
    || a.isPrivate != b.isPrivate || a.branch != b.branch || a.link != b.link
  }

  /** Storing a merge removes the difference, except a link the remote does not
      report; the slug follows the name, and the row keeps its other columns. */
  lemma MergeSettles(row: Repo, dst: Repo, src: Repo, now: int)
    ensures var r := Refreshed(row, Merge(dst, src).(synced := now, updated := now));
      && (Diff(r, src) <==> src.link == "" && dst.link != "")
      && r.slug == src.namespace + "/" + src.name && r.updated == now
      && r.id == row.id && r.uid == row.uid && r.settings == row.settings
      && r.synced == row.synced && r.created == row.created && r.version == row.version
  {
  }

  // ---------- the two sides ----------

  /** The remote listing by uid, after the filter; a later entry wins. */
  function RemoteOf(listing: seq<Repo>, keep: Repo -> bool): map<string, Repo> {
    if |listing| == 0 then map[] else
    var m, r := RemoteOf(listing[..|listing| - 1], keep), listing[|listing| - 1];
    if keep(r) then m[r.uid := r] else m
  }

  /** Entry i passes the filter, and no later one with its uid does. */
  ghost predicate LastKept(listing: seq<Repo>, keep: Repo -> bool, i: int) {
    && 0 <= i < |listing| && keep(listing[i])
    && (forall j :: i < j < |listing| && keep(listing[j]) ==> listing[j].uid != listing[i].uid)
  }

  lemma {:induction false} RemoteHas(listing: seq<Repo>, keep: Repo -> bool, u: string)
    ensures u in RemoteOf(listing, keep) <==> exists r :: r in listing && keep(r) && r.uid == u
    ensures u in RemoteOf(listing, keep) ==>
              exists i :: LastKept(listing, keep, i) && listing[i].uid == u && RemoteOf(listing, keep)[u] == listing[i]
  {
    if |listing| == 0 {
    } else {
      var n := |listing| - 1;
      var front := listing[..n];
      RemoteHas(front, keep, u);
      assert listing == front + [listing[n]];
      if keep(listing[n]) && listing[n].uid == u {
        assert LastKept(listing, keep, n);
      } else if u in RemoteOf(listing, keep) {
        var i :| LastKept(front, keep, i) && front[i].uid == u && RemoteOf(front, keep)[u] == front[i];
        assert forall j :: 0 <= j < n ==> front[j] == listing[j];
        assert LastKept(listing, keep, i);
      }
    }
  }

  /** The last entry that passes the filter is the one that counts. */
  lemma {:induction false} RemoteIs(listing: seq<Repo>, keep: Repo -> bool, i: int)
    requires LastKept(listing, keep, i)
    ensures listing[i].uid in RemoteOf(listing, keep) && RemoteOf(listing, keep)[listing[i].uid] == listing[i]
  {
    var u := listing[i].uid;
    RemoteHas(listing, keep, u);
    var k :| LastKept(listing, keep, k) && listing[k].uid == u && RemoteOf(listing, keep)[u] == listing[k];
  }

  /** The rows joined with the user's permissions. */
  function LocalOf(db: Db, user: int): map<string, Repo> {
    map u | u in db.repos && Key(user, u) in db.perms :: db.repos[u]
  }

  function FreshOf(remote: map<string, Repo>, local: map<string, Repo>, now: int): map<string, Repo> {
    map u | u in remote && u !in local :: remote[u].(synced := now, created := now, updated := now, version := 1)
  }

  function ChangedOf(remote: map<string, Repo>, local: map<string, Repo>, now: int): map<string, Repo> {
    map u | u in local && u in remote && Diff(local[u], remote[u]) ::
      Merge(local[u], remote[u]).(synced := now, updated := now)
  }

  function GoneOf(remote: map<string, Repo>, local: map<string, Repo>): map<string, Repo> {
    map u | u in local && u !in remote :: local[u]
  }

  /** The batch of a sync: its lists hold exactly the differences, in some order. */
  ghost predicate WorkOf(db: Db, user: int, remote: map<string, Repo>, now: int, w: Work) {
    && Lists(w.inserts, FreshOf(remote, LocalOf(db, user), now))
    && Lists(w.updates, ChangedOf(remote, LocalOf(db, user), now))
    && Lists(w.revokes, GoneOf(remote, LocalOf(db, user)))
  }

  // ---------- permissions after a sync ----------

  ghost function UserUids(db: Db, user: int): set<string> {
    set k | k in db.perms && k.user == user :: k.uid
  }

  /** Permissions of the user on repositories without a row. */
  ghost function Orphans(db: Db, user: int): set<string> {
    set k | k in db.perms && k.user == user && k.uid !in db.repos :: k.uid
  }

  ghost predicate OthersKept(before: map<Key, Perm>, after: map<Key, Perm>, user: int) {
    forall k: Key :: k.user != user ==> (k in after <==> k in before) && (k in before ==> after[k] == before[k])
  }

  /** Rows of the user that stay are marked stale and keep their rights; new ones
      are stale and read-only. */
  ghost predicate MarkedStale(before: map<Key, Perm>, after: map<Key, Perm>, user: int, now: int) {
    forall k :: k in after && k.user == user ==>
      after[k] == if k in before then before[k].(synced := 0, updated := now) else Perm(true, false, false, 0, now, now)
  }

  /** Which keys the three loops leave. */
  lemma AppliedPerms(db: Db, user: int, at: int, w: Work, db': Db)
    requires Applied(db, user, at, w) == Some(db')
    ensures db'.perms.Keys == db.perms.Keys + KeysOf(user, Named(w.inserts).Keys) + KeysOf(user, Named(w.updates).Keys)
                              - KeysOf(user, Named(w.revokes).Keys)
    ensures OthersKept(db.perms, db'.perms, user) && MarkedStale(db.perms, db'.perms, user, at)
  {
    var d0 := db.(perms := ResetPerms(db.perms, user, at));
    var d1 := Inserted(d0, user, at, w.inserts);
    var d2 := Updated(d1, user, at, w.updates).value;
    InsertedPerms(d0, user, at, w.inserts);
    UpdatedPerms(d1, user, at, w.updates);
    RevokedPerms(d2, user, w.revokes);
  }

  /** Sync correctness: afterwards the user's permission rows are the filtered
      remote uids, together with earlier rows on repositories that have no row; all
      are stale, and other users' rows are untouched. */
  lemma SyncPermissions(db: Db, user: int, remote: map<string, Repo>, now: int, at: int, w: Work, db': Db)
    requires WorkOf(db, user, remote, now, w) && Applied(db, user, at, w) == Some(db')
    ensures UserUids(db', user) == remote.Keys + Orphans(db, user)
    ensures OthersKept(db.perms, db'.perms, user) && MarkedStale(db.perms, db'.perms, user, at)
  {
    AppliedPerms(db, user, at, w, db');
    forall u ensures u in UserUids(db', user) <==> u in remote || u in Orphans(db, user) {
      assert u in UserUids(db', user) <==> Key(user, u) in db'.perms;
      assert u in Orphans(db, user) <==> Key(user, u) in db.perms && u !in db.repos;
    }
  }

  /** So they are exactly the remote uids if and only if every permission without a
      repository row is on a listed repository. */
  lemma SyncIsExact(db: Db, user: int, remote: map<string, Repo>, now: int, at: int, w: Work, db': Db)
    requires WorkOf(db, user, remote, now, w) && Applied(db, user, at, w) == Some(db')
    ensures UserUids(db', user) == remote.Keys <==> Orphans(db, user) <= remote.Keys
  {
    SyncPermissions(db, user, remote, now, at, w, db');
  }

  // ---------- repositories after a sync ----------

  /** The batch leads from db through the rows mid, between inserts and updates,
      to db'. */
  ghost predicate RowsVia(db: Db, mid: map<string, Repo>, db': Db, added: map<string, Repo>, changed: map<string,
                          Repo>) {
    && Extended(db.repos, mid, added) && Changed(mid, db'.repos, changed)
    && (forall u, v :: u in mid && v in mid && u != v ==> mid[u].slug != mid[v].slug)
  }

  lemma AppliedRows(db: Db, user: int, remote: map<string, Repo>, now: int, at: int, w: Work, db': Db)
    returns (mid: map<string, Repo>)
    requires Valid(db) && WorkOf(db, user, remote, now, w) && Applied(db, user, at, w) == Some(db')
    ensures Valid(db')
    ensures RowsVia(db, mid, db', FreshOf(remote, LocalOf(db, user), now), ChangedOf(remote, LocalOf(db, user), now))
  {
    var d0 := db.(perms := ResetPerms(db.perms, user, at));
    var d1 := Inserted(d0, user, at, w.inserts);
    mid := d1.repos;
    InsertedRows(d0, user, at, w.inserts);
    assert NamesRows(d1.repos, Named(w.updates));
    UpdatedRows(d1, user, at, w.updates);
    RevokedPerms(Updated(d1, user, at, w.updates).value, user, w.revokes);
  }

  /** What a sync does to the row of a listed repository. */
  lemma RowAfter(db: Db, mid: map<string, Repo>, user: int, remote: map<string, Repo>, now: int, db': Db, u: string)
    requires RowsVia(db, mid, db', FreshOf(remote, LocalOf(db, user), now), ChangedOf(remote, LocalOf(db, user), now))
    requires u in remote
    ensures u in db.repos ==> u in db'.repos
    ensures u in LocalOf(db, user) ==>
              (Diff(db'.repos[u], remote[u]) <==> remote[u].link == "" && db.repos[u].link != "")
    ensures u in db.repos && u !in LocalOf(db, user) ==> db'.repos[u] == db.repos[u]
    ensures u in db'.repos && u !in db.repos ==> !Diff(db'.repos[u], remote[u]) && db'.repos[u].slug == remote[u].slug
  {
    if u in LocalOf(db, user) && Diff(db.repos[u], remote[u]) {
      MergeSettles(mid[u], db.repos[u], remote[u], now);
    }
  }

  /** The same column by column: a row the user could see takes over the columns of the
      remote entry, except an empty link; a row the user could not see stays; a new row is
      the remote entry. */
  lemma SyncRefreshes(db: Db, user: int, remote: map<string, Repo>, now: int, at: int, w: Work, db': Db, u: string)
    requires Valid(db) && WorkOf(db, user, remote, now, w) && Applied(db, user, at, w) == Some(db')
    requires u in remote
    ensures u in db.repos ==> u in db'.repos
    ensures u in db.repos && Key(user, u) in db.perms ==>
              var row, was, src := db'.repos[u], db.repos[u], remote[u];
              && row.namespace == src.namespace && row.name == src.name && row.httpUrl == src.httpUrl
              && row.sshUrl == src.sshUrl && row.isPrivate == src.isPrivate && row.branch == src.branch
              && row.link == (if src.link != "" then src.link else was.link)
              && row.id == was.id && row.uid == was.uid && row.settings == was.settings
              && row.synced == was.synced && row.created == was.created && row.version == was.version
              && if SameColumns(was, src) then row == was
                 else row.slug == src.namespace + "/" + src.name && row.updated == now
    ensures u in db.repos && Key(user, u) !in db.perms ==> db'.repos[u] == db.repos[u]
    ensures u !in db.repos && u in db'.repos ==>
              db'.repos[u] == remote[u].(id := db'.repos[u].id, synced := now, created := now, updated := now,
                                         version := 1)
  {
    var mid := AppliedRows(db, user, remote, now, at, w, db');
    if u in db.repos && Key(user, u) in db.perms {
      SeenRow(db, mid, user, remote, now, db', u);
    }
  }

  lemma SeenRow(db: Db, mid: map<string, Repo>, user: int, remote: map<string, Repo>, now: int, db': Db, u: string)
    requires RowsVia(db, mid, db', FreshOf(remote, LocalOf(db, user), now), ChangedOf(remote, LocalOf(db, user), now))
    requires u in remote && u in db.repos && Key(user, u) in db.perms
    ensures u in db'.repos && Took(db'.repos[u], db.repos[u], remote[u])
    ensures var row, was, src := db'.repos[u], db.repos[u], remote[u];
      && row.id == was.id && row.uid == was.uid && row.settings == was.settings
      && row.synced == was.synced && row.created == was.created && row.version == was.version
      && if SameColumns(was, src) then row == was
         else row.slug == src.namespace + "/" + src.name && row.updated == now
  {
    assert u in LocalOf(db, user) && mid[u] == db.repos[u];
  }

  /** The seven columns a sync compares. */
  ghost predicate SameColumns(a: Repo, b: Repo) {
    && a.namespace == b.namespace && a.name == b.name && a.httpUrl == b.httpUrl && a.sshUrl == b.sshUrl
    && a.isPrivate == b.isPrivate && a.branch == b.branch && a.link == b.link
  }

  /** Without slug collisions the batch is not rolled back. */
  ghost predicate NoCollision(db: Db, user: int, remote: map<string, Repo>) {
    var local := LocalOf(db, user);
    var changed := ChangedOf(remote, local, 0);
    && NoClash(db.repos, changed)
    && (forall u, v :: u in changed && v in remote && v !in db.repos ==> changed[u].slug != remote[v].slug)
  }

  lemma NoCollisionLater(db: Db, mid: map<string, Repo>, user: int, remote: map<string, Repo>, now: int)
    requires NoCollision(db, user, remote) && Extended(db.repos, mid, FreshOf(remote, LocalOf(db, user), now))
    ensures NoClash(mid, ChangedOf(remote, LocalOf(db, user), now))
  {
    var changed, later := ChangedOf(remote, LocalOf(db, user), 0), ChangedOf(remote, LocalOf(db, user), now);
    assert forall u :: u in later ==> u in changed && later[u].slug == changed[u].slug;
    forall u, v | u in later && v in mid && u != v ensures later[u].slug != mid[v].slug {
      if v !in db.repos {
        assert v in remote && mid[v].slug == remote[v].slug;
      }
    }
  }

  lemma SyncSucceeds(db: Db, user: int, remote: map<string, Repo>, now: int, at: int, w: Work)
    requires Valid(db) && WorkOf(db, user, remote, now, w) && NoCollision(db, user, remote)
    ensures Applied(db, user, at, w).Some?
  {
    var d0 := db.(perms := ResetPerms(db.perms, user, at));
    var d1 := Inserted(d0, user, at, w.inserts);
    InsertedRows(d0, user, at, w.inserts);
    NoCollisionLater(db, d1.repos, user, remote, now);
    assert NamesRows(d1.repos, Named(w.updates));
    UpdatesSucceed(d1, user, at, w.updates);
  }

  // ---------- the second sync ----------

  ghost predicate NewSlug(db: Db, remote: map<string, Repo>, u: string)
    requires u in remote
  {
    && !SlugTaken(db.repos, remote[u].slug)
    && (forall v :: v in remote && v !in db.repos && v != u ==> remote[v].slug != remote[u].slug)
  }

  /** Known before the first sync: what makes the repository u settle at once. */
  ghost predicate SettlesAt(db: Db, user: int, remote: map<string, Repo>, u: string)
    requires u in remote
  {
    if u in LocalOf(db, user) then remote[u].link == "" ==> db.repos[u].link == ""
    else if u in db.repos then !Diff(db.repos[u], remote[u])
    else NewSlug(db, remote, u)
  }

  ghost predicate Settles(db: Db, user: int, remote: map<string, Repo>) {
    forall u :: u in remote ==> SettlesAt(db, user, remote, u)
  }

  /** After the first sync: every listed repository has a row like it. */
  ghost predicate Mirrored(db': Db, remote: map<string, Repo>) {
    forall u :: u in remote ==> u in db'.repos && !Diff(db'.repos[u], remote[u])
  }

  /** New and distinct slugs give every listed repository a row. */
  lemma NewRow(db: Db, mid: map<string, Repo>, remote: map<string, Repo>, added: map<string, Repo>, u: string)
    requires Extended(db.repos, mid, added) && u in added && u in remote && added[u].slug == remote[u].slug
    requires forall v :: v in added && v !in db.repos ==> v in remote && added[v].slug == remote[v].slug
    requires NewSlug(db, remote, u)
    ensures u in mid
  {
  }

  lemma NewRows(db: Db, mid: map<string, Repo>, user: int, remote: map<string, Repo>, now: int, db': Db)
    requires RowsVia(db, mid, db', FreshOf(remote, LocalOf(db, user), now), ChangedOf(remote, LocalOf(db, user), now))
    requires forall u :: u in remote && u !in db.repos ==> NewSlug(db, remote, u)
    ensures forall u :: u in remote ==> u in db'.repos
  {
    forall u | u in remote && u !in db.repos ensures u in mid {
      NewRow(db, mid, remote, FreshOf(remote, LocalOf(db, user), now), u);
    }
  }

  lemma NewSlugs(db: Db, mid: map<string, Repo>, user: int, remote: map<string, Repo>, now: int, db': Db, u: string)
    requires RowsVia(db, mid, db', FreshOf(remote, LocalOf(db, user), now), ChangedOf(remote, LocalOf(db, user), now))
    requires u in remote && u !in db.repos && forall v :: v in remote ==> v in db'.repos
    ensures NewSlug(db, remote, u)
  {
    assert forall v :: v in remote && v !in db.repos ==> v in mid && mid[v].slug == remote[v].slug;
    assert forall v :: v in db.repos ==> v in mid && v != u && mid[v].slug == db.repos[v].slug;
  }

  lemma SettlesIsMirrored(db: Db, mid: map<string, Repo>, user: int, remote: map<string, Repo>, now: int, db': Db)
    requires RowsVia(db, mid, db', FreshOf(remote, LocalOf(db, user), now), ChangedOf(remote, LocalOf(db, user), now))
    ensures Settles(db, user, remote) <==> Mirrored(db', remote)
  {
    if Settles(db, user, remote) {
      forall u | u in remote && u !in db.repos ensures NewSlug(db, remote, u) {
        assert SettlesAt(db, user, remote, u);
      }
      NewRows(db, mid, user, remote, now, db');
      forall u | u in remote ensures !Diff(db'.repos[u], remote[u]) {
        RowAfter(db, mid, user, remote, now, db', u);
        assert SettlesAt(db, user, remote, u);
      }
    }
    if Mirrored(db', remote) {
      forall u | u in remote ensures SettlesAt(db, user, remote, u) {
        RowAfter(db, mid, user, remote, now, db', u);
        if u !in db.repos {
          NewSlugs(db, mid, user, remote, now, db', u);
        }
      }
    }
  }

  /** A second sync revokes nothing, and leaves the rest alone exactly when the rows
      mirror the listing. */
  lemma SecondWork(db': Db, user: int, remote: map<string, Repo>, again: int, w: Work)
    requires WorkOf(db', user, remote, again, w)
    requires forall u :: u in remote ==> Key(user, u) in db'.perms
    requires forall u :: u in LocalOf(db', user) ==> u in remote
    ensures w == Work([], [], []) <==> Mirrored(db', remote)
  {
    var local := LocalOf(db', user);
    var f, c, g := FreshOf(remote, local, again), ChangedOf(remote, local, again), GoneOf(remote, local);
    ListsEmpty(w.inserts, f);
    ListsEmpty(w.updates, c);
    ListsEmpty(w.revokes, g);
    assert g == map[];
    assert f == map[] <==> forall u :: u in remote ==> u in db'.repos by {
      assert forall u :: u in f <==> u in remote && u !in db'.repos;
    }
    assert c == map[] <==> forall u :: u in remote && u in db'.repos ==> !Diff(db'.repos[u], remote[u]) by {
      assert forall u :: u in c <==> u in remote && u in db'.repos && Diff(db'.repos[u], remote[u]);
    }
  }

  /** A second sync of the same listing yields an empty batch if and only if every
      listed repository settles: a stored link is reported again, a row the user
      could not see before already agrees, and a new repository has a new slug. */
  lemma SecondSyncIsEmpty(db: Db, user: int, remote: map<string, Repo>, now: int, at: int, w: Work, db': Db,
                          again: int, w': Work)
    requires Valid(db) && WorkOf(db, user, remote, now, w) && Applied(db, user, at, w) == Some(db')
    requires WorkOf(db', user, remote, again, w')
    ensures w' == Work([], [], []) <==> Settles(db, user, remote)
  {
    var mid := AppliedRows(db, user, remote, now, at, w, db');
    SyncPermissions(db, user, remote, now, at, w, db');
    forall u | u in remote ensures Key(user, u) in db'.perms {
      assert u in UserUids(db', user);
    }
    forall u | u in LocalOf(db', user) ensures u in remote {
      assert Key(user, u) in db'.perms && u in UserUids(db', user);
      assert u in mid;
      assert u in Orphans(db, user) ==> u !in db.repos;
    }
    SecondWork(db', user, remote, again, w');
    SettlesIsMirrored(db, mid, user, remote, now, db');
  }

  // ---------- Sync ----------

  /** The part of a map that a loop over its keys has passed. */
  ghost function Outside(m: map<string, Repo>, rest: set<string>): map<string, Repo> {
    map u | u in m && u !in rest :: m[u]
  }

  lemma ListsPast(rs: seq<Repo>, m: map<string, Repo>, rest: set<string>, k: string)
    requires Lists(rs, Outside(m, rest)) && k in rest && (k in m ==> m[k].uid == k)
    ensures Lists(if k in m then rs + [m[k]] else rs, Outside(m, rest - {k}))
  {
    if k in m {
      ListsNext(rs, Outside(m, rest), m[k]);
      assert Outside(m, rest - {k}) == Outside(m, rest)[k := m[k]];
    } else {
      assert Outside(m, rest - {k}) == Outside(m, rest);
    }
  }

  lemma {:induction false} FreshMembers(remote: map<string, Repo>, local: map<string, Repo>, now: int, rs: seq<Repo>)
    requires Lists(rs, FreshOf(remote, local, now)) && forall u :: u in remote ==> remote[u].uid == u
    ensures forall u :: (exists r :: r in rs && r.uid == u) <==> u in remote && u !in local
    ensures forall r :: r in rs ==>
              && r.uid in remote
              && r == remote[r.uid].(synced := now, created := now, updated := now, version := 1)
  {
    ListsMembers(rs, FreshOf(remote, local, now));
  }

  lemma {:induction false} ChangedMembers(remote: map<string, Repo>, local: map<string, Repo>, now: int,
                                          rs: seq<Repo>)
    requires Lists(rs, ChangedOf(remote, local, now)) && forall u :: u in local ==> local[u].uid == u
    ensures forall u :: (exists r :: r in rs && r.uid == u) <==>
              && u in local && u in remote
              && (|| local[u].namespace != remote[u].namespace || local[u].name != remote[u].name
                  || local[u].httpUrl != remote[u].httpUrl || local[u].sshUrl != remote[u].sshUrl
                  || local[u].isPrivate != remote[u].isPrivate || local[u].branch != remote[u].branch
                  || local[u].link != remote[u].link)
    ensures forall r :: r in rs ==>
              && r.uid in local && r.uid in remote
              && var was, src := local[r.uid], remote[r.uid];
                 r == was.(namespace := src.namespace, name := src.name, slug := src.namespace + "/" + src.name,
                           httpUrl := src.httpUrl, sshUrl := src.sshUrl, isPrivate := src.isPrivate,
                           branch := src.branch, link := if src.link == "" then was.link else src.link,
                           synced := now, updated := now)
  {
    ListsMembers(rs, ChangedOf(remote, local, now));
  }

  /** For every listed repository whose row the user could see: the row agrees with the
      entry, except with an empty link, and is among the updates exactly if it did not. */
  lemma {:induction false} SyncColumns(db: Db, user: int, listing: seq<Repo>, keep: Repo -> bool, now: int, at: int,
                                       w: Work, db': Db)
    requires Valid(db) && WorkOf(db, user, RemoteOf(listing, keep), now, w) && Applied(db, user, at, w) == Some(db')
    ensures forall i :: LastKept(listing, keep, i) ==>
              var src := listing[i];
              src.uid in db.repos && Key(user, src.uid) in db.perms ==>
                && src.uid in db'.repos
                && var row, was := db'.repos[src.uid], db.repos[src.uid];
                   && row.namespace == src.namespace && row.name == src.name && row.httpUrl == src.httpUrl
                   && row.sshUrl == src.sshUrl && row.isPrivate == src.isPrivate && row.branch == src.branch
                   && row.link == (if src.link == "" then was.link else src.link)
    ensures forall i :: LastKept(listing, keep, i) ==>
              var src := listing[i];
              src.uid in db.repos && Key(user, src.uid) in db.perms ==>
                var was := db.repos[src.uid];
                (exists v :: v in w.updates && v.uid == src.uid) <==>
                  || was.namespace != src.namespace || was.name != src.name || was.httpUrl != src.httpUrl
                  || was.sshUrl != src.sshUrl || was.isPrivate != src.isPrivate || was.branch != src.branch
                  || was.link != src.link
  {
    var remote, local := RemoteOf(listing, keep), LocalOf(db, user);
    ChangedMembers(remote, local, now, w.updates);
    forall i | LastKept(listing, keep, i)
      ensures listing[i].uid in remote && remote[listing[i].uid] == listing[i]
    {
      RemoteIs(listing, keep, i);
    }
    forall u | u in remote && u in local
      ensures u in db'.repos && Took(db'.repos[u], db.repos[u], remote[u])
    {
      SyncRefreshes(db, user, remote, now, at, w, db', u);
    }
  }

  ghost predicate Took(row: Repo, was: Repo, src: Repo) {
    && row.namespace == src.namespace && row.name == src.name && row.httpUrl == src.httpUrl
    && row.sshUrl == src.sshUrl && row.isPrivate == src.isPrivate && row.branch == src.branch
    && row.link == if src.link == "" then was.link else src.link
  }

  class Synchronizer {
    const batch: Batcher

    constructor (b: Batcher)
      ensures batch == b
    {
      batch := b;
    }

    static method Remote(listing: seq<Repo>, keep: Repo -> bool) returns (remote: map<string, Repo>)
      ensures remote == RemoteOf(listing, keep)
      ensures forall u :: u in remote <==> exists r :: r in listing && keep(r) && r.uid == u
      ensures forall i :: LastKept(listing, keep, i) ==>
                listing[i].uid in remote && remote[listing[i].uid] == listing[i]
    {
      remote := map[];
      for i := 0 to |listing|
        invariant remote == RemoteOf(listing[..i], keep)
      {
        assert listing[..i + 1][..i] == listing[..i];
        if keep(listing[i]) {
          remote := remote[listing[i].uid := listing[i]];
        }
      }
      assert listing[..|listing|] == listing;
      forall u {
        RemoteHas(listing, keep, u);
      }
      forall i | LastKept(listing, keep, i) {
        RemoteIs(listing, keep, i);
      }
    }

    static method Local(rows: seq<Repo>) returns (local: map<string, Repo>)
      ensures local == Named(rows)
    {
      local := map[];
      for i := 0 to |rows|
        invariant local == Named(rows[..i])
      {
        assert rows[..i + 1][..i] == rows[..i];
        local := local[rows[i].uid := rows[i]];
      }
      assert rows[..|rows|] == rows;
    }

    static method Inserts(remote: map<string, Repo>, local: map<string, Repo>, now: int) returns (rs: seq<Repo>)
      requires forall u :: u in remote ==> remote[u].uid == u
      ensures Lists(rs, FreshOf(remote, local, now))
      ensures forall u :: (exists r :: r in rs && r.uid == u) <==> u in remote && u !in local
      ensures forall r :: r in rs ==>
                && r.uid in remote
                && r == remote[r.uid].(synced := now, created := now, updated := now, version := 1)
    {
      ghost var all := FreshOf(remote, local, now);
      rs := [];
      var rest := remote.Keys;
      while |rest| != 0
        invariant rest <= remote.Keys && Lists(rs, Outside(all, rest))
        decreases |rest|
      {
        var k := Pick(rest);
        ListsPast(rs, all, rest, k);
        rest := rest - {k};
        if k in local {
          continue;
        }
        var v := remote[k].(synced := now, created := now, updated := now, version := 1);
        rs := rs + [v];
      }
      assert Outside(all, rest) == all;
      FreshMembers(remote, local, now, rs);
    }

    static method Updates(remote: map<string, Repo>, local: map<string, Repo>, now: int) returns (rs: seq<Repo>)
      requires forall u :: u in local ==> local[u].uid == u
      ensures Lists(rs, ChangedOf(remote, local, now))
      ensures forall u :: (exists r :: r in rs && r.uid == u) <==>
                && u in local && u in remote
                && (|| local[u].namespace != remote[u].namespace || local[u].name != remote[u].name
                    || local[u].httpUrl != remote[u].httpUrl || local[u].sshUrl != remote[u].sshUrl
                    || local[u].isPrivate != remote[u].isPrivate || local[u].branch != remote[u].branch
                    || local[u].link != remote[u].link)
      ensures forall r :: r in rs ==>
                && r.uid in local && r.uid in remote
                && var was, src := local[r.uid], remote[r.uid];
                   r == was.(namespace := src.namespace, name := src.name, slug := src.namespace + "/" + src.name,
                             httpUrl := src.httpUrl, sshUrl := src.sshUrl, isPrivate := src.isPrivate,
                             branch := src.branch, link := if src.link == "" then was.link else src.link,
                             synced := now, updated := now)
    {
      ghost var all := ChangedOf(remote, local, now);
      rs := [];
      var rest := local.Keys;
      while |rest| != 0
        invariant rest <= local.Keys && Lists(rs, Outside(all, rest))
        decreases |rest|
      {
        var k := Pick(rest);
        ListsPast(rs, all, rest, k);
        rest := rest - {k};
        if k !in remote || !Diff(local[k], remote[k]) {
          continue;
        }
        var v := Merge(local[k], remote[k]).(synced := now, updated := now);
        rs := rs + [v];
      }
      assert Outside(all, rest) == all;
      ChangedMembers(remote, local, now, rs);
    }

    static method Revokes(remote: map<string, Repo>, local: map<string, Repo>) returns (rs: seq<Repo>)
      requires forall u :: u in local ==> local[u].uid == u
      ensures Lists(rs, GoneOf(remote, local))
      ensures forall r :: r in rs <==> r.uid in local && r.uid !in remote && local[r.uid] == r
    {
      ghost var all := GoneOf(remote, local);
      rs := [];
      var rest := local.Keys;
      while |rest| != 0
        invariant rest <= local.Keys && Lists(rs, Outside(all, rest))
        decreases |rest|
      {
        var k := Pick(rest);
        ListsPast(rs, all, rest, k);
        rest := rest - {k};
        if k in remote {
          continue;
        }
        rs := rs + [local[k]];
      }
      assert Outside(all, rest) == all;
      ListsMembers(rs, all);
    }

    /** The listing is the remote one; rows are the user's rows in the order the
        store returns them. */
    method Sync(user: int, listing: seq<Repo>, keep: Repo -> bool, rows: seq<Repo>, now: int, at: int)
      returns (r: Option<Work>)
      requires Valid(batch.db) && Lists(rows, LocalOf(batch.db, user))
      modifies batch
      ensures Valid(batch.db)
      ensures r.None? ==> batch.db == old(batch.db)
      ensures NoCollision(old(batch.db), user, RemoteOf(listing, keep)) ==> r.Some?
      ensures r.Some? ==> WorkOf(old(batch.db), user, RemoteOf(listing, keep), now, r.value)
      ensures r.Some? ==> Applied(old(batch.db), user, at, r.value) == Some(batch.db)
      ensures r.Some? ==> UserUids(batch.db, user) == RemoteOf(listing, keep).Keys + Orphans(old(batch.db), user)
      ensures r.Some? ==> OthersKept(old(batch.db).perms, batch.db.perms, user)
      ensures r.Some? ==> MarkedStale(old(batch.db).perms, batch.db.perms, user, at)
      // a listed repository whose row the user could see, column by column
      ensures r.Some? ==> forall i :: LastKept(listing, keep, i) ==>
                var src := listing[i];
                src.uid in old(batch.db).repos && Key(user, src.uid) in old(batch.db).perms ==>
                  && src.uid in batch.db.repos
                  && var row, was := batch.db.repos[src.uid], old(batch.db).repos[src.uid];
                     && row.namespace == src.namespace && row.name == src.name && row.httpUrl == src.httpUrl
                     && row.sshUrl == src.sshUrl && row.isPrivate == src.isPrivate && row.branch == src.branch
                     && row.link == (if src.link == "" then was.link else src.link)
      ensures r.Some? ==> forall i :: LastKept(listing, keep, i) ==>
                var src := listing[i];
                src.uid in old(batch.db).repos && Key(user, src.uid) in old(batch.db).perms ==>
                  var was := old(batch.db).repos[src.uid];
                  (exists v :: v in r.value.updates && v.uid == src.uid) <==>
                    || was.namespace != src.namespace || was.name != src.name || was.httpUrl != src.httpUrl
                    || was.sshUrl != src.sshUrl || was.isPrivate != src.isPrivate || was.branch != src.branch
                    || was.link != src.link
    {
      var remote := Remote(listing, keep);
      var local := Local(rows);
      forall u | u in remote ensures remote[u].uid == u {
        RemoteHas(listing, keep, u);
      }
      var inserts := Inserts(remote, local, now);
      var updates := Updates(remote, local, now);
      var revokes := Revokes(remote, local);
      var w := Work(inserts, updates, revokes);
      var ok := batch.Batch(user, at, w);
      if NoCollision(old(batch.db), user, remote) {
        SyncSucceeds(old(batch.db), user, remote, now, at, w);
      }
      if !ok {
        return None;
      }
      SyncPermissions(old(batch.db), user, remote, now, at, w, batch.db);
      ghost var mid := AppliedRows(old(batch.db), user, remote, now, at, w, batch.db);
      SyncColumns(old(batch.db), user, listing, keep, now, at, w, batch.db);
      return Some(w);
    }
  }
}
