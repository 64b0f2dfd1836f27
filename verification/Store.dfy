/** The versioned stage and build tables.  Every update is a compare-and-set on
    the version column. */
module Store {
  import opened Core

  type Stages = map<int, Stage>
  type Builds = map<int, Build>

  /** The update names only some columns; identity, name, number and limit of the
      stored row survive whatever the copy says. */
  function Written(row: Stage, copy: Stage): Stage {
    copy.(id := row.id, repoId := row.repoId, buildId := row.buildId, number := row.number,
          name := row.name, limit := row.limit, version := copy.version + 1)
  }

  predicate Current(rows: Stages, copy: Stage) {
    copy.id in rows && rows[copy.id].version == copy.version
  }

  function Committed(rows: Stages, copy: Stage): Stages {
    if Current(rows, copy) then rows[copy.id := Written(rows[copy.id], copy)] else rows
  }

  /** The caller's record after the update: its version moves only on success. */
  function Bumped(rows: Stages, copy: Stage): Stage {
    if Current(rows, copy) then copy.(version := copy.version + 1) else copy
  }

  predicate CurrentBuild(rows: Builds, copy: Build) {
    copy.id in rows && rows[copy.id].version == copy.version
  }

  function CommittedBuild(rows: Builds, copy: Build): Builds {
    if CurrentBuild(rows, copy) then rows[copy.id := copy.(version := copy.version + 1)] else rows
  }

  /** Update: one row changes exactly if the copy's version is the stored one. */
  method CompareAndSet(rows: Stages, copy: Stage) returns (ok: bool, rows': Stages, copy': Stage)
    ensures ok <==> copy.id in rows && rows[copy.id].version == copy.version
    ensures rows' == Committed(rows, copy) && copy' == Bumped(rows, copy)
    ensures !ok ==> rows' == rows && copy' == copy
    ensures ok ==> copy' == copy.(version := copy.version + 1)
    ensures ok ==> rows' == rows[copy.id := rows[copy.id].(
                                   status := copy.status, machine := copy.machine, platform := copy.platform,
                                   started := copy.started, stopped := copy.stopped, updated := copy.updated,
                                   onSuccess := copy.onSuccess, onFailure := copy.onFailure,
                                   dependsOn := copy.dependsOn, version := copy.version + 1)]
  {
    ok, rows', copy' := false, rows, copy;
    if copy.id in rows && rows[copy.id].version == copy.version {
      rows' := rows[copy.id := Written(rows[copy.id], copy)];
      ok, copy' := true, copy.(version := copy.version + 1);
    }
  }
}
