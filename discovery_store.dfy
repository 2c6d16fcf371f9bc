/** The report collection (app/src/db/discovery.ts) as an in-memory map from
    report id to report, with the task upsert that the pipeline stages use to
    register and advance their tasks. */
module DiscoveryStore {
  import opened Seqs
  import opened Records

  /** The fields a `dbUpdateDiscovery` call sets; `None` leaves a field out
      of the update. */
  datatype Patch = Patch(status: Option<Status>, terms: Option<seq<string>>)

  function StatusPatch(s: Status): Patch {
    Patch(Some(s), None)
  }

  function TermsPatch(t: seq<string>): Patch {
    Patch(None, Some(t))
  }

  /** `$set: { ...patch, updatedAt: now }`: exactly the given fields and
      `updatedAt` change; every other field is kept. */
  function ApplyPatch(r: Report, p: Patch, now: Timestamp): (r': Report)
    ensures r'.status == (if p.status.Some? then p.status.value else r.status)
    ensures r'.terms == (if p.terms.Some? then p.terms else r.terms)
    ensures r'.updatedAt == Some(now)
    ensures r'.(status := r.status, terms := r.terms, updatedAt := r.updatedAt) == r
  {
    r.(status := if p.status.Some? then p.status.value else r.status,
       terms := if p.terms.Some? then p.terms else r.terms,
       updatedAt := Some(now))
  }

  /** Setting the same fields again at the same time changes nothing more. */
  lemma ApplyPatchIdempotent(r: Report, p: Patch, now: Timestamp)
    ensures ApplyPatch(ApplyPatch(r, p, now), p, now) == ApplyPatch(r, p, now)
  {
  }

  /** The collection after `dbUpdateDiscovery(id, patch)`: the report with
      that id, if there is one, is patched. */
  function UpdateIn(reports: map<ReportId, Report>, id: ReportId, p: Patch, now: Timestamp): map<ReportId, Report> {
    if id in reports then reports[id := ApplyPatch(reports[id], p, now)] else reports
  }

  /** No two tasks share a uuid. */
  predicate UniqueUuids(tasks: seq<Task>) {
    forall i, j :: 0 <= i < j < |tasks| ==> tasks[i].uuid != tasks[j].uuid
  }

  function HasUuid(uuid: string): Task -> bool {
    (t: Task) => t.uuid == uuid
  }

  /** The task list after the upsert: the first task with that uuid gets the
      new status (`tasks.$.status`), or else a new task is appended
      (`$addToSet`). */
  function UpsertTask(tasks: seq<Task>, uuid: string, stage: Stage, status: Status, now: Timestamp): seq<Task> {
    var i := FindIndex(tasks, HasUuid(uuid));
    if i >= 0 then tasks[i := tasks[i].(status := status)]
    else tasks + [Task(status, uuid, stage, now)]
  }

  /** With a task of that uuid, the first such task alone changes, and only
      its status: the count, its stage, its start date and every other task
      stay as they were. */
  lemma UpsertExisting(tasks: seq<Task>, uuid: string, stage: Stage, status: Status, now: Timestamp, k: nat)
    requires k < |tasks| && tasks[k].uuid == uuid
    requires forall j :: 0 <= j < k ==> tasks[j].uuid != uuid
    ensures var r := UpsertTask(tasks, uuid, stage, status, now);
      && |r| == |tasks|
      && r[k] == tasks[k].(status := status)
      && (forall j :: 0 <= j < |tasks| && j != k ==> r[j] == tasks[j])
  {
    FindIndexSpec(tasks, HasUuid(uuid));
  }

  /** Without a task of that uuid, exactly one task is appended. */
  lemma UpsertAbsent(tasks: seq<Task>, uuid: string, stage: Stage, status: Status, now: Timestamp)
    requires forall j :: 0 <= j < |tasks| ==> tasks[j].uuid != uuid
    ensures UpsertTask(tasks, uuid, stage, status, now) == tasks + [Task(status, uuid, stage, now)]
  {
    if FindIndex(tasks, HasUuid(uuid)) >= 0 {
      assert HasUuid(uuid)(tasks[FindIndex(tasks, HasUuid(uuid))]);
    }
  }

  /** Task uuids stay unique, and afterwards some task has that uuid and the
      new status. */
  lemma UpsertKeepsUnique(tasks: seq<Task>, uuid: string, stage: Stage, status: Status, now: Timestamp)
    requires UniqueUuids(tasks)
    ensures var r := UpsertTask(tasks, uuid, stage, status, now);
      UniqueUuids(r) && exists j :: 0 <= j < |r| && r[j].uuid == uuid && r[j].status == status
  {
    var i := FindIndex(tasks, HasUuid(uuid));
    FindIndexSpec(tasks, HasUuid(uuid));
    var r := UpsertTask(tasks, uuid, stage, status, now);
    if i >= 0 {
      assert r[i].uuid == uuid && r[i].status == status;
    } else {
      assert r[|tasks|].uuid == uuid && r[|tasks|].status == status;
    }
  }

  /** Repeating an upsert with the same uuid and status changes nothing:
      there is still exactly the one task with that uuid, with that status. */
  lemma UpsertIdempotent(tasks: seq<Task>, uuid: string, stage: Stage, stage': Stage, status: Status, now: Timestamp, now': Timestamp)
    ensures var r := UpsertTask(tasks, uuid, stage, status, now);
      UpsertTask(r, uuid, stage', status, now') == r
  {
    var p := HasUuid(uuid);
    var i := FindIndex(tasks, p);
    var r := UpsertTask(tasks, uuid, stage, status, now);
    FindIndexSpec(tasks, p);
    FindIndexSpec(r, p);
    if i >= 0 {
      assert p(r[i]);
      assert forall j :: 0 <= j < i ==> r[j] == tasks[j];
    } else {
      assert p(r[|tasks|]);
      assert forall j :: 0 <= j < |tasks| ==> r[j] == tasks[j];
    }
  }

  /** A report as `dbGetDiscovery` returns it: with its `_id`. */
  datatype Found = Found(id: ReportId, report: Report)

  /** Why `dbAddOrUpdateDiscoveryTask` throws, or whether its write changed
      anything (`modifiedCount === 1`). */
  datatype TaskWrite = MissingUuid | UnknownReport | Written(modified: bool)

  class ReportStore {
    var reports: map<ReportId, Report>
    /** Every id in use is below `nextId`. */
    var nextId: ReportId

    ghost predicate Valid()
      reads this
    {
      forall id | id in reports :: id < nextId
    }

    constructor()
      ensures Valid() && reports == map[]
    {
      reports := map[];
      nextId := 0;
    }

    /** `dbCreateDiscovery`: the report is stored under a fresh id, which is
        returned. */
    method Create(r: Report) returns (id: ReportId)
      requires Valid()
      modifies this
      ensures Valid()
      ensures id !in old(reports) && reports == old(reports)[id := r]
    {
      id := nextId;
      reports := reports[id := r];
      nextId := nextId + 1;
    }

    /** `dbGetDiscovery`: nothing for an unknown id; otherwise the stored
        report, carrying the id it was asked for. */
    function Get(id: ReportId): (f: Option<Found>)
      reads this
      ensures f.None? <==> id !in reports
      ensures f.Some? ==> f.value.id == id && f.value.report == reports[id]
    {
      if id in reports then Some(Found(id, reports[id])) else None
    }

    /** `dbUpdateDiscovery`: the report with that id gets the patch and
        `updatedAt`; it reports a write exactly when the report exists. */
    method Update(id: ReportId, p: Patch, now: Timestamp) returns (modified: bool)
      modifies this
      ensures reports == UpdateIn(old(reports), id, p, now)
      ensures nextId == old(nextId)
      ensures modified == (id in old(reports))
    {
      modified := id in reports;
      reports := UpdateIn(reports, id, p, now);
    }

    /** `dbDeleteDiscovery`: that report alone is removed; true exactly when
        it existed. */
    method Delete(id: ReportId) returns (deleted: bool)
      modifies this
      ensures reports == old(reports) - {id}
      ensures nextId == old(nextId)
      ensures deleted == (id in old(reports))
    {
      deleted := id in reports;
      reports := reports - {id};
    }

    /** `dbAddOrUpdateDiscoveryTask`: a missing uuid or an unknown report
        fails with the store unchanged; otherwise the report's tasks get the
        upsert. */
    method AddOrUpdateTask(id: ReportId, uuid: Option<string>, stage: Stage, status: Status, now: Timestamp)
      returns (w: TaskWrite)
      modifies this
      ensures nextId == old(nextId)
      ensures !Present(uuid) ==> w == MissingUuid && reports == old(reports)
      ensures Present(uuid) && id !in old(reports) ==> w == UnknownReport && reports == old(reports)
      ensures Present(uuid) && id in old(reports) ==>
        var tasks := old(reports)[id].tasks;
        var tasks' := UpsertTask(tasks, uuid.value, stage, status, now);
        && reports == old(reports)[id := old(reports)[id].(tasks := tasks')]
        && w == Written(tasks' != tasks)
    {
      if !Present(uuid) {
        return MissingUuid;
      }
      var found := Get(id);
      if found.None? {
        return UnknownReport;
      }
      var report := found.value.report;
      var tasks' := UpsertTask(report.tasks, uuid.value, stage, status, now);
      reports := reports[id := report.(tasks := tasks')];
      w := Written(tasks' != report.tasks);
    }
  }
}
