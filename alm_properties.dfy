/**
 * What `background_issue_creation_on_alm` and `sync_testcases_on_alm` promise,
 * proved about their trace functions: the SUCCESS/FAILED partition of the
 * matching loop, the order of the version statuses, and the batching of the
 * creations.
 */
module AlmProperties {
  import opened Wrappers
  import opened Values
  import opened Firestore
  import opened JiraClient
  import opened Utilities
  import opened Batching
  import opened Effects
  import opened AlmSync

  // ---- Matching ----

  /** SUCCESS exactly when some issue carries the id, and then with the first such issue's key and URL; FAILED otherwise. */
  lemma OutcomeSuccess(id: Value, issues: seq<Issue>)
    ensures CreatedField in Outcome(id, issues)
    ensures Outcome(id, issues)[CreatedField] == VStr(CreatedOk)
            <==> exists k :: 0 <= k < |issues| && Labelled(issues[k], id)
    ensures Outcome(id, issues)[CreatedField] == VStr(CreatedOk)
            ==> exists k :: && 0 <= k < |issues| && Labelled(issues[k], id)
                            && (forall j :: 0 <= j < k ==> !Labelled(issues[j], id))
                            && Outcome(id, issues) == SuccessFields(issues[k])
    ensures Outcome(id, issues)[CreatedField] != VStr(CreatedOk) ==> Outcome(id, issues) == FailedFields
  {
    FirstMatchIsFirst(id, issues);
    var k := FirstMatch(id, issues);
    assert VStr("FAILED") != VStr(CreatedOk);
    if k < |issues| {
      assert Labelled(issues[k], id);
    }
  }

  /**
   * The matching loop writes one update per id, in order: the id's outcome on
   * the id's document. It stops only at the first id naming no existing
   * document (whose update raises), so every id is written when all exist.
   */
  lemma {:induction false} ReconcileOnePerId(keys: set<Path>, projectId: string, versionId: string,
                                             ids: seq<Value>, issues: seq<Issue>)
    ensures var w := ReconcileWrites(keys, projectId, versionId, ids, issues);
            && |w| <= |ids|
            && (forall k :: 0 <= k < |w| ==>
                  && ids[k].VStr? && TestcaseDoc(projectId, versionId, ids[k].s) in keys
                  && w[k] == Update(TestcaseDoc(projectId, versionId, ids[k].s), Outcome(ids[k], issues)))
            && (|w| < |ids| ==> TestcaseTarget(keys, projectId, versionId, ids[|w|]).None?)
            && (|w| == |ids| <==> forall k :: 0 <= k < |ids| ==> TestcaseTarget(keys, projectId, versionId, ids[k]).Some?)
    decreases |ids|
  {
    if ids != [] && TestcaseTarget(keys, projectId, versionId, ids[0]).Some? {
      ReconcileOnePerId(keys, projectId, versionId, ids[1..], issues);
      assert forall k :: 1 <= k < |ids| ==> ids[1..][k - 1] == ids[k];
    }
  }

  /**
   * `sync_testcases_on_alm` issues the one search and writes, for each id in
   * order, that id's outcome among the issues it returned; a failed search
   * writes nothing.
   */
  lemma SyncOneUpdatePerId(keys: set<Path>, replies: nat -> Reply, n: nat, uid: string,
                           projectId: string, versionId: string, details: Doc, ids: seq<Value>)
    ensures var t := SyncTrace(keys, replies, n, uid, projectId, versionId, details, ids);
            && |t.requests| <= 1
            && (forall k :: 0 <= k < |t.requests| ==> t.requests[k].Search? && t.requests[k].jql == CaptainJql)
            && (!replies(n).ok ==> t.writes == [])
            && |t.writes| <= |ids|
            && (forall k :: 0 <= k < |t.writes| ==>
                  ids[k].VStr? && t.writes[k] == Update(TestcaseDoc(projectId, versionId, ids[k].s), Outcome(ids[k], replies(n).issues)))
            && ("toolSiteId" in details && "toolSiteDomain" in details && replies(n).ok
                && (forall k :: 0 <= k < |ids| ==> TestcaseTarget(keys, projectId, versionId, ids[k]).Some?)
                ==> |t.writes| == |ids|)
  {
    ReconcileOnePerId(keys, projectId, versionId, ids, replies(n).issues);
  }

  // ---- A re-run skips what was synced ----

  predicate AllUpdates(ws: seq<Write>) {
    forall k :: 0 <= k < |ws| ==> ws[k].Update?
  }

  /** Updates never create or remove a document. */
  lemma {:induction false} UpdatesKeepKeys(s: Store, ws: seq<Write>)
    requires AllUpdates(ws)
    ensures Replay(s, ws).Keys == s.Keys
    decreases |ws|
  {
    if ws != [] {
      UpdatesKeepKeys(s, ws[..|ws| - 1]);
    }
  }

  /** A field keeps its value through updates of its document that all write that same value. */
  lemma {:induction false} UpdatesKeepField(s: Store, ws: seq<Write>, p: Path, field: string, v: Value)
    requires AllUpdates(ws)
    requires p in s && field in s[p] && s[p][field] == v
    requires forall k :: 0 <= k < |ws| && ws[k].path == p ==> field in ws[k].fields && ws[k].fields[field] == v
    ensures p in Replay(s, ws) && field in Replay(s, ws)[p] && Replay(s, ws)[p][field] == v
    decreases |ws|
  {
    if ws != [] {
      UpdatesKeepField(s, ws[..|ws| - 1], p, field, v);
    }
  }

  /**
   * A field written at step `k` keeps its value to the end when every later
   * update of that document writes the same value.
   */
  lemma LastWriteWins(s: Store, ws: seq<Write>, k: nat, p: Path, field: string, v: Value)
    requires AllUpdates(ws) && p in s && k < |ws| && ws[k].path == p
    requires forall j :: k <= j < |ws| && ws[j].path == p ==> field in ws[j].fields && ws[j].fields[field] == v
    ensures p in Replay(s, ws) && field in Replay(s, ws)[p] && Replay(s, ws)[p][field] == v
  {
    var done, later := ws[..k + 1], ws[k + 1..];
    assert done[..k] == ws[..k] && done[k] == ws[k];
    UpdatesKeepKeys(s, ws[..k]);
    var mid := Replay(s, done);
    assert mid == Apply(Replay(s, ws[..k]), ws[k]);
    assert forall j :: 0 <= j < |later| ==> later[j] == ws[k + 1 + j];
    UpdatesKeepField(mid, later, p, field, v);
    assert ws == done + later;
    ReplayAppend(s, done, later);
  }

  /**
   * After the matching loop's updates, a test case whose outcome was SUCCESS
   * is not selected by the next run: it records `toolCreated: SUCCESS`, and a
   * repeated id is given the same outcome again.
   */
  lemma RerunSkipsSynced(s: Store, projectId: string, versionId: string, ids: seq<Value>, issues: seq<Issue>, k: nat)
    requires k < |ids| && k < |ReconcileWrites(s.Keys, projectId, versionId, ids, issues)|
    requires Outcome(ids[k], issues)[CreatedField] == VStr(CreatedOk)
    ensures ids[k].VStr?
    ensures var after := Replay(s, ReconcileWrites(s.Keys, projectId, versionId, ids, issues));
            && TestcaseDoc(projectId, versionId, ids[k].s) in after
            && !IsNewTestcase(after[TestcaseDoc(projectId, versionId, ids[k].s)])
  {
    var w := ReconcileWrites(s.Keys, projectId, versionId, ids, issues);
    ReconcileOnePerId(s.Keys, projectId, versionId, ids, issues);
    var p := TestcaseDoc(projectId, versionId, ids[k].s);
    forall j | k <= j < |w| && w[j].path == p
      ensures CreatedField in w[j].fields && w[j].fields[CreatedField] == VStr(CreatedOk)
    {
      assert ids[j] == ids[k];
    }
    LastWriteWins(s, w, k, p, CreatedField, VStr(CreatedOk));
    CreatedNotReselected(Replay(s, w)[p]);
  }

  // ---- The version statuses ----

  lemma {:induction false} ReconcileTestcaseWrites(keys: set<Path>, projectId: string, versionId: string,
                                                    ids: seq<Value>, issues: seq<Issue>)
    ensures TestcaseWrites(ReconcileWrites(keys, projectId, versionId, ids, issues))
    decreases |ids|
  {
    if ids != [] && TestcaseTarget(keys, projectId, versionId, ids[0]).Some? {
      ReconcileTestcaseWrites(keys, projectId, versionId, ids[1..], issues);
      assert ReconcileWrites(keys, projectId, versionId, ids, issues)[1..] == ReconcileWrites(keys, projectId, versionId, ids[1..], issues);
    }
  }

  lemma BatchWritesTestcases(keys: set<Path>, replies: nat -> Reply, n: nat, uid: string, projectId: string,
                             versionId: string, details: Doc, siteId: Value, payloads: seq<IssuePayload>, batch: seq<Doc>)
    ensures TestcaseWrites(BatchTrace(keys, replies, n, uid, projectId, versionId, details, siteId, payloads, batch).writes)
  {
    if replies(n).ok && BatchIds(batch).Some? {
      var ids := BatchIds(batch).value;
      var sync := SyncTrace(keys, replies, n + 1, uid, projectId, versionId, details, ids);
      BatchTraceSynced(keys, replies, n, uid, projectId, versionId, details, siteId, payloads, batch, ids, sync);
      if "toolSiteId" in details && "toolSiteDomain" in details && replies(n + 1).ok {
        ReconcileTestcaseWrites(keys, projectId, versionId, ids, replies(n + 1).issues);
      }
    } else {
      BatchTraceCreateOnly(keys, replies, n, uid, projectId, versionId, details, siteId, payloads, batch);
    }
  }

  /** The batch loop writes test-case documents only: the version status is not touched while it runs. */
  lemma {:induction false} CreatePhaseWritesTestcases(keys: set<Path>, replies: nat -> Reply, n: nat, uid: string,
                                                      projectId: string, versionId: string, details: Doc, siteId: Value,
                                                      build: Builder, pending: seq<Doc>, i: nat)
    requires i <= |pending|
    ensures TestcaseWrites(CreatePhase(keys, replies, n, uid, projectId, versionId, details, siteId, build, pending, i).trace.writes)
    decreases |pending| - i
  {
    if i < |pending| {
      var b := BatchAt(pending, i);
      if MapAll(b, build).Failure? {
        CreatePhaseStops(keys, replies, n, uid, projectId, versionId, details, siteId, build, pending, i);
      } else {
        var payloads := MapAll(b, build).value;
        var t := BatchTrace(keys, replies, n, uid, projectId, versionId, details, siteId, payloads, b);
        var next := CreatePhase(keys, replies, n + |t.requests|, uid, projectId, versionId, details, siteId, build, pending, i + |b|);
        BatchWritesTestcases(keys, replies, n, uid, projectId, versionId, details, siteId, payloads, b);
        CreatePhaseWritesTestcases(keys, replies, n + |t.requests|, uid, projectId, versionId, details, siteId, build, pending, i + |b|);
        CreatePhaseStep(keys, replies, n, uid, projectId, versionId, details, siteId, build, pending, i, payloads, t, next);
        TestcaseWritesAppend(t.writes, next.trace.writes);
      }
    }
  }

  lemma StatusOfStart(projectId: string, versionId: string, uid: string)
    ensures Statuses(VersionDoc(projectId, versionId), [StartWrite(projectId, versionId, uid)]) == [VStr(StartStatus)]
  {
    assert [StartWrite(projectId, versionId, uid)][1..] == [];
  }

  lemma StatusesOfFinish(projectId: string, versionId: string, completed: bool)
    ensures Statuses(VersionDoc(projectId, versionId), FinishWrites(projectId, versionId, completed))
            == if completed then [VStr(UpdateStatus), VStr(CompleteStatus)] else [VStr(ErrorStatus)]
  {
    var target := VersionDoc(projectId, versionId);
    if completed {
      StatusesAppend(target, [StatusWrite(projectId, versionId, UpdateStatus)], [StatusWrite(projectId, versionId, CompleteStatus)]);
      StatusOfStatusWrite(projectId, versionId, UpdateStatus);
      StatusOfStatusWrite(projectId, versionId, CompleteStatus);
      assert FinishWrites(projectId, versionId, completed)
             == [StatusWrite(projectId, versionId, UpdateStatus)] + [StatusWrite(projectId, versionId, CompleteStatus)];
    } else {
      StatusOfStatusWrite(projectId, versionId, ErrorStatus);
    }
  }

  /**
   * The statuses a version goes through: START, CREATE, UPDATE, COMPLETE on a
   * run whose batch loop ends; START, CREATE, ERR when it raises; START, ERR
   * when the project details are incomplete. A version that does not exist
   * gets none, and the background task raises.
   */
  lemma AlmStatusPhases(s: Store, replies: nat -> Reply, n: nat, uid: string, projectId: string,
                        versionId: string, listing: seq<Doc>)
    ensures var r := AlmRun(s, replies, n, uid, projectId, versionId, listing);
            var st := Statuses(VersionDoc(projectId, versionId), r.trace.writes);
            && (VersionDoc(projectId, versionId) !in s ==> r.raised && st == [])
            && (VersionDoc(projectId, versionId) in s && !ReadsListing(s, projectId, versionId)
                ==> !r.raised && st == [VStr(StartStatus), VStr(ErrorStatus)])
            && (ReadsListing(s, projectId, versionId)
                ==> !r.raised
                    && st == if AlmCreatePhase(s, replies, n, uid, projectId, versionId, listing).completed
                             then [VStr(StartStatus), VStr(CreateStatus), VStr(UpdateStatus), VStr(CompleteStatus)]
                             else [VStr(StartStatus), VStr(CreateStatus), VStr(ErrorStatus)])
  {
    var target := VersionDoc(projectId, versionId);
    var start := StartWrite(projectId, versionId, uid);
    StatusOfStart(projectId, versionId, uid);
    if target !in s {
      AlmRunNoVersion(s, replies, n, uid, projectId, versionId, listing);
    } else if !ReadsListing(s, projectId, versionId) {
      AlmRunIncomplete(s, replies, n, uid, projectId, versionId, listing);
      StatusOfStatusWrite(projectId, versionId, ErrorStatus);
      StatusesAppend(target, [start], [StatusWrite(projectId, versionId, ErrorStatus)]);
      assert [start, StatusWrite(projectId, versionId, ErrorStatus)] == [start] + [StatusWrite(projectId, versionId, ErrorStatus)];
    } else {
      var create := AlmCreatePhase(s, replies, n, uid, projectId, versionId, listing);
      var siteId := Detail(s, projectId, "toolSiteId");
      AlmRunListed(s, replies, n, uid, projectId, versionId, listing, create, siteId);
      CreatePhaseWritesTestcases(s.Keys, replies, n, uid, projectId, versionId, ProjectDetails(s, projectId).value, siteId,
                                 PayloadBuilder(Detail(s, projectId, "toolProjectKey")), SelectNew(listing), 0);
      StatusesOfListedRun(projectId, versionId, uid, create.trace.writes, create.completed);
    }
  }

  /** The statuses of a run that read the listing, whatever the batch loop wrote to test cases. */
  lemma StatusesOfListedRun(projectId: string, versionId: string, uid: string, loop: seq<Write>, completed: bool)
    requires TestcaseWrites(loop)
    ensures Statuses(VersionDoc(projectId, versionId),
                     [StartWrite(projectId, versionId, uid), StatusWrite(projectId, versionId, CreateStatus)]
                     + loop + FinishWrites(projectId, versionId, completed))
            == if completed then [VStr(StartStatus), VStr(CreateStatus), VStr(UpdateStatus), VStr(CompleteStatus)]
               else [VStr(StartStatus), VStr(CreateStatus), VStr(ErrorStatus)]
  {
    var target := VersionDoc(projectId, versionId);
    var start := StartWrite(projectId, versionId, uid);
    var head := [start, StatusWrite(projectId, versionId, CreateStatus)];
    StatusOfStart(projectId, versionId, uid);
    StatusOfStatusWrite(projectId, versionId, CreateStatus);
    StatusesOfTestcaseWrites(target, loop);
    StatusesOfFinish(projectId, versionId, completed);
    StatusesAppend(target, [start], [StatusWrite(projectId, versionId, CreateStatus)]);
    assert head == [start] + [StatusWrite(projectId, versionId, CreateStatus)];
    StatusesAppend(target, head, loop);
    StatusesAppend(target, head + loop, FinishWrites(projectId, versionId, completed));
  }

  // ---- The batches ----

  /** The payload lists of the bulk creations among `reqs`, in order. */
  function BulkPayloads(reqs: seq<Request>): seq<seq<IssuePayload>>
    decreases |reqs|
  {
    if reqs == [] then []
    else (if reqs[0].BulkCreate? then [reqs[0].payloads] else []) + BulkPayloads(reqs[1..])
  }

  lemma {:induction false} BulkPayloadsAppend(a: seq<Request>, b: seq<Request>)
    ensures BulkPayloads(a + b) == BulkPayloads(a) + BulkPayloads(b)
    decreases |a|
  {
    if a == [] {
      assert a + b == b;
    } else {
      assert (a + b)[0] == a[0];
      assert (a + b)[1..] == a[1..] + b;
      BulkPayloadsAppend(a[1..], b);
    }
  }

  /** A batch issues exactly one bulk creation, carrying its payloads. */
  lemma BatchBulkPayloads(keys: set<Path>, replies: nat -> Reply, n: nat, uid: string, projectId: string,
                          versionId: string, details: Doc, siteId: Value, payloads: seq<IssuePayload>, batch: seq<Doc>)
    ensures BulkPayloads(BatchTrace(keys, replies, n, uid, projectId, versionId, details, siteId, payloads, batch).requests)
            == [payloads]
  {
    var create := BulkCreate(uid, siteId, payloads);
    assert BulkPayloads([create]) == [payloads] by {
      assert [create][1..] == [];
    }
    if replies(n).ok && BatchIds(batch).Some? {
      var sync := SyncTrace(keys, replies, n + 1, uid, projectId, versionId, details, BatchIds(batch).value);
      SyncOneUpdatePerId(keys, replies, n + 1, uid, projectId, versionId, details, BatchIds(batch).value);
      assert BulkPayloads(sync.requests) == [] by {
        if sync.requests != [] {
          assert sync.requests[1..] == [];
        }
      }
      BatchTraceSynced(keys, replies, n, uid, projectId, versionId, details, siteId, payloads, batch, BatchIds(batch).value, sync);
      BulkPayloadsAppend([create], sync.requests);
    } else {
      BatchTraceCreateOnly(keys, replies, n, uid, projectId, versionId, details, siteId, payloads, batch);
    }
  }

  lemma {:induction false} MapAllAppend(a: seq<Doc>, b: seq<Doc>, build: Builder)
    requires MapAll(a, build).Success? && MapAll(b, build).Success?
    ensures MapAll(a + b, build) == Success(MapAll(a, build).value + MapAll(b, build).value)
    decreases |a|
  {
    if a == [] {
      assert a + b == b;
      assert [] + MapAll(b, build).value == MapAll(b, build).value;
    } else {
      assert (a + b)[0] == a[0];
      assert (a + b)[1..] == a[1..] + b;
      MapAllAppend(a[1..], b, build);
      var p, x, y := build(a[0]).value, MapAll(a[1..], build).value, MapAll(b, build).value;
      assert MapAll(a, build) == Success([p] + x);
      assert MapAll(a + b, build) == Success([p] + (x + y));
      assert [p] + (x + y) == [p] + x + y;
    }
  }

  /** Every test case of `pending` from `i` on can be mapped to a payload. */
  predicate AllMap(pending: seq<Doc>, i: nat, build: Builder) {
    forall k :: i <= k < |pending| ==> build(pending[k]).Success?
  }

  /** The test cases from `i` on all map exactly when the batch at `i` maps and those after it all map. */
  lemma AllMapSplit(pending: seq<Doc>, i: nat, build: Builder)
    requires i < |pending|
    ensures AllMap(pending, i, build)
            <==> MapAll(BatchAt(pending, i), build).Success? && AllMap(pending, i + |BatchAt(pending, i)|, build)
  {
    var b := BatchAt(pending, i);
    MapAllPayloads(b, build);
    assert forall j :: 0 <= j < |b| ==> b[j] == pending[i + j];
    if MapAll(b, build).Failure? {
      var j :| 0 <= j < |b| && build(b[j]).Failure?;
      assert build(pending[i + j]).Failure?;
    }
  }

  /** The batch loop runs to its end exactly when every pending test case can be mapped to a payload. */
  lemma {:induction false} CreatePhaseCompletes(keys: set<Path>, replies: nat -> Reply, n: nat, uid: string,
                                                projectId: string, versionId: string, details: Doc, siteId: Value,
                                                build: Builder, pending: seq<Doc>, i: nat)
    requires i <= |pending|
    ensures CreatePhase(keys, replies, n, uid, projectId, versionId, details, siteId, build, pending, i).completed
            <==> AllMap(pending, i, build)
    decreases |pending| - i
  {
    if i < |pending| {
      var b := BatchAt(pending, i);
      AllMapSplit(pending, i, build);
      if MapAll(b, build).Failure? {
        CreatePhaseStops(keys, replies, n, uid, projectId, versionId, details, siteId, build, pending, i);
      } else {
        var payloads := MapAll(b, build).value;
        var t := BatchTrace(keys, replies, n, uid, projectId, versionId, details, siteId, payloads, b);
        var m, j := n + |t.requests|, i + |b|;
        var next := CreatePhase(keys, replies, m, uid, projectId, versionId, details, siteId, build, pending, j);
        CreatePhaseStep(keys, replies, n, uid, projectId, versionId, details, siteId, build, pending, i, payloads, t, next);
        CreatePhaseCompletes(keys, replies, m, uid, projectId, versionId, details, siteId, build, pending, j);
      }
    }
  }

  lemma NumBatchesStep(m: nat)
    requires m > 0
    ensures NumBatches(m) == 1 + NumBatches(m - Min(BatchSize, m))
  {
    if m > BatchSize {
      assert m + BatchSize - 1 == (m - BatchSize + BatchSize - 1) + BatchSize;
    }
  }

  /** The bulk creations of the loop from `i`: the batch's own, then those of the rest of the loop. */
  lemma CreatePhaseBulkStep(keys: set<Path>, replies: nat -> Reply, n: nat, uid: string, projectId: string,
                            versionId: string, details: Doc, siteId: Value, build: Builder,
                            pending: seq<Doc>, i: nat, payloads: seq<IssuePayload>, t: Trace, next: Phase)
    requires i < |pending| && MapAll(BatchAt(pending, i), build) == Success(payloads)
    requires t == BatchTrace(keys, replies, n, uid, projectId, versionId, details, siteId, payloads, BatchAt(pending, i))
    requires next == CreatePhase(keys, replies, n + |t.requests|, uid, projectId, versionId, details,
                                 siteId, build, pending, i + |BatchAt(pending, i)|)
    ensures CreatePhase(keys, replies, n, uid, projectId, versionId, details, siteId, build, pending, i).completed == next.completed
    ensures BulkPayloads(CreatePhase(keys, replies, n, uid, projectId, versionId, details, siteId, build, pending, i).trace.requests)
            == [payloads] + BulkPayloads(next.trace.requests)
  {
    CreatePhaseStep(keys, replies, n, uid, projectId, versionId, details, siteId, build, pending, i, payloads, t, next);
    BatchBulkPayloads(keys, replies, n, uid, projectId, versionId, details, siteId, payloads, BatchAt(pending, i));
    BulkPayloadsAppend(t.requests, next.trace.requests);
  }

  /** Every part holds 1 to 40 payloads. */
  predicate BatchSized(parts: seq<seq<IssuePayload>>) {
    forall j :: 0 <= j < |parts| ==> 1 <= |parts[j]| <= BatchSize
  }

  /**
   * `bulk` is how the loop from `i` creates the pending test cases: ceil(n/40)
   * bulk creations of 1 to 40 payloads each, which together are the payloads of
   * `pending[i..]`, in order.
   */
  predicate BulkShape(pending: seq<Doc>, i: nat, build: Builder, bulk: seq<seq<IssuePayload>>)
    requires i <= |pending|
  {
    && |bulk| == NumBatches(|pending| - i)
    && BatchSized(bulk)
    && MapAll(pending[i..], build) == Success(Flatten(bulk))
  }

  /** The batch at `i` in front of the bulk creations `rest` of the test cases after it. */
  lemma BulkCons(pending: seq<Doc>, i: nat, build: Builder, payloads: seq<IssuePayload>, rest: seq<seq<IssuePayload>>)
    requires i < |pending| && MapAll(BatchAt(pending, i), build) == Success(payloads)
    requires BulkShape(pending, i + |BatchAt(pending, i)|, build, rest)
    ensures BulkShape(pending, i, build, [payloads] + rest)
  {
    var b := BatchAt(pending, i);
    MapAllPayloads(b, build);
    NumBatchesStep(|pending| - i);
    assert ([payloads] + rest)[1..] == rest;
    assert pending[i..] == b + pending[i + |b|..];
    MapAllAppend(b, pending[i + |b|..], build);
  }

  /**
   * A batch loop that runs to its end makes ceil(n/40) bulk creations, whatever
   * their replies, each of 1 to 40 payloads; together they carry every pending
   * test case's payload exactly once and in order.
   */
  lemma {:induction false} CreatePhaseBulkCreates(keys: set<Path>, replies: nat -> Reply, n: nat, uid: string,
                                                  projectId: string, versionId: string, details: Doc, siteId: Value,
                                                  build: Builder, pending: seq<Doc>, i: nat)
    requires i <= |pending|
    requires CreatePhase(keys, replies, n, uid, projectId, versionId, details, siteId, build, pending, i).completed
    ensures BulkShape(pending, i, build,
                      BulkPayloads(CreatePhase(keys, replies, n, uid, projectId, versionId, details, siteId, build, pending, i).trace.requests))
    decreases |pending| - i
  {
    if i == |pending| {
      assert pending[i..] == [];
    } else {
      var b := BatchAt(pending, i);
      if MapAll(b, build).Failure? {
        CreatePhaseStops(keys, replies, n, uid, projectId, versionId, details, siteId, build, pending, i);
        assert false;
      } else {
        var payloads := MapAll(b, build).value;
        var t := BatchTrace(keys, replies, n, uid, projectId, versionId, details, siteId, payloads, b);
        var m, j := n + |t.requests|, i + |b|;
        var next := CreatePhase(keys, replies, m, uid, projectId, versionId, details, siteId, build, pending, j);
        CreatePhaseBulkStep(keys, replies, n, uid, projectId, versionId, details, siteId, build, pending, i, payloads, t, next);
        assert j <= |pending| && next.completed;
        CreatePhaseBulkCreates(keys, replies, m, uid, projectId, versionId, details, siteId, build, pending, j);
        BulkCons(pending, i, build, payloads, BulkPayloads(next.trace.requests));
      }
    }
  }

  /** Every deprecated test case gets one summary update, in order. */
  lemma {:induction false} DeprecationRequestsEach(uid: string, siteId: Value, dep: seq<Doc>)
    ensures |DeprecationRequests(uid, siteId, dep)| == |dep|
    ensures forall k :: 0 <= k < |dep| ==>
              DeprecationRequests(uid, siteId, dep)[k]
              == IssueUpdate(uid, siteId, Get(dep[k], "toolIssueKey", VNone), map["summary" := Get(dep[k], "title", VNone)])
    decreases |dep|
  {
    if dep != [] {
      DeprecationRequestsEach(uid, siteId, dep[1..]);
      assert forall k :: 1 <= k < |dep| ==> dep[1..][k - 1] == dep[k];
    }
  }
}
