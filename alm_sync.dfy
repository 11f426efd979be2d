/**
 * The ALM orchestrator of projects/background_functions.py:
 * `background_issue_creation_on_alm`, `sync_testcases_on_alm` and
 * `background_creation_specific_testcase_on_tool`.
 *
 * Each task is given twice: as a method over the store and the Jira client, and
 * as a function from the store it starts on and the client's replies to the
 * trace it produces. The methods are proved to produce exactly that trace, and
 * the properties of the background tasks are proved about the functions.
 */
module AlmSync {
  import opened Wrappers
  import opened Values
  import opened Firestore
  import opened JiraClient
  import opened Utilities
  import opened Batching
  import opened Effects
  import Seqs

  const StartStatus: string := "START_ALM_ISSUE_CREATION"
  const CreateStatus: string := "CREATE_ALM_NEW_ISSUES"
  const UpdateStatus: string := "UPDATE_ALM_DEP_ISSUES"
  const CompleteStatus: string := "COMPLETE_ALM_ISSUE_CREATION"
  const ErrorStatus: string := "ERR_ALM_ISSUE_CREATION"

  /** The search that finds every issue the service created. */
  const CaptainJql: string := "labels = 'Created_by_Captain'"

  // ---- Matching issues to test cases ----

  /** The test-case fields that record the issue created for it. */
  const IssueKeyField: string := "toolIssueKey"
  const IssueLinkField: string := "toolIssueLink"

  /** The position of the first issue labelled with `id`, or `|issues|` when there is none. */
  function FirstMatch(id: Value, issues: seq<Issue>): (r: nat)
    ensures r <= |issues|
    decreases |issues|
  {
    if issues == [] then 0
    else if Labelled(issues[0], id) then 0
    else 1 + FirstMatch(id, issues[1..])
  }

  /** The position found is labelled with the id, and no earlier issue is. */
  lemma {:induction false} FirstMatchIsFirst(id: Value, issues: seq<Issue>)
    ensures var r := FirstMatch(id, issues);
            && (r < |issues| ==> Labelled(issues[r], id))
            && (forall k :: 0 <= k < r ==> !Labelled(issues[k], id))
    decreases |issues|
  {
    if issues != [] && !Labelled(issues[0], id) {
      FirstMatchIsFirst(id, issues[1..]);
      assert forall k :: 1 <= k < |issues| ==> issues[1..][k - 1] == issues[k];
    }
  }

  function SuccessFields(issue: Issue): Doc {
    map[IssueKeyField := VStr(issue.key), IssueLinkField := VStr(issue.url), CreatedField := VStr(CreatedOk)]
  }

  const FailedFields: Doc := map[CreatedField := VStr("FAILED")]

  /** The fields written back for one test case: its first matching issue, or FAILED. */
  function Outcome(id: Value, issues: seq<Issue>): Doc {
    var k := FirstMatch(id, issues);
    if k < |issues| then SuccessFields(issues[k]) else FailedFields
  }

  /** The document `update_testcase` writes for an id, when the id is a string naming one. */
  function TestcaseTarget(keys: set<Path>, projectId: string, versionId: string, id: Value): Option<Path> {
    if id.VStr? && TestcaseDoc(projectId, versionId, id.s) in keys then Some(TestcaseDoc(projectId, versionId, id.s))
    else None
  }

  /**
   * The updates of the matching loop: one per id, in order, until the first id
   * whose update raises; the exception ends the loop.
   */
  function ReconcileWrites(keys: set<Path>, projectId: string, versionId: string,
                           ids: seq<Value>, issues: seq<Issue>): seq<Write>
    decreases |ids|
  {
    if ids == [] then []
    else
      match TestcaseTarget(keys, projectId, versionId, ids[0])
      case None => []
      case Some(p) => [Update(p, Outcome(ids[0], issues))] + ReconcileWrites(keys, projectId, versionId, ids[1..], issues)
  }

  /** `sync_testcases_on_alm`: one search, then the matching loop over its result. */
  function SyncTrace(keys: set<Path>, replies: nat -> Reply, n: nat, uid: string,
                     projectId: string, versionId: string, details: Doc, ids: seq<Value>): Trace
  {
    if "toolSiteId" !in details || "toolSiteDomain" !in details then Nothing
    else
      var reply := replies(n);
      Trace(if reply.ok then ReconcileWrites(keys, projectId, versionId, ids, reply.issues) else [],
            [Search(uid, details["toolSiteDomain"], details["toolSiteId"], CaptainJql)])
  }

  // ---- Creating the new test cases, batch by batch ----

  /** `[tc['testcase_id'] for tc in batch]`; None when a test case has no id. */
  function BatchIds(batch: seq<Doc>): Option<seq<Value>>
    decreases |batch|
  {
    if batch == [] then Some([])
    else if "testcase_id" !in batch[0] then None
    else
      match BatchIds(batch[1..])
      case None => None
      case Some(rest) => Some([batch[0]["testcase_id"]] + rest)
  }

  /** The ids are read exactly when every test case of the batch has one, and in batch order. */
  lemma {:induction false} BatchIdsInOrder(batch: seq<Doc>)
    ensures var r := BatchIds(batch);
            && (r.Some? <==> forall k :: 0 <= k < |batch| ==> "testcase_id" in batch[k])
            && (r.Some? ==> |r.value| == |batch| && forall k :: 0 <= k < |batch| ==> r.value[k] == batch[k]["testcase_id"])
    decreases |batch|
  {
    if batch != [] {
      BatchIdsInOrder(batch[1..]);
      assert forall k :: 1 <= k < |batch| ==> batch[1..][k - 1] == batch[k];
    }
  }

  /** One batch after its payloads were built: the bulk create, then the sync when it returned. */
  function BatchTrace(keys: set<Path>, replies: nat -> Reply, n: nat, uid: string, projectId: string,
                      versionId: string, details: Doc, siteId: Value, payloads: seq<IssuePayload>, batch: seq<Doc>): Trace
  {
    var create := Trace([], [BulkCreate(uid, siteId, payloads)]);
    if !replies(n).ok then create
    else
      match BatchIds(batch)
      case None => create
      case Some(ids) => Then(create, SyncTrace(keys, replies, n + 1, uid, projectId, versionId, details, ids))
  }

  /** A phase's trace, and whether it ran to its end rather than raising. */
  datatype Phase = Phase(trace: Trace, completed: bool)

  /**
   * The batch loop over `pending` from position `i` on. Building a batch's
   * payloads is outside the per-batch handler, so a test case the mapper
   * rejects ends the phase.
   */
  function CreatePhase(keys: set<Path>, replies: nat -> Reply, n: nat, uid: string, projectId: string,
                       versionId: string, details: Doc, siteId: Value, build: Builder,
                       pending: seq<Doc>, i: nat): Phase
    requires i <= |pending|
    decreases |pending| - i
  {
    if i == |pending| then Phase(Nothing, true)
    else
      var batch := BatchAt(pending, i);
      match MapAll(batch, build)
      case Failure(_) => Phase(Nothing, false)
      case Success(payloads) =>
        var t := BatchTrace(keys, replies, n, uid, projectId, versionId, details, siteId, payloads, batch);
        var rest := CreatePhase(keys, replies, n + |t.requests|, uid, projectId, versionId, details,
                                siteId, build, pending, i + |batch|);
        Phase(Then(t, rest.trace), rest.completed)
  }

  /** The summary update sent for a deprecated test case. */
  function DeprecationRequest(uid: string, siteId: Value, tc: Doc): Request {
    IssueUpdate(uid, siteId, Get(tc, "toolIssueKey", VNone), map["summary" := Get(tc, "title", VNone)])
  }

  function DeprecationRequests(uid: string, siteId: Value, dep: seq<Doc>): seq<Request>
    decreases |dep|
  {
    if dep == [] then [] else [DeprecationRequest(uid, siteId, dep[0])] + DeprecationRequests(uid, siteId, dep[1..])
  }

  // ---- The whole task ----

  /** Every one of site id, site domain and project key is present and truthy. */
  predicate DetailsComplete(details: Option<Doc>) {
    && details.Some?
    && Truthy(Get(details.value, "toolSiteId", VNone))
    && Truthy(Get(details.value, "toolSiteDomain", VNone))
    && Truthy(Get(details.value, "toolProjectKey", VNone))
  }

  function StartWrite(projectId: string, versionId: string, uid: string): Write {
    Update(VersionDoc(projectId, versionId), map["status" := VStr(StartStatus), "testcases_confirmed_by" := VStr(uid)])
  }

  /** The background task's trace, and whether an exception escaped it. */
  datatype Run = Run(trace: Trace, raised: bool)

  /** The background task reads the listing only when the version exists and the project details are complete. */
  predicate ReadsListing(s: Store, projectId: string, versionId: string) {
    VersionDoc(projectId, versionId) in s && DetailsComplete(ProjectDetails(s, projectId))
  }

  /** The project detail `key`, or None. */
  function Detail(s: Store, projectId: string, key: string): Value {
    match ProjectDetails(s, projectId)
    case None => VNone
    case Some(d) => Get(d, key, VNone)
  }

  /** The batch loop over the new test cases, as the background task runs it on store `s`. */
  function AlmCreatePhase(s: Store, replies: nat -> Reply, n: nat, uid: string, projectId: string,
                          versionId: string, listing: seq<Doc>): Phase
    requires ReadsListing(s, projectId, versionId)
  {
    CreatePhase(s.Keys, replies, n, uid, projectId, versionId, ProjectDetails(s, projectId).value,
                Detail(s, projectId, "toolSiteId"), PayloadBuilder(Detail(s, projectId, "toolProjectKey")), SelectNew(listing), 0)
  }

  /** The statuses written once the batch loop is over: UPDATE and COMPLETE, or ERR when it raised. */
  function FinishWrites(projectId: string, versionId: string, completed: bool): seq<Write> {
    if completed then [StatusWrite(projectId, versionId, UpdateStatus), StatusWrite(projectId, versionId, CompleteStatus)]
    else [StatusWrite(projectId, versionId, ErrorStatus)]
  }

  /** The Jira calls made once the batch loop is over: the deprecation updates, when it ran to its end. */
  function FinishRequests(uid: string, siteId: Value, completed: bool, deprecated: seq<Doc>): seq<Request> {
    if completed then DeprecationRequests(uid, siteId, deprecated) else []
  }

  /**
   * `background_issue_creation_on_alm` on store `s`, with Jira replies from `n`
   * on and `listing` as the test cases the store lists.
   */
  function AlmRun(s: Store, replies: nat -> Reply, n: nat, uid: string, projectId: string,
                  versionId: string, listing: seq<Doc>): Run
  {
    if VersionDoc(projectId, versionId) !in s then
      // the first update raises, and so does the handler's own update
      Run(Nothing, true)
    else if !ReadsListing(s, projectId, versionId) then
      Run(Trace([StartWrite(projectId, versionId, uid), StatusWrite(projectId, versionId, ErrorStatus)], []), false)
    else
      var create := AlmCreatePhase(s, replies, n, uid, projectId, versionId, listing);
      Run(Trace([StartWrite(projectId, versionId, uid), StatusWrite(projectId, versionId, CreateStatus)]
                + create.trace.writes + FinishWrites(projectId, versionId, create.completed),
                create.trace.requests
                + FinishRequests(uid, Detail(s, projectId, "toolSiteId"), create.completed, SelectDeprecated(listing))), false)
  }

  lemma AlmRunNoVersion(s: Store, replies: nat -> Reply, n: nat, uid: string, projectId: string,
                        versionId: string, listing: seq<Doc>)
    requires VersionDoc(projectId, versionId) !in s
    ensures AlmRun(s, replies, n, uid, projectId, versionId, listing) == Run(Nothing, true)
  {
  }

  lemma AlmRunIncomplete(s: Store, replies: nat -> Reply, n: nat, uid: string, projectId: string,
                         versionId: string, listing: seq<Doc>)
    requires VersionDoc(projectId, versionId) in s && !ReadsListing(s, projectId, versionId)
    ensures AlmRun(s, replies, n, uid, projectId, versionId, listing)
            == Run(Trace([StartWrite(projectId, versionId, uid), StatusWrite(projectId, versionId, ErrorStatus)], []), false)
  {
  }

  lemma AlmRunListed(s: Store, replies: nat -> Reply, n: nat, uid: string, projectId: string,
                     versionId: string, listing: seq<Doc>, create: Phase, siteId: Value)
    requires ReadsListing(s, projectId, versionId)
    requires create == AlmCreatePhase(s, replies, n, uid, projectId, versionId, listing)
    requires siteId == Detail(s, projectId, "toolSiteId")
    ensures AlmRun(s, replies, n, uid, projectId, versionId, listing)
            == Run(Trace([StartWrite(projectId, versionId, uid), StatusWrite(projectId, versionId, CreateStatus)]
                         + create.trace.writes + FinishWrites(projectId, versionId, create.completed),
                         create.trace.requests + FinishRequests(uid, siteId, create.completed, SelectDeprecated(listing))), false)
  {
  }

  // ---- The methods ----

  /** Unfolds the matching loop's trace at position `i`. */
  lemma ReconcileStep(keys: set<Path>, projectId: string, versionId: string, ids: seq<Value>, i: nat, issues: seq<Issue>)
    requires i < |ids|
    ensures ReconcileWrites(keys, projectId, versionId, ids[i..], issues)
            == match TestcaseTarget(keys, projectId, versionId, ids[i])
               case None => []
               case Some(p) => [Update(p, Outcome(ids[i], issues))] + ReconcileWrites(keys, projectId, versionId, ids[i + 1..], issues)
  {
    assert ids[i..][0] == ids[i] && ids[i..][1..] == ids[i + 1..];
  }

  /** The matching loop of `sync_testcases_on_alm`: the first update that raises ends it. */
  method ReconcileTestcases(db: FirestoreDB, projectId: string, versionId: string, ids: seq<Value>, issues: seq<Issue>)
    requires db.Valid()
    modifies db
    ensures db.Valid() && db.docs.Keys == old(db.docs.Keys)
    ensures db.log == old(db.log) + ReconcileWrites(old(db.docs.Keys), projectId, versionId, ids, issues)
  {
    ghost var keys := db.docs.Keys;
    var i := 0;
    while i < |ids|
      invariant 0 <= i <= |ids|
      invariant db.Valid() && db.docs.Keys == keys
      invariant db.log + ReconcileWrites(keys, projectId, versionId, ids[i..], issues)
                == old(db.log) + ReconcileWrites(keys, projectId, versionId, ids, issues)
    {
      var id := ids[i];
      ReconcileStep(keys, projectId, versionId, ids, i, issues);
      if !id.VStr? {
        // a document id must be a string: the update raises
        return;
      }
      var fields := Outcome(id, issues);
      ghost var before := db.log;
      var updated := db.UpdateTestcase(projectId, versionId, id.s, fields);
      if !updated {
        return;
      }
      Seqs.Regroup3(before, [Update(TestcaseDoc(projectId, versionId, id.s), fields)],
                    ReconcileWrites(keys, projectId, versionId, ids[i + 1..], issues));
      i := i + 1;
    }
    assert ids[i..] == [];
  }

  method SyncTestcasesOnAlm(db: FirestoreDB, jira: Client, uid: string, projectId: string, versionId: string,
                            details: Doc, ids: seq<Value>)
    requires db.Valid()
    modifies db, jira
    ensures db.Valid() && db.docs.Keys == old(db.docs.Keys)
    ensures db.log == old(db.log) + SyncTrace(old(db.docs.Keys), jira.replies, |old(jira.sent)|, uid, projectId, versionId, details, ids).writes
    ensures jira.sent == old(jira.sent) + SyncTrace(old(db.docs.Keys), jira.replies, |old(jira.sent)|, uid, projectId, versionId, details, ids).requests
  {
    if "toolSiteId" !in details || "toolSiteDomain" !in details {
      return;
    }
    var siteId, domain := details["toolSiteId"], details["toolSiteDomain"];
    var ok, issues := jira.SearchIssues(uid, domain, siteId, CaptainJql);
    if ok {
      ReconcileTestcases(db, projectId, versionId, ids, issues);
    }
  }

  /** Unfolds the batch loop at a batch whose payloads were built: its trace `t`, then the rest `next`. */
  lemma CreatePhaseStep(keys: set<Path>, replies: nat -> Reply, n: nat, uid: string, projectId: string,
                        versionId: string, details: Doc, siteId: Value, build: Builder,
                        pending: seq<Doc>, i: nat, payloads: seq<IssuePayload>, t: Trace, next: Phase)
    requires i < |pending| && MapAll(BatchAt(pending, i), build) == Success(payloads)
    requires t == BatchTrace(keys, replies, n, uid, projectId, versionId, details, siteId, payloads, BatchAt(pending, i))
    requires next == CreatePhase(keys, replies, n + |t.requests|, uid, projectId, versionId, details,
                                 siteId, build, pending, i + |BatchAt(pending, i)|)
    ensures CreatePhase(keys, replies, n, uid, projectId, versionId, details, siteId, build, pending, i)
            == Phase(Then(t, next.trace), next.completed)
  {
  }

  /**
   * The batch loop's invariant survives one batch: `rest` is the phase left
   * before the batch, `t` the batch's own trace and `next` the phase left after
   * it; `log`, `sent` are the logs before the batch and `log'`, `sent'` after it.
   */
  lemma PhaseAdvance(rest: Phase, t: Trace, next: Phase, log: seq<Write>, sent: seq<Request>,
                     log': seq<Write>, sent': seq<Request>, wholeWrites: seq<Write>, wholeRequests: seq<Request>)
    requires rest == Phase(Then(t, next.trace), next.completed)
    requires log + rest.trace.writes == wholeWrites && sent + rest.trace.requests == wholeRequests
    requires log' == log + t.writes && sent' == sent + t.requests
    ensures next.completed == rest.completed
    ensures log' + next.trace.writes == wholeWrites && sent' + next.trace.requests == wholeRequests
  {
    Seqs.Advance(log, rest.trace.writes, t.writes, next.trace.writes, log', wholeWrites);
    Seqs.Advance(sent, rest.trace.requests, t.requests, next.trace.requests, sent', wholeRequests);
  }

  /**
   * The batch loop's invariant survives one batch whose payloads were built:
   * `rest` is the phase left before it, `log`, `sent` the logs before it and
   * `log'`, `sent'` the logs after it.
   */
  lemma CreatePhaseAdvance(keys: set<Path>, replies: nat -> Reply, uid: string, projectId: string,
                           versionId: string, details: Doc, siteId: Value, build: Builder,
                           pending: seq<Doc>, i: nat, payloads: seq<IssuePayload>, rest: Phase,
                           log: seq<Write>, sent: seq<Request>, log': seq<Write>, sent': seq<Request>,
                           wholeWrites: seq<Write>, wholeRequests: seq<Request>)
    requires i < |pending| && MapAll(BatchAt(pending, i), build) == Success(payloads)
    requires rest == CreatePhase(keys, replies, |sent|, uid, projectId, versionId, details, siteId, build, pending, i)
    requires log + rest.trace.writes == wholeWrites && sent + rest.trace.requests == wholeRequests
    requires log' == log + BatchTrace(keys, replies, |sent|, uid, projectId, versionId, details, siteId, payloads, BatchAt(pending, i)).writes
    requires sent' == sent + BatchTrace(keys, replies, |sent|, uid, projectId, versionId, details, siteId, payloads, BatchAt(pending, i)).requests
    ensures i + |BatchAt(pending, i)| <= |pending|
    ensures CreatePhase(keys, replies, |sent'|, uid, projectId, versionId, details, siteId, build,
                        pending, i + |BatchAt(pending, i)|).completed == rest.completed
    ensures log' + CreatePhase(keys, replies, |sent'|, uid, projectId, versionId, details, siteId, build,
                               pending, i + |BatchAt(pending, i)|).trace.writes == wholeWrites
    ensures sent' + CreatePhase(keys, replies, |sent'|, uid, projectId, versionId, details, siteId, build,
                                pending, i + |BatchAt(pending, i)|).trace.requests == wholeRequests
  {
    var t := BatchTrace(keys, replies, |sent|, uid, projectId, versionId, details, siteId, payloads, BatchAt(pending, i));
    var next := CreatePhase(keys, replies, |sent'|, uid, projectId, versionId, details, siteId, build,
                            pending, i + |BatchAt(pending, i)|);
    CreatePhaseStep(keys, replies, |sent|, uid, projectId, versionId, details, siteId, build, pending, i, payloads, t, next);
    PhaseAdvance(rest, t, next, log, sent, log', sent', wholeWrites, wholeRequests);
  }

  lemma PhaseSplit(phase: Phase, t: Trace, next: Phase)
    requires phase == Phase(Then(t, next.trace), next.completed)
    ensures phase.completed == next.completed
    ensures phase.trace.writes == t.writes + next.trace.writes
    ensures phase.trace.requests == t.requests + next.trace.requests
  {
  }

  /** A batch whose payloads cannot be built ends the loop. */
  lemma CreatePhaseStops(keys: set<Path>, replies: nat -> Reply, n: nat, uid: string, projectId: string,
                         versionId: string, details: Doc, siteId: Value, build: Builder, pending: seq<Doc>, i: nat)
    requires i < |pending| && MapAll(BatchAt(pending, i), build).Failure?
    ensures CreatePhase(keys, replies, n, uid, projectId, versionId, details, siteId, build, pending, i)
            == Phase(Nothing, false)
  {
  }

  /** A batch whose bulk create raised, or one with a test case without an id, syncs nothing. */
  lemma BatchTraceCreateOnly(keys: set<Path>, replies: nat -> Reply, n: nat, uid: string, projectId: string,
                             versionId: string, details: Doc, siteId: Value, payloads: seq<IssuePayload>, batch: seq<Doc>)
    requires !replies(n).ok || BatchIds(batch).None?
    ensures BatchTrace(keys, replies, n, uid, projectId, versionId, details, siteId, payloads, batch)
            == Trace([], [BulkCreate(uid, siteId, payloads)])
  {
  }

  /** A batch whose bulk create returned is followed by the sync of its ids. */
  lemma BatchTraceSynced(keys: set<Path>, replies: nat -> Reply, n: nat, uid: string, projectId: string,
                         versionId: string, details: Doc, siteId: Value, payloads: seq<IssuePayload>, batch: seq<Doc>,
                         ids: seq<Value>, sync: Trace)
    requires replies(n).ok && BatchIds(batch) == Some(ids)
    requires sync == SyncTrace(keys, replies, n + 1, uid, projectId, versionId, details, ids)
    ensures BatchTrace(keys, replies, n, uid, projectId, versionId, details, siteId, payloads, batch)
            == Trace(sync.writes, [BulkCreate(uid, siteId, payloads)] + sync.requests)
  {
  }

  /** One batch: the bulk create, then the sync of its ids; an exception from either is logged. */
  method RunBatch(db: FirestoreDB, jira: Client, uid: string, projectId: string, versionId: string,
                  details: Doc, siteId: Value, payloads: seq<IssuePayload>, batch: seq<Doc>)
    requires db.Valid()
    modifies db, jira
    ensures db.Valid() && db.docs.Keys == old(db.docs.Keys)
    ensures db.log == old(db.log) + BatchTrace(old(db.docs.Keys), jira.replies, |old(jira.sent)|, uid, projectId, versionId,
                                               details, siteId, payloads, batch).writes
    ensures jira.sent == old(jira.sent) + BatchTrace(old(db.docs.Keys), jira.replies, |old(jira.sent)|, uid, projectId, versionId,
                                                     details, siteId, payloads, batch).requests
  {
    ghost var keys, n := db.docs.Keys, |jira.sent|;
    var ok := jira.CreateBulkIssues(uid, siteId, payloads);
    var ids := BatchIds(batch);
    if !ok || ids.None? {
      BatchTraceCreateOnly(keys, jira.replies, n, uid, projectId, versionId, details, siteId, payloads, batch);
      return;
    }
    ghost var sent := jira.sent;
    SyncTestcasesOnAlm(db, jira, uid, projectId, versionId, details, ids.value);
    ghost var sync := SyncTrace(keys, jira.replies, n + 1, uid, projectId, versionId, details, ids.value);
    BatchTraceSynced(keys, jira.replies, n, uid, projectId, versionId, details, siteId, payloads, batch, ids.value, sync);
    Seqs.Regroup3(old(jira.sent), [BulkCreate(uid, siteId, payloads)], sync.requests);
  }

  /**
   * One pass of the batch loop at position `i`: build the batch's payloads,
   * and when that raised stop; otherwise run the batch. `rest` is the phase
   * left before the pass; `wholeWrites` and `wholeRequests` are what the logs
   * will hold once the phase ends.
   */
  method CreateBatch(db: FirestoreDB, jira: Client, uid: string, projectId: string, versionId: string,
                     details: Doc, siteId: Value, build: Builder, pending: seq<Doc>, i: nat,
                     ghost rest: Phase, ghost wholeWrites: seq<Write>, ghost wholeRequests: seq<Request>)
    returns (stop: bool, next: nat)
    requires db.Valid() && i < |pending|
    requires rest == CreatePhase(db.docs.Keys, jira.replies, |jira.sent|, uid, projectId, versionId,
                                 details, siteId, build, pending, i)
    requires db.log + rest.trace.writes == wholeWrites && jira.sent + rest.trace.requests == wholeRequests
    modifies db, jira
    ensures db.Valid() && db.docs.Keys == old(db.docs.Keys)
    ensures stop ==> rest == Phase(Nothing, false) && db.log == old(db.log) && jira.sent == old(jira.sent)
    ensures !stop ==> i < next <= |pending|
    ensures !stop ==> CreatePhase(old(db.docs.Keys), jira.replies, |jira.sent|, uid, projectId, versionId,
                                  details, siteId, build, pending, next).completed == rest.completed
    ensures !stop ==> db.log + CreatePhase(old(db.docs.Keys), jira.replies, |jira.sent|, uid, projectId, versionId,
                                           details, siteId, build, pending, next).trace.writes == wholeWrites
    ensures !stop ==> jira.sent + CreatePhase(old(db.docs.Keys), jira.replies, |jira.sent|, uid, projectId, versionId,
                                              details, siteId, build, pending, next).trace.requests == wholeRequests
  {
    ghost var keys := db.docs.Keys;
    var batch := pending[i..Min(i + BatchSize, |pending|)];
    var payloads := MapAll(batch, build);
    if payloads.Failure? {
      CreatePhaseStops(keys, jira.replies, |jira.sent|, uid, projectId, versionId, details, siteId, build, pending, i);
      return true, i;
    }
    ghost var log, sent := db.log, jira.sent;
    RunBatch(db, jira, uid, projectId, versionId, details, siteId, payloads.value, batch);
    CreatePhaseAdvance(keys, jira.replies, uid, projectId, versionId, details, siteId, build, pending, i,
                       payloads.value, rest, log, sent, db.log, jira.sent, wholeWrites, wholeRequests);
    return false, i + |batch|;
  }

  /**
   * The batch loop of `background_issue_creation_on_alm`; `completed` is false
   * when building a batch's payloads raised.
   */
  method CreateNewIssues(db: FirestoreDB, jira: Client, uid: string, projectId: string, versionId: string,
                         details: Doc, siteId: Value, build: Builder, pending: seq<Doc>)
    returns (completed: bool)
    requires db.Valid()
    modifies db, jira
    ensures db.Valid() && db.docs.Keys == old(db.docs.Keys)
    ensures completed == CreatePhase(old(db.docs.Keys), jira.replies, |old(jira.sent)|, uid, projectId, versionId,
                                     details, siteId, build, pending, 0).completed
    ensures db.log == old(db.log) + CreatePhase(old(db.docs.Keys), jira.replies, |old(jira.sent)|, uid, projectId, versionId,
                                                details, siteId, build, pending, 0).trace.writes
    ensures jira.sent == old(jira.sent) + CreatePhase(old(db.docs.Keys), jira.replies, |old(jira.sent)|, uid, projectId, versionId,
                                                      details, siteId, build, pending, 0).trace.requests
  {
    ghost var keys := db.docs.Keys;
    ghost var whole := CreatePhase(keys, jira.replies, |jira.sent|, uid, projectId, versionId,
                                   details, siteId, build, pending, 0);
    ghost var wholeWrites, wholeRequests := db.log + whole.trace.writes, jira.sent + whole.trace.requests;
    ghost var rest := whole;
    var i := 0;
    while i < |pending|
      invariant 0 <= i <= |pending|
      invariant db.Valid() && db.docs.Keys == keys
      invariant rest == CreatePhase(keys, jira.replies, |jira.sent|, uid, projectId, versionId,
                                    details, siteId, build, pending, i)
      invariant rest.completed == whole.completed
      invariant db.log + rest.trace.writes == wholeWrites && jira.sent + rest.trace.requests == wholeRequests
      decreases |pending| - i
    {
      var stop, next := CreateBatch(db, jira, uid, projectId, versionId, details, siteId, build, pending, i,
                                    rest, wholeWrites, wholeRequests);
      if stop {
        return false;
      }
      rest := CreatePhase(keys, jira.replies, |jira.sent|, uid, projectId, versionId,
                          details, siteId, build, pending, next);
      i := next;
    }
    assert rest == Phase(Nothing, true);
    return true;
  }

  /** The summary updates for deprecated test cases; a failed update is logged and skipped. */
  method UpdateDeprecatedIssues(jira: Client, uid: string, siteId: Value, dep: seq<Doc>)
    modifies jira
    ensures jira.sent == old(jira.sent) + DeprecationRequests(uid, siteId, dep)
  {
    var i := 0;
    while i < |dep|
      invariant 0 <= i <= |dep|
      invariant old(jira.sent) + DeprecationRequests(uid, siteId, dep) == jira.sent + DeprecationRequests(uid, siteId, dep[i..])
    {
      assert dep[i..][1..] == dep[i + 1..];
      var tc := dep[i];
      var _ := jira.UpdateIssue(uid, siteId, Get(tc, "toolIssueKey", VNone), map["summary" := Get(tc, "title", VNone)]);
      i := i + 1;
    }
    assert dep[i..] == [];
  }

  /** `update_version` with a new `status`, on a version that exists. */
  method SetStatus(db: FirestoreDB, projectId: string, versionId: string, status: string)
    requires db.Valid() && VersionDoc(projectId, versionId) in db.docs
    modifies db
    ensures db.Valid() && db.docs.Keys == old(db.docs.Keys)
    ensures db.log == old(db.log) + [StatusWrite(projectId, versionId, status)]
  {
    var _ := db.UpdateVersion(projectId, versionId, map["status" := VStr(status)]);
  }

  /** What follows the batch loop: ERR when it raised; otherwise UPDATE, the deprecated summaries, and COMPLETE. */
  method FinishPhases(db: FirestoreDB, jira: Client, uid: string, projectId: string, versionId: string,
                      siteId: Value, deprecated: seq<Doc>, completed: bool)
    requires db.Valid() && VersionDoc(projectId, versionId) in db.docs
    modifies db, jira
    ensures db.Valid() && db.docs.Keys == old(db.docs.Keys)
    ensures db.log == old(db.log) + FinishWrites(projectId, versionId, completed)
    ensures jira.sent == old(jira.sent) + FinishRequests(uid, siteId, completed, deprecated)
  {
    if !completed {
      SetStatus(db, projectId, versionId, ErrorStatus);
      return;
    }
    ghost var log0 := db.log;
    SetStatus(db, projectId, versionId, UpdateStatus);
    ghost var log1 := db.log;
    UpdateDeprecatedIssues(jira, uid, siteId, deprecated);
    SetStatus(db, projectId, versionId, CompleteStatus);
    Seqs.Chain2(log0, log1, db.log, StatusWrite(projectId, versionId, UpdateStatus), StatusWrite(projectId, versionId, CompleteStatus));
  }

  /**
   * `background_issue_creation_on_alm`. `raised` reports an exception leaving the
   * task; `listing` and `paths` are the test cases it read, in the store's order.
   */
  method BackgroundIssueCreationOnAlm(db: FirestoreDB, jira: Client, uid: string, projectId: string, versionId: string)
    returns (raised: bool, listing: seq<Doc>, ghost paths: seq<Path>)
    requires db.Valid()
    modifies db, jira
    ensures db.Valid()
    ensures ReadsListing(old(db.docs), projectId, versionId) ==> ListedBy(old(db.docs), projectId, versionId, paths, listing)
    ensures raised == AlmRun(old(db.docs), jira.replies, |old(jira.sent)|, uid, projectId, versionId, listing).raised
    ensures db.log == old(db.log) + AlmRun(old(db.docs), jira.replies, |old(jira.sent)|, uid, projectId, versionId, listing).trace.writes
    ensures jira.sent == old(jira.sent) + AlmRun(old(db.docs), jira.replies, |old(jira.sent)|, uid, projectId, versionId, listing).trace.requests
  {
    ghost var s, log0, sent0 := db.docs, db.log, jira.sent;
    listing, paths := [], [];
    var startFields := map["status" := VStr(StartStatus), "testcases_confirmed_by" := VStr(uid)];
    var started := db.UpdateVersion(projectId, versionId, startFields);
    if !started {
      var _ := db.UpdateVersion(projectId, versionId, map["status" := VStr(ErrorStatus)]);
      AlmRunNoVersion(s, jira.replies, |sent0|, uid, projectId, versionId, listing);
      return true, listing, paths;
    }
    ghost var log1 := db.log;
    ProjectDetailsAfterVersionUpdate(s, projectId, versionId, startFields);
    var details := db.GetProjectDetails(projectId);
    if !DetailsComplete(details) {
      SetStatus(db, projectId, versionId, ErrorStatus);
      Seqs.Chain2(log0, log1, db.log, StartWrite(projectId, versionId, uid), StatusWrite(projectId, versionId, ErrorStatus));
      AlmRunIncomplete(s, jira.replies, |sent0|, uid, projectId, versionId, listing);
      return false, listing, paths;
    }
    var d := details.value;
    var siteId, projectKey := Get(d, "toolSiteId", VNone), Get(d, "toolProjectKey", VNone);
    assert siteId == Detail(s, projectId, "toolSiteId") && projectKey == Detail(s, projectId, "toolProjectKey");
    listing, paths := db.GetTestcases(projectId, versionId);
    ListedAfterUpdate(s, VersionDoc(projectId, versionId), startFields, projectId, versionId, paths, listing);
    SetStatus(db, projectId, versionId, CreateStatus);
    ghost var log2 := db.log;
    assert db.docs.Keys == s.Keys && jira.sent == sent0;
    var completed := CreateNewIssues(db, jira, uid, projectId, versionId, d, siteId, PayloadBuilder(projectKey), SelectNew(listing));
    ghost var create := AlmCreatePhase(s, jira.replies, |sent0|, uid, projectId, versionId, listing);
    assert completed == create.completed && jira.sent == sent0 + create.trace.requests;
    ghost var log3 := db.log;
    FinishPhases(db, jira, uid, projectId, versionId, siteId, SelectDeprecated(listing), completed);
    Seqs.Chain4(log0, log1, log2, log3, db.log, StartWrite(projectId, versionId, uid),
                StatusWrite(projectId, versionId, CreateStatus), create.trace.writes, FinishWrites(projectId, versionId, completed));
    Seqs.Regroup3(sent0, create.trace.requests, FinishRequests(uid, siteId, completed, SelectDeprecated(listing)));
    AlmRunListed(s, jira.replies, |sent0|, uid, projectId, versionId, listing, create, siteId);
    raised := false;
  }
}
