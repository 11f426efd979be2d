/**
 * The older `create_on_jira` of projects/functions.py: every test case of a
 * version is sent to Jira in batches of 40, then every issue labelled
 * `Created_by_Captain` is fetched and each test case with an id is marked
 * SUCCESS (with its issue's link) or FAILED. Every exception is swallowed.
 */
module LegacySync {
  import opened Wrappers
  import opened Values
  import opened Firestore
  import opened JiraClient
  import opened Batching
  import opened Effects
  import AlmSync
  import Seqs

  const StartCreation: string := "START_JIRA_CREATION"
  const ErrorCreation: string := "ERR_JIRA_CREATION"
  const CompleteCreation: string := "COMPLETE_JIRA_CREATION"
  const StartSync: string := "START_JIRA_SYNC"
  const ErrorSync: string := "ERR_JIRA_SYNC"
  const CompleteSync: string := "COMPLETE_JIRA_SYNC"

  /** The value returned when the version lists no test case. */
  const NoTestcasesMessage: string := "No test cases found to sync."

  /** The label every issue the service creates carries. */
  const CaptainLabel: string := "Created_by_Captain"

  /** The test-case fields this task writes back. */
  const LinkField: string := "toolIssueLink"
  const ResultField: string := "created"

  // ---- Matching issues to test cases ----

  /** The fields written for one test case: the link of its first labelled issue and SUCCESS, or FAILED. */
  function MatchFields(id: Value, issues: seq<Issue>): Doc {
    var k := AlmSync.FirstMatch(id, issues);
    if k < |issues| then map[LinkField := VStr(issues[k].url), ResultField := VStr("SUCCESS")]
    else map[ResultField := VStr("FAILED")]
  }

  /** The ids of the test cases the matching loop handles: the truthy ones, in order. */
  function MatchedIds(tcs: seq<Doc>): seq<Value>
    decreases |tcs|
  {
    if tcs == [] then []
    else
      var id := Get(tcs[0], "testcase_id", VNone);
      (if Truthy(id) then [id] else []) + MatchedIds(tcs[1..])
  }

  /** The updates of a loop and whether it ran to its end. */
  datatype Matched = Matched(writes: seq<Write>, completed: bool)

  /**
   * The matching loop over the listed test cases: one update per test case with
   * an id, skipping those without; an update that raises (a non-string id, or a
   * test case that no longer exists) ends the whole task.
   */
  function MatchLoop(keys: set<Path>, projectId: string, versionId: string, tcs: seq<Doc>, issues: seq<Issue>): Matched
    decreases |tcs|
  {
    if tcs == [] then Matched([], true)
    else
      var id := Get(tcs[0], "testcase_id", VNone);
      if !Truthy(id) then MatchLoop(keys, projectId, versionId, tcs[1..], issues)
      else
        match AlmSync.TestcaseTarget(keys, projectId, versionId, id)
        case None => Matched([], false)
        case Some(p) =>
          var rest := MatchLoop(keys, projectId, versionId, tcs[1..], issues);
          Matched([Update(p, MatchFields(id, issues))] + rest.writes, rest.completed)
  }

  // ---- The whole task ----

  /** Project details that are present and carry a truthy site id and project key (the domain is not checked). */
  predicate DetailsUsable(details: Option<Doc>) {
    && details.Some?
    && Truthy(Get(details.value, "toolSiteId", VNone))
    && Truthy(Get(details.value, "toolProjectKey", VNone))
  }

  /** One bulk creation per batch, in order. */
  function BulkRequests(uid: string, siteId: Value, projectKey: Value, batches: seq<seq<Doc>>): seq<Request>
    decreases |batches|
  {
    if batches == [] then []
    else [LegacyBulkCreate(uid, siteId, projectKey, batches[0])] + BulkRequests(uid, siteId, projectKey, batches[1..])
  }

  /** The writes once the search has answered `reply`: ERR, or the matching loop and, when it ran to its end, COMPLETE. */
  function SyncWrites(keys: set<Path>, projectId: string, versionId: string, listing: seq<Doc>, reply: Reply): seq<Write> {
    if !reply.ok then [StatusWrite(projectId, versionId, ErrorSync)]
    else
      var m := MatchLoop(keys, projectId, versionId, listing, reply.issues);
      m.writes + (if m.completed then [StatusWrite(projectId, versionId, CompleteSync)] else [])
  }

  /** The writes and calls once the details are usable: the batches, COMPLETE and START of the sync, then the sync. */
  function UsableTrace(keys: set<Path>, replies: nat -> Reply, n: nat, uid: string, projectId: string, versionId: string,
                       siteId: Value, domain: Value, projectKey: Value, listing: seq<Doc>): Trace
  {
    var creates := BulkRequests(uid, siteId, projectKey, Batches(listing));
    Trace([StatusWrite(projectId, versionId, CompleteCreation), StatusWrite(projectId, versionId, StartSync)]
          + SyncWrites(keys, projectId, versionId, listing, replies(n + |creates|)),
          creates + [SearchByLabel(uid, domain, siteId, CaptainLabel)])
  }

  /** The background task's trace and the value it returned. */
  datatype LegacyRun = LegacyRun(trace: Trace, message: Option<string>)

  /**
   * `create_on_jira` on store `s`, with Jira replies from `n` on and `listing`
   * as the test cases the store lists.
   */
  function LegacyRunOf(s: Store, replies: nat -> Reply, n: nat, uid: string, projectId: string,
                       versionId: string, listing: seq<Doc>): LegacyRun
  {
    if VersionDoc(projectId, versionId) !in s then
      // the first update raises and the handler swallows it
      LegacyRun(Nothing, None)
    else if listing == [] then
      LegacyRun(Trace([StatusWrite(projectId, versionId, StartCreation)], []), Some(NoTestcasesMessage))
    else if !DetailsUsable(ProjectDetails(s, projectId)) then
      LegacyRun(Trace([StatusWrite(projectId, versionId, StartCreation), StatusWrite(projectId, versionId, ErrorCreation)], []), None)
    else
      var d := ProjectDetails(s, projectId).value;
      var u := UsableTrace(s.Keys, replies, n, uid, projectId, versionId, Get(d, "toolSiteId", VNone),
                           Get(d, "toolSiteDomain", VNone), Get(d, "toolProjectKey", VNone), listing);
      LegacyRun(Trace([StatusWrite(projectId, versionId, StartCreation)] + u.writes, u.requests), None)
  }

  // ---- The methods ----

  /** The inner loop: the first issue whose labels contain the id, with `found_match` and `break`. */
  method FindMatch(id: Value, issues: seq<Issue>) returns (found: bool, k: nat)
    ensures k == AlmSync.FirstMatch(id, issues)
    ensures found <==> k < |issues|
    ensures found ==> Labelled(issues[k], id)
  {
    found, k := false, 0;
    while k < |issues|
      invariant 0 <= k <= |issues|
      invariant forall j :: 0 <= j < k ==> !Labelled(issues[j], id)
    {
      if Labelled(issues[k], id) {
        found := true;
        break;
      }
      k := k + 1;
    }
    AlmSync.FirstMatchIsFirst(id, issues);
  }

  /** The batches `range(0, len(s), 40)` from position `i` on: the one at `i`, then those after it. */
  lemma BatchesFrom<T>(s: seq<T>, i: nat)
    requires i < |s|
    ensures Batches(s[i..]) == [BatchAt(s, i)] + Batches(s[i + |BatchAt(s, i)|..])
  {
    var b := BatchAt(s, i);
    assert BatchAt(s[i..], 0) == b;
    assert s[i..][|b|..] == s[i + |b|..];
  }

  /** The batch loop: a failed bulk creation is logged and the next batch still runs. */
  method CreateBatches(jira: Client, uid: string, siteId: Value, projectKey: Value, tcs: seq<Doc>)
    modifies jira
    ensures jira.sent == old(jira.sent) + BulkRequests(uid, siteId, projectKey, Batches(tcs))
  {
    var i := 0;
    while i < |tcs|
      invariant 0 <= i <= |tcs|
      invariant jira.sent + BulkRequests(uid, siteId, projectKey, Batches(tcs[i..]))
                == old(jira.sent) + BulkRequests(uid, siteId, projectKey, Batches(tcs))
      decreases |tcs| - i
    {
      var batch := tcs[i..Min(i + BatchSize, |tcs|)];
      BatchesFrom(tcs, i);
      ghost var before := jira.sent;
      var _ := jira.CreateBulkIssuesLegacy(uid, siteId, projectKey, batch);
      Seqs.Regroup3(before, [LegacyBulkCreate(uid, siteId, projectKey, batch)],
                    BulkRequests(uid, siteId, projectKey, Batches(tcs[i + |batch|..])));
      i := i + |batch|;
    }
    assert tcs[i..] == [];
  }

  /** Unfolds the matching loop at position `i`. */
  lemma MatchStep(keys: set<Path>, projectId: string, versionId: string, tcs: seq<Doc>, i: nat, issues: seq<Issue>)
    requires i < |tcs|
    ensures var id := Get(tcs[i], "testcase_id", VNone);
            MatchLoop(keys, projectId, versionId, tcs[i..], issues)
            == if !Truthy(id) then MatchLoop(keys, projectId, versionId, tcs[i + 1..], issues)
               else match AlmSync.TestcaseTarget(keys, projectId, versionId, id)
                 case None => Matched([], false)
                 case Some(p) =>
                   Matched([Update(p, MatchFields(id, issues))] + MatchLoop(keys, projectId, versionId, tcs[i + 1..], issues).writes,
                           MatchLoop(keys, projectId, versionId, tcs[i + 1..], issues).completed)
  {
    assert tcs[i..][0] == tcs[i] && tcs[i..][1..] == tcs[i + 1..];
  }

  /** The matching loop; `completed` is false when an update raised. */
  method MatchTestcases(db: FirestoreDB, projectId: string, versionId: string, tcs: seq<Doc>, issues: seq<Issue>)
    returns (completed: bool)
    requires db.Valid()
    modifies db
    ensures db.Valid() && db.docs.Keys == old(db.docs.Keys)
    ensures completed == MatchLoop(old(db.docs.Keys), projectId, versionId, tcs, issues).completed
    ensures db.log == old(db.log) + MatchLoop(old(db.docs.Keys), projectId, versionId, tcs, issues).writes
  {
    ghost var keys := db.docs.Keys;
    var i := 0;
    while i < |tcs|
      invariant 0 <= i <= |tcs|
      invariant db.Valid() && db.docs.Keys == keys
      invariant MatchLoop(keys, projectId, versionId, tcs[i..], issues).completed
                == MatchLoop(keys, projectId, versionId, tcs, issues).completed
      invariant db.log + MatchLoop(keys, projectId, versionId, tcs[i..], issues).writes
                == old(db.log) + MatchLoop(keys, projectId, versionId, tcs, issues).writes
    {
      var id := Get(tcs[i], "testcase_id", VNone);
      MatchStep(keys, projectId, versionId, tcs, i, issues);
      if Truthy(id) {
        var found, k := FindMatch(id, issues);
        var fields := if found then map[LinkField := VStr(issues[k].url), ResultField := VStr("SUCCESS")]
                      else map[ResultField := VStr("FAILED")];
        if !id.VStr? {
          // a document id must be a string: the update raises
          return false;
        }
        ghost var before := db.log;
        var updated := db.UpdateTestcase(projectId, versionId, id.s, fields);
        if !updated {
          return false;
        }
        Seqs.Regroup3(before, [Update(TestcaseDoc(projectId, versionId, id.s), fields)],
                      MatchLoop(keys, projectId, versionId, tcs[i + 1..], issues).writes);
      }
      i := i + 1;
    }
    assert tcs[i..] == [];
    return true;
  }

  /** The sync half: the label search, then ERR, or the matching loop and COMPLETE when it ran to its end. */
  method SyncPhase(db: FirestoreDB, jira: Client, uid: string, projectId: string, versionId: string,
                   domain: Value, siteId: Value, listing: seq<Doc>)
    requires db.Valid() && VersionDoc(projectId, versionId) in db.docs
    modifies db, jira
    ensures db.Valid() && db.docs.Keys == old(db.docs.Keys)
    ensures jira.sent == old(jira.sent) + [SearchByLabel(uid, domain, siteId, CaptainLabel)]
    ensures db.log == old(db.log) + SyncWrites(old(db.docs.Keys), projectId, versionId, listing, jira.replies(|old(jira.sent)|))
  {
    var ok, issues := jira.SearchIssuesByLabel(uid, domain, siteId, CaptainLabel);
    if !ok {
      AlmSync.SetStatus(db, projectId, versionId, ErrorSync);
      return;
    }
    var completed := MatchTestcases(db, projectId, versionId, listing, issues);
    if completed {
      ghost var log := db.log;
      AlmSync.SetStatus(db, projectId, versionId, CompleteSync);
      Seqs.Regroup3(old(db.log), MatchLoop(old(db.docs.Keys), projectId, versionId, listing, issues).writes,
                    [StatusWrite(projectId, versionId, CompleteSync)]);
    }
  }

  lemma LegacyRunUsable(s: Store, replies: nat -> Reply, n: nat, uid: string, projectId: string,
                        versionId: string, listing: seq<Doc>, d: Doc)
    requires VersionDoc(projectId, versionId) in s && listing != []
    requires DetailsUsable(ProjectDetails(s, projectId)) && ProjectDetails(s, projectId) == Some(d)
    ensures var u := UsableTrace(s.Keys, replies, n, uid, projectId, versionId, Get(d, "toolSiteId", VNone),
                                 Get(d, "toolSiteDomain", VNone), Get(d, "toolProjectKey", VNone), listing);
            LegacyRunOf(s, replies, n, uid, projectId, versionId, listing)
            == LegacyRun(Trace([StatusWrite(projectId, versionId, StartCreation)] + u.writes, u.requests), None)
  {
  }

  /** The parts of the trace after usable details, given the bulk creations and the search's reply. */
  lemma UsableTraceParts(keys: set<Path>, replies: nat -> Reply, n: nat, uid: string, projectId: string, versionId: string,
                         siteId: Value, domain: Value, projectKey: Value, listing: seq<Doc>, creates: seq<Request>, reply: Reply)
    requires creates == BulkRequests(uid, siteId, projectKey, Batches(listing)) && reply == replies(n + |creates|)
    ensures UsableTrace(keys, replies, n, uid, projectId, versionId, siteId, domain, projectKey, listing).writes
            == [StatusWrite(projectId, versionId, CompleteCreation), StatusWrite(projectId, versionId, StartSync)]
               + SyncWrites(keys, projectId, versionId, listing, reply)
    ensures UsableTrace(keys, replies, n, uid, projectId, versionId, siteId, domain, projectKey, listing).requests
            == creates + [SearchByLabel(uid, domain, siteId, CaptainLabel)]
  {
  }

  /** What follows usable details: the batch loop, COMPLETE, START of the sync, and the sync. */
  method CreateAndSync(db: FirestoreDB, jira: Client, uid: string, projectId: string, versionId: string,
                       siteId: Value, domain: Value, projectKey: Value, listing: seq<Doc>)
    requires db.Valid() && VersionDoc(projectId, versionId) in db.docs
    modifies db, jira
    ensures db.Valid() && db.docs.Keys == old(db.docs.Keys)
    ensures db.log == old(db.log) + UsableTrace(old(db.docs.Keys), jira.replies, |old(jira.sent)|, uid, projectId, versionId,
                                                siteId, domain, projectKey, listing).writes
    ensures jira.sent == old(jira.sent) + UsableTrace(old(db.docs.Keys), jira.replies, |old(jira.sent)|, uid, projectId, versionId,
                                                      siteId, domain, projectKey, listing).requests
  {
    ghost var keys, log0, sent0 := db.docs.Keys, db.log, jira.sent;
    CreateBatches(jira, uid, siteId, projectKey, listing);
    ghost var creates := BulkRequests(uid, siteId, projectKey, Batches(listing));
    ghost var reply := jira.replies(|jira.sent|);
    assert |jira.sent| == |sent0| + |creates|;
    FinishAndSync(db, jira, uid, projectId, versionId, domain, siteId, listing);
    Seqs.Regroup3(sent0, creates, [SearchByLabel(uid, domain, siteId, CaptainLabel)]);
    UsableTraceParts(keys, jira.replies, |sent0|, uid, projectId, versionId, siteId, domain, projectKey, listing, creates, reply);
  }

  /** COMPLETE of the creation, START of the sync, and the sync. */
  method FinishAndSync(db: FirestoreDB, jira: Client, uid: string, projectId: string, versionId: string,
                       domain: Value, siteId: Value, listing: seq<Doc>)
    requires db.Valid() && VersionDoc(projectId, versionId) in db.docs
    modifies db, jira
    ensures db.Valid() && db.docs.Keys == old(db.docs.Keys)
    ensures jira.sent == old(jira.sent) + [SearchByLabel(uid, domain, siteId, CaptainLabel)]
    ensures db.log == old(db.log) + ([StatusWrite(projectId, versionId, CompleteCreation), StatusWrite(projectId, versionId, StartSync)]
                                     + SyncWrites(old(db.docs.Keys), projectId, versionId, listing, jira.replies(|old(jira.sent)|)))
  {
    ghost var keys, log0 := db.docs.Keys, db.log;
    AlmSync.SetStatus(db, projectId, versionId, CompleteCreation);
    ghost var log1 := db.log;
    AlmSync.SetStatus(db, projectId, versionId, StartSync);
    ghost var log2 := db.log;
    SyncPhase(db, jira, uid, projectId, versionId, domain, siteId, listing);
    ghost var statuses := [StatusWrite(projectId, versionId, CompleteCreation), StatusWrite(projectId, versionId, StartSync)];
    Seqs.Chain2(log0, log1, log2, statuses[0], statuses[1]);
    Seqs.Regroup3(log0, statuses, SyncWrites(keys, projectId, versionId, listing, jira.replies(|old(jira.sent)|)));
  }

  /**
   * `create_on_jira`. `message` is the value it returns; `listing` and `paths`
   * are the test cases it read, in the store's order.
   */
  method CreateOnJira(db: FirestoreDB, jira: Client, uid: string, projectId: string, versionId: string)
    returns (message: Option<string>, listing: seq<Doc>, ghost paths: seq<Path>)
    requires db.Valid()
    modifies db, jira
    ensures db.Valid()
    ensures VersionDoc(projectId, versionId) in old(db.docs) ==> ListedBy(old(db.docs), projectId, versionId, paths, listing)
    ensures message == LegacyRunOf(old(db.docs), jira.replies, |old(jira.sent)|, uid, projectId, versionId, listing).message
    ensures db.log == old(db.log) + LegacyRunOf(old(db.docs), jira.replies, |old(jira.sent)|, uid, projectId, versionId, listing).trace.writes
    ensures jira.sent == old(jira.sent) + LegacyRunOf(old(db.docs), jira.replies, |old(jira.sent)|, uid, projectId, versionId, listing).trace.requests
  {
    ghost var s, log0, sent0 := db.docs, db.log, jira.sent;
    listing, paths := [], [];
    var startFields := map["status" := VStr(StartCreation)];
    var started := db.UpdateVersion(projectId, versionId, startFields);
    if !started {
      return None, listing, paths;
    }
    ghost var log1 := db.log;
    listing, paths := db.GetTestcases(projectId, versionId);
    ListedAfterUpdate(s, VersionDoc(projectId, versionId), startFields, projectId, versionId, paths, listing);
    if listing == [] {
      return Some(NoTestcasesMessage), listing, paths;
    }
    ProjectDetailsAfterVersionUpdate(s, projectId, versionId, startFields);
    var details := db.GetProjectDetails(projectId);
    if !DetailsUsable(details) {
      AlmSync.SetStatus(db, projectId, versionId, ErrorCreation);
      Seqs.Chain2(log0, log1, db.log, StatusWrite(projectId, versionId, StartCreation), StatusWrite(projectId, versionId, ErrorCreation));
      return None, listing, paths;
    }
    var d := details.value;
    var siteId, domain, projectKey := Get(d, "toolSiteId", VNone), Get(d, "toolSiteDomain", VNone), Get(d, "toolProjectKey", VNone);
    assert db.docs.Keys == s.Keys && jira.sent == sent0;
    CreateAndSync(db, jira, uid, projectId, versionId, siteId, domain, projectKey, listing);
    ghost var u := UsableTrace(s.Keys, jira.replies, |sent0|, uid, projectId, versionId, siteId, domain, projectKey, listing);
    Seqs.Regroup3(log0, [StatusWrite(projectId, versionId, StartCreation)], u.writes);
    LegacyRunUsable(s, jira.replies, |sent0|, uid, projectId, versionId, listing, d);
    return None, listing, paths;
  }
}
