/**
 * `background_creation_specific_testcase_on_tool` of projects/background_functions.py:
 * one test case becomes one Jira issue, which is then looked up by the test
 * case's own label and recorded on the test case.
 */
module SingleCreation {
  import opened Wrappers
  import opened Values
  import opened Firestore
  import opened JiraClient
  import opened Utilities
  import opened Batching
  import opened Effects
  import opened AlmSync

  /** The status of the HTTPException every failure is turned into. */
  const InternalServerError: int := 500

  /** The background task's trace, and the status of the HTTPException it raised, if any. */
  datatype SingleRun = SingleRun(trace: Trace, raised: Option<int>)

  /** The search for the issues carrying a label: the id is rendered with `str()`. */
  function LabelJql(id: Value): string {
    "labels = '" + PyStr(id) + "'"
  }

  /**
   * The background task on store `s` with Jira replies from `n` on. Without complete project
   * details it does nothing; otherwise any exception (a missing test case, the
   * mapper's TypeError, a failed call, an update of a document that does not
   * exist) becomes a 500.
   */
  function SingleRunOf(s: Store, replies: nat -> Reply, n: nat, uid: string, projectId: string,
                       versionId: string, testcaseId: string): SingleRun
  {
    var details := ProjectDetails(s, projectId);
    if !DetailsComplete(details) then SingleRun(Nothing, None)
    else
      var siteId := Get(details.value, "toolSiteId", VNone);
      match TestcaseDetails(s, projectId, versionId, testcaseId)
      case None => SingleRun(Nothing, Some(InternalServerError))
      case Some(tc) =>
        var id := Get(tc, "testcase_id", VNone);
        match MapTestcaseToJiraPayload(tc, Get(details.value, "toolProjectKey", VNone))
        case Failure(_) => SingleRun(Nothing, Some(InternalServerError))
        case Success(payload) =>
          var create := SingleCreate(uid, siteId, payload);
          if !replies(n).ok then SingleRun(Trace([], [create]), Some(InternalServerError))
          else
            var requests := [create, Search(uid, Get(details.value, "toolSiteDomain", VNone), siteId, LabelJql(id))];
            if !replies(n + 1).ok then SingleRun(Trace([], requests), Some(InternalServerError))
            else
              match TestcaseTarget(s.Keys, projectId, versionId, id)
              case None => SingleRun(Trace([], requests), Some(InternalServerError))
              case Some(p) => SingleRun(Trace([Update(p, Outcome(id, replies(n + 1).issues))], requests), None)
  }

  method BackgroundCreationSpecificTestcaseOnTool(db: FirestoreDB, jira: Client, uid: string, projectId: string,
                                                  versionId: string, testcaseId: string)
    returns (raised: Option<int>)
    requires db.Valid()
    modifies db, jira
    ensures db.Valid()
    ensures raised == SingleRunOf(old(db.docs), jira.replies, |old(jira.sent)|, uid, projectId, versionId, testcaseId).raised
    ensures db.log == old(db.log) + SingleRunOf(old(db.docs), jira.replies, |old(jira.sent)|, uid, projectId, versionId, testcaseId).trace.writes
    ensures jira.sent == old(jira.sent) + SingleRunOf(old(db.docs), jira.replies, |old(jira.sent)|, uid, projectId, versionId, testcaseId).trace.requests
  {
    var details := db.GetProjectDetails(projectId);
    if !DetailsComplete(details) {
      return None;
    }
    var d := details.value;
    var siteId, domain, projectKey := Get(d, "toolSiteId", VNone), Get(d, "toolSiteDomain", VNone), Get(d, "toolProjectKey", VNone);
    var testcase := db.GetTestcaseDetails(projectId, versionId, testcaseId);
    if testcase.None? {
      // `testcase.get` on None raises AttributeError
      return Some(InternalServerError);
    }
    var id := Get(testcase.value, "testcase_id", VNone);
    var payload := MapTestcaseToJiraPayload(testcase.value, projectKey);
    if payload.Failure? {
      return Some(InternalServerError);
    }
    var created := jira.CreateIssue(uid, siteId, payload.value);
    if !created {
      return Some(InternalServerError);
    }
    var found, issues := jira.SearchIssues(uid, domain, siteId, LabelJql(id));
    if !found {
      return Some(InternalServerError);
    }
    var written := false;
    if id.VStr? {
      written := db.UpdateTestcase(projectId, versionId, id.s, Outcome(id, issues));
    }
    // a non-string id names no existing document, so its update raises as well
    if !written {
      return Some(InternalServerError);
    }
    return None;
  }

  // ---- Properties ----

  /** Without complete project details the background task returns quietly: no Jira call and no test-case update. */
  lemma SingleIncompleteDoesNothing(s: Store, replies: nat -> Reply, n: nat, uid: string, projectId: string,
                                    versionId: string, testcaseId: string)
    requires !DetailsComplete(ProjectDetails(s, projectId))
    ensures SingleRunOf(s, replies, n, uid, projectId, versionId, testcaseId) == SingleRun(Nothing, None)
  {
  }

  /**
   * The background task writes at most one document, a test case, and only when it raises
   * nothing; it raises only the 500, and every Jira call it makes is the one
   * creation followed by at most the one search.
   */
  lemma SingleWritesOnce(s: Store, replies: nat -> Reply, n: nat, uid: string, projectId: string,
                         versionId: string, testcaseId: string)
    ensures var r := SingleRunOf(s, replies, n, uid, projectId, versionId, testcaseId);
            && (r.raised.Some? ==> r.raised.value == InternalServerError && r.trace.writes == [])
            && (r.raised.None? ==> |r.trace.writes| <= 1)
            && (r.trace.writes != [] <==> r.raised.None? && DetailsComplete(ProjectDetails(s, projectId)))
            && (forall k :: 0 <= k < |r.trace.writes| ==> r.trace.writes[k].Update? && r.trace.writes[k].path.TestcaseDoc?)
            && |r.trace.requests| <= 2
            && (r.trace.requests != [] ==> r.trace.requests[0].SingleCreate?)
  {
  }

  /**
   * When the background task succeeds it wrote the outcome of the search for the test
   * case's own id onto the document of that id: SUCCESS with the first issue
   * labelled with it, or FAILED.
   */
  lemma SingleRecordsOutcome(s: Store, replies: nat -> Reply, n: nat, uid: string, projectId: string,
                             versionId: string, testcaseId: string)
    requires DetailsComplete(ProjectDetails(s, projectId))
    requires SingleRunOf(s, replies, n, uid, projectId, versionId, testcaseId).raised.None?
    ensures TestcaseDetails(s, projectId, versionId, testcaseId).Some?
    ensures var id := Get(TestcaseDetails(s, projectId, versionId, testcaseId).value, "testcase_id", VNone);
            && id.VStr?
            && SingleRunOf(s, replies, n, uid, projectId, versionId, testcaseId).trace.writes
               == [Update(TestcaseDoc(projectId, versionId, id.s), Outcome(id, replies(n + 1).issues))]
            && SingleRunOf(s, replies, n, uid, projectId, versionId, testcaseId).trace.requests[1].jql
               == "labels = '" + id.s + "'"
  {
  }
}
