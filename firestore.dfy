/**
 * The document store of gcp/firestore.py over an in-memory map from document
 * paths to documents. Every write the store makes is also appended to a ghost
 * log, so callers can state the order in which they wrote.
 */
module Firestore {
  import opened Wrappers
  import opened Values

  /** The document paths the service addresses. */
  datatype Path =
    | ProjectDoc(projectId: string)                                         // projects/{p}
    | VersionDoc(projectId: string, versionId: string)                      // projects/{p}/versions/{v}
    | TestcaseDoc(projectId: string, versionId: string, testcaseId: string) // .../versions/{v}/testcases/{t}
    | RequirementDoc(projectId: string, versionId: string, reqId: string)   // .../versions/{v}/requirements/{r}
    | AuthStateDoc(tool: string, uid: string)                               // tools/{tool}/auth_states/{uid}
    | SecretIndexDoc(tool: string, docId: string)                           // secrets/tools/{tool}/{id}
    | JobDoc(jobId: string)                                                 // the download job record

  type Store = map<Path, Doc>

  /**
   * A write: `set` replaces a document, `update` merges fields into an existing
   * one, `Upsert` merges and creates when missing, `delete` removes it.
   */
  datatype Write =
    | Set(path: Path, doc: Doc)
    | Update(path: Path, fields: Doc)
    | Upsert(path: Path, fields: Doc)
    | Delete(path: Path)

  /** Top-level field merge: the given fields win, every other field stays. */
  function Merge(d: Doc, fields: Doc): (r: Doc)
    ensures r.Keys == d.Keys + fields.Keys
    ensures forall k :: k in fields ==> r[k] == fields[k]
    ensures forall k :: k in d && k !in fields ==> r[k] == d[k]
  {
    d + fields
  }

  function Apply(s: Store, w: Write): Store {
    match w
    case Set(p, d) => s[p := d]
    case Update(p, f) => if p in s then s[p := Merge(s[p], f)] else s
    case Upsert(p, f) => s[p := Merge(if p in s then s[p] else map[], f)]
    case Delete(p) => s - {p}
  }

  /** The store after a sequence of writes, oldest first. */
  function Replay(s: Store, log: seq<Write>): Store
    decreases |log|
  {
    if log == [] then s else Apply(Replay(s, log[..|log| - 1]), log[|log| - 1])
  }

  lemma {:induction false} ReplayAppend(s: Store, a: seq<Write>, b: seq<Write>)
    ensures Replay(s, a + b) == Replay(Replay(s, a), b)
    decreases |b|
  {
    if b == [] {
      assert a + b == a;
    } else {
      assert (a + b)[..|a + b| - 1] == a + b[..|b| - 1];
      ReplayAppend(s, a, b[..|b| - 1]);
    }
  }

  /** Every document of the secret-path index carries its own id in its `uid` field. */
  predicate SecretIndexWellFormed(s: Store) {
    forall p :: p in s && p.SecretIndexDoc? ==> Get(s[p], "uid", VNone) == VStr(p.docId)
  }

  // ---- What the store's read operations return, as functions of the store ----

  /** `get_connection_status`: whether the user has a secret-path record. */
  predicate ConnectionStatus(s: Store, tool: string, uid: string) {
    SecretIndexDoc(tool, uid) in s
  }

  /** `get_auth_state`'s answer: the saved `state` field, or None. */
  function AuthState(s: Store, tool: string, uid: string): Value {
    var p := AuthStateDoc(tool, uid);
    if p in s then Get(s[p], "state", VNone) else VNone
  }

  /** A document of the secret-path index in `tool`'s collection whose `uid` field is `uid`. */
  predicate SecretRecordFor(s: Store, p: Path, tool: string, uid: string) {
    p in s && p.SecretIndexDoc? && p.tool == tool && Get(s[p], "uid", VNone) == VStr(uid)
  }

  /**
   * `get_secret_path`: the document the query `where('uid', '==', uid).limit(1)`
   * returns. On a well-formed index exactly one document can match.
   */
  function SecretRecord(s: Store, tool: string, uid: string): (r: Option<Doc>)
    requires SecretIndexWellFormed(s)
    ensures r.Some? <==> exists p :: SecretRecordFor(s, p, tool, uid)
    ensures forall p :: SecretRecordFor(s, p, tool, uid) ==> r == Some(s[p])
  {
    var p := SecretIndexDoc(tool, uid);
    assert forall q :: SecretRecordFor(s, q, tool, uid) ==> q == p by {
      forall q | SecretRecordFor(s, q, tool, uid) ensures q == p {
        assert VStr(q.docId) == VStr(uid);
      }
    }
    if p in s then assert SecretRecordFor(s, p, tool, uid); Some(s[p]) else None
  }

  function ProjectDetails(s: Store, projectId: string): Option<Doc> {
    var p := ProjectDoc(projectId);
    if p in s then Some(s[p]) else None
  }

  function VersionDetails(s: Store, projectId: string, versionId: string): Option<Doc> {
    var p := VersionDoc(projectId, versionId);
    if p in s then Some(s[p]) else None
  }

  function TestcaseDetails(s: Store, projectId: string, versionId: string, testcaseId: string): Option<Doc> {
    var p := TestcaseDoc(projectId, versionId, testcaseId);
    if p in s then Some(s[p]) else None
  }

  predicate InTestcases(p: Path, projectId: string, versionId: string) {
    p.TestcaseDoc? && p.projectId == projectId && p.versionId == versionId
  }

  /**
   * `get_testcases` lists every test case of the version once, in an order the
   * store chooses: `paths` is that order and `listing` the documents read.
   */
  ghost predicate ListedBy(s: Store, projectId: string, versionId: string, paths: seq<Path>, listing: seq<Doc>) {
    && |paths| == |listing|
    && (forall i, j :: 0 <= i < j < |paths| ==> paths[i] != paths[j])
    && (forall k :: 0 <= k < |paths| ==> paths[k] in s && listing[k] == s[paths[k]])
    && (forall p :: p in s && InTestcases(p, projectId, versionId) <==> p in paths)
  }

  // ---- The documents the write operations store ----

  function AuthStateDocument(state: string): Doc {
    map["state" := VStr(state)]
  }

  function SecretIndexDocument(uid: string, secretPath: string): Doc {
    map["uid" := VStr(uid), "secret_path" := VStr(secretPath)]
  }

  function ProjectDocument(tool: string, siteDomain: string, siteId: string, projectKey: string,
                           projectName: string, projectId: string): Doc
  {
    map[
      "tool" := VStr(tool),
      "toolSiteDomain" := VStr(siteDomain),
      "toolSiteId" := VStr(siteId),
      "toolProjectName" := VStr(projectName),
      "toolProjectKey" := VStr(projectKey),
      "project_id" := VStr(projectId),
      "created_at" := VServerTimestamp
    ]
  }

  function VersionDocument(versionId: string, projectName: string, projectId: string): Doc {
    map[
      "version" := VStr(versionId),
      "project_name" := VStr(projectName),
      "project_id" := VStr(projectId),
      "status" := VStr("CREATED"),
      "created_at" := VServerTimestamp
    ]
  }

  /** The three writes of `create_project`: the project, its first version, then the link. */
  function CreateProjectWrites(tool: string, siteDomain: string, siteId: string, projectKey: string,
                               projectName: string, projectId: string, versionId: string): seq<Write>
  {
    [ Set(ProjectDoc(projectId), ProjectDocument(tool, siteDomain, siteId, projectKey, projectName, projectId)),
      Set(VersionDoc(projectId, versionId), VersionDocument(versionId, projectName, projectId)),
      Update(ProjectDoc(projectId), map["latest_version" := VStr(versionId)]) ]
  }

  /** The state of a download job, as `update_download_job_status` records it. */
  datatype JobStatus =
    | InProgress
    | Completed(fileName: string, resultUrl: string)
    | Failed(error: JobError)

  /** Why a job failed: one of the fixed messages, or an exception whose text is not modelled. */
  datatype JobError = NoDocuments | DocumentMissing | NoDatasets | Raised

  function ErrorMessage(e: JobError): Value {
    match e
    case NoDocuments => VStr("No documents found")
    case DocumentMissing => VStr("Specified document found")
    case NoDatasets => VStr("No datasets found")
    case Raised => VNone
  }

  /** The fields written for a job status, named after the keyword arguments of the call. */
  function JobFields(st: JobStatus): Doc {
    match st
    case InProgress => map["status" := VStr("in_progress")]
    case Completed(f, u) => map["status" := VStr("completed"), "file_name" := VStr(f), "result_url" := VStr(u)]
    case Failed(e) => map["status" := VStr("failed"), "error" := ErrorMessage(e)]
  }

  predicate IsTerminal(st: JobStatus) {
    st.Completed? || st.Failed?
  }

  class FirestoreDB {
    var docs: Store
    /** Every write made through this client, oldest first. */
    ghost var log: seq<Write>
    /** The documents present when the client was created. */
    ghost const initial: Store

    ghost predicate Valid()
      reads this
    {
      docs == Replay(initial, log) && SecretIndexWellFormed(docs)
    }

    constructor (contents: Store)
      requires SecretIndexWellFormed(contents)
      ensures Valid() && docs == contents && log == []
    {
      docs := contents;
      log := [];
      initial := contents;
    }

    /** Makes one write and records it. */
    method Record(w: Write)
      requires Valid()
      requires SecretIndexWellFormed(Apply(docs, w))
      modifies this
      ensures Valid()
      ensures docs == Apply(old(docs), w) && log == old(log) + [w]
    {
      assert (log + [w])[..|log|] == log;
      log := log + [w];
      docs := Apply(docs, w);
    }

    method GetConnectionStatus(tool: string, uid: string) returns (connected: bool)
      ensures connected == ConnectionStatus(docs, tool, uid)
    {
      connected := SecretIndexDoc(tool, uid) in docs;
    }

    method SaveAuthState(tool: string, uid: string, state: string)
      requires Valid()
      modifies this
      ensures Valid()
      ensures log == old(log) + [Set(AuthStateDoc(tool, uid), AuthStateDocument(state))]
      ensures AuthState(docs, tool, uid) == VStr(state)
    {
      Record(Set(AuthStateDoc(tool, uid), AuthStateDocument(state)));
    }

    /** Returns the saved state and deletes it, so the state can be used once. */
    method GetAuthState(tool: string, uid: string) returns (state: Value)
      requires Valid()
      modifies this
      ensures Valid()
      ensures state == AuthState(old(docs), tool, uid)
      ensures log == old(log) + (if AuthStateDoc(tool, uid) in old(docs) then [Delete(AuthStateDoc(tool, uid))] else [])
      ensures AuthState(docs, tool, uid) == VNone
    {
      var p := AuthStateDoc(tool, uid);
      if p in docs {
        state := Get(docs[p], "state", VNone);
        Record(Delete(p));
      } else {
        state := VNone;
      }
    }

    method SaveSecretPath(tool: string, uid: string, secretPath: string)
      requires Valid()
      modifies this
      ensures Valid()
      ensures log == old(log) + [Set(SecretIndexDoc(tool, uid), SecretIndexDocument(uid, secretPath))]
      ensures ConnectionStatus(docs, tool, uid)
      ensures SecretRecord(docs, tool, uid) == Some(SecretIndexDocument(uid, secretPath))
    {
      Record(Set(SecretIndexDoc(tool, uid), SecretIndexDocument(uid, secretPath)));
    }

    /** Runs the query on the `uid` field over the tool's collection. */
    method GetSecretPath(tool: string, uid: string) returns (r: Option<Doc>)
      requires Valid()
      ensures r == SecretRecord(docs, tool, uid)
    {
      var matches := set p | p in docs && SecretRecordFor(docs, p, tool, uid);
      if matches != {} {
        var p :| p in matches;
        r := Some(docs[p]);
      } else {
        assert SecretIndexDoc(tool, uid) !in matches;
        r := None;
      }
    }

    /** `projectId` and `versionId` are the ids the store generates for the new documents. */
    method CreateProject(tool: string, siteDomain: string, siteId: string, projectKey: string,
                         projectName: string, projectId: string, versionId: string)
      requires Valid()
      modifies this
      ensures Valid()
      ensures log == old(log) + CreateProjectWrites(tool, siteDomain, siteId, projectKey, projectName, projectId, versionId)
      ensures forall p :: p != ProjectDoc(projectId) && p != VersionDoc(projectId, versionId) ==>
                (p in docs <==> p in old(docs)) && (p in docs ==> docs[p] == old(docs)[p])
    {
      var ws := CreateProjectWrites(tool, siteDomain, siteId, projectKey, projectName, projectId, versionId);
      Record(ws[0]);
      Record(ws[1]);
      Record(ws[2]);
      assert log == old(log) + ws;
    }

    method GetProjectDetails(projectId: string) returns (r: Option<Doc>)
      ensures r == ProjectDetails(docs, projectId)
    {
      var p := ProjectDoc(projectId);
      if p in docs {
        r := Some(docs[p]);
      } else {
        r := None;
      }
    }

    method GetVersionDetails(projectId: string, versionId: string) returns (r: Option<Doc>)
      ensures r == VersionDetails(docs, projectId, versionId)
    {
      var p := VersionDoc(projectId, versionId);
      if p in docs {
        r := Some(docs[p]);
      } else {
        r := None;
      }
    }

    method GetTestcaseDetails(projectId: string, versionId: string, testcaseId: string) returns (r: Option<Doc>)
      ensures r == TestcaseDetails(docs, projectId, versionId, testcaseId)
    {
      var p := TestcaseDoc(projectId, versionId, testcaseId);
      if p in docs {
        r := Some(docs[p]);
      } else {
        r := None;
      }
    }

    /** Reads every test case of a version, in whatever order the store yields them. */
    method GetTestcases(projectId: string, versionId: string) returns (listing: seq<Doc>, ghost paths: seq<Path>)
      ensures ListedBy(docs, projectId, versionId, paths, listing)
    {
      var remaining := set p | p in docs && InTestcases(p, projectId, versionId);
      listing, paths := [], [];
      while remaining != {}
        invariant forall p :: p in remaining ==> p in docs && InTestcases(p, projectId, versionId)
        invariant forall p :: p in remaining ==> p !in paths
        invariant |paths| == |listing|
        invariant forall i, j :: 0 <= i < j < |paths| ==> paths[i] != paths[j]
        invariant forall k :: 0 <= k < |paths| ==> paths[k] in docs && listing[k] == docs[paths[k]]
        invariant forall p :: p in docs && InTestcases(p, projectId, versionId) <==> p in paths || p in remaining
        decreases |remaining|
      {
        var p :| p in remaining;
        listing, paths := listing + [docs[p]], paths + [p];
        remaining := remaining - {p};
      }
    }

    /** `update` fails when the document does not exist; `ok` reports whether it was written. */
    method UpdateVersion(projectId: string, versionId: string, fields: Doc) returns (ok: bool)
      requires Valid()
      modifies this
      ensures Valid()
      ensures ok == (VersionDoc(projectId, versionId) in old(docs))
      ensures log == old(log) + (if ok then [Update(VersionDoc(projectId, versionId), fields)] else [])
      ensures docs == (if ok then Apply(old(docs), Update(VersionDoc(projectId, versionId), fields)) else old(docs))
      ensures docs.Keys == old(docs).Keys
    {
      ok := UpdateAt(VersionDoc(projectId, versionId), fields);
    }

    method UpdateRequirement(projectId: string, versionId: string, reqId: string, fields: Doc) returns (ok: bool)
      requires Valid()
      modifies this
      ensures Valid()
      ensures ok == (RequirementDoc(projectId, versionId, reqId) in old(docs))
      ensures log == old(log) + (if ok then [Update(RequirementDoc(projectId, versionId, reqId), fields)] else [])
      ensures docs == (if ok then Apply(old(docs), Update(RequirementDoc(projectId, versionId, reqId), fields)) else old(docs))
      ensures docs.Keys == old(docs).Keys
    {
      ok := UpdateAt(RequirementDoc(projectId, versionId, reqId), fields);
    }

    method UpdateTestcase(projectId: string, versionId: string, testcaseId: string, fields: Doc) returns (ok: bool)
      requires Valid()
      modifies this
      ensures Valid()
      ensures ok == (TestcaseDoc(projectId, versionId, testcaseId) in old(docs))
      ensures log == old(log) + (if ok then [Update(TestcaseDoc(projectId, versionId, testcaseId), fields)] else [])
      ensures docs == (if ok then Apply(old(docs), Update(TestcaseDoc(projectId, versionId, testcaseId), fields)) else old(docs))
      ensures docs.Keys == old(docs).Keys
    {
      ok := UpdateAt(TestcaseDoc(projectId, versionId, testcaseId), fields);
    }

    method UpdateAt(p: Path, fields: Doc) returns (ok: bool)
      requires Valid() && !p.SecretIndexDoc?
      modifies this
      ensures Valid()
      ensures ok == (p in old(docs))
      ensures log == old(log) + (if ok then [Update(p, fields)] else [])
      ensures docs == (if ok then Apply(old(docs), Update(p, fields)) else old(docs))
      ensures docs.Keys == old(docs).Keys
    {
      ok := p in docs;
      if ok {
        Record(Update(p, fields));
      }
    }

    /** Records a download job's status; the job document is created when missing. */
    method UpdateDownloadJobStatus(jobId: string, status: JobStatus)
      requires Valid()
      modifies this
      ensures Valid()
      ensures log == old(log) + [Upsert(JobDoc(jobId), JobFields(status))]
      ensures docs == Apply(old(docs), Upsert(JobDoc(jobId), JobFields(status)))
    {
      Record(Upsert(JobDoc(jobId), JobFields(status)));
    }
  }

  // ---- Properties of the store operations ----

  /** A consumed auth state is gone: asking again gives None. */
  lemma AuthStateOneShot(s: Store, tool: string, uid: string)
    ensures AuthState(Apply(s, Delete(AuthStateDoc(tool, uid))), tool, uid) == VNone
  {
  }

  /** Saving a state replaces any earlier one for the same tool and user. */
  lemma SaveAuthStateOverwrites(s: Store, tool: string, uid: string, first: string, second: string)
    ensures var w1 := Set(AuthStateDoc(tool, uid), AuthStateDocument(first));
            var w2 := Set(AuthStateDoc(tool, uid), AuthStateDocument(second));
            AuthState(Replay(s, [w1, w2]), tool, uid) == VStr(second)
  {
    var w1 := Set(AuthStateDoc(tool, uid), AuthStateDocument(first));
    var w2 := Set(AuthStateDoc(tool, uid), AuthStateDocument(second));
    assert [w1, w2][..1] == [w1];
    assert [w1][..0] == [];
  }

  /** After saving a secret path the user is connected and the query finds exactly that record. */
  lemma SecretPathRoundTrip(s: Store, tool: string, uid: string, secretPath: string)
    requires SecretIndexWellFormed(s)
    ensures var s' := Apply(s, Set(SecretIndexDoc(tool, uid), SecretIndexDocument(uid, secretPath)));
            && SecretIndexWellFormed(s')
            && ConnectionStatus(s', tool, uid)
            && SecretRecord(s', tool, uid) == Some(map["uid" := VStr(uid), "secret_path" := VStr(secretPath)])
  {
  }

  /** With no record for the user, the query finds nothing and the user is not connected. */
  lemma NoSecretRecord(s: Store, tool: string, uid: string)
    requires SecretIndexWellFormed(s)
    requires forall p :: p in s && p.SecretIndexDoc? ==> p.tool != tool || p.docId != uid
    ensures SecretRecord(s, tool, uid) == None && !ConnectionStatus(s, tool, uid)
  {
  }

  /**
   * `create_project` links the new documents: the project records its own id and
   * points at the new version as its latest, and the version is CREATED under it.
   */
  lemma {:induction false} CreateProjectLinks(s: Store, tool: string, siteDomain: string, siteId: string,
                                              projectKey: string, projectName: string,
                                              projectId: string, versionId: string)
    ensures var s' := Replay(s, CreateProjectWrites(tool, siteDomain, siteId, projectKey, projectName, projectId, versionId));
            && ProjectDetails(s', projectId).Some?
            && var project := ProjectDetails(s', projectId).value;
            && Get(project, "project_id", VNone) == VStr(projectId)
            && Get(project, "latest_version", VNone) == VStr(versionId)
            && Get(project, "toolProjectKey", VNone) == VStr(projectKey)
            && VersionDetails(s', projectId, versionId).Some?
            && var version := VersionDetails(s', projectId, versionId).value;
            && Get(version, "status", VNone) == VStr("CREATED")
            && Get(version, "project_id", VNone) == VStr(projectId)
            && Get(version, "version", VNone) == VStr(versionId)
  {
    var ws := CreateProjectWrites(tool, siteDomain, siteId, projectKey, projectName, projectId, versionId);
    ReplayThree(s, ws[0], ws[1], ws[2]);
    var project := ProjectDocument(tool, siteDomain, siteId, projectKey, projectName, projectId);
    ProjectDocumentFields(tool, siteDomain, siteId, projectKey, projectName, projectId);
    VersionDocumentFields(versionId, projectName, projectId);
    var s2 := Apply(Apply(s, ws[0]), ws[1]);
    assert s2[ProjectDoc(projectId)] == project;
    assert Replay(s, ws)[ProjectDoc(projectId)] == Merge(project, map["latest_version" := VStr(versionId)]);
  }

  lemma ProjectDocumentFields(tool: string, siteDomain: string, siteId: string, projectKey: string,
                              projectName: string, projectId: string)
    ensures var d := ProjectDocument(tool, siteDomain, siteId, projectKey, projectName, projectId);
            Get(d, "project_id", VNone) == VStr(projectId) && Get(d, "toolProjectKey", VNone) == VStr(projectKey)
  {
  }

  lemma VersionDocumentFields(versionId: string, projectName: string, projectId: string)
    ensures var d := VersionDocument(versionId, projectName, projectId);
            && Get(d, "status", VNone) == VStr("CREATED")
            && Get(d, "project_id", VNone) == VStr(projectId)
            && Get(d, "version", VNone) == VStr(versionId)
  {
  }

  lemma ReplayThree(s: Store, a: Write, b: Write, c: Write)
    ensures Replay(s, [a, b, c]) == Apply(Apply(Apply(s, a), b), c)
  {
    assert [a, b, c][..2] == [a, b];
    assert [a, b][..1] == [a];
    assert [a][..0] == [];
    assert Replay(s, [a]) == Apply(s, a);
    assert Replay(s, [a, b]) == Apply(Replay(s, [a]), b);
    assert Replay(s, [a, b, c]) == Apply(Replay(s, [a, b]), c);
  }

  /** An update changes only the addressed document, and in it only the given fields. */
  lemma UpdateOnlyAddressed(s: Store, p: Path, fields: Doc)
    requires p in s
    ensures var s' := Apply(s, Update(p, fields));
            && s'.Keys == s.Keys
            && (forall q :: q in s && q != p ==> s'[q] == s[q])
            && (forall k :: k in fields ==> s'[p][k] == fields[k])
            && (forall k :: k in s[p] && k !in fields ==> s'[p][k] == s[p][k])
  {
  }

  /** A listing taken after updating some other document is a listing of the store before it. */
  lemma ListedAfterUpdate(s: Store, p: Path, fields: Doc, projectId: string, versionId: string,
                          paths: seq<Path>, listing: seq<Doc>)
    requires p in s && !InTestcases(p, projectId, versionId)
    requires ListedBy(Apply(s, Update(p, fields)), projectId, versionId, paths, listing)
    ensures ListedBy(s, projectId, versionId, paths, listing)
  {
    var s' := Apply(s, Update(p, fields));
    forall k | 0 <= k < |paths|
      ensures paths[k] in s && listing[k] == s[paths[k]]
    {
      assert InTestcases(paths[k], projectId, versionId);
    }
  }

  /** Updating a version leaves its project's details as they were. */
  lemma ProjectDetailsAfterVersionUpdate(s: Store, projectId: string, versionId: string, fields: Doc)
    ensures ProjectDetails(Apply(s, Update(VersionDoc(projectId, versionId), fields)), projectId) == ProjectDetails(s, projectId)
  {
  }

  lemma ProjectDetailsMissing(s: Store, projectId: string)
    requires ProjectDoc(projectId) !in s
    ensures ProjectDetails(s, projectId) == None
  {
  }
}
