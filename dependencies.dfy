/**
 * The request guard `check_if_latest_project_version`: actions on a project
 * are allowed only on its latest version.
 */
module Dependencies {
  import opened Wrappers
  import opened Values
  import opened Firestore

  /** The guard's outcome: it returns True, or raises an HTTP error with a status and a detail. */
  datatype Verdict = Latest | Rejected(status: int, detail: string)

  const NotLatestDetail: string := "Actions allowed only to the latest version."
  /** The detail FastAPI gives an `HTTPException` raised with a status code alone. */
  const InternalErrorDetail: string := "Internal Server Error"

  function ProjectNotFoundDetail(projectId: string): string {
    "Project with ID '" + projectId + "' not found."
  }

  /**
   * The guard over the store `s`. `raised` stands for the store read raising
   * something other than an HTTP error, which the guard turns into a 500; the
   * 404 and 403 it raises itself pass through its `except HTTPException`
   * unchanged. A project document with no fields is falsy, so it counts as
   * missing.
   */
  function CheckLatestProjectVersion(s: Store, projectId: string, version: string, raised: bool): (r: Verdict)
    ensures r.Rejected? ==> r.status == 404 || r.status == 403 || r.status == 500
  {
    if raised then Rejected(500, InternalErrorDetail)
    else
      var details := ProjectDetails(s, projectId);
      if details.None? || details.value == map[] then Rejected(404, ProjectNotFoundDetail(projectId))
      else if VStr(version) != Get(details.value, "latest_version", VNone) then Rejected(403, NotLatestDetail)
      else Latest
  }

  /** The version recorded as the project's latest, when its document is present and not empty. */
  function LatestVersionOf(s: Store, projectId: string): Option<Value> {
    var details := ProjectDetails(s, projectId);
    if details.None? || details.value == map[] then None
    else Some(Get(details.value, "latest_version", VNone))
  }

  /**
   * Each outcome, stated by what it means: allowed exactly when the project's
   * recorded latest version is the requested one, 404 exactly when there is no
   * project, 403 exactly when another (or no) version is recorded as latest,
   * and 500 exactly when the read itself failed.
   */
  lemma VerdictMeaning(s: Store, projectId: string, version: string, raised: bool)
    ensures var r := CheckLatestProjectVersion(s, projectId, version, raised);
            && (r == Latest <==> !raised && LatestVersionOf(s, projectId) == Some(VStr(version)))
            && (r == Rejected(404, ProjectNotFoundDetail(projectId)) <==> !raised && LatestVersionOf(s, projectId).None?)
            && (r == Rejected(403, NotLatestDetail) <==>
                  !raised && LatestVersionOf(s, projectId).Some? && LatestVersionOf(s, projectId) != Some(VStr(version)))
            && (r == Rejected(500, InternalErrorDetail) <==> raised)
  {
    var r := CheckLatestProjectVersion(s, projectId, version, raised);
    assert ProjectNotFoundDetail(projectId) != NotLatestDetail by {
      assert ProjectNotFoundDetail(projectId)[0] == 'P';
    }
    assert ProjectNotFoundDetail(projectId) != InternalErrorDetail by {
      assert ProjectNotFoundDetail(projectId)[0] == 'P';
    }
  }

  /**
   * Right after `create_project`, the version it created is the only one the
   * guard lets through; every other version of that project is refused with 403.
   */
  lemma CreatedVersionIsLatest(s: Store, tool: string, siteDomain: string, siteId: string, projectKey: string,
                               projectName: string, projectId: string, versionId: string, version: string)
    ensures var s1 := Replay(s, CreateProjectWrites(tool, siteDomain, siteId, projectKey, projectName, projectId, versionId));
            CheckLatestProjectVersion(s1, projectId, version, false)
            == if version == versionId then Latest else Rejected(403, NotLatestDetail)
  {
    var w := CreateProjectWrites(tool, siteDomain, siteId, projectKey, projectName, projectId, versionId);
    var p := ProjectDoc(projectId);
    var doc := ProjectDocument(tool, siteDomain, siteId, projectKey, projectName, projectId);
    assert w[..0] == [] && w[..1][..0] == [] && w[..2][..1] == w[..1];
    var s2 := Replay(s, w[..2]);
    assert s2[p] == doc by {
      assert Replay(s, w[..1]) == s[p := doc];
      assert VersionDoc(projectId, versionId) != p;
    }
    var merged := Merge(doc, map["latest_version" := VStr(versionId)]);
    assert Replay(s, w) == s2[p := merged];
    assert "latest_version" in merged && merged["latest_version"] == VStr(versionId);
    assert ProjectDetails(Replay(s, w), projectId) == Some(merged);
    assert merged != map[];
  }
}
