/**
 * The Jira client as the orchestrators and the router use it. Its network calls
 * are not modelled: each call is recorded, and its reply is the next answer of
 * a fixed oracle, so every sequence of replies (success, failure, any issue
 * list) is covered by quantifying over oracles.
 */
module JiraClient {
  import opened Values
  import opened Utilities

  /** An issue as a search returns it: its key, its browse URL and its labels. */
  datatype Issue = Issue(key: string, url: string, labels: seq<string>)

  /** `tc_id in issue.get('labels', [])`: labels are strings, so only a string id can match. */
  predicate Labelled(issue: Issue, id: Value) {
    id.VStr? && id.s in issue.labels
  }

  /**
   * The calls made on the client, with the arguments that identify them. Issue
   * creations carry the payloads the mapper built; the body sent for each is
   * its `Utilities.ToJson` rendering.
   */
  datatype Request =
    | BulkCreate(uid: string, siteId: Value, payloads: seq<IssuePayload>)
    | LegacyBulkCreate(uid: string, siteId: Value, projectKey: Value, testcases: seq<Doc>)
    | SingleCreate(uid: string, siteId: Value, payload: IssuePayload)
    | Search(uid: string, domain: Value, siteId: Value, jql: string)
    | SearchByLabel(uid: string, domain: Value, siteId: Value, labelName: string)
    | IssueUpdate(uid: string, siteId: Value, issueKey: Value, fields: Doc)
    | AccessTokens(code: string)
    | RefreshToken(refreshToken: Value)
    | CloudIds(accessToken: Value)
    | Projects(accessToken: Value, sites: seq<Value>)

  /**
   * What a call gives back: whether it returned rather than raised, the issues of
   * a search, the HTTP status of a response object and its JSON body.
   */
  datatype Reply = Reply(ok: bool, issues: seq<Issue>, status: int, body: Value)

  class Client {
    /** The reply to the n-th call made on this client. */
    const replies: nat -> Reply
    /** The URL `get_authorization_url` builds for a state (the query-string encoding is not modelled). */
    const authorizationUrl: string -> string
    var sent: seq<Request>

    constructor (replies: nat -> Reply, authorizationUrl: string -> string)
      ensures this.replies == replies && this.authorizationUrl == authorizationUrl && sent == []
    {
      this.replies := replies;
      this.authorizationUrl := authorizationUrl;
      sent := [];
    }

    /** The reply the next call will receive. */
    function Next(): Reply
      reads this
    {
      replies(|sent|)
    }

    method Call(req: Request) returns (r: Reply)
      modifies this
      ensures sent == old(sent) + [req]
      ensures r == replies(|old(sent)|)
    {
      r := replies(|sent|);
      sent := sent + [req];
    }

    method CreateBulkIssues(uid: string, siteId: Value, payloads: seq<IssuePayload>) returns (ok: bool)
      modifies this
      ensures sent == old(sent) + [BulkCreate(uid, siteId, payloads)]
      ensures ok == replies(|old(sent)|).ok
    {
      var r := Call(BulkCreate(uid, siteId, payloads));
      ok := r.ok;
    }

    /** The older four-argument form that takes the project key and raw test cases. */
    method CreateBulkIssuesLegacy(uid: string, siteId: Value, projectKey: Value, testcases: seq<Doc>) returns (ok: bool)
      modifies this
      ensures sent == old(sent) + [LegacyBulkCreate(uid, siteId, projectKey, testcases)]
      ensures ok == replies(|old(sent)|).ok
    {
      var r := Call(LegacyBulkCreate(uid, siteId, projectKey, testcases));
      ok := r.ok;
    }

    method CreateIssue(uid: string, siteId: Value, payload: IssuePayload) returns (ok: bool)
      modifies this
      ensures sent == old(sent) + [SingleCreate(uid, siteId, payload)]
      ensures ok == replies(|old(sent)|).ok
    {
      var r := Call(SingleCreate(uid, siteId, payload));
      ok := r.ok;
    }

    method SearchIssues(uid: string, domain: Value, siteId: Value, jql: string) returns (ok: bool, issues: seq<Issue>)
      modifies this
      ensures sent == old(sent) + [Search(uid, domain, siteId, jql)]
      ensures ok == replies(|old(sent)|).ok && issues == replies(|old(sent)|).issues
    {
      var r := Call(Search(uid, domain, siteId, jql));
      ok, issues := r.ok, r.issues;
    }

    method SearchIssuesByLabel(uid: string, domain: Value, siteId: Value, labelName: string) returns (ok: bool, issues: seq<Issue>)
      modifies this
      ensures sent == old(sent) + [SearchByLabel(uid, domain, siteId, labelName)]
      ensures ok == replies(|old(sent)|).ok && issues == replies(|old(sent)|).issues
    {
      var r := Call(SearchByLabel(uid, domain, siteId, labelName));
      ok, issues := r.ok, r.issues;
    }

    method UpdateIssue(uid: string, siteId: Value, issueKey: Value, fields: Doc) returns (ok: bool)
      modifies this
      ensures sent == old(sent) + [IssueUpdate(uid, siteId, issueKey, fields)]
      ensures ok == replies(|old(sent)|).ok
    {
      var r := Call(IssueUpdate(uid, siteId, issueKey, fields));
      ok := r.ok;
    }

    method GetAccessTokens(code: string) returns (ok: bool, tokens: Value)
      modifies this
      ensures sent == old(sent) + [AccessTokens(code)]
      ensures ok == replies(|old(sent)|).ok && tokens == replies(|old(sent)|).body
    {
      var r := Call(AccessTokens(code));
      ok, tokens := r.ok, r.body;
    }

    method RefreshAccessToken(refreshToken: Value) returns (ok: bool, tokens: Value)
      modifies this
      ensures sent == old(sent) + [RefreshToken(refreshToken)]
      ensures ok == replies(|old(sent)|).ok && tokens == replies(|old(sent)|).body
    {
      var r := Call(RefreshToken(refreshToken));
      ok, tokens := r.ok, r.body;
    }

    /** The accessible-resources response: its status code and JSON body. */
    method GetCloudIds(accessToken: Value) returns (ok: bool, status: int, body: Value)
      modifies this
      ensures sent == old(sent) + [CloudIds(accessToken)]
      ensures var r := replies(|old(sent)|); ok == r.ok && status == r.status && body == r.body
    {
      var r := Call(CloudIds(accessToken));
      ok, status, body := r.ok, r.status, r.body;
    }

    method GetProjects(accessToken: Value, sites: seq<Value>) returns (ok: bool, projects: Value)
      modifies this
      ensures sent == old(sent) + [Projects(accessToken, sites)]
      ensures ok == replies(|old(sent)|).ok && projects == replies(|old(sent)|).body
    {
      var r := Call(Projects(accessToken, sites));
      ok, projects := r.ok, r.body;
    }
  }
}
