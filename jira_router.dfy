/**
 * The Jira OAuth endpoints of tools/jira/router.py: `jira_connect` saves a
 * one-shot `state` for the user and hands out the authorization URL,
 * `jira_auth_callback` checks the state, exchanges the code for tokens and
 * stores them as a secret named after the user, and `get_jira_projects` reads
 * the tokens back, refreshes them once when Jira answers 401, and lists the
 * projects of the user's sites.
 *
 * Each endpoint is a method over the store, the Jira client and the secret
 * manager, proved against a function giving its response and its effects.
 */
module JiraRouter {
  import opened Wrappers
  import opened Values
  import opened Firestore
  import opened Text
  import opened Secrets
  import JiraClient
  import Seqs

  const Tool: string := "jira"
  const StatePrefix: string := "user_uid_"
  const TokenSecretPrefix: string := "jira-tokens-"

  /** What an endpoint answers: a JSON body, a redirect, or an HTTP error status. */
  datatype Response =
    | Json(body: Value)
    | Redirect(url: string)
    | HttpError(status: int)

  /** `f'user_uid_{uid}'` */
  function StateFor(uid: string): string {
    StatePrefix + uid
  }

  /** `state.split('_')[-1]`: never raises, since a split has at least one piece. */
  function UidOf(state: string): string {
    LastSegment(state, '_')
  }

  /** `f'jira-tokens-{uid}'` */
  function TokenSecretName(uid: string): string {
    TokenSecretPrefix + uid
  }

  /**
   * The response of a call and what it did: the store writes, the Jira calls,
   * and the `(name, payload)` of each `store_secret`, in order.
   */
  datatype Run = Run(response: Response, writes: seq<Write>, requests: seq<JiraClient.Request>, stores: seq<(string, Value)>)

  /** The secrets after the stores of a run, made in `project`. */
  function ApplyStores(secrets: map<string, seq<Value>>, project: string, stores: seq<(string, Value)>): map<string, seq<Value>>
    decreases |stores|
  {
    if stores == [] then secrets
    else ApplyStores(AddVersion(secrets, SecretPath(project, stores[0].0), stores[0].1), project, stores[1..])
  }

  /** A truthy query parameter or user id: present and not empty. */
  predicate Given(v: Option<string>) {
    v.Some? && v.value != ""
  }

  // ---- jira_connect ----

  /**
   * `jira_connect` for the user id `uid` (None when the token has none): the
   * 400 raised for a missing id is caught by the handler's own `except` and
   * answered as 500.
   */
  function ConnectRun(uid: Option<string>, authorizationUrl: string -> string): Run {
    if !Given(uid) then Run(HttpError(500), [], [], [])
    else
      var state := StateFor(uid.value);
      Run(Json(VDict([("redirect_url", VStr(authorizationUrl(state)))])),
          [Set(AuthStateDoc(Tool, uid.value), AuthStateDocument(state))], [], [])
  }

  method JiraConnect(db: FirestoreDB, jira: JiraClient.Client, uid: Option<string>) returns (response: Response)
    requires db.Valid()
    modifies db
    ensures db.Valid()
    ensures response == ConnectRun(uid, jira.authorizationUrl).response
    ensures db.log == old(db.log) + ConnectRun(uid, jira.authorizationUrl).writes
  {
    if uid.None? || uid.value == "" {
      return HttpError(500);
    }
    var state := StateFor(uid.value);
    var authUrl := jira.authorizationUrl(state);
    db.SaveAuthState(Tool, uid.value, state);
    return Json(VDict([("redirect_url", VStr(authUrl))]));
  }

  // ---- jira_auth_callback ----

  /**
   * `jira_auth_callback` on store `s` with Jira replies from `n` on, for the
   * query parameters `code` and `state`. Reading the saved state deletes it.
   */
  function CallbackRun(s: Store, project: string, replies: nat -> JiraClient.Reply, n: nat, frontend: string,
                       code: Option<string>, state: Option<string>): Run
  {
    if !Given(code) || !Given(state) then Run(HttpError(400), [], [], [])
    else
      var uid := UidOf(state.value);
      var consumed := if AuthStateDoc(Tool, uid) in s then [Delete(AuthStateDoc(Tool, uid))] else [];
      if VStr(state.value) != AuthState(s, Tool, uid) then Run(HttpError(401), consumed, [], [])
      else
        var tokens := replies(n);
        var exchange := [JiraClient.AccessTokens(code.value)];
        if !tokens.ok then Run(HttpError(500), consumed, exchange, [])
        else
          var name := TokenSecretName(uid);
          Run(Redirect(frontend),
              consumed + [Set(SecretIndexDoc(Tool, uid), SecretIndexDocument(uid, SecretPath(project, name)))],
              exchange, [(name, tokens.body)])
  }

  method JiraAuthCallback(db: FirestoreDB, jira: JiraClient.Client, sm: SecretManager, frontend: string,
                          code: Option<string>, state: Option<string>) returns (response: Response)
    requires db.Valid()
    modifies db, jira, sm
    ensures db.Valid()
    ensures var r := CallbackRun(old(db.docs), sm.project, jira.replies, |old(jira.sent)|, frontend, code, state);
            && response == r.response
            && db.log == old(db.log) + r.writes
            && jira.sent == old(jira.sent) + r.requests
            && sm.secrets == ApplyStores(old(sm.secrets), sm.project, r.stores)
  {
    if code.None? || code.value == "" || state.None? || state.value == "" {
      return HttpError(400);
    }
    var uid := UidOf(state.value);
    var expected := db.GetAuthState(Tool, uid);
    if VStr(state.value) != expected {
      return HttpError(401);
    }
    var ok, tokens := jira.GetAccessTokens(code.value);
    if !ok {
      return HttpError(500);
    }
    var name := TokenSecretName(uid);
    var secretPath := sm.StoreSecret(name, tokens);
    db.SaveSecretPath(Tool, uid, secretPath);
    return Redirect(frontend);
  }

  // ---- get_jira_projects ----

  /** `tokens['access_token']` and `tokens['refresh_token']` of the latest version at `path`; None when either raises. */
  function ReadTokens(secrets: map<string, seq<Value>>, path: string): Option<(Value, Value)> {
    var latest := LatestVersion(secrets, path);
    if latest.None? then None
    else
      var access := DictLookup(latest.value, "access_token");
      var refresh := DictLookup(latest.value, "refresh_token");
      if access.None? || refresh.None? then None else Some((access.value, refresh.value))
  }

  /** `{'id': r['id'], 'name': r['name'], 'url': r['url']}` for each resource; None when a lookup raises. */
  function SitesOf(items: seq<Value>): Option<seq<Value>>
    decreases |items|
  {
    if items == [] then Some([])
    else
      var id := DictLookup(items[0], "id");
      var name := DictLookup(items[0], "name");
      var url := DictLookup(items[0], "url");
      var rest := SitesOf(items[1..]);
      if id.None? || name.None? || url.None? || rest.None? then None
      else Some([VDict([("id", id.value), ("name", name.value), ("url", url.value)])] + rest.value)
  }

  /**
   * The second half of `get_jira_projects`, from reading the tokens again: the
   * accessible resources, then the projects of those sites.
   */
  function ListRun(secrets: map<string, seq<Value>>, path: string, replies: nat -> JiraClient.Reply, n: nat,
                   requests: seq<JiraClient.Request>, stores: seq<(string, Value)>): Run
  {
    var tokens := ReadTokens(secrets, path);
    if tokens.None? then Run(HttpError(500), [], requests, stores)
    else
      var cloud := replies(n);
      var withCloud := requests + [JiraClient.CloudIds(tokens.value.0)];
      var resources := Iterate(cloud.body);
      if !cloud.ok || resources.None? || SitesOf(resources.value).None? then Run(HttpError(500), [], withCloud, stores)
      else
        var sites := SitesOf(resources.value).value;
        var projects := replies(n + 1);
        var all := withCloud + [JiraClient.Projects(tokens.value.0, sites)];
        Run(if projects.ok then Json(projects.body) else HttpError(500), [], all, stores)
  }

  /**
   * `get_jira_projects` on store `s` and secrets `secrets` with Jira replies
   * from `n` on. The 404 for a user without a secret record is raised inside
   * the handler's `try` and answered as 500; a 401 from the first resource
   * lookup refreshes the tokens once, re-storing them under the last segment of
   * the recorded secret path.
   */
  function ProjectsRun(s: Store, secrets: map<string, seq<Value>>, project: string,
                       replies: nat -> JiraClient.Reply, n: nat, uid: Option<string>): Run
    requires SecretIndexWellFormed(s)
  {
    if !Given(uid) then Run(HttpError(400), [], [], [])
    else
      var record := SecretRecord(s, Tool, uid.value);
      if record.None? then Run(HttpError(500), [], [], [])
      else
        var path := PyStr(Get(record.value, "secret_path", VNone));
        var tokens := ReadTokens(secrets, path);
        if tokens.None? then Run(HttpError(500), [], [], [])
        else TokensRun(secrets, project, path, tokens.value, replies, n)
  }

  /**
   * `get_jira_projects` once the tokens are read: the first resource lookup,
   * the refresh when it answers 401, then `ListRun`.
   */
  function TokensRun(secrets: map<string, seq<Value>>, project: string, path: string, tokens: (Value, Value),
                     replies: nat -> JiraClient.Reply, n: nat): Run
  {
    var first := replies(n);
    var lookup := [JiraClient.CloudIds(tokens.0)];
    if !first.ok then Run(HttpError(500), [], lookup, [])
    else if first.status != 401 then ListRun(secrets, path, replies, n + 1, lookup, [])
    else
      var refreshed := replies(n + 1);
      var withRefresh := lookup + [JiraClient.RefreshToken(tokens.1)];
      if !refreshed.ok then Run(HttpError(500), [], withRefresh, [])
      else
        var name := NameOf(path);
        ListRun(AddVersion(secrets, SecretPath(project, name), refreshed.body), path, replies, n + 2,
                withRefresh, [(name, refreshed.body)])
  }

  /** Reads the tokens at `path` as `get_jira_projects` does. */
  method GetTokens(sm: SecretManager, path: string) returns (tokens: Option<(Value, Value)>)
    ensures tokens == ReadTokens(sm.secrets, path)
  {
    var latest := sm.GetSecret(path);
    if latest.None? {
      return None;
    }
    var access := DictLookup(latest.value, "access_token");
    var refresh := DictLookup(latest.value, "refresh_token");
    if access.None? || refresh.None? {
      return None;
    }
    return Some((access.value, refresh.value));
  }

  /** The comprehension over the accessible resources, as a loop. */
  method CollectSites(items: seq<Value>) returns (sites: Option<seq<Value>>)
    ensures sites == SitesOf(items)
  {
    var collected: seq<Value> := [];
    var i := 0;
    assert items[i..] == items;
    if SitesOf(items).Some? {
      assert collected + SitesOf(items).value == SitesOf(items).value;
    }
    while i < |items|
      invariant 0 <= i <= |items|
      invariant SitesOf(items) == (if SitesOf(items[i..]).None? then None else Some(collected + SitesOf(items[i..]).value))
    {
      assert items[i..][0] == items[i] && items[i..][1..] == items[i + 1..];
      var id := DictLookup(items[i], "id");
      var name := DictLookup(items[i], "name");
      var url := DictLookup(items[i], "url");
      if id.None? || name.None? || url.None? {
        return None;
      }
      var site := VDict([("id", id.value), ("name", name.value), ("url", url.value)]);
      if SitesOf(items[i + 1..]).Some? {
        assert collected + ([site] + SitesOf(items[i + 1..]).value) == collected + [site] + SitesOf(items[i + 1..]).value;
      }
      collected := collected + [site];
      i := i + 1;
    }
    assert items[i..] == [];
    assert collected + [] == collected;
    return Some(collected);
  }

  /** The second half of `get_jira_projects`. */
  method ListProjects(jira: JiraClient.Client, sm: SecretManager, path: string, ghost base: seq<JiraClient.Request>,
                      ghost requests: seq<JiraClient.Request>, ghost stores: seq<(string, Value)>) returns (response: Response)
    requires jira.sent == base + requests
    modifies jira
    ensures var r := ListRun(sm.secrets, path, jira.replies, |old(jira.sent)|, requests, stores);
            && response == r.response
            && jira.sent == base + r.requests
            && r.stores == stores
  {
    var tokens := GetTokens(sm, path);
    if tokens.None? {
      return HttpError(500);
    }
    var ok, status, body := jira.GetCloudIds(tokens.value.0);
    Seqs.Regroup3(base, requests, [JiraClient.CloudIds(tokens.value.0)]);
    var resources := Iterate(body);
    if !ok || resources.None? {
      return HttpError(500);
    }
    var sites := CollectSites(resources.value);
    if sites.None? {
      return HttpError(500);
    }
    var listed, projects := jira.GetProjects(tokens.value.0, sites.value);
    Seqs.Regroup3(base, requests + [JiraClient.CloudIds(tokens.value.0)], [JiraClient.Projects(tokens.value.0, sites.value)]);
    if !listed {
      return HttpError(500);
    }
    return Json(projects);
  }

  method JiraProjects(db: FirestoreDB, jira: JiraClient.Client, sm: SecretManager, uid: Option<string>) returns (response: Response)
    requires db.Valid()
    modifies jira, sm
    ensures var r := ProjectsRun(db.docs, old(sm.secrets), sm.project, jira.replies, |old(jira.sent)|, uid);
            && response == r.response
            && jira.sent == old(jira.sent) + r.requests
            && sm.secrets == ApplyStores(old(sm.secrets), sm.project, r.stores)
  {
    if uid.None? || uid.value == "" {
      return HttpError(400);
    }
    var record := db.GetSecretPath(Tool, uid.value);
    if record.None? {
      // the 404 is raised inside the `try` and re-raised as 500
      return HttpError(500);
    }
    var path := PyStr(Get(record.value, "secret_path", VNone));
    var tokens := GetTokens(sm, path);
    if tokens.None? {
      return HttpError(500);
    }
    response := LookupWithRefresh(jira, sm, path, tokens.value);
  }

  /** The resource lookup, the refresh on 401, and the listing. */
  method LookupWithRefresh(jira: JiraClient.Client, sm: SecretManager, path: string, tokens: (Value, Value))
    returns (response: Response)
    modifies jira, sm
    ensures var r := TokensRun(old(sm.secrets), sm.project, path, tokens, jira.replies, |old(jira.sent)|);
            && response == r.response
            && jira.sent == old(jira.sent) + r.requests
            && sm.secrets == ApplyStores(old(sm.secrets), sm.project, r.stores)
  {
    ghost var base := jira.sent;
    var ok, status, body := jira.GetCloudIds(tokens.0);
    if !ok {
      return HttpError(500);
    }
    ghost var requests := [JiraClient.CloudIds(tokens.0)];
    ghost var stores: seq<(string, Value)> := [];
    if status == 401 {
      var refreshed, newTokens := jira.RefreshAccessToken(tokens.1);
      if !refreshed {
        return HttpError(500);
      }
      requests := requests + [JiraClient.RefreshToken(tokens.1)];
      var name := NameOf(path);
      var _ := sm.StoreSecret(name, newTokens);
      stores := [(name, newTokens)];
    }
    response := ListProjects(jira, sm, path, base, requests, stores);
  }
}
