/**
 * What the Jira OAuth endpoints promise: the `state` round trip, the one-shot
 * use of a saved state, that no token is exchanged or stored without a valid
 * state, that a missing connection answers 500, that the tokens are refreshed
 * at most once and re-stored under the secret they were read from, and the
 * shape of the site list.
 */
module RouterProperties {
  import opened Wrappers
  import opened Values
  import opened Firestore
  import opened Text
  import opened Secrets
  import JiraClient
  import opened JiraRouter

  // ---- The string protocols ----

  /** The user id is recovered from the state exactly when it holds no '_'. */
  lemma StateRoundTrip(uid: string)
    ensures UidOf(StateFor(uid)) == uid <==> '_' !in uid
  {
    assert StateFor(uid) == "user_uid" + ['_'] + uid;
    LastSegmentAfter("user_uid", uid, '_');
    if '_' in uid {
      LastSegmentShorter(uid, '_');
    } else {
      SplitWithoutSep(uid, '_');
    }
  }

  /** The token secret's name is recovered from its path exactly when the user id holds no '/'. */
  lemma TokenSecretRoundTrip(project: string, uid: string)
    ensures NameOf(SecretPath(project, TokenSecretName(uid))) == TokenSecretName(uid) <==> '/' !in uid
  {
    NameOfSecretPath(project, TokenSecretName(uid));
    assert '/' in TokenSecretName(uid) <==> '/' in uid by {
      assert TokenSecretName(uid) == TokenSecretPrefix + uid;
      if '/' in uid {
        var k :| 0 <= k < |uid| && uid[k] == '/';
        assert TokenSecretName(uid)[|TokenSecretPrefix| + k] == '/';
      }
      if '/' in TokenSecretName(uid) {
        var k :| 0 <= k < |TokenSecretName(uid)| && TokenSecretName(uid)[k] == '/';
        assert k >= |TokenSecretPrefix|;
        assert uid[k - |TokenSecretPrefix|] == '/';
      }
    }
  }

  // ---- jira_connect ----

  /** Connecting saves `user_uid_{uid}` as the user's state, and answers 500 without writing when there is no user id. */
  lemma ConnectSavesState(s: Store, uid: Option<string>, authorizationUrl: string -> string)
    ensures var r := ConnectRun(uid, authorizationUrl);
            && (!Given(uid) ==> r.response == HttpError(500) && r.writes == [])
            && (Given(uid) ==>
                  && r.response == Json(VDict([("redirect_url", VStr(authorizationUrl(StateFor(uid.value))))]))
                  && AuthState(Replay(s, r.writes), Tool, uid.value) == VStr(StateFor(uid.value)))
  {
    var r := ConnectRun(uid, authorizationUrl);
    if Given(uid) {
      assert r.writes[..0] == [];
    }
  }

  // ---- jira_auth_callback ----

  /**
   * The callback answers 400 exactly when the code or the state is missing,
   * touching nothing, and 401 exactly when the state is not the one saved for
   * the user it names; tokens are exchanged only for a valid state and stored
   * only under `jira-tokens-{uid}` after a successful exchange.
   */
  lemma CallbackGuards(s: Store, project: string, replies: nat -> JiraClient.Reply, n: nat, frontend: string,
                       code: Option<string>, state: Option<string>)
    ensures var r := CallbackRun(s, project, replies, n, frontend, code, state);
            && (r.response == HttpError(400) <==> !Given(code) || !Given(state))
            && (r.response == HttpError(400) ==> r.writes == [] && r.requests == [] && r.stores == [])
            && (r.response == HttpError(401) <==>
                  Given(code) && Given(state) && AuthState(s, Tool, UidOf(state.value)) != VStr(state.value))
            && (r.requests != [] ==>
                  && Given(code) && Given(state)
                  && AuthState(s, Tool, UidOf(state.value)) == VStr(state.value)
                  && r.requests == [JiraClient.AccessTokens(code.value)])
            && (r.stores != [] ==>
                  && r.response == Redirect(frontend) && replies(n).ok
                  && r.stores == [(TokenSecretName(UidOf(state.value)), replies(n).body)])
  {
  }

  /** A callback that got past the parameter check leaves no saved state for the user its state names. */
  lemma CallbackConsumesState(s: Store, project: string, replies: nat -> JiraClient.Reply, n: nat, frontend: string,
                              code: Option<string>, state: Option<string>)
    requires Given(code) && Given(state)
    ensures AuthState(Replay(s, CallbackRun(s, project, replies, n, frontend, code, state).writes), Tool, UidOf(state.value)) == VNone
  {
    var r := CallbackRun(s, project, replies, n, frontend, code, state);
    var uid := UidOf(state.value);
    var p := AuthStateDoc(Tool, uid);
    var consumed := if p in s then [Delete(p)] else [];
    assert Replay(s, consumed) == s - {p} by {
      if p in s {
        assert consumed[..0] == [];
      }
    }
    if r.writes != consumed {
      var w := Set(SecretIndexDoc(Tool, uid), SecretIndexDocument(uid, SecretPath(project, TokenSecretName(uid))));
      assert r.writes == consumed + [w];
      assert r.writes[..|r.writes| - 1] == consumed;
    }
  }

  /**
   * A saved state is good for one callback: once a callback has read it, a
   * second callback with the same state answers 401 and exchanges nothing.
   */
  lemma StateSingleUse(s: Store, project: string, replies: nat -> JiraClient.Reply, n: nat, frontend: string,
                       code: Option<string>, state: Option<string>, code2: Option<string>, m: nat)
    requires Given(code) && Given(state) && Given(code2)
    ensures var s1 := Replay(s, CallbackRun(s, project, replies, n, frontend, code, state).writes);
            var r2 := CallbackRun(s1, project, replies, m, frontend, code2, state);
            r2.response == HttpError(401) && r2.requests == [] && r2.stores == []
  {
    CallbackConsumesState(s, project, replies, n, frontend, code, state);
  }

  /**
   * Connecting and then coming back with the state handed out exchanges the
   * code once and, when the exchange succeeds, stores the tokens as
   * `jira-tokens-{uid}` and records that secret's path for the user.
   */
  lemma ConnectThenCallback(s: Store, uid: string, authorizationUrl: string -> string, project: string,
                            replies: nat -> JiraClient.Reply, n: nat, frontend: string, code: Option<string>)
    requires uid != "" && '_' !in uid && Given(code)
    ensures var s1 := Replay(s, ConnectRun(Some(uid), authorizationUrl).writes);
            var r := CallbackRun(s1, project, replies, n, frontend, code, Some(StateFor(uid)));
            && r.requests == [JiraClient.AccessTokens(code.value)]
            && (replies(n).ok ==>
                  && r.response == Redirect(frontend)
                  && r.stores == [(TokenSecretName(uid), replies(n).body)]
                  && r.writes == [Delete(AuthStateDoc(Tool, uid)),
                                  Set(SecretIndexDoc(Tool, uid), SecretIndexDocument(uid, SecretPath(project, TokenSecretName(uid))))])
            && (!replies(n).ok ==> r.response == HttpError(500) && r.stores == [])
  {
    ConnectSavesState(s, Some(uid), authorizationUrl);
    StateRoundTrip(uid);
    assert StateFor(uid) != "" by {
      assert |StateFor(uid)| == |StatePrefix| + |uid|;
    }
  }

  // ---- get_jira_projects ----

  lemma {:induction false} SitesOfShape(items: seq<Value>)
    ensures SitesOf(items).Some? <==>
              forall k :: 0 <= k < |items| ==>
                DictLookup(items[k], "id").Some? && DictLookup(items[k], "name").Some? && DictLookup(items[k], "url").Some?
    ensures SitesOf(items).Some? ==>
              && |SitesOf(items).value| == |items|
              && forall k :: 0 <= k < |items| ==>
                   SitesOf(items).value[k]
                   == VDict([("id", DictLookup(items[k], "id").value), ("name", DictLookup(items[k], "name").value),
                             ("url", DictLookup(items[k], "url").value)])
    decreases |items|
  {
    if items != [] {
      SitesOfShape(items[1..]);
      assert forall k :: 1 <= k < |items| ==> items[k] == items[1..][k - 1];
    }
  }

  /** The listing part answers a JSON body or 500, never writes, and stores nothing of its own. */
  lemma ListRunShape(secrets: map<string, seq<Value>>, path: string, replies: nat -> JiraClient.Reply, n: nat,
                     requests: seq<JiraClient.Request>, stores: seq<(string, Value)>)
    ensures var r := ListRun(secrets, path, replies, n, requests, stores);
            && (r.response.Json? || r.response == HttpError(500))
            && r.writes == [] && r.stores == stores
            && r.requests[..|requests|] == requests
            && (forall k :: |requests| <= k < |r.requests| ==> !r.requests[k].RefreshToken?)
  {
  }

  /**
   * The project listing answers 400 exactly when there is no user id, and 500
   * without calling Jira when the user has no secret record (the 404 raised for
   * it is caught by the handler's own `except`). It never writes to the store,
   * refreshes at most once, only after the first lookup answered 401, and then
   * re-stores the new tokens under the last segment of the recorded path.
   */
  lemma ProjectsGuards(s: Store, secrets: map<string, seq<Value>>, project: string,
                       replies: nat -> JiraClient.Reply, n: nat, uid: Option<string>)
    requires SecretIndexWellFormed(s)
    ensures var r := ProjectsRun(s, secrets, project, replies, n, uid);
            && (r.response == HttpError(400) <==> !Given(uid))
            && (Given(uid) && !ConnectionStatus(s, Tool, uid.value) ==> r == Run(HttpError(500), [], [], []))
            && r.writes == []
            && (forall k :: 0 <= k < |r.requests| && r.requests[k].RefreshToken? ==>
                  k == 1 && replies(n).ok && replies(n).status == 401)
            && (r.stores != [] ==>
                  && Given(uid) && replies(n).status == 401 && replies(n + 1).ok
                  && r.stores == [(NameOf(PyStr(Get(SecretRecord(s, Tool, uid.value).value, "secret_path", VNone))),
                                   replies(n + 1).body)])
  {
    if Given(uid) {
      var record := SecretRecord(s, Tool, uid.value);
      if record.Some? {
        var path := PyStr(Get(record.value, "secret_path", VNone));
        var tokens := ReadTokens(secrets, path);
        if tokens.Some? && replies(n).ok {
          var lookup := [JiraClient.CloudIds(tokens.value.0)];
          if replies(n).status != 401 {
            ListRunShape(secrets, path, replies, n + 1, lookup, []);
          } else if replies(n + 1).ok {
            var withRefresh := lookup + [JiraClient.RefreshToken(tokens.value.1)];
            var name := NameOf(path);
            ListRunShape(AddVersion(secrets, SecretPath(project, name), replies(n + 1).body), path, replies, n + 2,
                         withRefresh, [(name, replies(n + 1).body)]);
          }
        }
      }
    }
  }

  /**
   * For a user connected through the callback, whose id holds no '/', a
   * refresh re-stores the new tokens as the very secret they were read from,
   * so the second lookup uses the refreshed access token.
   */
  lemma RefreshedTokensUsed(s: Store, secrets: map<string, seq<Value>>, project: string,
                            replies: nat -> JiraClient.Reply, n: nat, uid: string, access: Value)
    requires SecretIndexWellFormed(s) && uid != "" && '/' !in uid
    requires SecretRecord(s, Tool, uid) == Some(SecretIndexDocument(uid, SecretPath(project, TokenSecretName(uid))))
    requires ReadTokens(secrets, SecretPath(project, TokenSecretName(uid))).Some?
    requires replies(n).ok && replies(n).status == 401 && replies(n + 1).ok
    requires DictLookup(replies(n + 1).body, "access_token") == Some(access)
    requires DictLookup(replies(n + 1).body, "refresh_token").Some?
    ensures var r := ProjectsRun(s, secrets, project, replies, n, Some(uid));
            |r.requests| >= 3 && r.requests[2] == JiraClient.CloudIds(access)
  {
    var path := SecretPath(project, TokenSecretName(uid));
    TokenSecretRoundTrip(project, uid);
    assert PyStr(Get(SecretIndexDocument(uid, path), "secret_path", VNone)) == path;
    var refreshed := AddVersion(secrets, SecretPath(project, NameOf(path)), replies(n + 1).body);
    assert ReadTokens(refreshed, path) == Some((access, DictLookup(replies(n + 1).body, "refresh_token").value));
  }
}
