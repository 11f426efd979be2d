/**
 * What `create_on_jira` promises, proved about its trace function: the
 * SUCCESS/FAILED outcome of each test case, one update per test case with an
 * id, the batches of 40 over every listed test case, and the status phases.
 */
module LegacyProperties {
  import opened Wrappers
  import opened Values
  import opened Firestore
  import opened JiraClient
  import opened Batching
  import opened Effects
  import AlmSync
  import opened LegacySync

  /**
   * A test case is marked SUCCESS exactly when some issue carries its id as a
   * label, and then with the link of the first such issue; otherwise it is
   * marked FAILED and nothing else is written.
   */
  lemma MatchFieldsOutcome(id: Value, issues: seq<Issue>)
    ensures ResultField in MatchFields(id, issues)
    ensures MatchFields(id, issues)[ResultField] == VStr("SUCCESS")
            <==> exists k :: 0 <= k < |issues| && Labelled(issues[k], id)
    ensures MatchFields(id, issues)[ResultField] == VStr("SUCCESS") ==>
              exists k :: 0 <= k < |issues| && Labelled(issues[k], id) && (forall j :: 0 <= j < k ==> !Labelled(issues[j], id))
                          && MatchFields(id, issues) == map[LinkField := VStr(issues[k].url), ResultField := VStr("SUCCESS")]
    ensures MatchFields(id, issues)[ResultField] != VStr("SUCCESS") ==> MatchFields(id, issues) == map[ResultField := VStr("FAILED")]
  {
    AlmSync.FirstMatchIsFirst(id, issues);
    var k := AlmSync.FirstMatch(id, issues);
    if k < |issues| {
      assert MatchFields(id, issues)[ResultField] == VStr("SUCCESS");
    } else {
      assert MatchFields(id, issues)[ResultField] == VStr("FAILED");
    }
  }

  /** `ws` are the updates of the first `|ws|` ids, in order, each onto the test case of that id. */
  predicate UpdatesFor(ws: seq<Write>, ids: seq<Value>, projectId: string, versionId: string, issues: seq<Issue>) {
    && |ws| <= |ids|
    && forall k :: 0 <= k < |ws| ==>
         ids[k].VStr? && ws[k] == Update(TestcaseDoc(projectId, versionId, ids[k].s), MatchFields(ids[k], issues))
  }

  /** Every id names an existing test case. */
  predicate AllTargeted(keys: set<Path>, projectId: string, versionId: string, ids: seq<Value>) {
    forall k :: 0 <= k < |ids| ==> AlmSync.TestcaseTarget(keys, projectId, versionId, ids[k]).Some?
  }

  lemma UpdatesForCons(w: Write, ws: seq<Write>, id: Value, ids: seq<Value>, projectId: string, versionId: string, issues: seq<Issue>)
    requires id.VStr? && w == Update(TestcaseDoc(projectId, versionId, id.s), MatchFields(id, issues))
    requires UpdatesFor(ws, ids, projectId, versionId, issues)
    ensures UpdatesFor([w] + ws, [id] + ids, projectId, versionId, issues)
  {
    assert forall k :: 1 <= k < |[w] + ws| ==> ([w] + ws)[k] == ws[k - 1] && ([id] + ids)[k] == ids[k - 1];
  }

  lemma AllTargetedCons(keys: set<Path>, projectId: string, versionId: string, id: Value, ids: seq<Value>)
    ensures AllTargeted(keys, projectId, versionId, [id] + ids)
            <==> AlmSync.TestcaseTarget(keys, projectId, versionId, id).Some? && AllTargeted(keys, projectId, versionId, ids)
  {
    assert forall k :: 1 <= k < |[id] + ids| ==> ([id] + ids)[k] == ids[k - 1];
    assert ([id] + ids)[0] == id;
    if AllTargeted(keys, projectId, versionId, [id] + ids) {
      forall k | 0 <= k < |ids|
        ensures AlmSync.TestcaseTarget(keys, projectId, versionId, ids[k]).Some?
      {
        assert ids[k] == ([id] + ids)[k + 1];
      }
    }
    if AlmSync.TestcaseTarget(keys, projectId, versionId, id).Some? && AllTargeted(keys, projectId, versionId, ids) {
      forall k | 0 <= k < |[id] + ids|
        ensures AlmSync.TestcaseTarget(keys, projectId, versionId, ([id] + ids)[k]).Some?
      {
        if k > 0 {
          assert ([id] + ids)[k] == ids[k - 1];
        }
      }
    }
  }

  /**
   * The matching loop writes exactly one update per test case with an id, in
   * listing order, onto that test case; it runs to its end exactly when every
   * such id names an existing test case, and otherwise stops short of one.
   */
  lemma {:induction false} MatchOnePerId(keys: set<Path>, projectId: string, versionId: string, tcs: seq<Doc>, issues: seq<Issue>)
    ensures var m := MatchLoop(keys, projectId, versionId, tcs, issues);
            var ids := MatchedIds(tcs);
            && UpdatesFor(m.writes, ids, projectId, versionId, issues)
            && (m.completed <==> |m.writes| == |ids|)
            && (m.completed <==> AllTargeted(keys, projectId, versionId, ids))
    decreases |tcs|
  {
    if tcs != [] {
      var id := Get(tcs[0], "testcase_id", VNone);
      MatchOnePerId(keys, projectId, versionId, tcs[1..], issues);
      var rest := MatchLoop(keys, projectId, versionId, tcs[1..], issues);
      var ids := MatchedIds(tcs[1..]);
      if Truthy(id) {
        assert MatchedIds(tcs) == [id] + ids;
        AllTargetedCons(keys, projectId, versionId, id, ids);
        match AlmSync.TestcaseTarget(keys, projectId, versionId, id)
        case None =>
        case Some(p) =>
          UpdatesForCons(Update(p, MatchFields(id, issues)), rest.writes, id, ids, projectId, versionId, issues);
      } else {
        assert [] + ids == ids;
        assert MatchedIds(tcs) == ids;
        assert MatchLoop(keys, projectId, versionId, tcs, issues) == rest;
      }
    }
  }

  /** The ids the loop handles are exactly the truthy ones of the listing, in order. */
  lemma {:induction false} MatchedIdsTruthy(tcs: seq<Doc>)
    ensures forall k :: 0 <= k < |MatchedIds(tcs)| ==> Truthy(MatchedIds(tcs)[k])
    ensures |MatchedIds(tcs)| <= |tcs|
    decreases |tcs|
  {
    if tcs != [] {
      MatchedIdsTruthy(tcs[1..]);
      var id := Get(tcs[0], "testcase_id", VNone);
      var head: seq<Value> := if Truthy(id) then [id] else [];
      assert MatchedIds(tcs) == head + MatchedIds(tcs[1..]);
      assert forall k :: |head| <= k < |MatchedIds(tcs)| ==> MatchedIds(tcs)[k] == MatchedIds(tcs[1..])[k - |head|];
    }
  }

  lemma {:induction false} MatchLoopTestcaseWrites(keys: set<Path>, projectId: string, versionId: string, tcs: seq<Doc>, issues: seq<Issue>)
    ensures TestcaseWrites(MatchLoop(keys, projectId, versionId, tcs, issues).writes)
    decreases |tcs|
  {
    if tcs != [] {
      MatchLoopTestcaseWrites(keys, projectId, versionId, tcs[1..], issues);
      var m := MatchLoop(keys, projectId, versionId, tcs, issues);
      var rest := MatchLoop(keys, projectId, versionId, tcs[1..], issues);
      if m.writes != rest.writes && m.writes != [] {
        assert m.writes[1..] == rest.writes;
      }
    }
  }

  /** One bulk creation per batch, carrying that batch. */
  lemma {:induction false} BulkRequestsEach(uid: string, siteId: Value, projectKey: Value, batches: seq<seq<Doc>>)
    ensures |BulkRequests(uid, siteId, projectKey, batches)| == |batches|
    ensures forall k :: 0 <= k < |batches| ==>
              BulkRequests(uid, siteId, projectKey, batches)[k] == LegacyBulkCreate(uid, siteId, projectKey, batches[k])
    decreases |batches|
  {
    if batches != [] {
      BulkRequestsEach(uid, siteId, projectKey, batches[1..]);
      assert forall k :: 1 <= k < |batches| ==> batches[1..][k - 1] == batches[k];
    }
  }

  /**
   * With usable details and a non-empty listing, the background task makes ceil(n/40) bulk
   * creations, one per batch, whose batches are 1 to 40 test cases that together
   * are the whole listing in order (no selection), and then one search for the
   * provenance label; otherwise it calls Jira not at all.
   */
  lemma LegacyCreations(s: Store, replies: nat -> Reply, n: nat, uid: string, projectId: string,
                        versionId: string, listing: seq<Doc>)
    ensures var r := LegacyRunOf(s, replies, n, uid, projectId, versionId, listing).trace.requests;
            && (!(VersionDoc(projectId, versionId) in s && listing != [] && DetailsUsable(ProjectDetails(s, projectId))) ==> r == [])
            && (VersionDoc(projectId, versionId) in s && listing != [] && DetailsUsable(ProjectDetails(s, projectId)) ==>
                  var d := ProjectDetails(s, projectId).value;
                  && |Batches(listing)| == NumBatches(|listing|)
                  && |r| == |Batches(listing)| + 1
                  && (forall k :: 0 <= k < |Batches(listing)| ==>
                        r[k] == LegacyBulkCreate(uid, Get(d, "toolSiteId", VNone), Get(d, "toolProjectKey", VNone), Batches(listing)[k])
                        && 1 <= |Batches(listing)[k]| <= BatchSize)
                  && Flatten(Batches(listing)) == listing
                  && r[|r| - 1] == SearchByLabel(uid, Get(d, "toolSiteDomain", VNone), Get(d, "toolSiteId", VNone), CaptainLabel))
  {
    if VersionDoc(projectId, versionId) in s && listing != [] && DetailsUsable(ProjectDetails(s, projectId)) {
      var d := ProjectDetails(s, projectId).value;
      BatchesPartition(listing);
      BulkRequestsEach(uid, Get(d, "toolSiteId", VNone), Get(d, "toolProjectKey", VNone), Batches(listing));
    }
  }

  /** The three statuses every run with usable details starts with, before the writes `tail`. */
  lemma StatusesOfUsablePrefix(projectId: string, versionId: string, tail: seq<Write>)
    ensures Statuses(VersionDoc(projectId, versionId),
                     [StatusWrite(projectId, versionId, StartCreation)]
                     + ([StatusWrite(projectId, versionId, CompleteCreation), StatusWrite(projectId, versionId, StartSync)] + tail))
            == [VStr(StartCreation), VStr(CompleteCreation), VStr(StartSync)] + Statuses(VersionDoc(projectId, versionId), tail)
  {
    var v := VersionDoc(projectId, versionId);
    var a, b, c := StatusWrite(projectId, versionId, StartCreation), StatusWrite(projectId, versionId, CompleteCreation),
                   StatusWrite(projectId, versionId, StartSync);
    StatusesAppend(v, [a], [b, c] + tail);
    StatusesAppend(v, [b, c], tail);
    StatusesAppend(v, [b], [c]);
    assert [b] + [c] == [b, c];
    StatusOfStatusWrite(projectId, versionId, StartCreation);
    StatusOfStatusWrite(projectId, versionId, CompleteCreation);
    StatusOfStatusWrite(projectId, versionId, StartSync);
  }

  /** The statuses the sync half writes: ERR when the search raised, else COMPLETE when the loop ran to its end. */
  lemma StatusesOfSyncWrites(keys: set<Path>, projectId: string, versionId: string, listing: seq<Doc>, reply: Reply)
    ensures Statuses(VersionDoc(projectId, versionId), SyncWrites(keys, projectId, versionId, listing, reply))
            == if !reply.ok then [VStr(ErrorSync)]
               else if MatchLoop(keys, projectId, versionId, listing, reply.issues).completed then [VStr(CompleteSync)]
               else []
  {
    var v := VersionDoc(projectId, versionId);
    if !reply.ok {
      StatusOfStatusWrite(projectId, versionId, ErrorSync);
    } else {
      var m := MatchLoop(keys, projectId, versionId, listing, reply.issues);
      var fin := if m.completed then [StatusWrite(projectId, versionId, CompleteSync)] else [];
      MatchLoopTestcaseWrites(keys, projectId, versionId, listing, reply.issues);
      StatusesAppend(v, m.writes, fin);
      StatusesOfTestcaseWrites(v, m.writes);
      if m.completed {
        StatusOfStatusWrite(projectId, versionId, CompleteSync);
      }
    }
  }

  /**
   * The version's status goes START → ERR_JIRA_CREATION when the details lack a
   * site id or project key; START alone, with the message returned, when there
   * is no test case; otherwise START → COMPLETE_JIRA_CREATION → START_JIRA_SYNC
   * and then ERR_JIRA_SYNC when the search raised, COMPLETE_JIRA_SYNC when the
   * loop ran to its end, and nothing more when an update raised.
   */
  lemma LegacyStatusPhases(s: Store, replies: nat -> Reply, n: nat, uid: string, projectId: string,
                           versionId: string, listing: seq<Doc>)
    ensures var r := LegacyRunOf(s, replies, n, uid, projectId, versionId, listing);
            var st := Statuses(VersionDoc(projectId, versionId), r.trace.writes);
            && (VersionDoc(projectId, versionId) !in s ==> st == [] && r.message == None)
            && (VersionDoc(projectId, versionId) in s && listing == [] ==>
                  st == [VStr(StartCreation)] && r.message == Some(NoTestcasesMessage))
            && (VersionDoc(projectId, versionId) in s && listing != [] && !DetailsUsable(ProjectDetails(s, projectId)) ==>
                  st == [VStr(StartCreation), VStr(ErrorCreation)] && r.message == None)
            && (VersionDoc(projectId, versionId) in s && listing != [] && DetailsUsable(ProjectDetails(s, projectId)) ==>
                  var reply := replies(n + NumBatches(|listing|));
                  var m := MatchLoop(s.Keys, projectId, versionId, listing, reply.issues);
                  && r.message == None
                  && st == [VStr(StartCreation), VStr(CompleteCreation), VStr(StartSync)]
                           + (if !reply.ok then [VStr(ErrorSync)] else if m.completed then [VStr(CompleteSync)] else []))
  {
    var v := VersionDoc(projectId, versionId);
    if v in s && listing == [] {
      StatusOfStatusWrite(projectId, versionId, StartCreation);
    } else if v in s && listing != [] && !DetailsUsable(ProjectDetails(s, projectId)) {
      var a, b := StatusWrite(projectId, versionId, StartCreation), StatusWrite(projectId, versionId, ErrorCreation);
      StatusesAppend(v, [a], [b]);
      assert [a] + [b] == [a, b];
      StatusOfStatusWrite(projectId, versionId, StartCreation);
      StatusOfStatusWrite(projectId, versionId, ErrorCreation);
    } else if v in s && listing != [] {
      var reply := replies(n + NumBatches(|listing|));
      var sync := SyncWrites(s.Keys, projectId, versionId, listing, reply);
      LegacyUsableWrites(s, replies, n, uid, projectId, versionId, listing);
      StatusesOfUsablePrefix(projectId, versionId, sync);
      StatusesOfSyncWrites(s.Keys, projectId, versionId, listing, reply);
    }
  }

  /** With usable details the writes are START, COMPLETE, START of the sync, then the sync half after the batches' replies. */
  lemma LegacyUsableWrites(s: Store, replies: nat -> Reply, n: nat, uid: string, projectId: string,
                           versionId: string, listing: seq<Doc>)
    requires VersionDoc(projectId, versionId) in s && listing != [] && DetailsUsable(ProjectDetails(s, projectId))
    ensures LegacyRunOf(s, replies, n, uid, projectId, versionId, listing).message == None
    ensures LegacyRunOf(s, replies, n, uid, projectId, versionId, listing).trace.writes
            == [StatusWrite(projectId, versionId, StartCreation)]
               + ([StatusWrite(projectId, versionId, CompleteCreation), StatusWrite(projectId, versionId, StartSync)]
                  + SyncWrites(s.Keys, projectId, versionId, listing, replies(n + NumBatches(|listing|))))
  {
    var d := ProjectDetails(s, projectId).value;
    var siteId, domain, projectKey := Get(d, "toolSiteId", VNone), Get(d, "toolSiteDomain", VNone), Get(d, "toolProjectKey", VNone);
    var creates := BulkRequests(uid, siteId, projectKey, Batches(listing));
    BatchesPartition(listing);
    BulkRequestsEach(uid, siteId, projectKey, Batches(listing));
    UsableTraceParts(s.Keys, replies, n, uid, projectId, versionId, siteId, domain, projectKey, listing,
                     creates, replies(n + |creates|));
  }

  /** When the label search raises, no test case is touched: the only writes are the four statuses. */
  lemma LegacySearchFailsNoUpdate(s: Store, replies: nat -> Reply, n: nat, uid: string, projectId: string,
                                  versionId: string, listing: seq<Doc>)
    requires VersionDoc(projectId, versionId) in s && listing != [] && DetailsUsable(ProjectDetails(s, projectId))
    requires !replies(n + NumBatches(|listing|)).ok
    ensures LegacyRunOf(s, replies, n, uid, projectId, versionId, listing).trace.writes
            == [StatusWrite(projectId, versionId, StartCreation), StatusWrite(projectId, versionId, CompleteCreation),
                StatusWrite(projectId, versionId, StartSync), StatusWrite(projectId, versionId, ErrorSync)]
  {
    var d := ProjectDetails(s, projectId).value;
    BatchesPartition(listing);
    BulkRequestsEach(uid, Get(d, "toolSiteId", VNone), Get(d, "toolProjectKey", VNone), Batches(listing));
  }
}
