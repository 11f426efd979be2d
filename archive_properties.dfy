/**
 * What the download-archive jobs promise: the job-status lifecycle, which
 * URLs are fetched, how a failed fetch is skipped, and the names of the
 * archive's entries, of the archive and of its upload path.
 */
module ArchiveProperties {
  import opened Wrappers
  import opened Values
  import opened Firestore
  import opened Text
  import Storage
  import opened ArchiveJobs

  // ---- Reference definitions ----

  /** The string URLs with the `gs://` prefix, in order: the ones a job means to fetch. */
  function GsUrls(urls: seq<Value>): seq<string>
    decreases |urls|
  {
    if urls == [] then []
    else (if urls[0].VStr? && StartsWith(urls[0].s, GsPrefix) then [urls[0].s] else []) + GsUrls(urls[1..])
  }

  predicate AllStrings(urls: seq<Value>) {
    forall k :: 0 <= k < |urls| ==> urls[k].VStr?
  }

  /** The entries of the fetches that succeeded, with replies from `n` on, named after `prefix`. */
  function Kept(prefix: string, fetches: seq<string>, replies: nat -> Storage.Reply, n: nat): seq<Storage.ZipEntry>
    decreases |fetches|
  {
    if fetches == [] then []
    else
      (if replies(n).ok then [(EntryName(prefix, fetches[0]), replies(n).content)] else [])
      + Kept(prefix, fetches[1..], replies, n + 1)
  }

  /** A job wrote `in_progress` and then exactly one terminal status. */
  predicate Lifecycle(r: JobRun) {
    |r.statuses| == 2 && r.statuses[0] == InProgress && IsTerminal(r.statuses[1])
  }

  /** Every URL in `urls` has the `gs://` prefix. */
  predicate AllGs(urls: seq<string>) {
    forall k :: 0 <= k < |urls| ==> StartsWith(urls[k], GsPrefix)
  }

  /** `name` is led by the entry prefix of one of `groups`. */
  predicate NamedAfterGroup(name: string, zipName: string, groups: seq<(Value, Value)>) {
    exists j :: 0 <= j < |groups| && StartsWith(name, GroupPrefix(zipName, groups[j]) + ".")
  }

  predicate Uploads(requests: seq<Storage.Request>) {
    exists k :: 0 <= k < |requests| && requests[k].Upload?
  }

  // ---- The URL loop ----

  lemma {:induction false} GsUrlsPrefixed(urls: seq<Value>)
    ensures forall k :: 0 <= k < |GsUrls(urls)| ==> StartsWith(GsUrls(urls)[k], GsPrefix)
    decreases |urls|
  {
    if urls != [] {
      GsUrlsPrefixed(urls[1..]);
    }
  }

  /**
   * The loop raises exactly when some URL is not a string; it fetches the
   * `gs://` URLs in order (all of them when it does not raise, those before the
   * offending value when it does) and keeps one entry per fetch that succeeded.
   */
  lemma {:induction false} PackUrlsContents(prefix: string, urls: seq<Value>, replies: nat -> Storage.Reply, n: nat)
    ensures var p := PackUrls(prefix, urls, replies, n);
            && (p.ok <==> AllStrings(urls))
            && p.fetches <= GsUrls(urls)
            && (p.ok ==> p.fetches == GsUrls(urls))
            && p.entries == Kept(prefix, p.fetches, replies, n)
    decreases |urls|
  {
    if urls != [] {
      var p := PackUrls(prefix, urls, replies, n);
      if !urls[0].VStr? {
        assert !AllStrings(urls);
      } else {
        var u := urls[0].s;
        var m := if StartsWith(u, GsPrefix) then n + 1 else n;
        var rest := PackUrls(prefix, urls[1..], replies, m);
        PackUrlsContents(prefix, urls[1..], replies, m);
        assert AllStrings(urls) <==> AllStrings(urls[1..]) by {
          if AllStrings(urls[1..]) {
            forall k | 0 <= k < |urls| ensures urls[k].VStr? {
              if k > 0 { assert urls[k] == urls[1..][k - 1]; }
            }
          }
          if AllStrings(urls) {
            forall k | 0 <= k < |urls[1..]| ensures urls[1..][k].VStr? {
              assert urls[1..][k] == urls[k + 1];
            }
          }
        }
        if StartsWith(u, GsPrefix) {
          assert GsUrls(urls) == [u] + GsUrls(urls[1..]);
          assert ([u] + rest.fetches)[1..] == rest.fetches;
        } else {
          assert GsUrls(urls) == [] + GsUrls(urls[1..]);
        }
      }
    }
  }

  /** At most one entry per fetch. */
  lemma {:induction false} KeptAtMost(prefix: string, fetches: seq<string>, replies: nat -> Storage.Reply, n: nat)
    ensures |Kept(prefix, fetches, replies, n)| <= |fetches|
    decreases |fetches|
  {
    if fetches != [] {
      KeptAtMost(prefix, fetches[1..], replies, n + 1);
    }
  }

  /** When every fetch succeeds, every fetched file is archived, in order, under its own name. */
  lemma {:induction false} KeptAll(prefix: string, fetches: seq<string>, replies: nat -> Storage.Reply, n: nat)
    requires forall i :: n <= i < n + |fetches| ==> replies(i).ok
    ensures |Kept(prefix, fetches, replies, n)| == |fetches|
    ensures forall k :: 0 <= k < |fetches| ==>
              Kept(prefix, fetches, replies, n)[k] == (EntryName(prefix, fetches[k]), replies(n + k).content)
    decreases |fetches|
  {
    if fetches != [] {
      assert replies(n).ok;
      KeptAll(prefix, fetches[1..], replies, n + 1);
      var rest := Kept(prefix, fetches[1..], replies, n + 1);
      assert Kept(prefix, fetches, replies, n) == [(EntryName(prefix, fetches[0]), replies(n).content)] + rest;
      forall k | 1 <= k < |fetches|
        ensures Kept(prefix, fetches, replies, n)[k] == (EntryName(prefix, fetches[k]), replies(n + k).content)
      {
        assert fetches[k] == fetches[1..][k - 1];
        assert n + 1 + (k - 1) == n + k;
      }
    }
  }

  /** When every fetch fails, the archive stays empty. */
  lemma {:induction false} KeptNone(prefix: string, fetches: seq<string>, replies: nat -> Storage.Reply, n: nat)
    requires forall i :: n <= i < n + |fetches| ==> !replies(i).ok
    ensures Kept(prefix, fetches, replies, n) == []
    decreases |fetches|
  {
    if fetches != [] {
      assert !replies(n).ok;
      KeptNone(prefix, fetches[1..], replies, n + 1);
    }
  }

  /** Every entry the URL loop writes is named `{prefix}.{extension}`. */
  lemma {:induction false} KeptNames(prefix: string, fetches: seq<string>, replies: nat -> Storage.Reply, n: nat)
    ensures forall e :: e in Kept(prefix, fetches, replies, n) ==> StartsWith(e.0, prefix + ".")
    decreases |fetches|
  {
    if fetches != [] {
      KeptNames(prefix, fetches[1..], replies, n + 1);
      var name := EntryName(prefix, fetches[0]);
      assert name[..|prefix + "."|] == prefix + ".";
    }
  }

  /** The extension is the text after the URL's last '.'. */
  lemma EntryNameExtension(prefix: string, stem: string, extension: string)
    requires '.' !in extension
    ensures EntryName(prefix, stem + "." + extension) == prefix + "." + extension
  {
    LastSegmentAfter(stem, extension, '.');
    SplitWithoutSep(extension, '.');
  }

  /**
   * A `gs://` URL that cannot be fetched, then one that can, then a web link:
   * both `gs://` URLs are fetched, the link is not, the archive holds the second
   * file only, and the job completes when the upload succeeds.
   */
  lemma FailedFetchSkipped(zipName: string, jobId: string, first: string, second: string, link: string,
                           replies: nat -> Storage.Reply, n: nat)
    requires StartsWith(first, GsPrefix) && StartsWith(second, GsPrefix) && !StartsWith(link, GsPrefix)
    requires !replies(n).ok && replies(n + 1).ok && replies(n + 2).ok
    ensures var p := PackUrls(zipName, [VStr(first), VStr(second), VStr(link)], replies, n);
            var entries := [(EntryName(zipName, second), replies(n + 1).content)];
            && p == Pack(entries, [first, second], true)
            && Finish(jobId, zipName, p, replies, n)
               == JobRun([InProgress, Completed(zipName + ".zip", replies(n + 2).url)],
                         [Storage.Fetch(first), Storage.Fetch(second), Storage.Upload(entries, ZipContentType, UploadPath(jobId))])
  {
    var urls := [VStr(first), VStr(second), VStr(link)];
    assert urls[1..] == [VStr(second), VStr(link)];
    assert [VStr(second), VStr(link)][1..] == [VStr(link)];
    assert [VStr(link)][1..] == [];
    var entries := [(EntryName(zipName, second), replies(n + 1).content)];
    assert PackUrls(zipName, [], replies, n + 2) == Pack([], [], true);
    var last := PackUrls(zipName, [VStr(link)], replies, n + 2);
    assert [VStr(link)][0].s == link;
    assert last == Pack([], [], true);
    var tail := PackUrls(zipName, [VStr(second), VStr(link)], replies, n + 1);
    assert tail == Pack(entries + [], [second] + [], true);
    assert PackUrls(zipName, urls, replies, n) == Pack([] + tail.entries, [first] + tail.fetches, true);
    assert Fetches([first, second]) == [Storage.Fetch(first), Storage.Fetch(second)] by {
      assert [first, second][1..] == [second];
      assert [first, second][1..][1..] == [];
    }
  }

  // ---- The jobs ----

  lemma FinishLifecycle(jobId: string, zipName: string, pack: Pack, replies: nat -> Storage.Reply, n: nat)
    ensures var r := Finish(jobId, zipName, pack, replies, n);
            && Lifecycle(r)
            && Uploads(r.requests) == pack.ok
            && (r.statuses[1].Completed? <==> pack.ok && replies(n + |pack.fetches|).ok)
            && (r.statuses[1].Completed? ==>
                  && r.statuses[1] == Completed(zipName + ".zip", replies(n + |r.requests| - 1).url)
                  && r.requests[|r.requests| - 1] == Storage.Upload(pack.entries, ZipContentType, UploadPath(jobId)))
  {
    var r := Finish(jobId, zipName, pack, replies, n);
    FetchesOnly(pack.fetches);
    if pack.ok {
      assert r.requests[|pack.fetches|].Upload?;
    }
  }

  /** `Fetches` holds no upload. */
  lemma {:induction false} FetchesOnly(urls: seq<string>)
    ensures forall k :: 0 <= k < |Fetches(urls)| ==> Fetches(urls)[k] == Storage.Fetch(urls[k])
    decreases |urls|
  {
    if urls != [] {
      FetchesOnly(urls[1..]);
    }
  }

  /** Each zip job writes `in_progress`, then exactly one of `completed` and `failed`. */
  lemma JobsLifecycle(s: Store, replies: nat -> Storage.Reply, n: nat, jobId: string, projectId: string,
                      versionId: string, name: string, listing: seq<Doc>)
    ensures Lifecycle(DocumentJob(s, replies, n, jobId, projectId, versionId, name))
    ensures Lifecycle(TestcaseJob(s, replies, n, jobId, projectId, versionId, name))
    ensures Lifecycle(ZipAllJob(replies, n, jobId, projectId, versionId, listing))
  {
    var vd := VersionDetails(s, projectId, versionId);
    if vd.Some? && Truthy(Get(vd.value, "files", VNone)) {
      var items := Iterate(Get(vd.value, "files", VList([])));
      if items.Some? && DocumentUrls(items.value, name).Some? && DocumentUrls(items.value, name).value != [] {
        var zipName := DocumentZipName(name, versionId, projectId);
        var urls := DocumentUrls(items.value, name).value;
        FinishLifecycle(jobId, zipName, PackUrls(zipName, urls, replies, n), replies, n);
      }
    }
    var tc := TestcaseDetails(s, projectId, versionId, name);
    if tc.Some? && Truthy(Get(tc.value, "datasets", VNone)) && Iterate(Get(tc.value, "datasets", VNone)).Some? {
      var zipName := TestcaseZipName(name, versionId, projectId);
      FinishLifecycle(jobId, zipName, PackUrls(zipName, Iterate(Get(tc.value, "datasets", VNone)).value, replies, n), replies, n);
    }
    var zipName := AllZipName(versionId, projectId);
    FinishLifecycle(jobId, zipName, PackAll(zipName, DatasetGroups(listing), replies, n), replies, n);
  }

  /**
   * The document job fails with "No documents found" exactly when the version
   * or its files are missing, and then, as when no file has the requested name,
   * uploads nothing and fetches nothing.
   */
  lemma DocumentNothingFound(s: Store, replies: nat -> Storage.Reply, n: nat, jobId: string, projectId: string,
                             versionId: string, docName: string)
    ensures var r := DocumentJob(s, replies, n, jobId, projectId, versionId, docName);
            var vd := VersionDetails(s, projectId, versionId);
            && (r.statuses[1] == Failed(NoDocuments) <==> vd.None? || !Truthy(Get(vd.value, "files", VNone)))
            && (r.statuses[1] == Failed(NoDocuments) || r.statuses[1] == Failed(DocumentMissing) ==> r.requests == [])
            && (Uploads(r.requests) ==>
                  && vd.Some? && Iterate(Get(vd.value, "files", VList([]))).Some?
                  && DocumentUrls(Iterate(Get(vd.value, "files", VList([]))).value, docName).Some?
                  && DocumentUrls(Iterate(Get(vd.value, "files", VList([]))).value, docName).value != [])
  {
    var vd := VersionDetails(s, projectId, versionId);
    if vd.Some? && Truthy(Get(vd.value, "files", VNone)) {
      var items := Iterate(Get(vd.value, "files", VList([])));
      if items.Some? && DocumentUrls(items.value, docName).Some? && DocumentUrls(items.value, docName).value != [] {
        var zipName := DocumentZipName(docName, versionId, projectId);
        FinishLifecycle(jobId, zipName, PackUrls(zipName, DocumentUrls(items.value, docName).value, replies, n), replies, n);
      }
    }
  }

  /**
   * The test-case job fails with "No datasets found" exactly when the test case
   * or its data sets are missing, and then uploads and fetches nothing.
   */
  lemma TestcaseNothingFound(s: Store, replies: nat -> Storage.Reply, n: nat, jobId: string, projectId: string,
                             versionId: string, testcaseId: string)
    ensures var r := TestcaseJob(s, replies, n, jobId, projectId, versionId, testcaseId);
            var tc := TestcaseDetails(s, projectId, versionId, testcaseId);
            && (r.statuses[1] == Failed(NoDatasets) <==> tc.None? || !Truthy(Get(tc.value, "datasets", VNone)))
            && (r.statuses[1] == Failed(NoDatasets) ==> r.requests == [])
  {
    var tc := TestcaseDetails(s, projectId, versionId, testcaseId);
    if tc.Some? && Truthy(Get(tc.value, "datasets", VNone)) && Iterate(Get(tc.value, "datasets", VNone)).Some? {
      var zipName := TestcaseZipName(testcaseId, versionId, projectId);
      FinishLifecycle(jobId, zipName, PackUrls(zipName, Iterate(Get(tc.value, "datasets", VNone)).value, replies, n), replies, n);
    }
  }

  lemma {:induction false} DatasetGroupsNone(listing: seq<Doc>)
    requires forall k :: 0 <= k < |listing| ==> !Truthy(Get(listing[k], "datasets", VNone))
    ensures DatasetGroups(listing) == []
    decreases |listing|
  {
    if listing != [] {
      assert !Truthy(Get(listing[0], "datasets", VNone));
      DatasetGroupsNone(listing[1..]);
    }
  }

  /**
   * With no test case holding data sets the zip-all job still uploads, an
   * empty archive, and completes when the upload succeeds.
   */
  lemma ZipAllWithoutDatasets(replies: nat -> Storage.Reply, n: nat, jobId: string, projectId: string,
                              versionId: string, listing: seq<Doc>)
    requires forall k :: 0 <= k < |listing| ==> !Truthy(Get(listing[k], "datasets", VNone))
    ensures var r := ZipAllJob(replies, n, jobId, projectId, versionId, listing);
            && r.requests == [Storage.Upload([], ZipContentType, UploadPath(jobId))]
            && (replies(n).ok ==> r.statuses == [InProgress, Completed(AllZipName(versionId, projectId) + ".zip", replies(n).url)])
            && (!replies(n).ok ==> r.statuses == [InProgress, Failed(Raised)])
  {
    DatasetGroupsNone(listing);
  }

  lemma AllGsAppend(a: seq<string>, b: seq<string>)
    requires AllGs(a) && AllGs(b)
    ensures AllGs(a + b)
  {
    forall k | 0 <= k < |a + b| ensures StartsWith((a + b)[k], GsPrefix) {
      if k >= |a| {
        assert (a + b)[k] == b[k - |a|];
      } else {
        assert (a + b)[k] == a[k];
      }
    }
  }

  /** The URL loop fetches only `gs://` URLs. */
  lemma PackUrlsFetchesGs(prefix: string, urls: seq<Value>, replies: nat -> Storage.Reply, n: nat)
    ensures AllGs(PackUrls(prefix, urls, replies, n).fetches)
  {
    var p := PackUrls(prefix, urls, replies, n);
    PackUrlsContents(prefix, urls, replies, n);
    GsUrlsPrefixed(urls);
    forall k | 0 <= k < |p.fetches| ensures StartsWith(p.fetches[k], GsPrefix) {
      assert p.fetches[k] == GsUrls(urls)[k];
    }
  }

  /** The zip-all loop fetches only `gs://` URLs. */
  lemma {:induction false} PackAllFetchesGs(zipName: string, groups: seq<(Value, Value)>, replies: nat -> Storage.Reply, n: nat)
    ensures AllGs(PackAll(zipName, groups, replies, n).fetches)
    decreases |groups|
  {
    if groups != [] {
      var urls := Iterate(groups[0].1);
      if urls.Some? {
        var prefix := GroupPrefix(zipName, groups[0]);
        var p := PackUrls(prefix, urls.value, replies, n);
        PackUrlsFetchesGs(prefix, urls.value, replies, n);
        if p.ok {
          var rest := PackAll(zipName, groups[1..], replies, n + |p.fetches|);
          PackAllFetchesGs(zipName, groups[1..], replies, n + |p.fetches|);
          AllGsAppend(p.fetches, rest.fetches);
          assert PackAll(zipName, groups, replies, n).fetches == p.fetches + rest.fetches;
        } else {
          assert PackAll(zipName, groups, replies, n) == p;
        }
      }
    }
  }

  /** Every entry of `entries` is named after one of `groups`. */
  predicate AllNamedAfterGroups(entries: seq<Storage.ZipEntry>, zipName: string, groups: seq<(Value, Value)>) {
    forall e :: e in entries ==> NamedAfterGroup(e.0, zipName, groups)
  }

  lemma NamedAfterFirst(entries: seq<Storage.ZipEntry>, zipName: string, groups: seq<(Value, Value)>)
    requires groups != []
    requires forall e :: e in entries ==> StartsWith(e.0, GroupPrefix(zipName, groups[0]) + ".")
    ensures AllNamedAfterGroups(entries, zipName, groups)
  {
    forall e | e in entries ensures NamedAfterGroup(e.0, zipName, groups) {
      assert StartsWith(e.0, GroupPrefix(zipName, groups[0]) + ".");
    }
  }

  lemma NamedAfterLater(entries: seq<Storage.ZipEntry>, zipName: string, groups: seq<(Value, Value)>)
    requires groups != [] && AllNamedAfterGroups(entries, zipName, groups[1..])
    ensures AllNamedAfterGroups(entries, zipName, groups)
  {
    forall e | e in entries ensures NamedAfterGroup(e.0, zipName, groups) {
      assert NamedAfterGroup(e.0, zipName, groups[1..]);
      var j :| 0 <= j < |groups[1..]| && StartsWith(e.0, GroupPrefix(zipName, groups[1..][j]) + ".");
      assert groups[1..][j] == groups[j + 1];
    }
  }

  /** Every entry the URL loop writes is named `{prefix}.{extension}`. */
  lemma PackUrlsNames(prefix: string, urls: seq<Value>, replies: nat -> Storage.Reply, n: nat)
    ensures forall e :: e in PackUrls(prefix, urls, replies, n).entries ==> StartsWith(e.0, prefix + ".")
  {
    PackUrlsContents(prefix, urls, replies, n);
    KeptNames(prefix, PackUrls(prefix, urls, replies, n).fetches, replies, n);
  }

  lemma NamedAppend(a: seq<Storage.ZipEntry>, b: seq<Storage.ZipEntry>, zipName: string, groups: seq<(Value, Value)>)
    requires AllNamedAfterGroups(a, zipName, groups) && AllNamedAfterGroups(b, zipName, groups)
    ensures AllNamedAfterGroups(a + b, zipName, groups)
  {
  }

  /** The zip-all loop names every entry after its test case's id: `{tc_id}-{zip_name}.{extension}`. */
  lemma {:induction false} PackAllEntryNames(zipName: string, groups: seq<(Value, Value)>, replies: nat -> Storage.Reply, n: nat)
    ensures AllNamedAfterGroups(PackAll(zipName, groups, replies, n).entries, zipName, groups)
    decreases |groups|
  {
    if groups != [] {
      var urls := Iterate(groups[0].1);
      if urls.Some? {
        var prefix := GroupPrefix(zipName, groups[0]);
        var p := PackUrls(prefix, urls.value, replies, n);
        PackUrlsNames(prefix, urls.value, replies, n);
        NamedAfterFirst(p.entries, zipName, groups);
        if p.ok {
          var rest := PackAll(zipName, groups[1..], replies, n + |p.fetches|);
          PackAllEntryNames(zipName, groups[1..], replies, n + |p.fetches|);
          NamedAfterLater(rest.entries, zipName, groups);
          assert PackAll(zipName, groups, replies, n).entries == p.entries + rest.entries;
          NamedAppend(p.entries, rest.entries, zipName, groups);
        } else {
          assert PackAll(zipName, groups, replies, n) == p;
        }
      }
    }
  }

  /**
   * The test-case job fetches only `gs://` URLs and, when all its URLs are
   * strings, each `gs://` one in order, and archives exactly the fetches that
   * succeeded, one entry named `{zip_name}.{extension}` each.
   */
  lemma TestcaseJobFetches(s: Store, replies: nat -> Storage.Reply, n: nat, jobId: string, projectId: string,
                           versionId: string, testcaseId: string)
    requires var tc := TestcaseDetails(s, projectId, versionId, testcaseId);
             tc.Some? && Truthy(Get(tc.value, "datasets", VNone)) && Get(tc.value, "datasets", VNone).VList?
    ensures var urls := Get(TestcaseDetails(s, projectId, versionId, testcaseId).value, "datasets", VNone).items;
            var zipName := TestcaseZipName(testcaseId, versionId, projectId);
            var r := TestcaseJob(s, replies, n, jobId, projectId, versionId, testcaseId);
            && (forall k :: 0 <= k < |r.requests| && r.requests[k].Fetch? ==> StartsWith(r.requests[k].url, GsPrefix))
            && (AllStrings(urls) ==>
                  r.requests == Fetches(GsUrls(urls))
                                + [Storage.Upload(Kept(zipName, GsUrls(urls), replies, n), ZipContentType, UploadPath(jobId))])
  {
    var urls := Get(TestcaseDetails(s, projectId, versionId, testcaseId).value, "datasets", VNone).items;
    var zipName := TestcaseZipName(testcaseId, versionId, projectId);
    var p := PackUrls(zipName, urls, replies, n);
    PackUrlsContents(zipName, urls, replies, n);
    GsUrlsPrefixed(urls);
    FetchesOnly(p.fetches);
    assert forall k :: 0 <= k < |p.fetches| ==> p.fetches[k] == GsUrls(urls)[k];
  }

  /** `files` is a list of dictionaries of which the `i`-th alone is named `docName`. */
  predicate OnlyNamedAt(files: seq<Value>, docName: string, i: nat) {
    && i < |files|
    && (forall k :: 0 <= k < |files| ==> files[k].VDict?)
    && (forall k :: 0 <= k < |files| ==> (DictGet(files[k].entries, "name", VNone) == VStr(docName) <==> k == i))
  }

  /** No dictionary in `files` is named `docName`. */
  predicate NoneNamed(files: seq<Value>, docName: string) {
    forall k :: 0 <= k < |files| ==> files[k].VDict? && DictGet(files[k].entries, "name", VNone) != VStr(docName)
  }

  lemma {:induction false} DocumentUrlsNone(files: seq<Value>, docName: string)
    requires NoneNamed(files, docName)
    ensures DocumentUrls(files, docName) == Some([])
    decreases |files|
  {
    if files != [] {
      assert NoneNamed(files[1..], docName) by {
        forall k | 0 <= k < |files[1..]|
          ensures files[1..][k].VDict? && DictGet(files[1..][k].entries, "name", VNone) != VStr(docName)
        {
          assert files[1..][k] == files[k + 1];
        }
      }
      DocumentUrlsNone(files[1..], docName);
      assert files[0].VDict? && DictGet(files[0].entries, "name", VNone) != VStr(docName);
      var none: seq<Value> := [];
      assert DocumentUrls(files, docName) == Some(none + none);
      assert none + none == none;
    }
  }

  /** The selection keeps the URL of the one file named `docName`, or `''` when it has none. */
  lemma {:induction false} DocumentUrlsOnly(files: seq<Value>, docName: string, i: nat)
    requires OnlyNamedAt(files, docName, i)
    ensures DocumentUrls(files, docName) == Some([DictGet(files[i].entries, "url", VStr(""))])
    decreases |files|
  {
    if i == 0 {
      assert NoneNamed(files[1..], docName) by {
        forall k | 0 <= k < |files[1..]|
          ensures files[1..][k].VDict? && DictGet(files[1..][k].entries, "name", VNone) != VStr(docName)
        {
          assert files[1..][k] == files[k + 1];
        }
      }
      DocumentUrlsNone(files[1..], docName);
      var url := DictGet(files[0].entries, "url", VStr(""));
      var none: seq<Value> := [];
      assert files[0].VDict? && DictGet(files[0].entries, "name", VNone) == VStr(docName);
      assert DocumentUrls(files, docName) == Some([url] + none);
      assert [url] + none == [url];
    } else {
      assert OnlyNamedAt(files[1..], docName, i - 1) by {
        forall k | 0 <= k < |files[1..]|
          ensures files[1..][k].VDict?
          ensures DictGet(files[1..][k].entries, "name", VNone) == VStr(docName) <==> k == i - 1
        {
          assert files[1..][k] == files[k + 1];
        }
      }
      DocumentUrlsOnly(files[1..], docName, i - 1);
      assert files[1..][i - 1] == files[i];
      assert files[0].VDict? && DictGet(files[0].entries, "name", VNone) != VStr(docName);
      var none: seq<Value> := [];
      assert DocumentUrls(files, docName) == Some(none + DocumentUrls(files[1..], docName).value);
      assert none + DocumentUrls(files[1..], docName).value == DocumentUrls(files[1..], docName).value;
    }
  }

  /**
   * The document job selects the files named `doc_name`: with none it fails as
   * "document missing" and calls nothing; with exactly one, whose `url` (or `''`
   * when it has none) is a string, it fetches that URL when it is a `gs://` one
   * and uploads the entries of the fetches that succeeded.
   */
  lemma DocumentJobFetches(s: Store, replies: nat -> Storage.Reply, n: nat, jobId: string, projectId: string,
                           versionId: string, docName: string, i: nat)
    requires var vd := VersionDetails(s, projectId, versionId);
             vd.Some? && Truthy(Get(vd.value, "files", VNone)) && Get(vd.value, "files", VNone).VList?
    ensures var files := Get(VersionDetails(s, projectId, versionId).value, "files", VNone).items;
            var r := DocumentJob(s, replies, n, jobId, projectId, versionId, docName);
            && (NoneNamed(files, docName) ==> r == JobRun([InProgress, Failed(DocumentMissing)], []))
            && (OnlyNamedAt(files, docName, i) && DictGet(files[i].entries, "url", VStr("")).VStr? ==>
                  var urls := [DictGet(files[i].entries, "url", VStr(""))];
                  r.requests == Fetches(GsUrls(urls))
                                + [Storage.Upload(Kept(DocumentZipName(docName, versionId, projectId), GsUrls(urls), replies, n),
                                                  ZipContentType, UploadPath(jobId))])
  {
    var files := Get(VersionDetails(s, projectId, versionId).value, "files", VNone).items;
    if NoneNamed(files, docName) {
      DocumentUrlsNone(files, docName);
    }
    if OnlyNamedAt(files, docName, i) && DictGet(files[i].entries, "url", VStr("")).VStr? {
      var urls := [DictGet(files[i].entries, "url", VStr(""))];
      DocumentUrlsOnly(files, docName, i);
      PackUrlsContents(DocumentZipName(docName, versionId, projectId), urls, replies, n);
    }
  }

  /** A file named `docName` without a `url` is selected as `''`, which is not fetched: the archive is empty. */
  lemma DocumentWithoutUrl(s: Store, replies: nat -> Storage.Reply, n: nat, jobId: string, projectId: string,
                           versionId: string, docName: string, i: nat)
    requires var vd := VersionDetails(s, projectId, versionId);
             vd.Some? && Truthy(Get(vd.value, "files", VNone)) && Get(vd.value, "files", VNone).VList?
    requires var files := Get(VersionDetails(s, projectId, versionId).value, "files", VNone).items;
             OnlyNamedAt(files, docName, i) && DictGet(files[i].entries, "url", VStr("")) == VStr("")
    ensures DocumentJob(s, replies, n, jobId, projectId, versionId, docName).requests
            == [Storage.Upload([], ZipContentType, UploadPath(jobId))]
  {
    DocumentJobFetches(s, replies, n, jobId, projectId, versionId, docName, i);
    assert !StartsWith("", GsPrefix);
  }

  /** What a completed job's record and its upload are named. */
  predicate NamedUpload(r: JobRun, jobId: string, zipName: string) {
    |r.statuses| == 2 && r.statuses[1].Completed? ==>
      && r.statuses[1].fileName == zipName + ".zip"
      && |r.requests| > 0
      && r.requests[|r.requests| - 1].Upload?
      && r.requests[|r.requests| - 1].contentType == ZipContentType
      && r.requests[|r.requests| - 1].path == UploadPath(jobId)
  }

  /**
   * A completed document job records `{doc_name}-{version}-{project_id}.zip`,
   * uploads to `jobs/{job_id}/archive.zip`, and names every entry
   * `{doc_name}-{version}-{project_id}.{extension}`.
   */
  lemma DocumentJobNames(s: Store, replies: nat -> Storage.Reply, n: nat, jobId: string, projectId: string,
                         versionId: string, docName: string)
    ensures var r := DocumentJob(s, replies, n, jobId, projectId, versionId, docName);
            var zipName := DocumentZipName(docName, versionId, projectId);
            && |r.statuses| == 2
            && NamedUpload(r, jobId, zipName)
            && (r.statuses[1].Completed? ==>
                  forall e :: e in r.requests[|r.requests| - 1].archive ==> StartsWith(e.0, zipName + "."))
  {
    var r := DocumentJob(s, replies, n, jobId, projectId, versionId, docName);
    var zipName := DocumentZipName(docName, versionId, projectId);
    var vd := VersionDetails(s, projectId, versionId);
    if vd.Some? && Truthy(Get(vd.value, "files", VNone)) {
      var items := Iterate(Get(vd.value, "files", VList([])));
      if items.Some? && DocumentUrls(items.value, docName).Some? && DocumentUrls(items.value, docName).value != [] {
        var p := PackUrls(zipName, DocumentUrls(items.value, docName).value, replies, n);
        FinishLifecycle(jobId, zipName, p, replies, n);
        PackUrlsContents(zipName, DocumentUrls(items.value, docName).value, replies, n);
        KeptNames(zipName, p.fetches, replies, n);
      }
    }
  }

  /**
   * A completed test-case job records `{testcase_id}-{version}-{project_id}.zip`,
   * uploads to `jobs/{job_id}/archive.zip`, and names every entry
   * `{testcase_id}-{version}-{project_id}.{extension}`.
   */
  lemma TestcaseJobNames(s: Store, replies: nat -> Storage.Reply, n: nat, jobId: string, projectId: string,
                         versionId: string, testcaseId: string)
    ensures var r := TestcaseJob(s, replies, n, jobId, projectId, versionId, testcaseId);
            var zipName := TestcaseZipName(testcaseId, versionId, projectId);
            && |r.statuses| == 2
            && NamedUpload(r, jobId, zipName)
            && (r.statuses[1].Completed? ==>
                  forall e :: e in r.requests[|r.requests| - 1].archive ==> StartsWith(e.0, zipName + "."))
  {
    var zipName := TestcaseZipName(testcaseId, versionId, projectId);
    var tc := TestcaseDetails(s, projectId, versionId, testcaseId);
    if tc.Some? && Truthy(Get(tc.value, "datasets", VNone)) && Iterate(Get(tc.value, "datasets", VNone)).Some? {
      var urls := Iterate(Get(tc.value, "datasets", VNone)).value;
      var p := PackUrls(zipName, urls, replies, n);
      FinishLifecycle(jobId, zipName, p, replies, n);
      PackUrlsContents(zipName, urls, replies, n);
      KeptNames(zipName, p.fetches, replies, n);
    }
  }

  /**
   * A completed zip-all job records `{version}-{project_id}.zip`, uploads to
   * `jobs/{job_id}/archive.zip`, and names every entry after the id of the
   * test case it came from; it fetches only `gs://` URLs.
   */
  lemma ZipAllJobNames(replies: nat -> Storage.Reply, n: nat, jobId: string, projectId: string, versionId: string,
                       listing: seq<Doc>)
    ensures var r := ZipAllJob(replies, n, jobId, projectId, versionId, listing);
            var zipName := AllZipName(versionId, projectId);
            && |r.statuses| == 2
            && NamedUpload(r, jobId, zipName)
            && (r.statuses[1].Completed? ==>
                  AllNamedAfterGroups(r.requests[|r.requests| - 1].archive, zipName, DatasetGroups(listing)))
            && (forall k :: 0 <= k < |r.requests| && r.requests[k].Fetch? ==> StartsWith(r.requests[k].url, GsPrefix))
  {
    var zipName := AllZipName(versionId, projectId);
    var p := PackAll(zipName, DatasetGroups(listing), replies, n);
    FinishLifecycle(jobId, zipName, p, replies, n);
    PackAllEntryNames(zipName, DatasetGroups(listing), replies, n);
    PackAllFetchesGs(zipName, DatasetGroups(listing), replies, n);
    FetchesOnly(p.fetches);
  }
}
