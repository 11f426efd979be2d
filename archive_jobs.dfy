/**
 * The download-archive jobs of projects/background_functions.py:
 * `background_document_zip_task`, `background_testcase_zip_task` and
 * `background_zip_all_task`. Each records `in_progress`, gathers the `gs://`
 * files it is asked for into an archive (a failed fetch is skipped), uploads
 * the archive under the job's own path and records `completed`, or records
 * `failed` when nothing was found or an exception escaped.
 *
 * As for the sync tasks, each job is a method over the store and the bucket
 * and a function from the store and the bucket's replies to the job's run.
 */
module ArchiveJobs {
  import opened Wrappers
  import opened Values
  import opened Firestore
  import opened Text
  import Storage
  import Seqs

  const GsPrefix: string := "gs://"
  const ZipContentType: string := "application/zip"

  /** `f'jobs/{job_id}/archive.zip'` */
  function UploadPath(jobId: string): string {
    "jobs/" + jobId + "/archive.zip"
  }

  /** `f'{zip_name}.{url.split(".")[-1]}'` */
  function EntryName(prefix: string, url: string): string {
    prefix + "." + LastSegment(url, '.')
  }

  // ---- Filling the archive ----

  /**
   * The archive entries written, the URLs fetched (in order) and whether the
   * loop ran to its end rather than raising.
   */
  datatype Pack = Pack(entries: seq<Storage.ZipEntry>, fetches: seq<string>, ok: bool)

  /**
   * The loop over `urls` with fetch replies from `n` on: a URL that is not a
   * string raises (`startswith` on it), one without the `gs://` prefix is
   * skipped, a failed fetch is skipped, and every other becomes an entry named
   * after `prefix` and the URL's extension.
   */
  function PackUrls(prefix: string, urls: seq<Value>, replies: nat -> Storage.Reply, n: nat): Pack
    decreases |urls|
  {
    if urls == [] then Pack([], [], true)
    else if !urls[0].VStr? then Pack([], [], false)
    else
      var u := urls[0].s;
      if !StartsWith(u, GsPrefix) then PackUrls(prefix, urls[1..], replies, n)
      else
        var r := replies(n);
        var rest := PackUrls(prefix, urls[1..], replies, n + 1);
        Pack((if r.ok then [(EntryName(prefix, u), r.content)] else []) + rest.entries, [u] + rest.fetches, rest.ok)
  }

  /** The zip-all loop over the selected test cases `(testcase_id, datasets)`, each entry name led by the id. */
  function PackAll(zipName: string, groups: seq<(Value, Value)>, replies: nat -> Storage.Reply, n: nat): Pack
    decreases |groups|
  {
    if groups == [] then Pack([], [], true)
    else
      match Iterate(groups[0].1)
      case None => Pack([], [], false)
      case Some(urls) =>
        var p := PackUrls(GroupPrefix(zipName, groups[0]), urls, replies, n);
        if !p.ok then p
        else
          var rest := PackAll(zipName, groups[1..], replies, n + |p.fetches|);
          Pack(p.entries + rest.entries, p.fetches + rest.fetches, rest.ok)
  }

  /** The bucket calls that fetch `urls`, in order. */
  function Fetches(urls: seq<string>): (r: seq<Storage.Request>)
    ensures |r| == |urls|
  {
    if urls == [] then [] else [Storage.Fetch(urls[0])] + Fetches(urls[1..])
  }

  lemma {:induction false} FetchesAppend(a: seq<string>, b: seq<string>)
    ensures Fetches(a + b) == Fetches(a) + Fetches(b)
  {
    if a == [] {
      assert a + b == b;
    } else {
      assert (a + b)[1..] == a[1..] + b;
      FetchesAppend(a[1..], b);
    }
  }

  // ---- The job runs ----

  /** The statuses a job recorded, in order, and the calls it made on the bucket. */
  datatype JobRun = JobRun(statuses: seq<JobStatus>, requests: seq<Storage.Request>)

  /** The job records of a run. */
  function JobWrites(jobId: string, statuses: seq<JobStatus>): (r: seq<Write>)
    ensures |r| == |statuses|
    ensures forall k :: 0 <= k < |statuses| ==> r[k] == Upsert(JobDoc(jobId), JobFields(statuses[k]))
  {
    if statuses == [] then [] else [Upsert(JobDoc(jobId), JobFields(statuses[0]))] + JobWrites(jobId, statuses[1..])
  }

  /**
   * Once the archive is filled: the upload and `completed`, or `failed` when the
   * loop or the upload raised. `n` is the number of bucket calls before the loop.
   */
  function Finish(jobId: string, zipName: string, pack: Pack, replies: nat -> Storage.Reply, n: nat): JobRun {
    if !pack.ok then JobRun([InProgress, Failed(Raised)], Fetches(pack.fetches))
    else
      var r := replies(n + |pack.fetches|);
      JobRun([InProgress, if r.ok then Completed(zipName + ".zip", r.url) else Failed(Raised)],
             Fetches(pack.fetches) + [Storage.Upload(pack.entries, ZipContentType, UploadPath(jobId))])
  }

  /** `[item.get('url', '') for item in files if item.get('name') == doc_name]`; None when an item is not a dict. */
  function DocumentUrls(items: seq<Value>, docName: string): Option<seq<Value>>
    decreases |items|
  {
    if items == [] then Some([])
    else
      match items[0]
      case VDict(entries) =>
        (match DocumentUrls(items[1..], docName)
         case None => None
         case Some(rest) =>
           Some((if DictGet(entries, "name", VNone) == VStr(docName) then [DictGet(entries, "url", VStr(""))] else []) + rest))
      case _ => None
  }

  /** `f'{doc_name}-{version}-{project_id}'` */
  function DocumentZipName(docName: string, versionId: string, projectId: string): string {
    docName + "-" + versionId + "-" + projectId
  }

  /** `background_document_zip_task` on store `s`, with bucket replies from `n` on. */
  function DocumentJob(s: Store, replies: nat -> Storage.Reply, n: nat, jobId: string, projectId: string,
                       versionId: string, docName: string): JobRun
  {
    var vd := VersionDetails(s, projectId, versionId);
    if vd.None? || !Truthy(Get(vd.value, "files", VNone)) then JobRun([InProgress, Failed(NoDocuments)], [])
    else
      match Iterate(Get(vd.value, "files", VList([])))
      case None => JobRun([InProgress, Failed(Raised)], [])
      case Some(items) =>
        match DocumentUrls(items, docName)
        case None => JobRun([InProgress, Failed(Raised)], [])
        case Some(urls) =>
          if urls == [] then JobRun([InProgress, Failed(DocumentMissing)], [])
          else
            var zipName := DocumentZipName(docName, versionId, projectId);
            Finish(jobId, zipName, PackUrls(zipName, urls, replies, n), replies, n)
  }

  /** `f'{testcase_id}-{version}-{project_id}'` */
  function TestcaseZipName(testcaseId: string, versionId: string, projectId: string): string {
    testcaseId + "-" + versionId + "-" + projectId
  }

  /** `background_testcase_zip_task` on store `s`, with bucket replies from `n` on. */
  function TestcaseJob(s: Store, replies: nat -> Storage.Reply, n: nat, jobId: string, projectId: string,
                       versionId: string, testcaseId: string): JobRun
  {
    var tc := TestcaseDetails(s, projectId, versionId, testcaseId);
    if tc.None? || !Truthy(Get(tc.value, "datasets", VNone)) then JobRun([InProgress, Failed(NoDatasets)], [])
    else
      match Iterate(Get(tc.value, "datasets", VNone))
      case None => JobRun([InProgress, Failed(Raised)], [])
      case Some(urls) =>
        var zipName := TestcaseZipName(testcaseId, versionId, projectId);
        Finish(jobId, zipName, PackUrls(zipName, urls, replies, n), replies, n)
  }

  /** `[{'testcase_id': ..., 'urls': tc.get('datasets')} for tc in testcases if tc.get('datasets')]` */
  function DatasetGroups(listing: seq<Doc>): (r: seq<(Value, Value)>)
    ensures |r| <= |listing|
    decreases |listing|
  {
    if listing == [] then []
    else
      var tc := listing[0];
      (if Truthy(Get(tc, "datasets", VNone)) then [(Get(tc, "testcase_id", VNone), Get(tc, "datasets", VNone))] else [])
      + DatasetGroups(listing[1..])
  }

  /** `f'{version}-{project_id}'` */
  function AllZipName(versionId: string, projectId: string): string {
    versionId + "-" + projectId
  }

  /** `background_zip_all_task` with `listing` as the test cases the store lists and bucket replies from `n` on. */
  function ZipAllJob(replies: nat -> Storage.Reply, n: nat, jobId: string, projectId: string, versionId: string,
                     listing: seq<Doc>): JobRun
  {
    var zipName := AllZipName(versionId, projectId);
    Finish(jobId, zipName, PackAll(zipName, DatasetGroups(listing), replies, n), replies, n)
  }

  // ---- The methods ----

  /** Records a job status (the job record is created when missing). */
  method RecordStatus(db: FirestoreDB, jobId: string, status: JobStatus)
    requires db.Valid()
    modifies db
    ensures db.Valid()
    ensures db.log == old(db.log) + JobWrites(jobId, [status])
    ensures forall p :: p != JobDoc(jobId) ==> (p in db.docs <==> p in old(db.docs)) && (p in db.docs ==> db.docs[p] == old(db.docs)[p])
  {
    db.UpdateDownloadJobStatus(jobId, status);
  }

  /** Unfolds the URL loop at position `i`. */
  lemma PackStep(prefix: string, urls: seq<Value>, i: nat, replies: nat -> Storage.Reply, n: nat)
    requires i < |urls|
    ensures !urls[i].VStr? ==> PackUrls(prefix, urls[i..], replies, n) == Pack([], [], false)
    ensures urls[i].VStr? && !StartsWith(urls[i].s, GsPrefix) ==>
              PackUrls(prefix, urls[i..], replies, n) == PackUrls(prefix, urls[i + 1..], replies, n)
    ensures urls[i].VStr? && StartsWith(urls[i].s, GsPrefix) ==>
              var rest := PackUrls(prefix, urls[i + 1..], replies, n + 1);
              PackUrls(prefix, urls[i..], replies, n)
              == Pack((if replies(n).ok then [(EntryName(prefix, urls[i].s), replies(n).content)] else []) + rest.entries,
                      [urls[i].s] + rest.fetches, rest.ok)
  {
    assert urls[i..][0] == urls[i] && urls[i..][1..] == urls[i + 1..];
  }

  /**
   * The loop that writes the files of `urls` into the archive: `entries` is the
   * archive after it, `ok` false when it raised.
   */
  method WriteEntries(bucket: Storage.Bucket, prefix: string, urls: seq<Value>) returns (entries: seq<Storage.ZipEntry>, ok: bool)
    modifies bucket
    ensures entries == PackUrls(prefix, urls, bucket.replies, |old(bucket.sent)|).entries
    ensures ok == PackUrls(prefix, urls, bucket.replies, |old(bucket.sent)|).ok
    ensures bucket.sent == old(bucket.sent) + Fetches(PackUrls(prefix, urls, bucket.replies, |old(bucket.sent)|).fetches)
  {
    ghost var replies := bucket.replies;
    ghost var whole := PackUrls(prefix, urls, replies, |bucket.sent|);
    ghost var fetched: seq<string> := [];
    ghost var rest := whole;
    entries := [];
    var i := 0;
    while i < |urls|
      invariant 0 <= i <= |urls|
      invariant bucket.replies == replies
      invariant bucket.sent == old(bucket.sent) + Fetches(fetched)
      invariant rest == PackUrls(prefix, urls[i..], replies, |bucket.sent|)
      invariant PackedSoFar(entries, fetched, rest, whole)
    {
      PackStep(prefix, urls, i, replies, |bucket.sent|);
      if !urls[i].VStr? {
        // `startswith` on a value that is not a string raises
        assert entries + [] == entries && fetched + [] == fetched;
        return entries, false;
      }
      var url := urls[i].s;
      if StartsWith(url, GsPrefix) {
        var fetchedOk, content := bucket.GetFile(url);
        FetchesAppend(fetched, [url]);
        ghost var next := PackUrls(prefix, urls[i + 1..], replies, |bucket.sent|);
        if fetchedOk {
          var entry := (EntryName(prefix, url), content);
          PackedAdvance(entries, fetched, [entry], [url], rest, next, whole);
          entries := entries + [entry];
        } else {
          PackedAdvance(entries, fetched, [], [url], rest, next, whole);
          assert entries + [] == entries;
        }
        fetched := fetched + [url];
        rest := next;
      } else {
        rest := PackUrls(prefix, urls[i + 1..], replies, |bucket.sent|);
      }
      i := i + 1;
    }
    assert urls[i..] == [];
    assert entries + [] == entries && fetched + [] == fetched;
    return entries, true;
  }

  /** `entries` and `fetched` are what the loop has done of `whole`, with `rest` still to do. */
  predicate PackedSoFar(entries: seq<Storage.ZipEntry>, fetched: seq<string>, rest: Pack, whole: Pack) {
    entries + rest.entries == whole.entries && fetched + rest.fetches == whole.fetches && rest.ok == whole.ok
  }

  lemma PackedAdvance(entries: seq<Storage.ZipEntry>, fetched: seq<string>, e: seq<Storage.ZipEntry>, f: seq<string>,
                      rest: Pack, next: Pack, whole: Pack)
    requires PackedSoFar(entries, fetched, rest, whole)
    requires rest == Pack(e + next.entries, f + next.fetches, next.ok)
    ensures PackedSoFar(entries + e, fetched + f, next, whole)
  {
    Seqs.Regroup3(entries, e, next.entries);
    Seqs.Regroup3(fetched, f, next.fetches);
  }

  /**
   * The loop over the selected test cases of the zip-all job, each one's URLs
   * written by `WriteEntries` under its own prefix.
   */
  method WriteAllEntries(bucket: Storage.Bucket, zipName: string, groups: seq<(Value, Value)>)
    returns (entries: seq<Storage.ZipEntry>, ok: bool)
    modifies bucket
    ensures entries == PackAll(zipName, groups, bucket.replies, |old(bucket.sent)|).entries
    ensures ok == PackAll(zipName, groups, bucket.replies, |old(bucket.sent)|).ok
    ensures bucket.sent == old(bucket.sent) + Fetches(PackAll(zipName, groups, bucket.replies, |old(bucket.sent)|).fetches)
  {
    ghost var replies, start := bucket.replies, bucket.sent;
    ghost var whole := PackAll(zipName, groups, replies, |start|);
    ghost var fetched: seq<string> := [];
    ghost var rest := whole;
    entries := [];
    var i := 0;
    while i < |groups|
      invariant 0 <= i <= |groups|
      invariant bucket.replies == replies
      invariant bucket.sent == start + Fetches(fetched)
      invariant rest == PackAll(zipName, groups[i..], replies, |bucket.sent|)
      invariant PackedSoFar(entries, fetched, rest, whole)
    {
      var urls := Iterate(groups[i].1);
      if urls.None? {
        // iterating over a value that is not iterable raises
        GroupRaises(zipName, groups, i, replies, |bucket.sent|, entries, fetched, rest, whole);
        return entries, false;
      }
      ghost var before := bucket.sent;
      var prefix := GroupPrefix(zipName, groups[i]);
      var written, groupOk := WriteEntries(bucket, prefix, urls.value);
      ghost var p := PackUrls(prefix, urls.value, replies, |before|);
      SentAdvance(start, fetched, before, p.fetches, bucket.sent);
      ghost var next := PackAll(zipName, groups[i + 1..], replies, |bucket.sent|);
      GroupAdvance(zipName, groups, i, replies, |before|, entries, fetched, rest, whole, p, next);
      if !groupOk {
        return entries + written, false;
      }
      entries := entries + written;
      fetched := fetched + p.fetches;
      rest := next;
      i := i + 1;
    }
    assert groups[i..] == [];
    assert entries + [] == entries && fetched + [] == fetched;
    return entries, true;
  }

  /** The prefix of the entry names of one test case: `f'{tc_id}-{zip_name}'`. */
  function GroupPrefix(zipName: string, group: (Value, Value)): string {
    PyStr(group.0) + "-" + zipName
  }

  lemma SentAdvance(start: seq<Storage.Request>, fetched: seq<string>, before: seq<Storage.Request>, f: seq<string>,
                    after: seq<Storage.Request>)
    requires before == start + Fetches(fetched) && after == before + Fetches(f)
    ensures after == start + Fetches(fetched + f) && |after| == |before| + |f|
  {
    FetchesAppend(fetched, f);
  }

  /** A test case whose data sets are not iterable ends the zip-all loop. */
  lemma GroupRaises(zipName: string, groups: seq<(Value, Value)>, i: nat, replies: nat -> Storage.Reply, n: nat,
                    entries: seq<Storage.ZipEntry>, fetched: seq<string>, rest: Pack, whole: Pack)
    requires i < |groups| && Iterate(groups[i].1).None?
    requires rest == PackAll(zipName, groups[i..], replies, n) && PackedSoFar(entries, fetched, rest, whole)
    ensures entries == whole.entries && fetched == whole.fetches && !whole.ok
  {
    assert groups[i..][0] == groups[i];
    assert entries + [] == entries && fetched + [] == fetched;
  }

  /** One test case of the zip-all loop: its URLs' pack `p`, then the rest of the loop, `next`. */
  lemma GroupAdvance(zipName: string, groups: seq<(Value, Value)>, i: nat, replies: nat -> Storage.Reply, n: nat,
                     entries: seq<Storage.ZipEntry>, fetched: seq<string>, rest: Pack, whole: Pack, p: Pack, next: Pack)
    requires i < |groups| && Iterate(groups[i].1).Some?
    requires rest == PackAll(zipName, groups[i..], replies, n) && PackedSoFar(entries, fetched, rest, whole)
    requires p == PackUrls(GroupPrefix(zipName, groups[i]), Iterate(groups[i].1).value, replies, n)
    requires next == PackAll(zipName, groups[i + 1..], replies, n + |p.fetches|)
    ensures !p.ok ==> entries + p.entries == whole.entries && fetched + p.fetches == whole.fetches && !whole.ok
    ensures p.ok ==> PackedSoFar(entries + p.entries, fetched + p.fetches, next, whole)
  {
    assert groups[i..][0] == groups[i] && groups[i..][1..] == groups[i + 1..];
    if p.ok {
      PackedAdvance(entries, fetched, p.entries, p.fetches, rest, next, whole);
    }
  }

  /**
   * The upload and the terminal status, after the loop: the job's records are
   * then `in_progress` and the status `Finish` gives, and the bucket calls the
   * fetches and the upload.
   */
  method FinishJob(db: FirestoreDB, bucket: Storage.Bucket, jobId: string, zipName: string,
                   entries: seq<Storage.ZipEntry>, ok: bool, ghost pack: Pack, ghost base: seq<Storage.Request>, ghost logBase: seq<Write>)
    requires db.Valid() && db.log == logBase + JobWrites(jobId, [InProgress])
    requires pack.entries == entries && pack.ok == ok && bucket.sent == base + Fetches(pack.fetches)
    modifies db, bucket
    ensures db.Valid()
    ensures db.log == logBase + JobWrites(jobId, Finish(jobId, zipName, pack, bucket.replies, |base|).statuses)
    ensures bucket.sent == base + Finish(jobId, zipName, pack, bucket.replies, |base|).requests
  {
    ghost var run := Finish(jobId, zipName, pack, bucket.replies, |base|);
    if !ok {
      RecordStatus(db, jobId, Failed(Raised));
    } else {
      var uploaded, url := bucket.UploadFile(entries, ZipContentType, UploadPath(jobId));
      Seqs.Regroup3(base, Fetches(pack.fetches), [Storage.Upload(pack.entries, ZipContentType, UploadPath(jobId))]);
      if !uploaded {
        RecordStatus(db, jobId, Failed(Raised));
      } else {
        RecordStatus(db, jobId, Completed(zipName + ".zip", url));
      }
    }
    Seqs.Regroup3(logBase, JobWrites(jobId, [InProgress]), JobWrites(jobId, run.statuses[1..]));
    assert JobWrites(jobId, [InProgress]) + JobWrites(jobId, run.statuses[1..]) == JobWrites(jobId, run.statuses);
  }

  /** A listing taken after a job record was written is a listing of the store before it. */
  lemma ListedAfterJobWrite(s: Store, s': Store, jobId: string, projectId: string, versionId: string,
                            paths: seq<Path>, listing: seq<Doc>)
    requires forall p :: p != JobDoc(jobId) ==> (p in s' <==> p in s) && (p in s' ==> s'[p] == s[p])
    requires ListedBy(s', projectId, versionId, paths, listing)
    ensures ListedBy(s, projectId, versionId, paths, listing)
  {
    forall k | 0 <= k < |paths|
      ensures paths[k] != JobDoc(jobId)
    {
      assert InTestcases(paths[k], projectId, versionId);
    }
  }

  /** `background_document_zip_task`. */
  method BackgroundDocumentZipTask(db: FirestoreDB, bucket: Storage.Bucket, jobId: string, projectId: string,
                                   versionId: string, docName: string)
    requires db.Valid()
    modifies db, bucket
    ensures db.Valid()
    ensures db.log == old(db.log) + JobWrites(jobId, DocumentJob(old(db.docs), bucket.replies, |old(bucket.sent)|, jobId, projectId, versionId, docName).statuses)
    ensures bucket.sent == old(bucket.sent) + DocumentJob(old(db.docs), bucket.replies, |old(bucket.sent)|, jobId, projectId, versionId, docName).requests
  {
    ghost var logBase, base := db.log, bucket.sent;
    ghost var run := DocumentJob(db.docs, bucket.replies, |bucket.sent|, jobId, projectId, versionId, docName);
    RecordStatus(db, jobId, InProgress);
    var versionData := db.GetVersionDetails(projectId, versionId);
    assert versionData == VersionDetails(old(db.docs), projectId, versionId) by {
      assert VersionDoc(projectId, versionId) != JobDoc(jobId);
    }
    if versionData.None? || !Truthy(Get(versionData.value, "files", VNone)) {
      RecordStatus(db, jobId, Failed(NoDocuments));
      return;
    }
    var items := Iterate(Get(versionData.value, "files", VList([])));
    var urls := if items.None? then None else DocumentUrls(items.value, docName);
    if urls.None? {
      // `item.get` on an item that is not a dictionary raises
      RecordStatus(db, jobId, Failed(Raised));
      return;
    }
    if urls.value == [] {
      RecordStatus(db, jobId, Failed(DocumentMissing));
      return;
    }
    var zipName := DocumentZipName(docName, versionId, projectId);
    var entries, ok := WriteEntries(bucket, zipName, urls.value);
    FinishJob(db, bucket, jobId, zipName, entries, ok, PackUrls(zipName, urls.value, bucket.replies, |base|), base, logBase);
  }

  /** `background_testcase_zip_task`. */
  method BackgroundTestcaseZipTask(db: FirestoreDB, bucket: Storage.Bucket, jobId: string, projectId: string,
                                   versionId: string, testcaseId: string)
    requires db.Valid()
    modifies db, bucket
    ensures db.Valid()
    ensures db.log == old(db.log) + JobWrites(jobId, TestcaseJob(old(db.docs), bucket.replies, |old(bucket.sent)|, jobId, projectId, versionId, testcaseId).statuses)
    ensures bucket.sent == old(bucket.sent) + TestcaseJob(old(db.docs), bucket.replies, |old(bucket.sent)|, jobId, projectId, versionId, testcaseId).requests
  {
    ghost var logBase, base := db.log, bucket.sent;
    RecordStatus(db, jobId, InProgress);
    var testcaseData := db.GetTestcaseDetails(projectId, versionId, testcaseId);
    assert testcaseData == TestcaseDetails(old(db.docs), projectId, versionId, testcaseId) by {
      assert TestcaseDoc(projectId, versionId, testcaseId) != JobDoc(jobId);
    }
    if testcaseData.None? || !Truthy(Get(testcaseData.value, "datasets", VNone)) {
      RecordStatus(db, jobId, Failed(NoDatasets));
      return;
    }
    var urls := Iterate(Get(testcaseData.value, "datasets", VNone));
    if urls.None? {
      // iterating over a value that is not iterable raises
      RecordStatus(db, jobId, Failed(Raised));
      return;
    }
    var zipName := TestcaseZipName(testcaseId, versionId, projectId);
    var entries, ok := WriteEntries(bucket, zipName, urls.value);
    FinishJob(db, bucket, jobId, zipName, entries, ok, PackUrls(zipName, urls.value, bucket.replies, |base|), base, logBase);
  }

  /**
   * `background_zip_all_task`; `listing` is the version's test cases as the
   * store listed them, in the order given by `paths`.
   */
  method BackgroundZipAllTask(db: FirestoreDB, bucket: Storage.Bucket, jobId: string, projectId: string, versionId: string)
    returns (ghost listing: seq<Doc>, ghost paths: seq<Path>)
    requires db.Valid()
    modifies db, bucket
    ensures db.Valid()
    ensures ListedBy(old(db.docs), projectId, versionId, paths, listing)
    ensures db.log == old(db.log) + JobWrites(jobId, ZipAllJob(bucket.replies, |old(bucket.sent)|, jobId, projectId, versionId, listing).statuses)
    ensures bucket.sent == old(bucket.sent) + ZipAllJob(bucket.replies, |old(bucket.sent)|, jobId, projectId, versionId, listing).requests
  {
    ghost var logBase, base := db.log, bucket.sent;
    RecordStatus(db, jobId, InProgress);
    var testcases;
    testcases, paths := db.GetTestcases(projectId, versionId);
    ListedAfterJobWrite(old(db.docs), db.docs, jobId, projectId, versionId, paths, testcases);
    listing := testcases;
    var groups := DatasetGroups(testcases);
    var zipName := AllZipName(versionId, projectId);
    var entries, ok := WriteAllEntries(bucket, zipName, groups);
    FinishJob(db, bucket, jobId, zipName, entries, ok, PackAll(zipName, groups, bucket.replies, |base|), base, logBase);
  }
}
