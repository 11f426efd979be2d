/**
 * Completeness of the zip-all task of projects/background_functions.py: which
 * URLs it fetches, in which order, and which entries it keeps.
 */
module ZipAllProperties {
  import opened Wrappers
  import opened Values
  import opened Firestore
  import opened Text
  import opened Seqs
  import Storage
  import opened ArchiveJobs
  import opened ArchiveProperties

  /** Each selected test case's entry-name prefix, under zip name `zipName`. */
  function GroupPrefixes(zipName: string): ((Value, Value)) -> string {
    group => GroupPrefix(zipName, group)
  }

  /**
   * The zip-all loop of PackAll with the entry-name prefix of each test case
   * drawn from `prefixOf`; PackAllGroups shows the two agree.
   */
  function PackGroups(prefixOf: ((Value, Value)) -> string, groups: seq<(Value, Value)>, replies: nat -> Storage.Reply, n: nat): Pack
    decreases |groups|
  {
    if groups == [] then Pack([], [], true)
    else
      match Iterate(groups[0].1)
      case None => Pack([], [], false)
      case Some(urls) =>
        var p := PackUrls(prefixOf(groups[0]), urls, replies, n);
        if !p.ok then p
        else
          var rest := PackGroups(prefixOf, groups[1..], replies, n + |p.fetches|);
          Pack(p.entries + rest.entries, p.fetches + rest.fetches, rest.ok)
  }

  lemma {:induction false} PackAllGroups(zipName: string, groups: seq<(Value, Value)>, replies: nat -> Storage.Reply, n: nat)
    ensures PackAll(zipName, groups, replies, n) == PackGroups(GroupPrefixes(zipName), groups, replies, n)
    decreases |groups|
  {
    if groups != [] {
      var urls := Iterate(groups[0].1);
      if urls.Some? {
        assert GroupPrefixes(zipName)(groups[0]) == GroupPrefix(zipName, groups[0]);
        var p := PackUrls(GroupPrefix(zipName, groups[0]), urls.value, replies, n);
        if p.ok {
          PackAllGroups(zipName, groups[1..], replies, n + |p.fetches|);
        }
      }
    }
  }

  /** One turn of the zip-all loop, over a first group whose datasets are iterable. */
  lemma PackGroupsFirst(prefixOf: ((Value, Value)) -> string, groups: seq<(Value, Value)>, replies: nat -> Storage.Reply, n: nat,
                        urls: seq<Value>)
    requires groups != [] && Iterate(groups[0].1) == Some(urls)
    ensures var p := PackUrls(prefixOf(groups[0]), urls, replies, n);
            var rest := PackGroups(prefixOf, groups[1..], replies, n + |p.fetches|);
            PackGroups(prefixOf, groups, replies, n)
            == if p.ok then Pack(p.entries + rest.entries, p.fetches + rest.fetches, rest.ok) else p
  {
  }

  /** Every group's datasets are iterable and hold only strings: the zip-all loop then runs to its end. */
  predicate AllGroupsStrings(groups: seq<(Value, Value)>) {
    forall j :: 0 <= j < |groups| ==> Iterate(groups[j].1).Some? && AllStrings(Iterate(groups[j].1).value)
  }

  /** The `gs://` URLs of one group's datasets, none when they are not iterable. */
  function GroupFetches(group: (Value, Value)): seq<string> {
    match Iterate(group.1)
    case Some(urls) => GsUrls(urls)
    case None => []
  }

  /** The `gs://` URLs of every group's datasets, group after group: what zip-all means to fetch. */
  function GroupUrls(groups: seq<(Value, Value)>): seq<string>
    decreases |groups|
  {
    if groups == [] then [] else GroupFetches(groups[0]) + GroupUrls(groups[1..])
  }

  /** The entries of the fetches that succeeded, group after group, each named after its group's prefix. */
  function KeptGroups(prefixOf: ((Value, Value)) -> string, groups: seq<(Value, Value)>, replies: nat -> Storage.Reply, n: nat)
    : seq<Storage.ZipEntry>
    decreases |groups|
  {
    if groups == [] then []
    else
      Kept(prefixOf(groups[0]), GroupFetches(groups[0]), replies, n)
      + KeptGroups(prefixOf, groups[1..], replies, n + |GroupFetches(groups[0])|)
  }

  lemma AllGroupsStringsCons(groups: seq<(Value, Value)>)
    requires groups != []
    ensures AllGroupsStrings(groups) <==>
              Iterate(groups[0].1).Some? && AllStrings(Iterate(groups[0].1).value) && AllGroupsStrings(groups[1..])
  {
    if Iterate(groups[0].1).Some? && AllStrings(Iterate(groups[0].1).value) && AllGroupsStrings(groups[1..]) {
      forall j | 0 <= j < |groups| ensures Iterate(groups[j].1).Some? && AllStrings(Iterate(groups[j].1).value) {
        if j > 0 {
          assert groups[j] == groups[1..][j - 1];
        }
      }
    }
    if AllGroupsStrings(groups) {
      forall j | 0 <= j < |groups[1..]|
        ensures Iterate(groups[1..][j].1).Some? && AllStrings(Iterate(groups[1..][j].1).value)
      {
        assert groups[1..][j] == groups[j + 1];
      }
    }
  }

  /** The zip-all loop raising in its first group. */
  lemma PackGroupsStops(prefixOf: ((Value, Value)) -> string, groups: seq<(Value, Value)>, replies: nat -> Storage.Reply, n: nat,
                        urls: seq<Value>, p: Pack)
    requires groups != [] && Iterate(groups[0].1) == Some(urls)
    requires p == PackUrls(prefixOf(groups[0]), urls, replies, n) && !p.ok && p.fetches <= GsUrls(urls)
    ensures var q := PackGroups(prefixOf, groups, replies, n);
            !q.ok && q.fetches <= GroupUrls(groups)
  {
    PackGroupsFirst(prefixOf, groups, replies, n, urls);
    assert GroupUrls(groups) == GsUrls(urls) + GroupUrls(groups[1..]);
    PrefixExtend(p.fetches, GsUrls(urls), GroupUrls(groups[1..]));
  }

  lemma GroupUrlsCons(groups: seq<(Value, Value)>)
    requires groups != []
    ensures GroupUrls(groups) == GroupFetches(groups[0]) + GroupUrls(groups[1..])
  {
  }

  lemma KeptGroupsCons(prefixOf: ((Value, Value)) -> string, groups: seq<(Value, Value)>, replies: nat -> Storage.Reply, n: nat,
                       fetches: seq<string>)
    requires groups != [] && fetches == GroupFetches(groups[0])
    ensures KeptGroups(prefixOf, groups, replies, n)
            == Kept(prefixOf(groups[0]), fetches, replies, n) + KeptGroups(prefixOf, groups[1..], replies, n + |fetches|)
  {
  }

  /** One turn of the zip-all loop over a first group that runs to its end. */
  lemma PackGroupsJoins(prefixOf: ((Value, Value)) -> string, groups: seq<(Value, Value)>, replies: nat -> Storage.Reply, n: nat,
                        urls: seq<Value>, p: Pack, rest: Pack)
    requires groups != [] && Iterate(groups[0].1) == Some(urls)
    requires p == PackUrls(prefixOf(groups[0]), urls, replies, n) && p.ok
    requires rest == PackGroups(prefixOf, groups[1..], replies, n + |p.fetches|)
    ensures PackGroups(prefixOf, groups, replies, n) == Pack(p.entries + rest.entries, p.fetches + rest.fetches, rest.ok)
  {
  }

  /** The zip-all loop running its first group to the end, given what the rest of the loop does. */
  lemma PackGroupsStep(prefixOf: ((Value, Value)) -> string, groups: seq<(Value, Value)>, replies: nat -> Storage.Reply, n: nat,
                       urls: seq<Value>, p: Pack, rest: Pack)
    requires groups != [] && Iterate(groups[0].1) == Some(urls)
    requires p == PackUrls(prefixOf(groups[0]), urls, replies, n)
    requires p.ok && p.fetches == GsUrls(urls) && p.entries == Kept(prefixOf(groups[0]), p.fetches, replies, n)
    requires rest == PackGroups(prefixOf, groups[1..], replies, n + |p.fetches|)
    requires rest.fetches <= GroupUrls(groups[1..])
    requires rest.ok ==> rest.fetches == GroupUrls(groups[1..]) && rest.entries == KeptGroups(prefixOf, groups[1..], replies, n + |p.fetches|)
    ensures var q := PackGroups(prefixOf, groups, replies, n);
            && q.ok == rest.ok
            && q.fetches <= GroupUrls(groups)
            && (q.ok ==> q.fetches == GroupUrls(groups) && q.entries == KeptGroups(prefixOf, groups, replies, n))
  {
    PackGroupsJoins(prefixOf, groups, replies, n, urls, p, rest);
    var q := PackGroups(prefixOf, groups, replies, n);
    assert GroupFetches(groups[0]) == p.fetches;
    GroupUrlsCons(groups);
    KeptGroupsCons(prefixOf, groups, replies, n, p.fetches);
    PackJoin(q, p, rest, GroupUrls(groups), GroupUrls(groups[1..]),
             KeptGroups(prefixOf, groups, replies, n), KeptGroups(prefixOf, groups[1..], replies, n + |p.fetches|));
  }

  /** Joining a first group that ran to the end with the rest of the loop. */
  lemma PackJoin(q: Pack, first: Pack, rest: Pack, wanted: seq<string>, wantedLater: seq<string>,
                 kept: seq<Storage.ZipEntry>, keptLater: seq<Storage.ZipEntry>)
    requires q == Pack(first.entries + rest.entries, first.fetches + rest.fetches, rest.ok)
    requires wanted == first.fetches + wantedLater && kept == first.entries + keptLater
    requires rest.fetches <= wantedLater
    requires rest.ok ==> rest.fetches == wantedLater && rest.entries == keptLater
    ensures q.ok == rest.ok && q.fetches <= wanted
    ensures q.ok ==> q.fetches == wanted && q.entries == kept
  {
    PrefixAppend(first.fetches, rest.fetches, wantedLater);
  }

  lemma {:induction false} PackGroupsContents(prefixOf: ((Value, Value)) -> string, groups: seq<(Value, Value)>,
                                              replies: nat -> Storage.Reply, n: nat)
    ensures var p := PackGroups(prefixOf, groups, replies, n);
            && (p.ok <==> AllGroupsStrings(groups))
            && p.fetches <= GroupUrls(groups)
            && (p.ok ==> p.fetches == GroupUrls(groups) && p.entries == KeptGroups(prefixOf, groups, replies, n))
    decreases |groups|
  {
    if groups != [] {
      AllGroupsStringsCons(groups);
      var urls := Iterate(groups[0].1);
      if urls.Some? {
        var p := PackUrls(prefixOf(groups[0]), urls.value, replies, n);
        PackUrlsContents(prefixOf(groups[0]), urls.value, replies, n);
        if p.ok {
          var rest := PackGroups(prefixOf, groups[1..], replies, n + |p.fetches|);
          PackGroupsContents(prefixOf, groups[1..], replies, n + |p.fetches|);
          PackGroupsStep(prefixOf, groups, replies, n, urls.value, p, rest);
        } else {
          PackGroupsStops(prefixOf, groups, replies, n, urls.value, p);
        }
      } else {
        assert PackGroups(prefixOf, groups, replies, n) == Pack([], [], false);
      }
    }
  }

  /**
   * The zip-all loop runs to its end exactly when every group's datasets are a
   * list (or other iterable) of strings; it then fetches every `gs://` URL of
   * every group in order and keeps the fetches that succeeded, named after
   * their group. When it raises, what it fetched is a prefix of those URLs.
   */
  lemma PackAllContents(zipName: string, groups: seq<(Value, Value)>, replies: nat -> Storage.Reply, n: nat)
    ensures var p := PackAll(zipName, groups, replies, n);
            && (p.ok <==> AllGroupsStrings(groups))
            && p.fetches <= GroupUrls(groups)
            && (p.ok ==> p.fetches == GroupUrls(groups) && p.entries == KeptGroups(GroupPrefixes(zipName), groups, replies, n))
  {
    PackAllGroups(zipName, groups, replies, n);
    PackGroupsContents(GroupPrefixes(zipName), groups, replies, n);
  }

  /**
   * The zip-all job fetches, when every selected test case's datasets are
   * strings, each `gs://` URL of each in order and uploads the fetches that
   * succeeded; otherwise it fails without uploading.
   */
  lemma ZipAllJobFetches(replies: nat -> Storage.Reply, n: nat, jobId: string, projectId: string, versionId: string,
                         listing: seq<Doc>)
    ensures var groups := DatasetGroups(listing);
            var r := ZipAllJob(replies, n, jobId, projectId, versionId, listing);
            && (AllGroupsStrings(groups) ==>
                  r.requests == Fetches(GroupUrls(groups))
                                + [Storage.Upload(KeptGroups(GroupPrefixes(AllZipName(versionId, projectId)), groups, replies, n),
                                                  ZipContentType, UploadPath(jobId))])
            && (!AllGroupsStrings(groups) ==> r.statuses == [InProgress, Failed(Raised)] && !Uploads(r.requests))
  {
    var groups := DatasetGroups(listing);
    var p := PackAll(AllZipName(versionId, projectId), groups, replies, n);
    PackAllContents(AllZipName(versionId, projectId), groups, replies, n);
    FetchesOnly(p.fetches);
  }
}
