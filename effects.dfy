/**
 * What a background task does to its collaborators: the store writes it makes
 * and the Jira calls it issues, each in order. The two logs are kept apart, so
 * how store writes interleave with Jira calls is not recorded.
 */
module Effects {
  import opened Values
  import opened Firestore
  import opened JiraClient

  datatype Trace = Trace(writes: seq<Write>, requests: seq<Request>)

  const Nothing: Trace := Trace([], [])

  /** `a` followed by `b`. */
  function Then(a: Trace, b: Trace): Trace {
    Trace(a.writes + b.writes, a.requests + b.requests)
  }

  /** The `status` values written to `target`, in order: the phases a version went through. */
  function Statuses(target: Path, ws: seq<Write>): seq<Value>
    decreases |ws|
  {
    if ws == [] then []
    else
      var w := ws[0];
      (if w.Update? && w.path == target && "status" in w.fields then [w.fields["status"]] else [])
      + Statuses(target, ws[1..])
  }

  lemma {:induction false} StatusesAppend(target: Path, a: seq<Write>, b: seq<Write>)
    ensures Statuses(target, a + b) == Statuses(target, a) + Statuses(target, b)
    decreases |a|
  {
    if a == [] {
      assert a + b == b;
    } else {
      assert (a + b)[0] == a[0];
      assert (a + b)[1..] == a[1..] + b;
      StatusesAppend(target, a[1..], b);
    }
  }

  /** Every write addresses a test-case document. */
  predicate TestcaseWrites(ws: seq<Write>)
    decreases |ws|
  {
    ws == [] || (ws[0].path.TestcaseDoc? && TestcaseWrites(ws[1..]))
  }

  lemma {:induction false} TestcaseWritesAppend(a: seq<Write>, b: seq<Write>)
    requires TestcaseWrites(a) && TestcaseWrites(b)
    ensures TestcaseWrites(a + b)
    decreases |a|
  {
    if a == [] {
      assert a + b == b;
    } else {
      assert (a + b)[0] == a[0];
      assert (a + b)[1..] == a[1..] + b;
      TestcaseWritesAppend(a[1..], b);
    }
  }

  /** Writes that touch only test-case documents record no version status. */
  lemma {:induction false} StatusesOfTestcaseWrites(target: Path, ws: seq<Write>)
    requires !target.TestcaseDoc? && TestcaseWrites(ws)
    ensures Statuses(target, ws) == []
    decreases |ws|
  {
    if ws != [] {
      StatusesOfTestcaseWrites(target, ws[1..]);
    }
  }

  /** The update that records a phase of a version. */
  function StatusWrite(projectId: string, versionId: string, status: string): Write {
    Update(VersionDoc(projectId, versionId), map["status" := VStr(status)])
  }

  lemma StatusOfStatusWrite(projectId: string, versionId: string, status: string)
    ensures Statuses(VersionDoc(projectId, versionId), [StatusWrite(projectId, versionId, status)]) == [VStr(status)]
  {
    assert [StatusWrite(projectId, versionId, status)][1..] == [];
  }
}
