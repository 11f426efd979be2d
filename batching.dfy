/**
 * The selection filters and the 40-item batching of projects/background_functions.py
 * and projects/functions.py.
 */
module Batching {
  import opened Values

  /** The number of test cases sent in one bulk-create call. */
  const BatchSize: nat := 40

  /** The test-case field that records whether its issue was created, and its success value. */
  const CreatedField: string := "toolCreated"
  const CreatedOk: string := "SUCCESS"

  /**
   * Selected for creation: not deleted, marked NEW by change analysis, and not
   * already created successfully.
   */
  predicate IsNewTestcase(tc: Doc) {
    && !Truthy(Get(tc, "deleted", VBool(false)))
    && Get(tc, "change_analysis_status", VNone) == VStr("NEW")
    && Get(tc, CreatedField, VNone) != VStr(CreatedOk)
  }

  /** Selected for a summary update: not deleted and marked DEPRECATED by change analysis. */
  predicate IsDeprecatedTestcase(tc: Doc) {
    && !Truthy(Get(tc, "deleted", VBool(false)))
    && Get(tc, "change_analysis_status", VNone) == VStr("DEPRECATED")
  }

  /** `[tc for tc in s if keep(tc)]` */
  function Filter(s: seq<Doc>, keep: Doc -> bool): (r: seq<Doc>)
    ensures |r| <= |s|
    ensures forall x :: x in r <==> x in s && keep(x)
    decreases |s|
  {
    if s == [] then []
    else (if keep(s[0]) then [s[0]] else []) + Filter(s[1..], keep)
  }

  function SelectNew(tcs: seq<Doc>): seq<Doc> {
    Filter(tcs, IsNewTestcase)
  }

  function SelectDeprecated(tcs: seq<Doc>): seq<Doc> {
    Filter(tcs, IsDeprecatedTestcase)
  }

  /** Filtering keeps the order of the listing. */
  lemma {:induction false} FilterAppend(a: seq<Doc>, b: seq<Doc>, keep: Doc -> bool)
    ensures Filter(a + b, keep) == Filter(a, keep) + Filter(b, keep)
    decreases |a|
  {
    if a == [] {
      assert a + b == b;
    } else {
      assert (a + b)[0] == a[0];
      assert (a + b)[1..] == a[1..] + b;
      FilterAppend(a[1..], b, keep);
    }
  }

  /** A test case already created successfully is never selected again. */
  lemma CreatedNotReselected(tc: Doc)
    requires Get(tc, CreatedField, VNone) == VStr(CreatedOk)
    ensures !IsNewTestcase(tc)
  {
  }

  function Min(a: nat, b: nat): nat {
    if a <= b then a else b
  }

  /** `s[i : i + 40]` */
  function BatchAt<T>(s: seq<T>, i: nat): (r: seq<T>)
    requires i <= |s|
    ensures |r| == Min(BatchSize, |s| - i)
  {
    s[i..Min(i + BatchSize, |s|)]
  }

  /** The batches `range(0, len(s), 40)` produces, in order. */
  function Batches<T>(s: seq<T>): seq<seq<T>>
    decreases |s|
  {
    if s == [] then [] else [BatchAt(s, 0)] + Batches(s[|BatchAt(s, 0)|..])
  }

  function Flatten<T>(parts: seq<seq<T>>): seq<T>
    decreases |parts|
  {
    if parts == [] then [] else parts[0] + Flatten(parts[1..])
  }

  /** ceil(n / 40) */
  function NumBatches(n: nat): nat {
    (n + BatchSize - 1) / BatchSize
  }

  /**
   * The batches cover the list exactly once and in order, there are ceil(n/40)
   * of them, and each holds between 1 and 40 items.
   */
  lemma {:induction false} BatchesPartition<T>(s: seq<T>)
    ensures Flatten(Batches(s)) == s
    ensures |Batches(s)| == NumBatches(|s|)
    ensures forall j :: 0 <= j < |Batches(s)| ==> 1 <= |Batches(s)[j]| <= BatchSize
    decreases |s|
  {
    if s != [] {
      var b := BatchAt(s, 0);
      BatchesPartition(s[|b|..]);
      assert Batches(s)[1..] == Batches(s[|b|..]);
      assert b + s[|b|..] == s;
      if |s| > BatchSize {
        assert NumBatches(|s|) == NumBatches(|s| - BatchSize) + 1;
      } else {
        assert s[|b|..] == [];
      }
    }
  }

  /** Batch `j` is the slice starting at `40 * j`. */
  lemma {:induction false} BatchIsSlice<T>(s: seq<T>, j: nat)
    requires j < |Batches(s)|
    ensures BatchSize * j < |s| && Batches(s)[j] == BatchAt(s, BatchSize * j)
    decreases |s|
  {
    var b := BatchAt(s, 0);
    if j > 0 {
      BatchIsSlice(s[|b|..], j - 1);
      assert |b| == BatchSize;
      SliceShift(s, BatchSize, BatchSize * (j - 1));
    }
  }

  lemma SliceShift<T>(s: seq<T>, d: nat, i: nat)
    requires d <= |s| && i < |s| - d
    ensures BatchAt(s[d..], i) == BatchAt(s, d + i)
  {
  }
}
