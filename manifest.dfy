/**
 * The completion manifest of GenericS3Dao.completeMultipartUpload: the parts
 * whose futures produced a CompletedPart, sorted by part number.
 */
module Manifest {
  import opened Wrappers
  import opened S3Api

  /**
   * The non-null results, in the order of the list of futures: what the join
   * loop appends to `completedParts`.
   */
  function Kept(results: seq<Option<CompletedPart>>): (parts: seq<CompletedPart>)
    ensures |parts| <= |results|
    ensures forall p :: p in parts <==> Some(p) in results
  {
    if results == [] then []
    else
      var init := results[..|results| - 1];
      var last := results[|results| - 1];
      assert results == init + [last];
      Kept(init) + (if last.Some? then [last.value] else [])
  }

  /** Joining one more future appends its part when it is not null. */
  lemma KeptAppend(results: seq<Option<CompletedPart>>, r: Option<CompletedPart>)
    ensures Kept(results + [r]) == Kept(results) + (if r.Some? then [r.value] else [])
  {
    assert (results + [r])[..|results|] == results;
  }

  /** When no result is null, every one is kept, in order. */
  lemma {:induction false} KeptAllPresent(results: seq<Option<CompletedPart>>)
    requires forall i :: 0 <= i < |results| ==> results[i].Some?
    ensures |Kept(results)| == |results|
    ensures forall i :: 0 <= i < |results| ==> Kept(results)[i] == results[i].value
  {
    if results != [] {
      var init := results[..|results| - 1];
      KeptAllPresent(init);
      assert Kept(results) == Kept(init) + [results[|results| - 1].value];
    }
  }

  ghost predicate SortedByPartNumber(parts: seq<CompletedPart>) {
    forall i, j :: 0 <= i < j < |parts| ==> parts[i].partNumber <= parts[j].partNumber
  }

  ghost predicate StrictlyAscending(parts: seq<CompletedPart>) {
    forall i, j :: 0 <= i < j < |parts| ==> parts[i].partNumber < parts[j].partNumber
  }

  /**
   * Inserts `p` before the first part whose number is not smaller, so before
   * any equal ones: parts that came first in the input stay first, which makes
   * the sort built on it stable.
   */
  function Insert(p: CompletedPart, sorted: seq<CompletedPart>): seq<CompletedPart> {
    if sorted == [] || p.partNumber <= sorted[0].partNumber then
      [p] + sorted
    else
      [sorted[0]] + Insert(p, sorted[1..])
  }

  /** Insertion adds `p` and loses nothing. */
  lemma {:induction false} InsertPermutes(p: CompletedPart, sorted: seq<CompletedPart>)
    ensures multiset(Insert(p, sorted)) == multiset(sorted) + multiset{p}
  {
    if sorted != [] && p.partNumber > sorted[0].partNumber {
      InsertPermutes(p, sorted[1..]);
      assert sorted == [sorted[0]] + sorted[1..];
    }
  }

  ghost predicate NumbersAtLeast(parts: seq<CompletedPart>, low: int) {
    forall j :: 0 <= j < |parts| ==> low <= parts[j].partNumber
  }

  /** No part number below `low` appears after an insertion that adds none. */
  lemma {:induction false} InsertAtLeast(p: CompletedPart, sorted: seq<CompletedPart>, low: int)
    requires low <= p.partNumber
    requires NumbersAtLeast(sorted, low)
    ensures NumbersAtLeast(Insert(p, sorted), low)
  {
    if sorted != [] && p.partNumber > sorted[0].partNumber {
      var tail := Insert(p, sorted[1..]);
      InsertAtLeast(p, sorted[1..], low);
      assert Insert(p, sorted) == [sorted[0]] + tail;
      forall j | 1 <= j < |tail| + 1
        ensures low <= Insert(p, sorted)[j].partNumber
      {
        assert Insert(p, sorted)[j] == tail[j - 1];
        assert low <= tail[j - 1].partNumber;
      }
    }
  }

  lemma SortedCons(head: CompletedPart, tail: seq<CompletedPart>)
    requires SortedByPartNumber(tail) && NumbersAtLeast(tail, head.partNumber)
    ensures SortedByPartNumber([head] + tail)
  {
    var r := [head] + tail;
    forall i, j | 0 <= i < j < |r|
      ensures r[i].partNumber <= r[j].partNumber
    {
      assert r[j] == tail[j - 1];
      if i > 0 {
        assert r[i] == tail[i - 1];
      }
    }
  }

  lemma SortedTail(parts: seq<CompletedPart>)
    requires SortedByPartNumber(parts) && parts != []
    ensures SortedByPartNumber(parts[1..]) && NumbersAtLeast(parts[1..], parts[0].partNumber)
  {
  }

  /** Inserting into a sorted list keeps it sorted. */
  lemma {:induction false} InsertSorted(p: CompletedPart, sorted: seq<CompletedPart>)
    requires SortedByPartNumber(sorted)
    ensures SortedByPartNumber(Insert(p, sorted))
  {
    if sorted == [] || p.partNumber <= sorted[0].partNumber {
      if sorted != [] {
        SortedTail(sorted);
        assert sorted == [sorted[0]] + sorted[1..];
        SortedCons(sorted[0], sorted[1..]);
      }
      SortedCons(p, sorted);
    } else {
      SortedTail(sorted);
      InsertSorted(p, sorted[1..]);
      InsertAtLeast(p, sorted[1..], sorted[0].partNumber);
      SortedCons(sorted[0], Insert(p, sorted[1..]));
    }
  }

  /**
   * `List.sort` with a comparator on part numbers: a stable sort. The result is
   * ascending by part number and a permutation of its input.
   */
  function SortByPartNumber(parts: seq<CompletedPart>): (r: seq<CompletedPart>)
    ensures SortedByPartNumber(r)
    ensures multiset(r) == multiset(parts)
  {
    if parts == [] then []
    else
      assert parts == [parts[0]] + parts[1..];
      var rest := SortByPartNumber(parts[1..]);
      InsertSorted(parts[0], rest);
      InsertPermutes(parts[0], rest);
      Insert(parts[0], rest)
  }

  /** Sorting a list already ascending by part number leaves it as it is. */
  lemma {:induction false} SortKeepsSorted(parts: seq<CompletedPart>)
    requires SortedByPartNumber(parts)
    ensures SortByPartNumber(parts) == parts
  {
    if parts != [] {
      SortKeepsSorted(parts[1..]);
      assert parts == [parts[0]] + parts[1..];
    }
  }

  /**
   * The manifest handed to completion: exactly the non-null results, each as
   * often as it occurs, ascending by part number.
   */
  function ManifestOf(results: seq<Option<CompletedPart>>): (m: seq<CompletedPart>)
    ensures SortedByPartNumber(m)
    ensures multiset(m) == multiset(Kept(results))
    ensures forall p :: p in m <==> Some(p) in results
  {
    var m := SortByPartNumber(Kept(results));
    assert forall p :: p in m <==> p in multiset(m);
    m
  }
}
