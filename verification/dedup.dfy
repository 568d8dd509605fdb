/**
 The store of accepted plate boxes and the duplicate test run against it.
 The store is a sequence that only ever grows at its end.
 */
module Dedup {
  import opened Geometry

  /** The reference verdict: some stored box overlaps the candidate by more
      than the threshold. */
  predicate IsDuplicate(store: seq<Box>, candidate: Box)
  {
    exists i :: 0 <= i < |store| && Overlaps(candidate, store[i])
  }

  /** The store invariant kept by accepting only non-duplicates: no stored
      box overlaps an earlier one. */
  predicate NoOverlap(store: seq<Box>)
  {
    forall i, j :: 0 <= i < j < |store| ==> !Overlaps(store[j], store[i])
  }

  /** The scan of the store as the capture loop runs it: visit the stored
      boxes in order and stop at the first one that overlaps. `scanned`
      counts the boxes compared. Its verdict is exactly `IsDuplicate`, so
      `Record` and the acceptance step decide with the predicate and this
      scan is the loop that implements it. */
  method FindDuplicate(store: seq<Box>, candidate: Box) returns (duplicate: bool, scanned: nat)
    ensures duplicate <==> IsDuplicate(store, candidate)
    ensures scanned <= |store|
    ensures duplicate ==> 0 < scanned && Overlaps(candidate, store[scanned - 1])
    ensures !duplicate ==> scanned == |store|
    ensures forall i :: 0 <= i < scanned - 1 ==> !Overlaps(candidate, store[i])
  {
    duplicate := false;
    scanned := 0;
    while scanned < |store|
      invariant scanned <= |store|
      invariant forall i :: 0 <= i < scanned ==> !Overlaps(candidate, store[i])
    {
      var saved := store[scanned];
      scanned := scanned + 1;
      if Overlaps(candidate, saved) {
        duplicate := true;
        return;
      }
    }
  }

  /** The verdict depends on which boxes are stored, not on their order or
      repetition. */
  lemma DuplicateIgnoresOrder(s1: seq<Box>, s2: seq<Box>, candidate: Box)
    requires forall b :: b in s1 <==> b in s2
    ensures IsDuplicate(s1, candidate) <==> IsDuplicate(s2, candidate)
  {
    if IsDuplicate(s1, candidate) {
      var i :| 0 <= i < |s1| && Overlaps(candidate, s1[i]);
      assert s1[i] in s2;
      var j :| 0 <= j < |s2| && s2[j] == s1[i];
    }
    if IsDuplicate(s2, candidate) {
      var j :| 0 <= j < |s2| && Overlaps(candidate, s2[j]);
      assert s2[j] in s1;
      var i :| 0 <= i < |s1| && s1[i] == s2[j];
    }
  }

  /** Recording a box: duplicates leave the store as it was, anything else
      goes on the end. */
  function Record(store: seq<Box>, candidate: Box): (r: seq<Box>)
    ensures IsDuplicate(store, candidate) ==> r == store
    ensures !IsDuplicate(store, candidate) ==> |r| == |store| + 1 && r[|store|] == candidate
    ensures r[..|store|] == store
  {
    if IsDuplicate(store, candidate) then store else store + [candidate]
  }

  /** A duplicate stays a duplicate as the store grows at its end. */
  lemma DuplicateGrows(small: seq<Box>, big: seq<Box>, candidate: Box)
    requires |small| <= |big| && big[..|small|] == small
    requires IsDuplicate(small, candidate)
    ensures IsDuplicate(big, candidate)
  {
    var i :| 0 <= i < |small| && Overlaps(candidate, small[i]);
    assert big[i] == small[i];
  }

  lemma RecordPreservesNoOverlap(store: seq<Box>, candidate: Box)
    requires NoOverlap(store)
    ensures NoOverlap(Record(store, candidate))
  {
    var r := Record(store, candidate);
    forall i, j | 0 <= i < j < |r|
      ensures !Overlaps(r[j], r[i])
    {
      if j == |store| {
        assert r[i] == store[i];
      } else {
        assert r[i] == store[i] && r[j] == store[j];
      }
    }
  }

  /** A valid box just recorded is a duplicate of the new store, so
      recording it again changes nothing. */
  lemma RecordIdempotent(store: seq<Box>, candidate: Box)
    requires Valid(candidate)
    ensures IsDuplicate(Record(store, candidate), candidate)
    ensures Record(Record(store, candidate), candidate) == Record(store, candidate)
  {
    var r := Record(store, candidate);
    if !IsDuplicate(store, candidate) {
      IouSelf(candidate);
      assert Overlaps(candidate, r[|store|]);
    }
  }

  /** A box shifted by one pixel against a stored 11-by-11 box is the same
      plate (ratio 100/142); a far-away box is new (ratio 0). */
  lemma DuplicateExamples()
    ensures IsDuplicate([Box(0, 0, 10, 10)], Box(1, 1, 11, 11))
    ensures !IsDuplicate([Box(0, 0, 10, 10)], Box(50, 50, 60, 60))
  {
    var stored, near, far := Box(0, 0, 10, 10), Box(1, 1, 11, 11), Box(50, 50, 60, 60);
    assert InterArea(near, stored) == 100 && Union(near, stored) == 142;
    OverlapsIffCrossMultiplied(near, stored);
    assert [stored][0] == stored;
    assert InterWidth(far, stored) == 0;
  }
}
