/**
 * Specifications of the two hand-managed arrays of a vtkPVSource: the
 * duplicate-free consumer list and the array of input slots. The methods of
 * PVSource.Source are proved against these functions; the lemmas below state
 * what the functions mean.
 */
module PVSourceLinks {

  /** No element occurs twice. */
  ghost predicate NoDuplicates<T>(s: seq<T>) {
    forall i, j :: 0 <= i < j < |s| ==> s[i] != s[j]
  }

  /** The consumer list after adding `c`: unchanged when `c` is already there, else `c` goes last. */
  function Appended<T(==)>(s: seq<T>, c: T): seq<T> {
    if c in s then s else s + [c]
  }

  /** The consumer list after removing `c`: every element except `c`, in the original order. */
  function Removed<T(==)>(s: seq<T>, c: T): seq<T> {
    if |s| == 0 then []
    else Removed(s[..|s| - 1], c) + (if s[|s| - 1] == c then [] else [s[|s| - 1]])
  }

  /** `s` resized to `num` slots: the first min(|s|, num) slots kept, the rest `blank`. */
  function Resized<T>(s: seq<T>, num: nat, blank: T): seq<T> {
    seq(num, k requires 0 <= k < num => if k < |s| then s[k] else blank)
  }

  /** Slot `idx` of `s`, or `blank` when `idx` is outside `s`. */
  function SlotAt<T>(s: seq<T>, idx: int, blank: T): T {
    if 0 <= idx < |s| then s[idx] else blank
  }

  /** `s` after writing `v` into slot `idx`, growing `s` to idx + 1 slots first when it is shorter. */
  function Placed<T>(s: seq<T>, idx: nat, v: T, blank: T): seq<T> {
    (if idx < |s| then s else Resized(s, idx + 1, blank))[idx := v]
  }

  /** The number of slots of `s` that do not hold `blank`. */
  function Occupied<T(==)>(s: seq<T>, blank: T): nat {
    if |s| == 0 then 0
    else Occupied(s[..|s| - 1], blank) + (if s[|s| - 1] == blank then 0 else 1)
  }

  // ---------------------------------------------------------------------
  // Consumer list

  lemma AppendedFacts<T>(s: seq<T>, c: T)
    requires NoDuplicates(s)
    ensures NoDuplicates(Appended(s, c))
    ensures c in Appended(s, c)
    ensures c in s ==> Appended(s, c) == s
    ensures c !in s ==> |Appended(s, c)| == |s| + 1 && Appended(s, c)[..|s|] == s
                        && Appended(s, c)[|s|] == c
  {
  }

  lemma {:induction false} RemovedMembership<T>(s: seq<T>, c: T, x: T)
    ensures x in Removed(s, c) <==> x in s && x != c
  {
    if |s| > 0 {
      var init := s[..|s| - 1];
      RemovedMembership(init, c, x);
      assert s == init + [s[|s| - 1]];
    }
  }

  lemma {:induction false} RemovedAbsent<T>(s: seq<T>, c: T)
    requires c !in s
    ensures Removed(s, c) == s
  {
    if |s| > 0 {
      var init := s[..|s| - 1];
      RemovedAbsent(init, c);
      assert s == init + [s[|s| - 1]];
    }
  }

  lemma {:induction false} RemovedNoDuplicates<T>(s: seq<T>, c: T)
    requires NoDuplicates(s)
    ensures NoDuplicates(Removed(s, c))
  {
    if |s| > 0 {
      var init := s[..|s| - 1];
      var last := s[|s| - 1];
      RemovedNoDuplicates(init, c);
      RemovedMembership(init, c, last);
      assert forall j :: 0 <= j < |init| ==> init[j] == s[j] && init[j] != last;
    }
  }

  /**
   * Removing a consumer that occurs at position k splices it out: the list
   * shrinks by one and the remaining consumers keep their relative order.
   */
  lemma {:induction false} RemovedSplice<T>(s: seq<T>, c: T, k: nat)
    requires NoDuplicates(s) && k < |s| && s[k] == c
    ensures Removed(s, c) == s[..k] + s[k + 1..]
    ensures |Removed(s, c)| == |s| - 1
  {
    var init := s[..|s| - 1];
    var last := s[|s| - 1];
    assert s == init + [last];
    if k == |s| - 1 {
      assert forall j :: 0 <= j < |init| ==> init[j] == s[j] && init[j] != c;
      RemovedAbsent(init, c);
    } else {
      RemovedSplice(init, c, k);
      assert last != c;
      assert s[..k] + s[k + 1..] == init[..k] + init[k + 1..] + [last];
    }
  }

  /** Removing twice is removing once (RemoveAllPVInputs may remove from one input several times). */
  lemma RemovedTwice<T>(s: seq<T>, c: T)
    ensures Removed(Removed(s, c), c) == Removed(s, c)
  {
    RemovedMembership(s, c, c);
    RemovedAbsent(Removed(s, c), c);
  }

  /** Removing undoes adding: a consumer attached and then detached leaves the list as it was. */
  lemma RemovedUndoesAppended<T>(s: seq<T>, c: T)
    requires c !in s
    ensures Removed(Appended(s, c), c) == s
  {
    var t := s + [c];
    assert t[..|t| - 1] == s;
    RemovedAbsent(s, c);
  }

  // ---------------------------------------------------------------------
  // Input slots

  lemma ResizedFacts<T>(s: seq<T>, num: nat, blank: T)
    ensures |Resized(s, num, blank)| == num
    ensures forall k :: 0 <= k < num && k < |s| ==> Resized(s, num, blank)[k] == s[k]
    ensures forall k :: |s| <= k < num ==> Resized(s, num, blank)[k] == blank
    ensures num == |s| ==> Resized(s, num, blank) == s
  {
  }

  /** Writing a slot changes that slot only; growing adds blank slots. */
  lemma PlacedFacts<T>(s: seq<T>, idx: nat, v: T, blank: T)
    ensures |Placed(s, idx, v, blank)| == if idx < |s| then |s| else idx + 1
    ensures Placed(s, idx, v, blank)[idx] == v
    ensures forall k :: 0 <= k < |s| && k != idx ==> Placed(s, idx, v, blank)[k] == s[k]
    ensures forall k :: |s| <= k < idx ==> Placed(s, idx, v, blank)[k] == blank
  {
  }

  lemma OccupiedPrefix<T>(s: seq<T>, i: nat, blank: T)
    requires i < |s|
    ensures Occupied(s[..i + 1], blank) == Occupied(s[..i], blank) + (if s[i] == blank then 0 else 1)
  {
    assert s[..i + 1][..i] == s[..i];
  }

  /** A sequence of blanks has no occupied slot, and no sequence has more occupied slots than slots. */
  lemma {:induction false} OccupiedBounds<T>(s: seq<T>, blank: T)
    ensures Occupied(s, blank) <= |s|
    ensures Occupied(s, blank) == 0 <==> forall k :: 0 <= k < |s| ==> s[k] == blank
  {
    if |s| > 0 {
      var init := s[..|s| - 1];
      OccupiedBounds(init, blank);
      assert forall k :: 0 <= k < |init| ==> init[k] == s[k];
    }
  }
}
