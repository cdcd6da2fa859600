/**
 * The three iterators nested in IonReaderTreeSystem: Children, which walks a
 * container's live child list and re-finds its place by object identity, and
 * StringIterator / IdIterator, which walk a fixed array of annotations (one
 * generic ArrayIterator here).
 *
 * The re-location loop of Children.hasNext never advances its index, so it
 * only ends when the last child returned still sits where it was returned
 * from. Children.HasNext is modelled for the calls that end
 * (RelocationTerminates); the loop as written, its divergence and the scan it
 * was evidently meant to be are modelled by the functions at the end.
 */
module ReaderIterators {
  import opened IonValues

  class Children {
    const parent: IonNode
    var eof: bool
    var nextIdx: nat
    var curr: IonNode?

    /**
     * The children still to be returned, provided the list did not move under
     * the iterator since its last step.
     */
    ghost function Remaining(): seq<IonNode>
      reads this, parent
    {
      if eof || nextIdx >= |parent.contents| then [] else parent.contents[nextIdx..]
    }

    /** The child returned last is still just before the next index. */
    ghost predicate InSync()
      reads this, parent
    {
      !eof && nextIdx > 0 ==> nextIdx - 1 < |parent.contents| && parent.contents[nextIdx - 1] == curr
    }

    /**
     * The calls of hasNext that return: re-location is skipped, or the list has
     * shrunk below the last position, or the last child returned is still at
     * nextIdx - 1. In every other state the source's loop spins forever.
     */
    ghost predicate RelocationTerminates()
      reads this, parent
    {
      !eof && nextIdx > 0 && nextIdx - 1 < |parent.contents| ==> parent.contents[nextIdx - 1] == curr
    }

    constructor (parent: IonNode)
      requires parent.kind.IsContainer()
      ensures this.parent == parent && nextIdx == 0 && curr == null
      ensures eof == parent.isNull
      ensures Remaining() == if parent.isNull then [] else parent.contents
      ensures InSync()
    {
      this.parent := parent;
      nextIdx := 0;
      curr := null;
      // a null container has an empty child list that must not be walked
      eof := parent.isNull;
    }

    method HasNext() returns (b: bool)
      requires RelocationTerminates()
      modifies this
      ensures eof == (old(eof) || old(nextIdx) >= |parent.contents|)
      ensures nextIdx == if !old(eof) && old(nextIdx) > |parent.contents| then |parent.contents| else old(nextIdx)
      ensures curr == old(curr)
      ensures b == !eof
      ensures b <==> Remaining() != []
      ensures Remaining() == old(Remaining())
      ensures InSync()
    {
      if eof {
        return false;
      }
      var len := |parent.contents|;
      if nextIdx > 0 {
        var ii := nextIdx - 1;
        nextIdx := len;  // if the current child is gone, the iterator is at its end
        // The source loops `while (ii < len)` without ever advancing ii: the
        // first test either finds the child and breaks, or repeats forever.
        if ii < len {
          if curr == parent.contents[ii] {
            nextIdx := ii + 1;
          } else {
            assert false;
          }
        }
      }
      if nextIdx >= |parent.contents| {
        eof := true;
      }
      b := !eof;
    }

    method Next() returns (r: IonNode?)
      requires RelocationTerminates()
      modifies this
      ensures old(Remaining()) == [] ==> r == null && eof
      ensures old(Remaining()) != [] ==> r == old(Remaining())[0] && Remaining() == old(Remaining())[1..]
      ensures curr == r
      ensures eof == (old(eof) || old(nextIdx) >= |parent.contents|)
      ensures !eof ==> nextIdx == old(nextIdx) + 1
      ensures eof ==> nextIdx == if !old(eof) && old(nextIdx) > |parent.contents| then |parent.contents| else old(nextIdx)
      ensures InSync()
    {
      var more := HasNext();
      if !more {
        curr := null;
      } else {
        curr := parent.contents[nextIdx];
        nextIdx := nextIdx + 1;
      }
      r := curr;
    }
  }

  /** StringIterator and IdIterator: a cursor over a fixed array. */
  class ArrayIterator<T> {
    const values: seq<T>
    var pos: nat

    constructor (values: seq<T>)
      ensures this.values == values && pos == 0
    {
      this.values := values;
      pos := 0;
    }

    function HasNext(): (b: bool)
      reads this
      ensures b <==> pos < |values|
    {
      pos < |values|
    }

    method Next() returns (r: Outcome<T>)
      modifies this
      ensures old(pos) < |values| ==> r == Ok(values[old(pos)]) && pos == old(pos) + 1
      ensures old(pos) >= |values| ==> r == Thrown(NoSuchElement) && pos == old(pos)
    {
      if !HasNext() {
        return Thrown(NoSuchElement);
      }
      r := Ok(values[pos]);
      pos := pos + 1;
    }
  }

  /** The variables of the re-location loop: the probe index, nextIdx, and whether it broke out. */
  datatype LoopState = LoopState(ii: int, nextIdx: int, exited: bool)

  /** One pass of the re-location loop body as written: it never changes ii. */
  function RelocationBody(contents: seq<IonNode>, curr: IonNode?, s: LoopState): (t: LoopState)
    requires 0 <= s.ii < |contents|
    ensures t.ii == s.ii
    ensures contents[s.ii] == curr ==> t.exited && t.nextIdx == s.ii + 1
    ensures contents[s.ii] != curr ==> t == s
  {
    if curr == contents[s.ii] then LoopState(s.ii, s.ii + 1, true) else s
  }

  /** The re-location loop as written, run for at most `fuel` iterations. */
  function RelocationAsWritten(contents: seq<IonNode>, curr: IonNode?, s: LoopState, fuel: nat): (t: LoopState)
    requires 0 <= s.ii
    ensures t.ii == s.ii
    ensures t.exited && !s.exited ==> s.ii < |contents| && contents[s.ii] == curr && t.nextIdx == s.ii + 1
    ensures !t.exited ==> t == s
    decreases fuel
  {
    if fuel == 0 || s.exited || s.ii >= |contents| then s
    else RelocationAsWritten(contents, curr, RelocationBody(contents, curr, s), fuel - 1)
  }

  /** When the child at ii is not the current one, no number of iterations changes anything. */
  lemma {:induction false} RelocationDiverges(contents: seq<IonNode>, curr: IonNode?, s: LoopState, fuel: nat)
    requires 0 <= s.ii < |contents| && contents[s.ii] != curr && !s.exited
    ensures RelocationAsWritten(contents, curr, s, fuel) == s
  {
    if fuel > 0 {
      RelocationDiverges(contents, curr, s, fuel - 1);
    }
  }

  /**
   * Entered with ii < len, the loop as written leaves after some number of
   * iterations exactly when the child at ii is the current one.
   */
  lemma {:induction false} RelocationExitsIff(contents: seq<IonNode>, curr: IonNode?, ii: nat, fuel: nat)
    requires ii < |contents| && fuel > 0
    ensures RelocationAsWritten(contents, curr, LoopState(ii, |contents|, false), fuel).exited
            <==> contents[ii] == curr
  {
    var s := LoopState(ii, |contents|, false);
    if contents[ii] != curr {
      RelocationDiverges(contents, curr, s, fuel);
    } else {
      assert RelocationBody(contents, curr, s) == LoopState(ii, ii + 1, true);
    }
  }

  /** The evidently intended search: the first index at or after ii that holds the current child. */
  function RelocationScan(contents: seq<IonNode>, curr: IonNode?, ii: nat): (r: Option<nat>)
    decreases |contents| - ii
    ensures r.Some? ==> ii <= r.value < |contents| && contents[r.value] == curr
    ensures r.Some? ==> forall j :: ii <= j < r.value ==> contents[j] != curr
    ensures r.None? ==> forall j :: ii <= j < |contents| ==> contents[j] != curr
  {
    if ii >= |contents| then None
    else if contents[ii] == curr then Some(ii)
    else RelocationScan(contents, curr, ii + 1)
  }

  /** nextIdx after the intended re-location: just past the current child, or the end when it is gone. */
  function RelocatedNextIdx(contents: seq<IonNode>, curr: IonNode?, ii: nat): (n: nat)
    ensures n <= |contents|
    ensures n < |contents| ==> 0 < n && contents[n - 1] == curr
    ensures (forall j :: ii <= j < |contents| ==> contents[j] != curr) ==> n == |contents|
  {
    match RelocationScan(contents, curr, ii)
    case Some(j) => j + 1
    case None => |contents|
  }

  /**
   * Where the loop as written does end (the child is still at ii, or ii is
   * past the end), it ends with the nextIdx the intended scan computes; the
   * cursor's Children.HasNext runs only in these cases.
   */
  lemma RelocationAgreesWhenTerminating(contents: seq<IonNode>, curr: IonNode?, ii: nat, fuel: nat)
    requires fuel > 0
    requires ii < |contents| ==> contents[ii] == curr
    ensures RelocationAsWritten(contents, curr, LoopState(ii, |contents|, false), fuel).nextIdx
            == RelocatedNextIdx(contents, curr, ii)
  {
    if ii < |contents| {
      assert RelocationBody(contents, curr, LoopState(ii, |contents|, false)) == LoopState(ii, ii + 1, true);
    }
  }
}
