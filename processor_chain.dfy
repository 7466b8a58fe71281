/**
 * The display-path processor chain shared by both camera screens: every active
 * processor runs in list order on the previous one's output, the statuses are
 * ANDed into the shutter flag, and an intermediate `Mat` is released as soon as a
 * later stage replaces it, except for the rotated input frame, which belongs to
 * the caller. A stage that throws stops the chain; the exception leaves the loop.
 */
module ProcessorChain {
  import opened Common
  import opened Mats
  import opened Stages

  /** What calling one stage's `processFrameForDisplay` does. */
  datatype StageCall = Completes(result: DisplayResult) | Throws

  /** The results of the stages that ran: every call before the first throwing one. */
  function Ran(calls: seq<StageCall>): (r: seq<DisplayResult>)
    ensures |r| <= |calls|
    ensures forall i :: 0 <= i < |r| ==> calls[i] == Completes(r[i])
    ensures |r| < |calls| ==> calls[|r|].Throws?
  {
    if calls == [] || calls[0].Throws? then [] else [calls[0].result] + Ran(calls[1..])
  }

  /** The aggregate shutter status: the AND of the statuses, true for no stages. */
  function AllOk(results: seq<DisplayResult>): bool
  {
    if results == [] then true else AllOk(results[..|results| - 1]) && results[|results| - 1].status
  }

  /** How many stages handed back a new clone rather than their input. */
  function FreshCount(results: seq<DisplayResult>): (n: nat)
    ensures n <= |results|
  {
    if results == [] then 0
    else FreshCount(results[..|results| - 1]) + (if results[|results| - 1].output == FreshClone then 1 else 0)
  }

  /** The shutter is enabled iff no stage reported false; an empty chain enables it. */
  lemma {:induction false} AllOkIsConjunction(results: seq<DisplayResult>)
    ensures AllOk(results) <==> forall i :: 0 <= i < |results| ==> results[i].status
  {
    if results != [] {
      var init := results[..|results| - 1];
      AllOkIsConjunction(init);
      assert forall i :: 0 <= i < |init| ==> init[i] == results[i];
    }
  }

  /** A chain with no fresh clone hands back its input: every stage returned its own argument. */
  lemma {:induction false} NoFreshMeansAllSame(results: seq<DisplayResult>)
    ensures FreshCount(results) == 0 <==> forall i :: 0 <= i < |results| ==> results[i].output == SameFrame
  {
    if results != [] {
      var init := results[..|results| - 1];
      NoFreshMeansAllSame(init);
      assert forall i :: 0 <= i < |init| ==> init[i] == results[i];
    }
  }

  /** A chain of Raw stages only passes the frame through and never blocks the shutter. */
  lemma RawOnlyChain(n: nat)
    ensures var calls := seq(n, _ => Completes(RawDisplay()));
            Ran(calls) == seq(n, _ => RawDisplay()) && FreshCount(Ran(calls)) == 0 && AllOk(Ran(calls))
  {
    var calls := seq(n, _ => Completes(RawDisplay()));
    var rs := seq(n, _ => RawDisplay());
    RanAllComplete(calls, rs);
    NoFreshMeansAllSame(rs);
    AllOkIsConjunction(rs);
  }

  /** When no stage throws, every stage runs. */
  lemma {:induction false} RanAllComplete(calls: seq<StageCall>, rs: seq<DisplayResult>)
    requires |calls| == |rs| && forall i :: 0 <= i < |calls| ==> calls[i] == Completes(rs[i])
    ensures Ran(calls) == rs
  {
    if calls != [] {
      RanAllComplete(calls[1..], rs[1..]);
    }
  }

  /** The buffers the chain releases when `k` stages made clones numbered from `n`: all but the last clone. */
  function ChainReleases(n: nat, k: nat): (r: seq<nat>)
    ensures |r| == if k == 0 then 0 else k - 1
  {
    if k == 0 then [] else Range(n, n + k - 1)
  }

  /**
   * The `forEach` over the active processors. `rotated` is the caller's frame and is
   * live; it is never released here. On return exactly `rotated` and `display` are
   * live: every clone but the last was released, in creation order.
   */
  method RunChain(heap: MatHeap, rotated: MatRef, calls: seq<StageCall>, ghost n0: nat)
    returns (display: MatRef, allOk: bool, threw: bool)
    requires heap.FrameInv(n0, {rotated.id})
    modifies heap
    ensures threw <==> |Ran(calls)| < |calls|
    ensures allOk == AllOk(Ran(calls))
    ensures heap.nextId == old(heap.nextId) + FreshCount(Ran(calls))
    ensures display == if FreshCount(Ran(calls)) == 0 then rotated
                       else MatRef(heap.nextId - 1, rotated.rows, rotated.cols)
    ensures heap.released == old(heap.released) + ChainReleases(old(heap.nextId), FreshCount(Ran(calls)))
    ensures heap.FrameInv(n0, {rotated.id, display.id})
  {
    ghost var ran := Ran(calls);
    ghost var start := heap.nextId;
    display, allOk, threw := rotated, true, false;
    var i := 0;
    while i < |calls|
      invariant i <= |ran|
      invariant !threw
      invariant allOk == AllOk(ran[..i])
      invariant heap.nextId == start + FreshCount(ran[..i])
      invariant display == if FreshCount(ran[..i]) == 0 then rotated
                           else MatRef(heap.nextId - 1, rotated.rows, rotated.cols)
      invariant heap.released == old(heap.released) + ChainReleases(start, FreshCount(ran[..i]))
      invariant heap.FrameInv(n0, {rotated.id, display.id})
    {
      if calls[i].Throws? {
        threw := true;
        break;
      }
      assert ran[..i + 1][..i] == ran[..i] && ran[..i + 1][i] == calls[i].result;
      var result := calls[i].result;
      // the stage's returned Mat: its argument, or a clone the stage allocates
      var processed := display;
      if result.output == FreshClone {
        processed := heap.Alloc(display.rows, display.cols);
      }
      if processed.id != display.id && display.id != rotated.id {
        heap.Release(display);
      }
      display := processed;
      if !result.status {
        allOk := false;
      }
      i := i + 1;
    }
    assert !threw ==> ran[..i] == ran;
    assert threw ==> i == |ran| && ran[..i] == ran;
  }

  /**
   * The analyzer's `finally`: the displayed buffer, when it is not the rotated frame
   * itself, and then the rotated frame. Afterwards nothing of the frame is live.
   */
  method ReleaseFrame(heap: MatHeap, rotated: MatRef, display: MatRef, ghost n0: nat)
    requires heap.FrameInv(n0, {rotated.id, display.id})
    modifies heap
    ensures heap.released == old(heap.released) + (if display.id != rotated.id then [display.id] else []) + [rotated.id]
    ensures heap.nextId == old(heap.nextId)
    ensures heap.FrameInv(n0, {})
  {
    if display.id != rotated.id {
      heap.Release(display);
      assert {rotated.id, display.id} - {display.id} == {rotated.id};
    }
    heap.Release(rotated);
  }
}
