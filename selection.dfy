/**
 * What both processor-selection adapters share: the adjacent swap behind the up and
 * down buttons, the visibility of those buttons, the initial selection map, and the
 * order-preserving filter behind `getSelectedProcessors`.
 */
module Selection {
  import opened Processors

  /** `Collections.swap(list, i, j)` */
  function Swapped<T>(s: seq<T>, i: nat, j: nat): (r: seq<T>)
    requires i < |s| && j < |s|
    ensures |r| == |s| && r[i] == s[j] && r[j] == s[i]
    ensures forall k :: 0 <= k < |s| && k != i && k != j ==> r[k] == s[k]
  {
    s[i := s[j]][j := s[i]]
  }

  /** A swap reorders: the same elements, each as often as before; swapping back restores the list. */
  lemma SwappedIsPermutation<T>(s: seq<T>, i: nat, j: nat)
    requires i < |s| && j < |s|
    ensures multiset(Swapped(s, i, j)) == multiset(s)
    ensures Swapped(Swapped(s, i, j), i, j) == s
  {
    var t := s[i := s[j]];
    assert multiset(t) == multiset(s) - multiset{s[i]} + multiset{s[j]};
    assert multiset(t[j := s[i]]) == multiset(t) - multiset{t[j]} + multiset{s[i]};
  }

  /** The up button shows for every row but the first. */
  predicate UpVisible(position: int) {
    position > 0
  }

  /** The down button shows for every row but the last. */
  predicate DownVisible(position: int, size: int) {
    position < size - 1
  }

  /** `associateWith { initiallySelected.contains(it) }`: every listed processor, selected iff initially selected. */
  function InitialStatus(processors: seq<Processor>, initiallySelected: seq<Processor>): (m: map<Processor, bool>)
    ensures forall p :: p in processors ==> p in m
    ensures forall p :: p in m ==> p in processors && (m[p] <==> p in initiallySelected)
  {
    map p | p in processors :: p in initiallySelected
  }

  /** `selectedStatus[it] == true`: a missing entry counts as not selected. */
  predicate IsSelected(status: map<Processor, bool>, p: Processor) {
    p in status && status[p]
  }

  /** `displayList.filter { selectedStatus[it] == true }` */
  function SelectedIn(list: seq<Processor>, status: map<Processor, bool>): (r: seq<Processor>)
    ensures |r| <= |list|
  {
    if list == [] then []
    else
      var last := list[|list| - 1];
      SelectedIn(list[..|list| - 1], status) + (if IsSelected(status, last) then [last] else [])
  }

  /** The filter keeps order: filtering a concatenation concatenates the filtered parts. */
  lemma {:induction false} SelectedInAppend(a: seq<Processor>, b: seq<Processor>, status: map<Processor, bool>)
    ensures SelectedIn(a + b, status) == SelectedIn(a, status) + SelectedIn(b, status)
  {
    if b != [] {
      var init := b[..|b| - 1];
      SelectedInAppend(a, init, status);
      assert (a + b)[..|a + b| - 1] == a + init;
    } else {
      assert a + b == a;
    }
  }

  /** Exactly the selected processors are kept, each as often as it is listed. */
  lemma {:induction false} SelectedInExact(list: seq<Processor>, status: map<Processor, bool>, p: Processor)
    ensures multiset(SelectedIn(list, status))[p] == if IsSelected(status, p) then multiset(list)[p] else 0
    ensures p in SelectedIn(list, status) <==> p in list && IsSelected(status, p)
  {
    if list != [] {
      var init := list[..|list| - 1];
      SelectedInExact(init, status, p);
      assert list == init + [list[|list| - 1]];
    }
  }

  /** `SelectedInExact` for every processor at once. */
  lemma SelectedInAll(list: seq<Processor>, status: map<Processor, bool>)
    ensures forall p :: p in SelectedIn(list, status) ==> p in list && IsSelected(status, p)
    ensures forall p :: p in list && IsSelected(status, p) ==> p in SelectedIn(list, status)
  {
    forall p {
      SelectedInExact(list, status, p);
    }
  }
}
