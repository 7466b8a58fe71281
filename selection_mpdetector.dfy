/**
 * MPdetector's `ProcessorAdapter`: the dialog's reorderable list of processors and
 * the selection map keyed by processor. A row's checkbox shows the processor's map
 * entry; view recycling is not modelled.
 */
module MPdetectorSelection {
  import opened Processors
  import opened Selection

  class ProcessorAdapter {
    /** The adapter's own copy of the processor list, in display order. */
    var displayList: seq<Processor>
    var selectedStatus: map<Processor, bool>
    /** The list the dialog was opened with. */
    ghost const original: seq<Processor>

    /** The rows are a reordering of the original list and every row has a map entry. */
    ghost predicate Valid()
      reads this
    {
      && multiset(displayList) == multiset(original)
      && (forall p :: p in displayList ==> p in selectedStatus)
    }

    /** `ProcessorAdapter(allProcessors.toMutableList(), initiallySelected)` */
    constructor (allProcessors: seq<Processor>, initiallySelected: seq<Processor>)
      ensures Valid() && original == allProcessors && displayList == allProcessors
      ensures selectedStatus == InitialStatus(allProcessors, initiallySelected)
    {
      displayList := allProcessors;
      original := allProcessors;
      selectedStatus := InitialStatus(allProcessors, initiallySelected);
    }

    /** The up button of the row at `fromPosition`: it swaps the row with the one above iff the button is shown there. */
    method OnUp(fromPosition: int)
      requires Valid() && -1 <= fromPosition < |displayList|
      modifies this
      ensures Valid()
      ensures UpVisible(fromPosition) ==> displayList == Swapped(old(displayList), fromPosition, fromPosition - 1)
      ensures !UpVisible(fromPosition) ==> displayList == old(displayList)
      ensures selectedStatus == old(selectedStatus)
    {
      if fromPosition > 0 {
        SwappedIsPermutation(displayList, fromPosition, fromPosition - 1);
        displayList := Swapped(displayList, fromPosition, fromPosition - 1);
      }
    }

    /**
     * The down button of the row at `fromPosition`: it swaps the row with the one
     * below iff the button is shown there. A row with no position (-1) passes the
     * guard, and `Collections.swap` then throws, leaving the list as it was.
     */
    method OnDown(fromPosition: int) returns (threw: bool)
      requires Valid() && -1 <= fromPosition < |displayList|
      modifies this
      ensures Valid()
      ensures threw <==> fromPosition == -1 && DownVisible(fromPosition, |displayList|)
      ensures !threw && DownVisible(fromPosition, |old(displayList)|) ==>
                displayList == Swapped(old(displayList), fromPosition, fromPosition + 1)
      ensures threw || !DownVisible(fromPosition, |old(displayList)|) ==> displayList == old(displayList)
      ensures selectedStatus == old(selectedStatus)
    {
      threw := false;
      if fromPosition < |displayList| - 1 {
        if fromPosition < 0 {
          return true;
        }
        SwappedIsPermutation(displayList, fromPosition, fromPosition + 1);
        displayList := Swapped(displayList, fromPosition, fromPosition + 1);
      }
    }

    /** The checkbox of `processor`'s row changes to `isChecked`: the map entry follows. */
    method OnCheckedChanged(processor: Processor, isChecked: bool)
      requires Valid() && processor in displayList
      modifies this
      ensures Valid()
      ensures selectedStatus == old(selectedStatus)[processor := isChecked]
      ensures displayList == old(displayList)
    {
      selectedStatus := selectedStatus[processor := isChecked];
    }

    /** `getSelectedProcessors()`: the checked processors, in the current display order. */
    function GetSelectedProcessors(): (r: seq<Processor>)
      reads this
      ensures forall p :: p in r ==> p in displayList && IsSelected(selectedStatus, p)
      ensures forall p :: p in displayList && IsSelected(selectedStatus, p) ==> p in r
      ensures |r| <= |displayList|
    {
      SelectedInAll(displayList, selectedStatus);
      SelectedIn(displayList, selectedStatus)
    }
  }
}
