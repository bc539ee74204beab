/**
 * memory-management/lifetimes/lifetime-structs: an `ArrayProcessor` holds a
 * borrowed slice and `update_data` swaps in a new one, returning the one it
 * held. Slices are immutable, so a slice is modelled by its contents.
 */
module LifetimeStructs {

  class ArrayProcessor {
    var data: seq<int>

    constructor (data: seq<int>)
      ensures this.data == data
    {
      this.data := data;
    }

    /** `update_data`: `data` becomes `newData`; the slice held before is returned. */
    method UpdateData(newData: seq<int>) returns (previousData: seq<int>)
      modifies this
      ensures previousData == old(data)
      ensures data == newData
    {
      previousData := data;
      data := newData;
    }
  }

  /** Two updates in a row: the second gives back the first one's argument. */
  method UpdateTwice(initial: seq<int>, first: seq<int>, second: seq<int>)
    returns (returned1: seq<int>, returned2: seq<int>, current: seq<int>)
    ensures returned1 == initial
    ensures returned2 == first
    ensures current == second
  {
    var processor := new ArrayProcessor(initial);
    returned1 := processor.UpdateData(first);
    returned2 := processor.UpdateData(second);
    current := processor.data;
  }

  /** The run in `main`: from [4, 5, 6], updating to [1, 2, 3] returns [4, 5, 6]. */
  method MainRun() returns (previousData: seq<int>, newData: seq<int>)
    ensures previousData == [4, 5, 6]
    ensures newData == [1, 2, 3]
  {
    var someData := new ArrayProcessor([4, 5, 6]);
    previousData := someData.UpdateData([1, 2, 3]);
    newData := someData.data;
  }
}
