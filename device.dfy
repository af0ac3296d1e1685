/** Finding the controller to track (main.py `get_state`, `find_first_controller`). */
module Device {
  import opened Wrappers
  import opened Mapper

  /** The number of XInput user slots `find_first_controller` tries. */
  const SlotCount: nat := 4

  /** `get_state(i)` at one instant: the slot's snapshot, or `None` when nothing answers. */
  type Poll = nat -> Option<Gamepad>

  /** The first slot from `i` on (below `SlotCount`) that answers. */
  function FirstFrom(poll: Poll, i: nat): (r: Option<nat>)
    requires i <= SlotCount
    ensures r.Some? ==> i <= r.value < SlotCount && poll(r.value).Some?
    ensures r.Some? ==> forall j :: i <= j < r.value ==> poll(j).None?
    ensures r.None? ==> forall j :: i <= j < SlotCount ==> poll(j).None?
    decreases SlotCount - i
  {
    if i == SlotCount then None
    else if poll(i).Some? then Some(i)
    else FirstFrom(poll, i + 1)
  }

  /** The lowest slot in 0..3 that answers, or `None` when none does. */
  function FirstController(poll: Poll): (r: Option<nat>)
    ensures r.Some? ==> r.value < SlotCount && poll(r.value).Some?
    ensures r.Some? ==> forall j :: 0 <= j < r.value ==> poll(j).None?
    ensures r.None? ==> forall j :: 0 <= j < SlotCount ==> poll(j).None?
  {
    FirstFrom(poll, 0)
  }

  /** `find_first_controller`: try slots 0..3 in order and return the first that answers. */
  method FindFirstController(poll: Poll) returns (r: Option<nat>)
    ensures r.Some? ==> r.value < SlotCount && poll(r.value).Some?
    ensures r.Some? ==> forall j :: 0 <= j < r.value ==> poll(j).None?
    ensures r.None? ==> forall j :: 0 <= j < SlotCount ==> poll(j).None?
  {
    for i := 0 to SlotCount
      invariant forall j :: 0 <= j < i ==> poll(j).None?
    {
      if poll(i).Some? {
        return Some(i);
      }
    }
    return None;
  }

  /** Two answers that both meet the contract above are the same slot. */
  lemma FirstControllerUnique(poll: Poll, r: Option<nat>)
    requires r.Some? ==> r.value < SlotCount && poll(r.value).Some?
    requires r.Some? ==> forall j :: 0 <= j < r.value ==> poll(j).None?
    requires r.None? ==> forall j :: 0 <= j < SlotCount ==> poll(j).None?
    ensures r == FirstController(poll)
  {
  }
}
