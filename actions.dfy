/** The queued colour steps (`ActionRGB`, include/blink1.hpp:56-87) and the
    index rules of the operations that edit the queue in place
    (src/blink1.cpp:95-182). */
module Actions {
  import opened CTypes

  /** `ActionRGB`: two durations in milliseconds and two colours, the second
      one for the second LED of an MK2 device. */
  datatype Action = Action(
    displayDuration: uint32,
    fadeTime: uint32,
    red: byte, green: byte, blue: byte,
    red2: byte, green2: byte, blue2: byte)

  /** One element of `m_actions`: a pointer to an action, or NULL. */
  type Slot = Option<Action>

  /** How long one action is visible: its fade, then its hold. A fade time of
      zero makes the change instant. */
  function VisibleTime(a: Action): (ms: nat)
    ensures ms >= a.displayDuration && ms >= a.fadeTime
    ensures a.fadeTime == 0 ==> ms == a.displayDuration
  {
    a.fadeTime + a.displayDuration
  }

  /** The queue after `SetAction(position, x)`: the entry at an existing
      position is replaced, a position equal to the size appends, and any
      larger position leaves the queue as it was. */
  function SetAt(q: seq<Slot>, position: nat, x: Slot): (r: seq<Slot>)
    ensures position < |q| ==>
      |r| == |q| && r[position] == x &&
      forall i :: 0 <= i < |q| && i != position ==> r[i] == q[i]
    ensures position == |q| ==> r == q + [x]
    ensures position > |q| ==> r == q
  {
    if position < |q| then q[position := x]
    else if position == |q| then q + [x]
    else q
  }

  /** The queue after `RemoveAction(position)`: a valid position loses exactly
      that entry and the later entries move down by one, in order; any other
      position leaves the queue as it was. */
  function RemoveAt(q: seq<Slot>, position: nat): (r: seq<Slot>)
    ensures position < |q| ==>
      |r| == |q| - 1 &&
      (forall i :: 0 <= i < position ==> r[i] == q[i]) &&
      (forall i :: position <= i < |r| ==> r[i] == q[i + 1]) &&
      multiset(r) + multiset{q[position]} == multiset(q)
    ensures position >= |q| ==> r == q
  {
    if position < |q| then
      assert q == q[..position] + [q[position]] + q[position + 1..];
      q[..position] + q[position + 1..]
    else q
  }

  /** No slot of the queue is NULL. */
  predicate NoNullSlots(q: seq<Slot>)
  {
    forall i :: 0 <= i < |q| ==> q[i].Some?
  }

  /** Adding, setting and removing actions that exist keeps every slot
      non-NULL. */
  lemma NoNullSlotsKept(q: seq<Slot>, position: nat, a: Action)
    requires NoNullSlots(q)
    ensures NoNullSlots(q + [Some(a)])
    ensures NoNullSlots(SetAt(q, position, Some(a)))
    ensures NoNullSlots(RemoveAt(q, position))
  {
  }
}
