/**
 * Successive key presses on one grid: what the key-down handler does to the
 * current item over a whole sequence of presses.
 */
module KeyPresses {
  import opened Wrappers
  import opened Manipulation

  /** One key press: the event (None: a null event) and the state read when it arrived. */
  datatype KeyPress = KeyPress(event: Option<KeyEvent>, state: KeyState)

  /** The current item after one press. */
  function Step(current: Option<DataItem>, press: KeyPress, lookup: Lookup): Option<DataItem> {
    CurrentAfter(current, KeyDown(press.event, press.state).action, lookup)
  }

  /** The current item after the presses, one after the other. Keys never clear the current item. */
  function Run(current: Option<DataItem>, presses: seq<KeyPress>, lookup: Lookup): (r: Option<DataItem>)
    ensures current.Some? ==> r.Some?
    decreases |presses|
  {
    if presses == [] then current
    else Run(Step(current, presses[0], lookup), presses[1..], lookup)
  }

  /** A press that asks for no navigation. */
  predicate KeepsCurrent(press: KeyPress) {
    !KeyDown(press.event, press.state).action.Navigate?
  }

  /** Presses that ask for no navigation leave the current item where it was. */
  lemma {:induction false} PressesWithoutNavigationKeepCurrent(
    current: Option<DataItem>, presses: seq<KeyPress>, lookup: Lookup)
    requires forall i | 0 <= i < |presses| :: KeepsCurrent(presses[i])
    ensures Run(current, presses, lookup) == current
    decreases |presses|
  {
    if presses != [] {
      assert KeepsCurrent(presses[0]);
      assert Step(current, presses[0], lookup) == current;
      forall i | 0 <= i < |presses[1..]|
        ensures KeepsCurrent(presses[1..][i])
      {
        assert presses[1..][i] == presses[i + 1];
      }
      PressesWithoutNavigationKeepCurrent(current, presses[1..], lookup);
    }
  }

  /** No sequence of presses made while a row is being edited moves the current item. */
  lemma {:induction false} PressesWhileEditingKeepCurrent(
    current: Option<DataItem>, presses: seq<KeyPress>, lookup: Lookup)
    requires forall i | 0 <= i < |presses| :: presses[i].state.isEditing
    ensures Run(current, presses, lookup) == current
  {
    forall i | 0 <= i < |presses|
      ensures KeepsCurrent(presses[i])
    {
    }
    PressesWithoutNavigationKeepCurrent(current, presses, lookup);
  }

  /** Escape, F2, Tab and keys without a binding never move the current item, whatever the state. */
  lemma {:induction false} EditAndTabKeysKeepCurrent(
    current: Option<DataItem>, presses: seq<KeyPress>, lookup: Lookup)
    requires forall i | 0 <= i < |presses| ::
      presses[i].event.Some? ==> presses[i].event.value.key in {Escape, F2, Tab} || presses[i].event.value.key.Other?
    ensures Run(current, presses, lookup) == current
  {
    forall i | 0 <= i < |presses|
      ensures KeepsCurrent(presses[i])
    {
    }
    PressesWithoutNavigationKeepCurrent(current, presses, lookup);
  }

  /** When the lookups never find a row, no sequence of presses moves the current item. */
  lemma {:induction false} FruitlessLookupsKeepCurrent(
    current: Option<DataItem>, presses: seq<KeyPress>, lookup: Lookup)
    requires forall q, c :: lookup(q, c) == None
    ensures Run(current, presses, lookup) == current
    decreases |presses|
  {
    if presses != [] {
      assert Step(current, presses[0], lookup) == current;
      FruitlessLookupsKeepCurrent(current, presses[1..], lookup);
    }
  }
}
