/** The user tables of the chat servers (homework12 and homework13) and the user list they send out. */
module Roster {
  import opened Sums

  /** A row of the table `users`; the id is -1 once the user is gone. */
  datatype Slot = Slot(id: int, login: string)

  predicate Connected(slot: Slot) { slot.id != -1 }

  function ConnectedUnit(slot: Slot): int { if Connected(slot) then 1 else 0 }

  function Entry(login: string): string { "<" + login + ">\n" }

  /** The list rebuilt from scratch: one entry for every connected slot, in slot order. */
  function ListText(slots: seq<Slot>): string {
    if slots == [] then ""
    else
      var last := slots[|slots| - 1];
      ListText(slots[..|slots| - 1]) + if Connected(last) then Entry(last.login) else ""
  }

  /** Slot i holds the id i+1 until its user is gone. */
  ghost predicate IdsInOrder(slots: seq<Slot>) {
    forall i :: 0 <= i < |slots| ==> slots[i].id == i + 1 || slots[i].id == -1
  }

  lemma ListAppend(slots: seq<Slot>, slot: Slot)
    ensures ListText(slots + [slot]) == ListText(slots) + if Connected(slot) then Entry(slot.login) else ""
  {
    assert (slots + [slot])[..|slots|] == slots;
  }

  /** More than one connected slot means another one than i. */
  lemma OthersConnected(slots: seq<Slot>, i: nat)
    requires i < |slots| && Connected(slots[i])
    ensures Total(slots, ConnectedUnit) >= 1
    ensures Total(slots, ConnectedUnit) == 1 <==> forall j :: 0 <= j < |slots| && j != i ==> !Connected(slots[j])
  {
    TotalAtLeast(slots, i, ConnectedUnit);
    if forall j :: 0 <= j < |slots| && j != i ==> !Connected(slots[j]) {
      OnlyOneConnected(slots, i);
    } else {
      var j :| 0 <= j < |slots| && j != i && Connected(slots[j]);
      AnotherConnected(slots, i, j);
    }
  }

  lemma OnlyOneConnected(slots: seq<Slot>, i: nat)
    requires i < |slots| && Connected(slots[i]) && forall j :: 0 <= j < |slots| && j != i ==> !Connected(slots[j])
    ensures Total(slots, ConnectedUnit) == 1
  {
    var gone := slots[i].(id := -1);
    TotalUpdate(slots, i, gone, ConnectedUnit);
    TotalWithin(slots[i := gone], ConnectedUnit, 0, 0);
  }

  lemma AnotherConnected(slots: seq<Slot>, i: nat, j: nat)
    requires i < |slots| && j < |slots| && i != j && Connected(slots[i]) && Connected(slots[j])
    ensures Total(slots, ConnectedUnit) >= 2
  {
    if i < j {
      TotalAtLeastTwo(slots, i, j, ConnectedUnit);
    } else {
      TotalAtLeastTwo(slots, j, i, ConnectedUnit);
    }
  }

  /** The loop that both servers run after a rename or a disconnection. */
  method Rebuild(slots: seq<Slot>) returns (text: string)
    ensures text == ListText(slots)
  {
    text := "";
    for i := 0 to |slots|
      invariant text == ListText(slots[..i])
    {
      assert slots[..i + 1][..i] == slots[..i];
      if slots[i].id == -1 {
        continue;
      }
      text := text + Entry(slots[i].login);
    }
    assert slots[..|slots|] == slots;
  }
}
