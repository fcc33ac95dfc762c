/**
 * The list menu (src/GameMenu.cpp, include/GameMenu.h): a sequence of text
 * entries of which at most one is selected.
 */
module GameMenus {

  /** A menu line and whether it is highlighted; a new entry is not selected. */
  datatype MenuEntry = MenuEntry(text: string, selected: bool)

  const MainMenuItems: seq<string> := ["Play", "Sandbox", "Credits", "Exit"]
  const PauseMenuItems: seq<string> := ["Resume", "Restart", "Exit to Main Menu"]

  function Texts(entries: seq<MenuEntry>): (ts: seq<string>)
    ensures |ts| == |entries|
    ensures forall i :: 0 <= i < |entries| ==> ts[i] == entries[i].text
  {
    seq(|entries|, i requires 0 <= i < |entries| => entries[i].text)
  }

  /** Exactly the entry at `idx` is selected. */
  predicate SelectedExactly(entries: seq<MenuEntry>, idx: int)
  {
    forall i :: 0 <= i < |entries| ==> (entries[i].selected <==> i == idx)
  }

  /** At most one entry is selected. */
  predicate AtMostOneSelected(entries: seq<MenuEntry>)
  {
    forall i, j :: 0 <= i < |entries| && 0 <= j < |entries| && entries[i].selected && entries[j].selected ==> i == j
  }

  lemma SelectedExactlyIsUnique(entries: seq<MenuEntry>, idx: int)
    requires SelectedExactly(entries, idx)
    ensures AtMostOneSelected(entries)
  {
  }

  class GameMenu {
    var entries: seq<MenuEntry>

    /** A new menu shows the main menu. */
    constructor ()
      ensures Texts(entries) == MainMenuItems && SelectedExactly(entries, 0)
    {
      entries := [];
      new;
      InitMainMenu();
    }

    method InitMainMenu()
      modifies this
      ensures Texts(entries) == MainMenuItems && SelectedExactly(entries, 0)
    {
      SetEntries(MainMenuItems);
    }

    method InitPauseMenu()
      modifies this
      ensures Texts(entries) == PauseMenuItems && SelectedExactly(entries, 0)
    {
      SetEntries(PauseMenuItems);
    }

    /** Replaces the entries by `items`, in order, with the first one selected. */
    method SetEntries(items: seq<string>)
      modifies this
      ensures Texts(entries) == items
      ensures items != [] ==> SelectedExactly(entries, 0)
      ensures items == [] ==> entries == []
    {
      entries := [];
      var k := 0;
      while k < |items|
        invariant 0 <= k <= |items|
        invariant |entries| == k
        invariant forall i :: 0 <= i < k ==> entries[i] == MenuEntry(items[i], false)
      {
        entries := entries + [MenuEntry(items[k], false)];
        k := k + 1;
      }
      if entries != [] {
        entries := entries[0 := entries[0].(selected := true)];
      }
    }

    /** Moves the selection to `idx`; an index outside the entries changes nothing. */
    method SetSelectedIndex(idx: int)
      modifies this
      ensures !(0 <= idx < |old(entries)|) ==> entries == old(entries)
      ensures 0 <= idx < |old(entries)| ==> SelectedExactly(entries, idx)
      ensures Texts(entries) == Texts(old(entries))
    {
      if idx < 0 || idx >= |entries| {
        return;
      }
      var i := 0;
      while i < |entries|
        invariant 0 <= i <= |entries|
        invariant |entries| == |old(entries)|
        invariant forall k :: 0 <= k < |entries| ==> entries[k].text == old(entries)[k].text
        invariant forall k :: 0 <= k < i ==> (entries[k].selected <==> k == idx)
      {
        entries := entries[i := entries[i].(selected := i == idx)];
        i := i + 1;
      }
    }
  }
}
