/** The highlight rule shared by the settings tabs, the client-portal tabs
    and the sidebar menu: an entry is highlighted exactly when its id equals
    the active id. */
module TabBar {

  import opened Selection

  /** The positions of the entries the active id highlights. */
  function Highlighted(ids: seq<string>, active: string): (r: set<nat>)
    ensures forall i: nat :: i in r <==> i < |ids| && ids[i] == active
  {
    set i: nat | i < |ids| && ids[i] == active
  }

  /** With distinct ids, a listed id highlights exactly its own entry and
      any other id highlights nothing. */
  lemma HighlightedCount(ids: seq<string>, active: string)
    requires Distinct(ids)
    ensures |Highlighted(ids, active)| == (if active in ids then 1 else 0)
  {
    if active in ids {
      var i :| 0 <= i < |ids| && ids[i] == active;
      assert Highlighted(ids, active) == {i};
    } else {
      assert Highlighted(ids, active) == {};
    }
  }

  /** Clicking the entry at position `i` leaves that entry, and only it,
      highlighted. */
  lemma ClickHighlightsOnlyClicked(ids: seq<string>, i: nat)
    requires Distinct(ids) && i < |ids|
    ensures Highlighted(ids, ids[i]) == {i}
  {
    assert forall j: nat :: j in Highlighted(ids, ids[i]) ==> j == i;
  }

}
