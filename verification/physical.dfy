/**
 * src/components/disabilities/PhysicalInterface.tsx: four large action cards, the
 * selected action, the highlight on the selected card, and the detail panel with its
 * back button.
 */
module Physical {
  import opened Wrappers

  datatype MainAction = MainAction(id: string, name: string)

  const MainActions: seq<MainAction> := [
    MainAction("schedule", "Daily Schedule"),
    MainAction("health", "Health & Wellness"),
    MainAction("meals", "Meal Planning"),
    MainAction("settings", "Settings")
  ]

  /** `selectedAction: string | null`. */
  datatype State = State(selected: Option<string>)

  const Initial: State := State(None)

  ghost predicate DistinctIds(actions: seq<MainAction>) {
    forall i, j :: 0 <= i < |actions| && 0 <= j < |actions| && i != j ==> actions[i].id != actions[j].id
  }

  /** `handleActionSelect(id)`. */
  function Select(s: State, id: string): (r: State)
    ensures r.selected == Some(id)
  {
    State(Some(id))
  }

  /** "Back to Dashboard": `setSelectedAction(null)`. */
  function Back(s: State): (r: State)
    ensures r.selected.None?
  {
    State(None)
  }

  /** The ring-and-tint classes go on a card iff its id is the selection. */
  predicate Highlighted(s: State, a: MainAction) {
    s.selected == Some(a.id)
  }

  /** `mainActions.find(a => a.id === selectedAction)?.name`: the first matching name, if any. */
  function FindName(actions: seq<MainAction>, id: string): (r: Option<string>)
    ensures r.None? <==> forall a :: a in actions ==> a.id != id
    ensures r.Some? ==> exists i :: 0 <= i < |actions| && actions[i].id == id && actions[i].name == r.value && forall j :: 0 <= j < i ==> actions[j].id != id
  {
    if actions == [] then None
    else if actions[0].id == id then Some(actions[0].name)
    else FindName(actions[1..], id)
  }

  /**
   * The detail panel `{selectedAction && ...}`: hidden for no selection and for the
   * falsy empty id; otherwise shown with the looked-up name as its heading (empty when
   * no card has that id).
   */
  function DetailPanel(s: State): (panel: Option<Option<string>>)
    ensures panel.Some? <==> s.selected.Some? && s.selected.value != ""
    ensures panel.Some? ==> panel.value == FindName(MainActions, s.selected.value)
  {
    if s.selected.Some? && s.selected.value != "" then Some(FindName(MainActions, s.selected.value)) else None
  }

  /** The card ids are distinct and non-empty. */
  lemma MainActionsWellFormed()
    ensures DistinctIds(MainActions)
    ensures forall a :: a in MainActions ==> a.id != ""
  {
  }

  /** With distinct ids, at most one card is highlighted. */
  lemma AtMostOneHighlighted(s: State, actions: seq<MainAction>)
    requires DistinctIds(actions)
    ensures forall i, j :: 0 <= i < |actions| && 0 <= j < |actions| && Highlighted(s, actions[i]) && Highlighted(s, actions[j]) ==> i == j
  {
  }

  /**
   * Selecting card `k` highlights that card and no other, and opens the panel headed
   * with that card's name.
   */
  lemma SelectShowsCard(s: State, k: nat)
    requires k < |MainActions|
    ensures forall i :: 0 <= i < |MainActions| ==> (Highlighted(Select(s, MainActions[k].id), MainActions[i]) <==> i == k)
    ensures DetailPanel(Select(s, MainActions[k].id)) == Some(Some(MainActions[k].name))
  {
    MainActionsWellFormed();
  }

  /** The back button closes the panel and clears every highlight. */
  lemma BackHidesPanel(s: State)
    ensures DetailPanel(Back(s)).None?
    ensures forall a :: a in MainActions ==> !Highlighted(Back(s), a)
  {
  }

  /** Selecting and going back returns to the starting state, whatever was selected. */
  lemma SelectBackRestores(s: State, id: string)
    ensures Back(Select(s, id)) == Initial
  {
  }

  /**
   * A click on a card as written. The card passes `onClick` to `AccessibleCard`
   * (src/components/ui/AccessibleCard.tsx:12-18), which neither declares nor forwards
   * it, so the click reaches no handler and the selection does not change.
   */
  function CardClickAsWritten(s: State, id: string): (r: State)
    ensures r == s
  {
    s
  }

  /** The intended card click: `handleActionSelect(action.id)`. */
  function CardClick(s: State, id: string): (r: State)
    ensures r.selected == Some(id)
  {
    Select(s, id)
  }

  /** Card clicks as written, one after another. */
  function ClicksAsWritten(s: State, ids: seq<string>): State
    decreases |ids|
  {
    if ids == [] then s else ClicksAsWritten(CardClickAsWritten(s, ids[0]), ids[1..])
  }

  /** As written, no sequence of card clicks ever opens the detail panel. */
  lemma {:induction false} PanelNeverOpensAsWritten(ids: seq<string>)
    ensures ClicksAsWritten(Initial, ids) == Initial
    ensures DetailPanel(ClicksAsWritten(Initial, ids)).None?
    decreases |ids|
  {
    if ids != [] {
      PanelNeverOpensAsWritten(ids[1..]);
    }
  }

  /** With the intended click, one click on any card opens its panel. */
  lemma CardClickOpensPanel(k: nat)
    requires k < |MainActions|
    ensures DetailPanel(CardClick(Initial, MainActions[k].id)) == Some(Some(MainActions[k].name))
  {
  }
}
