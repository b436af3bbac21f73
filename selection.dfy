/**
 * The selection state machine shared by the two treemaps, the layout key that decides whether a
 * treemap's geometry can be reused, the per-axis render decision and the tile opacity rule.
 */
module Selection {
  import opened Common

  datatype SelectionState = SelectionState(selectedSectorId: Option<string>, selectedCountryId: Option<string>, hideDomestic: bool)

  /** The state a view starts with. */
  function Initial(): SelectionState {
    SelectionState(None, None, false)
  }

  predicate AtMostOne(s: SelectionState) {
    !(s.selectedSectorId.Some? && s.selectedCountryId.Some?)
  }

  /** At most one axis is selected and a hidden domestic country is never the selected one. */
  predicate Consistent(s: SelectionState, domestic: Option<string>) {
    && AtMostOne(s)
    && (s.hideDomestic && Present(domestic) ==> s.selectedCountryId != Some(domestic.value))
  }

  /** The user interactions; each one ends with a full `renderAll`. */
  datatype Event =
    | ClickSector(id: string)
    | ClickCountry(id: string)
    | Reset
    | ToggleDomestic
    | SetHideDomestic(checked: bool)
    | Resize

  /** What a handler does to the state before it calls `renderAll`. */
  function Handle(s: SelectionState, e: Event): SelectionState {
    match e
    case ClickSector(id) =>
      s.(selectedSectorId := if s.selectedSectorId == Some(id) then None else Some(id), selectedCountryId := None)
    case ClickCountry(id) =>
      s.(selectedCountryId := if s.selectedCountryId == Some(id) then None else Some(id), selectedSectorId := None)
    case Reset => s.(selectedSectorId := None, selectedCountryId := None)
    case ToggleDomestic => s.(hideDomestic := !s.hideDomestic)
    case SetHideDomestic(checked) => s.(hideDomestic := checked)
    case Resize => s
  }

  /** The first thing `renderAll` does: a hidden domestic country cannot stay selected. */
  function ClearHiddenDomestic(s: SelectionState, domestic: Option<string>): (r: SelectionState)
    ensures Consistent(r, domestic) <== AtMostOne(s)
    ensures r.selectedSectorId == s.selectedSectorId && r.hideDomestic == s.hideDomestic
    ensures s.hideDomestic && Present(domestic) && s.selectedCountryId == Some(domestic.value) ==> r.selectedCountryId == None
    ensures !(s.hideDomestic && Present(domestic) && s.selectedCountryId == Some(domestic.value)) ==> r == s
  {
    if s.hideDomestic && Present(domestic) && s.selectedCountryId == Some(domestic.value)
    then s.(selectedCountryId := None)
    else s
  }

  /**
   * One interaction: the handler's update followed by `renderAll`'s clean-up. A click toggles its
   * own axis and clears the other (a click on the hidden domestic country selects nothing); reset
   * clears both; the toggles set the flag and keep the selections, except a domestic country that
   * becomes hidden; only the toggles change the flag; a resize changes nothing.
   */
  function Step(s: SelectionState, e: Event, domestic: Option<string>): (r: SelectionState)
    ensures AtMostOne(s) ==> Consistent(r, domestic)
    ensures e.ClickSector? ==> r.selectedCountryId == None && r.selectedSectorId == (if s.selectedSectorId == Some(e.id) then None else Some(e.id))
    ensures e.ClickCountry? ==> r.selectedSectorId == None
    ensures e.ClickCountry? ==>
      var hidden := s.hideDomestic && Present(domestic) && e.id == domestic.value;
      r.selectedCountryId == (if s.selectedCountryId == Some(e.id) || hidden then None else Some(e.id))
    ensures e.Reset? ==> r.selectedSectorId == None && r.selectedCountryId == None
    ensures e.ToggleDomestic? ==> r.hideDomestic == !s.hideDomestic
    ensures e.SetHideDomestic? ==> r.hideDomestic == e.checked
    ensures !e.ToggleDomestic? && !e.SetHideDomestic? ==> r.hideDomestic == s.hideDomestic
    ensures e.ToggleDomestic? || e.SetHideDomestic? ==>
      && r.selectedSectorId == s.selectedSectorId
      && r.selectedCountryId == (if r.hideDomestic && Present(domestic) && s.selectedCountryId == Some(domestic.value) then None else s.selectedCountryId)
    ensures e.Resize? && Consistent(s, domestic) ==> r == s
  {
    ClearHiddenDomestic(Handle(s, e), domestic)
  }

  /** The state after a sequence of interactions. */
  function Run(s: SelectionState, events: seq<Event>, domestic: Option<string>): SelectionState
    decreases |events|
  {
    if events == [] then s else Run(Step(s, events[0], domestic), events[1..], domestic)
  }

  /**
   * Whatever the user does, starting from the initial state at most one of the two selections is
   * set, and the domestic country is never selected while it is hidden.
   */
  lemma {:induction false} RunConsistent(s: SelectionState, events: seq<Event>, domestic: Option<string>)
    requires Consistent(s, domestic)
    ensures Consistent(Run(s, events, domestic), domestic)
    decreases |events|
  {
    if events != [] {
      RunConsistent(Step(s, events[0], domestic), events[1..], domestic);
    }
  }

  /** The view's initial render leaves the initial state consistent, so every run from it stays so. */
  lemma InitialRunConsistent(events: seq<Event>, domestic: Option<string>)
    ensures Consistent(Run(ClearHiddenDomestic(Initial(), domestic), events, domestic), domestic)
  {
    RunConsistent(ClearHiddenDomestic(Initial(), domestic), events, domestic);
  }

  /** Clicking the same sector tile twice clears the sector filter; the country filter stays clear. */
  lemma ClickSectorTwice(s: SelectionState, id: string, domestic: Option<string>)
    requires s.selectedSectorId != Some(id)
    ensures Step(s, ClickSector(id), domestic).selectedSectorId == Some(id)
    ensures Step(Step(s, ClickSector(id), domestic), ClickSector(id), domestic).selectedSectorId == None
    ensures Step(Step(s, ClickSector(id), domestic), ClickSector(id), domestic).selectedCountryId == None
  {
  }

  /** Selecting a country after a sector clears the sector, and vice versa. */
  lemma SecondAxisClearsFirst(s: SelectionState, sector: string, country: string, domestic: Option<string>)
    ensures Step(Step(s, ClickSector(sector), domestic), ClickCountry(country), domestic).selectedSectorId == None
    ensures Step(Step(s, ClickCountry(country), domestic), ClickSector(sector), domestic).selectedCountryId == None
  {
  }

  /**
   * Hiding the domestic country while it is the selected country clears that selection; any other
   * selected country survives the toggle.
   */
  lemma ToggleDomesticClears(s: SelectionState, domestic: Option<string>)
    requires Present(domestic) && !s.hideDomestic
    ensures Step(s, ToggleDomestic, domestic).hideDomestic
    ensures s.selectedCountryId == Some(domestic.value) ==> Step(s, ToggleDomestic, domestic).selectedCountryId == None
    ensures s.selectedCountryId != Some(domestic.value) ==> Step(s, ToggleDomestic, domestic).selectedCountryId == s.selectedCountryId
    ensures Step(s, ToggleDomestic, domestic).selectedSectorId == s.selectedSectorId
  {
  }

  // ---------------------------------------------------------------------------------------------
  // Layout key and render decision

  /** `${hideDomestic ? "nd" : "all"}|${oppositeSelection || ""}`. */
  function LayoutKey(hideDomestic: bool, opposite: Option<string>): string {
    (if hideDomestic then "nd" else "all") + "|" + TextOr(opposite)
  }

  /** Two layout keys are equal exactly when the domestic flag and the opposite selection agree. */
  lemma LayoutKeyInjective(h1: bool, o1: Option<string>, h2: bool, o2: Option<string>)
    ensures LayoutKey(h1, o1) == LayoutKey(h2, o2) <==> h1 == h2 && TextOr(o1) == TextOr(o2)
  {
    var k1, k2 := LayoutKey(h1, o1), LayoutKey(h2, o2);
    assert k1[0] == (if h1 then 'n' else 'a');
    assert k2[0] == (if h2 then 'n' else 'a');
    if k1 == k2 {
      var p := if h1 then 3 else 4;
      assert k1[p..] == TextOr(o1);
      assert k2[p..] == TextOr(o2);
    }
  }

  /** What `renderAll` does to one treemap. */
  datatype AxisAction = ShowEmptyMessage | RunLayout | UpdateOpacity

  /** The three-way decision, and the layout key remembered afterwards. */
  function Decide(hasGroups: bool, key: string, lastKey: Option<string>): (r: (AxisAction, Option<string>))
    ensures r.0 == ShowEmptyMessage <==> !hasGroups
    ensures r.0 == RunLayout <==> hasGroups && lastKey != Some(key)
    ensures r.0 == UpdateOpacity <==> hasGroups && lastKey == Some(key)
    ensures r.1 == (if hasGroups then Some(key) else None)
  {
    if !hasGroups then (ShowEmptyMessage, None)
    else if Some(key) != lastKey then (RunLayout, Some(key))
    else (UpdateOpacity, lastKey)
  }

  /**
   * The treemap geometry is reused (only opacity is updated) exactly when the domestic flag and the
   * opposite-axis selection are those of the last render that drew a layout.
   */
  lemma OpacityOnlyWhenInputsUnchanged(hidden: bool, opposite: Option<string>, lastHidden: bool, lastOpposite: Option<string>)
    ensures (Decide(true, LayoutKey(hidden, opposite), Some(LayoutKey(lastHidden, lastOpposite))).0 == UpdateOpacity)
      == (hidden == lastHidden && TextOr(opposite) == TextOr(lastOpposite))
  {
    LayoutKeyInjective(hidden, opposite, lastHidden, lastOpposite);
  }

  /** An empty treemap forgets its layout key, so the next non-empty render lays out afresh. */
  lemma EmptyForcesRelayout(key: string, lastKey: Option<string>, nextKey: string)
    ensures Decide(true, nextKey, Decide(false, key, lastKey).1).0 == RunLayout
  {
  }

  /** A tile is dimmed exactly when some tile is selected and it is not that tile. */
  function TargetOpacity(selectedLeafId: Option<string>, leafId: string): (o: real)
    ensures o == 1.0 <==> !Present(selectedLeafId) || leafId == selectedLeafId.value
    ensures o == 0.55 <==> Present(selectedLeafId) && leafId != selectedLeafId.value
  {
    if Present(selectedLeafId) && leafId != selectedLeafId.value then 0.55 else 1.0
  }
}
