/**
 * One twin-treemap view: the index built once from the loaded dataset, the shared selection state
 * that the click, reset and toggle handlers update, and the layout keys `renderAll` remembers per
 * treemap to decide between a full layout and an opacity-only update.
 */
module View {
  import opened Common
  import opened Dataset
  import opened Aggregation
  import opened Selection
  import opened Nodes
  import opened Grouping

  /** What one `renderAll` pass hands to the two treemaps and the totals lines. */
  datatype Render = Render(
    animate: bool,
    sectorAction: AxisAction,
    sectorGroups: seq<Group<SectorNode>>,
    sectorTotal: real,
    countryAction: AxisAction,
    countryGroups: seq<Group<CountryNode>>,
    countryTotal: real)

  class TwinTreemap {
    const leafSectors: seq<Sector>
    const realCountries: seq<Country>
    const links: seq<Link>
    const domestic: Option<string>
    const index: Index

    var state: SelectionState
    var lastSectorLayoutKey: Option<string>
    var lastCountryLayoutKey: Option<string>

    /**
     * What `renderAll` needs: the index is the one the links define and at most one axis is
     * selected. A handler may leave a hidden domestic country selected for `renderAll` to clear.
     */
    ghost predicate Ready()
      reads this
    {
      && index == IndexOf(links, domestic)
      && AtMostOne(state)
    }

    /** Between interactions the state is also consistent: a hidden domestic country is not selected. */
    ghost predicate Valid()
      reads this
    {
      && Ready()
      && Consistent(state, domestic)
    }

    /** The sector nodes for the current state. */
    ghost function SectorNodes(): seq<SectorNode>
      reads this`state
    {
      SectorNodesForSelection(leafSectors, index, state, domestic)
    }

    ghost function CountryNodes(): seq<CountryNode>
      reads this`state
    {
      CountryNodesForSelection(realCountries, index, state, domestic)
    }

    /** The sector treemap of a render: its groups and total, and the remembered key after the decision. */
    ghost predicate SectorsRendered(action: AxisAction, groups: seq<Group<SectorNode>>, total: real, prev: Option<string>)
      reads this`state, this`lastSectorLayoutKey
    {
      && groups == Groups(SectorNodes(), SectionKey, SectorValue, "section:", SectionLabel)
      && total == SumValues(SectorNodes(), SectorValue)
      && (action, lastSectorLayoutKey) == Decide(groups != [], LayoutKey(state.hideDomestic, state.selectedCountryId), prev)
    }

    /** The country treemap of a render. */
    ghost predicate CountriesRendered(action: AxisAction, groups: seq<Group<CountryNode>>, total: real, prev: Option<string>)
      reads this`state, this`lastCountryLayoutKey
    {
      && groups == Groups(CountryNodes(), ContinentKey, CountryValue, "continent:", ContinentLabel)
      && total == SumValues(CountryNodes(), CountryValue)
      && (action, lastCountryLayoutKey) == Decide(groups != [], LayoutKey(state.hideDomestic, state.selectedSectorId), prev)
    }

    /**
     * `out` is what `renderAll` draws for the current state, and the remembered layout keys follow
     * the three-way decision from the keys remembered before (`prevSector`, `prevCountry`).
     */
    ghost predicate Rendered(out: Render, animate: bool, prevSector: Option<string>, prevCountry: Option<string>)
      reads this
    {
      && out.animate == animate
      && SectorsRendered(out.sectorAction, out.sectorGroups, out.sectorTotal, prevSector)
      && CountriesRendered(out.countryAction, out.countryGroups, out.countryTotal, prevCountry)
    }

    /** The set-up part of `renderTwinTreemap` once the dataset is loaded. */
    constructor (data: Data)
      ensures Valid()
      ensures leafSectors == LeafSectors(data.sectors) && realCountries == RealCountries(data.demandCountries)
      ensures links == LinksOf(data) && domestic == data.originCode
      ensures state == Initial() && lastSectorLayoutKey == None && lastCountryLayoutKey == None
    {
      var leaf := LeafSectors(data.sectors);
      var countries := RealCountries(data.demandCountries);
      var surviving := SurvivingLinks(data.links, SectorIds(leaf), CountryIds(countries));
      var idx := BuildIndex(surviving, data.originCode);
      leafSectors, realCountries, links, domestic, index := leaf, countries, surviving, data.originCode, idx;
      state := Initial();
      lastSectorLayoutKey := None;
      lastCountryLayoutKey := None;
    }

    /**
     * The remembered layout keys are those a render of the current state leaves behind: the key of
     * each non-empty treemap, none for an empty one.
     */
    ghost predicate KeysCurrent()
      reads this
    {
      && lastSectorLayoutKey == (if Groups(SectorNodes(), SectionKey, SectorValue, "section:", SectionLabel) != []
           then Some(LayoutKey(state.hideDomestic, state.selectedCountryId)) else None)
      && lastCountryLayoutKey == (if Groups(CountryNodes(), ContinentKey, CountryValue, "continent:", ContinentLabel) != []
           then Some(LayoutKey(state.hideDomestic, state.selectedSectorId)) else None)
    }

    /** The sector nodes of the current state, their total and their section groups. */
    method SectorGroups() returns (groups: seq<Group<SectorNode>>, total: real)
      ensures groups == Groups(SectorNodes(), SectionKey, SectorValue, "section:", SectionLabel)
      ensures total == SumValues(SectorNodes(), SectorValue)
    {
      var sectorNodes := SectorNodesForSelection(leafSectors, index, state, domestic);
      total := SumValues(sectorNodes, SectorValue);
      groups := SectionGroups(sectorNodes);
    }

    /** The country nodes of the current state, their total and their continent groups. */
    method CountryGroups() returns (groups: seq<Group<CountryNode>>, total: real)
      ensures groups == Groups(CountryNodes(), ContinentKey, CountryValue, "continent:", ContinentLabel)
      ensures total == SumValues(CountryNodes(), CountryValue)
    {
      var cNodes := CountryNodesForSelection(realCountries, index, state, domestic);
      total := SumValues(cNodes, CountryValue);
      groups := ContinentGroups(cNodes);
    }

    /** The sector half of `renderAll`: nodes, total, section groups, and the layout decision. */
    method RenderSectors() returns (action: AxisAction, groups: seq<Group<SectorNode>>, total: real)
      modifies this`lastSectorLayoutKey
      ensures SectorsRendered(action, groups, total, old(lastSectorLayoutKey))
    {
      groups, total := SectorGroups();
      var sectorLayoutKey := LayoutKey(state.hideDomestic, state.selectedCountryId);
      if |groups| == 0 {
        lastSectorLayoutKey := None;
        action := ShowEmptyMessage;
      } else if Some(sectorLayoutKey) != lastSectorLayoutKey {
        lastSectorLayoutKey := Some(sectorLayoutKey);
        action := RunLayout;
      } else {
        action := UpdateOpacity;
      }
    }

    /** The country half of `renderAll`. */
    method RenderCountries() returns (action: AxisAction, groups: seq<Group<CountryNode>>, total: real)
      modifies this`lastCountryLayoutKey
      ensures CountriesRendered(action, groups, total, old(lastCountryLayoutKey))
    {
      groups, total := CountryGroups();
      var countryLayoutKey := LayoutKey(state.hideDomestic, state.selectedSectorId);
      if |groups| == 0 {
        lastCountryLayoutKey := None;
        action := ShowEmptyMessage;
      } else if Some(countryLayoutKey) != lastCountryLayoutKey {
        lastCountryLayoutKey := Some(countryLayoutKey);
        action := RunLayout;
      } else {
        action := UpdateOpacity;
      }
    }

    /** `renderAll`: clear a hidden domestic selection, then rebuild and draw both treemaps. */
    method RenderAll(animate: bool) returns (out: Render)
      requires Ready()
      modifies this
      ensures Valid()
      ensures state == ClearHiddenDomestic(old(state), domestic)
      ensures Rendered(out, animate, old(lastSectorLayoutKey), old(lastCountryLayoutKey))
      ensures KeysCurrent()
    {
      if state.hideDomestic && Present(domestic) && state.selectedCountryId == Some(domestic.value) {
        state := state.(selectedCountryId := None);
      }
      var sectorAction, sectorGroups, sectorTotal := RenderSectors();
      var countryAction, countryGroups, countryTotal := RenderCountries();
      out := Render(animate, sectorAction, sectorGroups, sectorTotal, countryAction, countryGroups, countryTotal);
    }

    /** The sector tile click handler: toggle the sector, clear the country, re-render. */
    method OnSectorClick(id: string) returns (out: Render)
      requires Valid()
      modifies this
      ensures Valid()
      ensures state == Step(old(state), ClickSector(id), domestic)
      ensures Rendered(out, true, old(lastSectorLayoutKey), old(lastCountryLayoutKey))
      ensures KeysCurrent()
    {
      state := state.(selectedSectorId := if state.selectedSectorId == Some(id) then None else Some(id));
      state := state.(selectedCountryId := None);
      out := RenderAll(true);
    }

    /** The country tile click handler. */
    method OnCountryClick(id: string) returns (out: Render)
      requires Valid()
      modifies this
      ensures Valid()
      ensures state == Step(old(state), ClickCountry(id), domestic)
      ensures Rendered(out, true, old(lastSectorLayoutKey), old(lastCountryLayoutKey))
      ensures KeysCurrent()
    {
      state := state.(selectedCountryId := if state.selectedCountryId == Some(id) then None else Some(id));
      state := state.(selectedSectorId := None);
      out := RenderAll(true);
    }

    /** The reset button. */
    method OnReset() returns (out: Render)
      requires Valid()
      modifies this
      ensures Valid()
      ensures state == Step(old(state), Reset, domestic)
      ensures Rendered(out, true, old(lastSectorLayoutKey), old(lastCountryLayoutKey))
      ensures KeysCurrent()
    {
      state := state.(selectedCountryId := None);
      state := state.(selectedSectorId := None);
      out := RenderAll(true);
    }

    /** The domestic toggle button: flip the flag. */
    method OnToggleButton() returns (out: Render)
      requires Valid()
      modifies this
      ensures Valid()
      ensures state == Step(old(state), ToggleDomestic, domestic)
      ensures Rendered(out, true, old(lastSectorLayoutKey), old(lastCountryLayoutKey))
      ensures KeysCurrent()
    {
      state := state.(hideDomestic := !state.hideDomestic);
      out := RenderAll(true);
    }

    /** The domestic checkbox: take its checked state. */
    method OnToggleCheckbox(checked: bool) returns (out: Render)
      requires Valid()
      modifies this
      ensures Valid()
      ensures state == Step(old(state), SetHideDomestic(checked), domestic)
      ensures Rendered(out, true, old(lastSectorLayoutKey), old(lastCountryLayoutKey))
      ensures KeysCurrent()
    {
      state := state.(hideDomestic := checked);
      out := RenderAll(true);
    }

    /**
     * The (debounced) resize handler: re-render without animation. The state and so both layout
     * keys are unchanged, so after an earlier render neither treemap is laid out again: the tiles
     * keep the geometry of the old container size and only their opacity is updated.
     */
    method OnResize() returns (out: Render)
      requires Valid()
      modifies this
      ensures Valid()
      ensures state == old(state) && state == Step(old(state), Resize, domestic)
      ensures Rendered(out, false, old(lastSectorLayoutKey), old(lastCountryLayoutKey))
      ensures KeysCurrent()
      ensures old(KeysCurrent()) ==> out.sectorAction != RunLayout && out.countryAction != RunLayout
    {
      out := RenderAll(false);
    }
  }

  /**
   * What a render shows is consistent: every tile has a positive value, the totals line equals
   * the summed group values, and a hidden domestic country is neither a tile nor selected.
   */
  lemma RenderedTotals(leafSectors: seq<Sector>, realCountries: seq<Country>, index: Index,
                       st: SelectionState, domestic: Option<string>)
    ensures var nodes := SectorNodesForSelection(leafSectors, index, st, domestic);
      var groups := Groups(nodes, SectionKey, SectorValue, "section:", SectionLabel);
      && SumValues(groups, GroupValue) == SumValues(nodes, SectorValue)
      && (forall g :: g in groups ==> g.value > 0.0 && g.children != [])
      && (groups == [] <==> nodes == [])
    ensures var nodes := CountryNodesForSelection(realCountries, index, st, domestic);
      var groups := Groups(nodes, ContinentKey, CountryValue, "continent:", ContinentLabel);
      && SumValues(groups, GroupValue) == SumValues(nodes, CountryValue)
      && (forall g :: g in groups ==> g.value > 0.0 && g.children != [])
      && (groups == [] <==> nodes == [])
      && (st.hideDomestic && Present(domestic) ==> forall g, n :: g in groups && n in g.children ==> n.id != domestic.value)
  {
    var sNodes := SectorNodesForSelection(leafSectors, index, st, domestic);
    SectorNodesMembers(leafSectors, index, st, domestic);
    GroupsConserveValue(sNodes, SectionKey, SectorValue, "section:", SectionLabel);
    GroupsPositive(sNodes, SectionKey, SectorValue, "section:", SectionLabel);
    GroupsEmpty(sNodes, SectionKey, SectorValue, "section:", SectionLabel);
    var cNodes := CountryNodesForSelection(realCountries, index, st, domestic);
    CountryNodesMembers(realCountries, index, st, domestic);
    GroupsConserveValue(cNodes, ContinentKey, CountryValue, "continent:", ContinentLabel);
    GroupsPositive(cNodes, ContinentKey, CountryValue, "continent:", ContinentLabel);
    GroupsEmpty(cNodes, ContinentKey, CountryValue, "continent:", ContinentLabel);
    var groups := Groups(cNodes, ContinentKey, CountryValue, "continent:", ContinentLabel);
    forall g, n | g in groups && n in g.children
      ensures n in cNodes
    {
      GroupsByKey(cNodes, ContinentKey, CountryValue, "continent:", ContinentLabel);
      GroupContents(cNodes, ContinentKey, CountryValue, "continent:", ContinentLabel, g.key);
    }
  }
}
