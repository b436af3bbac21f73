/**
 * The leaf node lists the two treemaps are built from: one node per leaf sector (per real
 * country) valued by the totals that the current selection picks, without the zero-valued ones,
 * in descending order of value.
 */
module Nodes {
  import opened Common
  import opened Dataset
  import opened Aggregation
  import opened Ordering
  import opened Selection

  datatype SectorNode = SectorNode(
    id: string,
    caption: string,  // the `label` field
    longName: string,
    code: string,
    section: string,
    sectionShortName: string,
    sectionLongName: string,
    value: real)

  datatype CountryNode = CountryNode(id: string, caption: string, continent: string, value: real)

  function SectorValue(n: SectorNode): real {
    n.value
  }

  function CountryValue(n: CountryNode): real {
    n.value
  }

  predicate PositiveSector(n: SectorNode) {
    n.value > 0.0
  }

  predicate PositiveCountry(n: CountryNode) {
    n.value > 0.0
  }

  /**
   * The totals the sector treemap is sized by: the selected country's row of the country -> sector
   * map, or else the (possibly no-domestic) sector totals.
   */
  function SectorTotalsFor(idx: Index, st: SelectionState, domestic: Option<string>): Row {
    if st.selectedCountryId.None? then
      if st.hideDomestic && Present(domestic) then idx.sectorTotalsNoDomestic else idx.sectorTotalsAll
    else RowOf(idx.countryToSector, st.selectedCountryId.value)
  }

  /** The totals the country treemap is sized by. */
  function CountryTotalsFor(idx: Index, st: SelectionState, domestic: Option<string>): Row {
    if st.selectedSectorId.None? then
      if st.hideDomestic && Present(domestic) then idx.countryTotalsNoDomestic else idx.countryTotalsAll
    else RowOf(idx.sectorToCountry, st.selectedSectorId.value)
  }

  /** The node of one leaf sector, with the fallbacks for missing names and a missing section. */
  function SectorNodeOf(s: Sector, totals: Row): SectorNode {
    SectorNode(
      s.id,
      OrElse(OrElse(s.shortName, s.longName), s.id),
      OrElse(OrElse(s.longName, s.shortName), s.id),
      s.id,
      if s.section.Some? then OrElse(s.section.value.code, "UNK") else "UNK",
      if s.section.Some? then OrElse(s.section.value.shortName, "Unknown") else "Unknown",
      if s.section.Some? then OrElse(s.section.value.longName, "Unknown") else "Unknown",
      Lookup(totals, s.id))
  }

  function CountryNodeOf(c: Country, totals: Row): CountryNode {
    CountryNode(c.id, OrElse(c.name, c.id), OrElse(c.continent, "Unknown"), Lookup(totals, c.id))
  }

  /**
   * The sector nodes for the current selection: `leafSectors.map(...).filter((n) => n.value > 0)`
   * sorted by descending value (`SectorNodesSpec` states what this gives).
   */
  function SectorNodesForSelection(leaf: seq<Sector>, idx: Index, st: SelectionState, domestic: Option<string>): seq<SectorNode> {
    SortDesc(Filter(SectorNodesOf(leaf, SectorTotalsFor(idx, st, domestic)), PositiveSector), SectorValue)
  }

  /**
   * The sector nodes are in descending order of value; they are the positive-valued nodes of the
   * leaf sectors, each as often as its sector occurs; and nodes of equal value keep leaf-sector order.
   */
  lemma SectorNodesSpec(leaf: seq<Sector>, idx: Index, st: SelectionState, domestic: Option<string>)
    ensures var r := SectorNodesForSelection(leaf, idx, st, domestic);
      var all := SectorNodesOf(leaf, SectorTotalsFor(idx, st, domestic));
      && SortedDesc(r, SectorValue)
      && (forall n :: multiset(r)[n] == if n.value > 0.0 then multiset(all)[n] else 0)
      && (forall v :: v > 0.0 ==> Keep(r, SectorValue, v) == Keep(all, SectorValue, v))
  {
    var all := SectorNodesOf(leaf, SectorTotalsFor(idx, st, domestic));
    FilterSort(all, PositiveSector, SectorValue);
    forall v | v > 0.0
      ensures Keep(SortDesc(Filter(all, PositiveSector), SectorValue), SectorValue, v) == Keep(all, SectorValue, v)
    {
      FilterSortStable(all, PositiveSector, SectorValue, v);
    }
  }

  /** The sector nodes are exactly the positive-valued nodes of the leaf sectors. */
  lemma SectorNodesMembers(leaf: seq<Sector>, idx: Index, st: SelectionState, domestic: Option<string>)
    ensures var r := SectorNodesForSelection(leaf, idx, st, domestic);
      && (forall n :: n in r ==> n.value > 0.0 && exists s :: s in leaf && n == SectorNodeOf(s, SectorTotalsFor(idx, st, domestic)))
      && (forall s :: s in leaf && Lookup(SectorTotalsFor(idx, st, domestic), s.id) > 0.0 ==>
            SectorNodeOf(s, SectorTotalsFor(idx, st, domestic)) in r)
  {
    SectorNodesSpec(leaf, idx, st, domestic);
    var all := SectorNodesOf(leaf, SectorTotalsFor(idx, st, domestic));
    FilterSort(all, PositiveSector, SectorValue);
  }

  /** One node per leaf sector, in order, with its value from `totals`. */
  function SectorNodesOf(leaf: seq<Sector>, totals: Row): (all: seq<SectorNode>)
    ensures |all| == |leaf|
    ensures forall i :: 0 <= i < |leaf| ==> all[i] == SectorNodeOf(leaf[i], totals)
    ensures forall s :: s in leaf ==> SectorNodeOf(s, totals) in all
    ensures forall n :: n in all ==> exists s :: s in leaf && n == SectorNodeOf(s, totals)
  {
    var all := seq(|leaf|, i requires 0 <= i < |leaf| => SectorNodeOf(leaf[i], totals));
    assert forall s :: s in leaf ==> SectorNodeOf(s, totals) in all by {
      forall s | s in leaf ensures SectorNodeOf(s, totals) in all {
        var i :| 0 <= i < |leaf| && leaf[i] == s;
        assert all[i] == SectorNodeOf(s, totals);
      }
    }
    assert forall n :: n in all ==> exists s :: s in leaf && n == SectorNodeOf(s, totals) by {
      forall n | n in all ensures exists s :: s in leaf && n == SectorNodeOf(s, totals) {
        var i :| 0 <= i < |all| && all[i] == n;
        assert leaf[i] in leaf;
      }
    }
    all
  }

  /** One node per real country, in order, with its value from `totals`. */
  function CountryNodesOf(countries: seq<Country>, totals: Row): (all: seq<CountryNode>)
    ensures |all| == |countries|
    ensures forall i :: 0 <= i < |countries| ==> all[i] == CountryNodeOf(countries[i], totals)
    ensures forall c :: c in countries ==> CountryNodeOf(c, totals) in all
    ensures forall n :: n in all ==> exists c :: c in countries && n == CountryNodeOf(c, totals)
  {
    var all := seq(|countries|, i requires 0 <= i < |countries| => CountryNodeOf(countries[i], totals));
    assert forall c :: c in countries ==> CountryNodeOf(c, totals) in all by {
      forall c | c in countries ensures CountryNodeOf(c, totals) in all {
        var i :| 0 <= i < |countries| && countries[i] == c;
        assert all[i] == CountryNodeOf(c, totals);
      }
    }
    assert forall n :: n in all ==> exists c :: c in countries && n == CountryNodeOf(c, totals) by {
      forall n | n in all ensures exists c :: c in countries && n == CountryNodeOf(c, totals) {
        var i :| 0 <= i < |all| && all[i] == n;
        assert countries[i] in countries;
      }
    }
    all
  }

  /** Whether a country node survives the domestic filter. */
  predicate ShownCountry(st: SelectionState, domestic: Option<string>, id: string) {
    !st.hideDomestic || !Present(domestic) || id != domestic.value
  }

  /** The domestic filter as a function value. */
  function ShownIn(st: SelectionState, domestic: Option<string>): CountryNode -> bool {
    (n: CountryNode) => ShownCountry(st, domestic, n.id)
  }

  /**
   * `realCountries.map(...).filter(domestic filter)`: the node of each country the domestic filter
   * keeps, as often as the country occurs, in country order (`ShownCountryNodesSnoc`).
   */
  function ShownCountryNodes(countries: seq<Country>, totals: Row, st: SelectionState, domestic: Option<string>): seq<CountryNode> {
    Filter(CountryNodesOf(countries, totals), ShownIn(st, domestic))
  }

  /** A country appended to the input adds its node after the earlier ones exactly when it is shown. */
  lemma ShownCountryNodesSnoc(countries: seq<Country>, c: Country, totals: Row, st: SelectionState, domestic: Option<string>)
    ensures ShownCountryNodes(countries + [c], totals, st, domestic) ==
      ShownCountryNodes(countries, totals, st, domestic) + (if ShownCountry(st, domestic, c.id) then [CountryNodeOf(c, totals)] else [])
  {
    var shown := ShownIn(st, domestic);
    var n := CountryNodeOf(c, totals);
    assert CountryNodesOf(countries + [c], totals) == CountryNodesOf(countries, totals) + [n];
    FilterAppend(CountryNodesOf(countries, totals), [n], shown);
    assert Filter([n], shown) == (if shown(n) then [n] else []) by {
      assert [n][1..] == [];
    }
  }

  /**
   * The shown nodes are exactly the nodes of the countries the domestic filter keeps, each as often
   * as its country occurs.
   */
  lemma ShownCountryMembers(countries: seq<Country>, totals: Row, st: SelectionState, domestic: Option<string>)
    ensures forall n ::
              multiset(ShownCountryNodes(countries, totals, st, domestic))[n] ==
              (if ShownCountry(st, domestic, n.id) then multiset(CountryNodesOf(countries, totals))[n] else 0)
    ensures forall n :: n in ShownCountryNodes(countries, totals, st, domestic) ==>
      ShownCountry(st, domestic, n.id) && exists c :: c in countries && n == CountryNodeOf(c, totals)
    ensures forall c :: c in countries && ShownCountry(st, domestic, c.id) ==> CountryNodeOf(c, totals) in ShownCountryNodes(countries, totals, st, domestic)
  {
    var r := ShownCountryNodes(countries, totals, st, domestic);
    var all := CountryNodesOf(countries, totals);
    FilterCount(all, ShownIn(st, domestic));
    forall n | n in r
      ensures ShownCountry(st, domestic, n.id) && n in all
    {
      assert multiset(r)[n] > 0;
    }
    forall c | c in countries && ShownCountry(st, domestic, c.id)
      ensures CountryNodeOf(c, totals) in r
    {
      assert multiset(all)[CountryNodeOf(c, totals)] > 0;
    }
  }

  /**
   * The country nodes for the current selection: the shown nodes with a positive value, sorted by
   * descending value (`CountryNodesSpec` states what this gives).
   */
  function CountryNodesForSelection(countries: seq<Country>, idx: Index, st: SelectionState, domestic: Option<string>): seq<CountryNode> {
    SortDesc(Filter(ShownCountryNodes(countries, CountryTotalsFor(idx, st, domestic), st, domestic), PositiveCountry), CountryValue)
  }

  /**
   * The country nodes are in descending order of value; they are the positive-valued shown nodes,
   * each as often as its country occurs; and nodes of equal value keep country order.
   */
  lemma CountryNodesSpec(countries: seq<Country>, idx: Index, st: SelectionState, domestic: Option<string>)
    ensures var r := CountryNodesForSelection(countries, idx, st, domestic);
      var shown := ShownCountryNodes(countries, CountryTotalsFor(idx, st, domestic), st, domestic);
      && SortedDesc(r, CountryValue)
      && (forall n :: multiset(r)[n] == if n.value > 0.0 then multiset(shown)[n] else 0)
      && (forall v :: v > 0.0 ==> Keep(r, CountryValue, v) == Keep(shown, CountryValue, v))
  {
    var shown := ShownCountryNodes(countries, CountryTotalsFor(idx, st, domestic), st, domestic);
    FilterSort(shown, PositiveCountry, CountryValue);
    forall v | v > 0.0
      ensures Keep(SortDesc(Filter(shown, PositiveCountry), CountryValue), CountryValue, v) == Keep(shown, CountryValue, v)
    {
      FilterSortStable(shown, PositiveCountry, CountryValue, v);
    }
  }

  /**
   * The country nodes are exactly the positive-valued nodes of the real countries that the domestic
   * filter keeps.
   */
  lemma CountryNodesMembers(countries: seq<Country>, idx: Index, st: SelectionState, domestic: Option<string>)
    ensures var r := CountryNodesForSelection(countries, idx, st, domestic);
      && (forall n :: n in r ==>
            n.value > 0.0 && ShownCountry(st, domestic, n.id) &&
            exists c :: c in countries && n == CountryNodeOf(c, CountryTotalsFor(idx, st, domestic)))
      && (forall c :: c in countries && ShownCountry(st, domestic, c.id) && Lookup(CountryTotalsFor(idx, st, domestic), c.id) > 0.0 ==>
            CountryNodeOf(c, CountryTotalsFor(idx, st, domestic)) in r)
  {
    var totals := CountryTotalsFor(idx, st, domestic);
    var shown := ShownCountryNodes(countries, totals, st, domestic);
    CountryNodesSpec(countries, idx, st, domestic);
    FilterSort(shown, PositiveCountry, CountryValue);
    ShownCountryMembers(countries, totals, st, domestic);
  }

  /**
   * With a country selected, every sector node's value is the summed value of the links from that
   * sector to the selected country; with nothing selected it is the sector's total, without the
   * links to the domestic country when those are hidden.
   */
  lemma SectorNodeValues(links: seq<Link>, leaf: seq<Sector>, st: SelectionState, domestic: Option<string>, n: SectorNode)
    requires n in SectorNodesForSelection(leaf, IndexOf(links, domestic), st, domestic)
    ensures st.selectedCountryId.Some? ==>
      n.value == PairSum(links, n.id, st.selectedCountryId.value) && HasPair(links, n.id, st.selectedCountryId.value)
    ensures st.selectedCountryId.None? && !(st.hideDomestic && Present(domestic)) ==>
      n.value == RowSum(links, false, n.id, {})
    ensures st.selectedCountryId.None? && st.hideDomestic && Present(domestic) ==>
      n.value == RowSum(links, false, n.id, {domestic.value})
  {
    var idx := IndexOf(links, domestic);
    var totals := SectorTotalsFor(idx, st, domestic);
    SectorNodesMembers(leaf, idx, st, domestic);
    var s :| s in leaf && n == SectorNodeOf(s, totals);
    assert n.id == s.id && n.value == Lookup(totals, s.id) && n.value > 0.0;
    if st.selectedCountryId.Some? {
      AdjacencySums(links, domestic, n.id, st.selectedCountryId.value);
    } else {
      TotalsAreLinkSums(links, domestic, n.id);
    }
  }

  /** The country-side counterpart of `SectorNodeValues`; a hidden domestic country has no node. */
  lemma CountryNodeValues(links: seq<Link>, countries: seq<Country>, st: SelectionState, domestic: Option<string>, n: CountryNode)
    requires n in CountryNodesForSelection(countries, IndexOf(links, domestic), st, domestic)
    ensures st.hideDomestic && Present(domestic) ==> n.id != domestic.value
    ensures st.selectedSectorId.Some? ==>
      n.value == PairSum(links, st.selectedSectorId.value, n.id) && HasPair(links, st.selectedSectorId.value, n.id)
    ensures st.selectedSectorId.None? ==> n.value == RowSum(links, true, n.id, {})
  {
    var idx := IndexOf(links, domestic);
    var totals := CountryTotalsFor(idx, st, domestic);
    CountryNodesMembers(countries, idx, st, domestic);
    var c :| c in countries && n == CountryNodeOf(c, totals);
    assert n.id == c.id && n.value == Lookup(totals, c.id) && n.value > 0.0;
    if st.selectedSectorId.Some? {
      AdjacencySums(links, domestic, st.selectedSectorId.value, n.id);
    } else {
      TotalsAreLinkSums(links, domestic, n.id);
      NoDomesticTotals(links, domestic);
    }
  }
}
