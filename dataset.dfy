/**
 * The loaded value-flow dataset: sectors, demand countries and (sector, demand, value) links,
 * and the filtering step that keeps only leaf sectors, real countries and the links between them.
 */
module Dataset {
  import opened Common

  /** A JSON field after `Number(...)`: a number, or `NaN` for anything non-numeric. */
  datatype RawValue = Num(x: real) | NaN

  /** `Number(v) || 0`: non-numeric values count as zero. */
  function Coerce(v: RawValue): real {
    if v.Num? then v.x else 0.0
  }

  /** `Number(flag) === 1`. */
  predicate IsOne(v: RawValue) {
    v == Num(1.0)
  }

  datatype Section = Section(code: string, shortName: string, longName: string)

  /** A sector record; `section` is absent when the JSON has none. */
  datatype Sector = Sector(id: string, shortName: string, longName: string, isLeaf: RawValue, section: Option<Section>)

  datatype Country = Country(id: string, name: string, continent: string, isCountry: RawValue)

  datatype Link = Link(sector: string, demand: string, value: RawValue)

  /** `meta.origin_country.code` is `originCode`. */
  datatype Data = Data(sectors: seq<Sector>, demandCountries: seq<Country>, links: seq<Link>, originCode: Option<string>)

  /** The value a link contributes to every sum. */
  function Val(l: Link): real {
    Coerce(l.value)
  }

  predicate IsLeafSector(s: Sector) {
    IsOne(s.isLeaf)
  }

  predicate IsRealCountry(c: Country) {
    IsOne(c.isCountry)
  }

  /**
   * `sectors.filter((s) => Number(s.is_leaf) === 1)`: every leaf sector, as often as it occurs,
   * in input order (`LeafSectorsSnoc`).
   */
  function LeafSectors(sectors: seq<Sector>): (r: seq<Sector>)
    ensures forall s :: s in r <==> s in sectors && IsOne(s.isLeaf)
    ensures forall s :: multiset(r)[s] == if IsOne(s.isLeaf) then multiset(sectors)[s] else 0
  {
    FilterCount(sectors, IsLeafSector);
    Filter(sectors, IsLeafSector)
  }

  /** `demandCountries.filter((c) => Number(c.is_country) === 1)`: every real country, as often as it
   * occurs, in input order (`RealCountriesSnoc`). */
  function RealCountries(countries: seq<Country>): (r: seq<Country>)
    ensures forall c :: c in r <==> c in countries && IsOne(c.isCountry)
    ensures forall c :: multiset(r)[c] == if IsOne(c.isCountry) then multiset(countries)[c] else 0
  {
    FilterCount(countries, IsRealCountry);
    Filter(countries, IsRealCountry)
  }

  /** The keys of `sectorById`. */
  function SectorIds(sectors: seq<Sector>): set<string> {
    set s | s in sectors :: s.id
  }

  /** The keys of `countryById`. */
  function CountryIds(countries: seq<Country>): set<string> {
    set c | c in countries :: c.id
  }

  /** Whether a link runs between two known ids. */
  predicate Known(l: Link, sectorIds: set<string>, countryIds: set<string>) {
    l.sector in sectorIds && l.demand in countryIds
  }

  /** The test of `SurvivingLinks` as a function value. */
  function KnownIn(sectorIds: set<string>, countryIds: set<string>): Link -> bool {
    (l: Link) => Known(l, sectorIds, countryIds)
  }

  /**
   * `links.filter((l) => sectorById.has(l.sector) && countryById.has(l.demand))`: every link
   * between known ids, duplicates included, in input order (`SurvivingLinksSnoc`).
   */
  function SurvivingLinks(links: seq<Link>, sectorIds: set<string>, countryIds: set<string>): (r: seq<Link>)
    ensures forall l :: l in r <==> l in links && l.sector in sectorIds && l.demand in countryIds
    ensures forall l :: multiset(r)[l] == if Known(l, sectorIds, countryIds) then multiset(links)[l] else 0
  {
    FilterCount(links, KnownIn(sectorIds, countryIds));
    Filter(links, KnownIn(sectorIds, countryIds))
  }

  /** A sector appended to the input is kept after the earlier leaves exactly when it is a leaf. */
  lemma LeafSectorsSnoc(sectors: seq<Sector>, s: Sector)
    ensures LeafSectors(sectors + [s]) == LeafSectors(sectors) + (if IsOne(s.isLeaf) then [s] else [])
  {
    FilterAppend(sectors, [s], IsLeafSector);
    assert Filter([s], IsLeafSector) == (if IsLeafSector(s) then [s] else []) by {
      assert [s][1..] == [];
    }
  }

  /** A country appended to the input is kept after the earlier ones exactly when it is real. */
  lemma RealCountriesSnoc(countries: seq<Country>, c: Country)
    ensures RealCountries(countries + [c]) == RealCountries(countries) + (if IsOne(c.isCountry) then [c] else [])
  {
    FilterAppend(countries, [c], IsRealCountry);
    assert Filter([c], IsRealCountry) == (if IsRealCountry(c) then [c] else []) by {
      assert [c][1..] == [];
    }
  }

  /** A link appended to the input survives, after the earlier survivors, exactly when its ids are known. */
  lemma SurvivingLinksSnoc(links: seq<Link>, l: Link, sectorIds: set<string>, countryIds: set<string>)
    ensures SurvivingLinks(links + [l], sectorIds, countryIds) ==
      SurvivingLinks(links, sectorIds, countryIds) + (if Known(l, sectorIds, countryIds) then [l] else [])
  {
    var known := KnownIn(sectorIds, countryIds);
    FilterAppend(links, [l], known);
    assert Filter([l], known) == (if known(l) then [l] else []) by {
      assert [l][1..] == [];
    }
  }

  /** The links of a dataset that take part in the charts. */
  function LinksOf(data: Data): seq<Link> {
    SurvivingLinks(data.links, SectorIds(LeafSectors(data.sectors)), CountryIds(RealCountries(data.demandCountries)))
  }

  /**
   * Only links from a leaf sector to a real country survive, and every such link does.
   */
  lemma LinksOfSurvivors(data: Data, l: Link)
    ensures l in LinksOf(data) <==>
      l in data.links
      && (exists s :: s in data.sectors && IsOne(s.isLeaf) && s.id == l.sector)
      && (exists c :: c in data.demandCountries && IsOne(c.isCountry) && c.id == l.demand)
  {
    var leaf := LeafSectors(data.sectors);
    var countries := RealCountries(data.demandCountries);
    if l in LinksOf(data) {
      assert l.sector in SectorIds(leaf);
      var s :| s in leaf && s.id == l.sector;
      var c :| c in countries && c.id == l.demand;
    }
    if l in data.links
      && (exists s :: s in data.sectors && IsOne(s.isLeaf) && s.id == l.sector)
      && (exists c :: c in data.demandCountries && IsOne(c.isCountry) && c.id == l.demand)
    {
      var s :| s in data.sectors && IsOne(s.isLeaf) && s.id == l.sector;
      var c :| c in data.demandCountries && IsOne(c.isCountry) && c.id == l.demand;
      assert s in leaf && c in countries;
      assert l.sector in SectorIds(leaf) && l.demand in CountryIds(countries);
    }
  }
}
