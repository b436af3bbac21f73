/**
 * The aggregation engine: the two transposed adjacency maps built from the surviving links
 * (sector -> country -> summed value and country -> sector -> summed value), the per-sector and
 * per-country totals, and their variants that leave out the domestic (origin) country.
 */
module Aggregation {
  import opened Common
  import opened Sums
  import opened Dataset

  type Row = map<string, real>
  type Adj = map<string, Row>

  /** `adj.get(a) || new Map()`. */
  function RowOf(adj: Adj, a: string): Row {
    if a in adj then adj[a] else map[]
  }

  /** `row.get(b) || 0`. */
  function Lookup(row: Row, b: string): real {
    if b in row then row[b] else 0.0
  }

  function Cell(adj: Adj, a: string, b: string): real {
    Lookup(RowOf(adj, a), b)
  }

  /** The outer key of a link: its sector, or its demand country in the transposed map. */
  function RowKey(l: Link, transposed: bool): string {
    if transposed then l.demand else l.sector
  }

  /** The inner key of a link. */
  function ColKey(l: Link, transposed: bool): string {
    if transposed then l.sector else l.demand
  }

  /** One step of the link loop on one of the two maps: add `v` to the entry `adj[a][b]`. */
  function AddEntry(adj: Adj, a: string, b: string, v: real): Adj {
    var row := RowOf(adj, a);
    adj[a := row[b := Lookup(row, b) + v]]
  }

  /** The map the link loop has built after the given links: sector -> country, or country -> sector. */
  function AdjOf(links: seq<Link>, transposed: bool): Adj
    decreases |links|
  {
    if links == [] then map[]
    else
      var l := links[|links| - 1];
      AddEntry(AdjOf(links[..|links| - 1], transposed), RowKey(l, transposed), ColKey(l, transposed), Val(l))
  }

  // ---------------------------------------------------------------------------------------------
  // Reference sums, taken directly over the link list

  function LinkTotal(links: seq<Link>): real
    decreases |links|
  {
    if links == [] then 0.0 else LinkTotal(links[..|links| - 1]) + Val(links[|links| - 1])
  }

  /** The summed value of the links from sector `s` to country `c`. */
  function PairSum(links: seq<Link>, s: string, c: string): real
    decreases |links|
  {
    if links == [] then 0.0
    else
      var l := links[|links| - 1];
      PairSum(links[..|links| - 1], s, c) + (if l.sector == s && l.demand == c then Val(l) else 0.0)
  }

  predicate HasPair(links: seq<Link>, s: string, c: string) {
    exists l :: l in links && l.sector == s && l.demand == c
  }

  /** The summed value of the links whose outer key is `a` and whose inner key is not in `ex`. */
  function RowSum(links: seq<Link>, transposed: bool, a: string, ex: set<string>): real
    decreases |links|
  {
    if links == [] then 0.0
    else
      var l := links[|links| - 1];
      RowSum(links[..|links| - 1], transposed, a, ex)
        + (if RowKey(l, transposed) == a && ColKey(l, transposed) !in ex then Val(l) else 0.0)
  }

  /** The summed value of the links whose inner key is not in `ex`. */
  function ExceptSum(links: seq<Link>, transposed: bool, ex: set<string>): real
    decreases |links|
  {
    if links == [] then 0.0
    else
      var l := links[|links| - 1];
      ExceptSum(links[..|links| - 1], transposed, ex) + (if ColKey(l, transposed) !in ex then Val(l) else 0.0)
  }

  // ---------------------------------------------------------------------------------------------
  // The index and its specification

  /** Per outer key, the total of its row. */
  ghost function RowTotals(adj: Adj): Row {
    map a | a in adj :: Total(adj[a])
  }

  /** Per outer key, the total of its row without the inner keys in `ex`. */
  ghost function RowTotalsExcept(adj: Adj, ex: set<string>): Row {
    map a | a in adj :: Total(adj[a] - ex)
  }

  datatype Index = Index(
    sectorToCountry: Adj,
    countryToSector: Adj,
    sectorTotalsAll: Row,
    countryTotalsAll: Row,
    sectorTotalsNoDomestic: Row,
    countryTotalsNoDomestic: Row)

  /** What the aggregation step computes from the surviving links and the domestic country id. */
  ghost function IndexOf(links: seq<Link>, domestic: Option<string>): Index {
    var s2c := AdjOf(links, false);
    var c2s := AdjOf(links, true);
    var countryAll := RowTotals(c2s);
    Index(s2c, c2s, RowTotals(s2c), countryAll,
      if Present(domestic) then RowTotalsExcept(s2c, {domestic.value}) else map[],
      if Present(domestic) then countryAll - {domestic.value} else map[])
  }

  // ---------------------------------------------------------------------------------------------
  // The imperative build

  /** `let s = 0; for (const v of m.values()) s += v;` */
  method RowTotal(row: Row) returns (s: real)
    ensures s == Total(row)
  {
    s := 0.0;
    var keys := row.Keys;
    while keys != {}
      invariant keys <= row.Keys
      invariant s + SumOver(row, keys) == Total(row)
      decreases keys
    {
      var k :| k in keys;
      SumOverRemove(row, keys, k);
      s := s + row[k];
      keys := keys - {k};
    }
  }

  /** `let s = 0; for (const [country, v] of m) { if (country === d) continue; s += v; }` */
  method RowTotalSkipping(row: Row, d: string) returns (s: real)
    ensures s == Total(row - {d})
  {
    s := 0.0;
    var keys := row.Keys;
    while keys != {}
      invariant keys <= row.Keys
      invariant s + SumOver(row, keys - {d}) == SumOver(row, row.Keys - {d})
      decreases keys
    {
      var k :| k in keys;
      if k != d {
        SumOverRemove(row, keys - {d}, k);
        assert keys - {d} - {k} == (keys - {k}) - {d};
        s := s + row[k];
      } else {
        assert keys - {d} == (keys - {k}) - {d};
      }
      keys := keys - {k};
    }
    assert (row - {d}).Keys == row.Keys - {d};
    SumOverAgree(row - {d}, row, row.Keys - {d});
  }

  /** The `allSectorTotalsAll` / `allCountryTotalsAll` loops. */
  method TotalsPerRow(adj: Adj) returns (totals: Row)
    ensures totals == RowTotals(adj)
  {
    totals := map[];
    var keys := adj.Keys;
    while keys != {}
      invariant keys <= adj.Keys
      invariant totals.Keys == adj.Keys - keys
      invariant forall a :: a in totals ==> totals[a] == Total(adj[a])
      decreases keys
    {
      var a :| a in keys;
      var s := RowTotal(adj[a]);
      totals := totals[a := s];
      keys := keys - {a};
    }
  }

  /** The `allSectorTotalsNoDomestic` loop. */
  method TotalsPerRowSkipping(adj: Adj, d: string) returns (totals: Row)
    ensures totals == RowTotalsExcept(adj, {d})
  {
    totals := map[];
    var keys := adj.Keys;
    while keys != {}
      invariant keys <= adj.Keys
      invariant totals.Keys == adj.Keys - keys
      invariant forall a :: a in totals ==> totals[a] == Total(adj[a] - {d})
      decreases keys
    {
      var a :| a in keys;
      var s := RowTotalSkipping(adj[a], d);
      totals := totals[a := s];
      keys := keys - {a};
    }
  }

  /** The `allCountryTotalsNoDomestic` loop: copy every entry except the domestic one. */
  method TotalsWithout(totals: Row, d: string) returns (r: Row)
    ensures r == totals - {d}
  {
    r := map[];
    var keys := totals.Keys;
    while keys != {}
      invariant keys <= totals.Keys
      invariant r.Keys == totals.Keys - keys - {d}
      invariant forall c :: c in r ==> r[c] == totals[c]
      decreases keys
    {
      var c :| c in keys;
      if c != d {
        r := r[c := totals[c]];
      }
      keys := keys - {c};
    }
  }

  /** Builds the adjacency maps and every totals view from the surviving links. */
  method BuildIndex(links: seq<Link>, domestic: Option<string>) returns (idx: Index)
    ensures idx == IndexOf(links, domestic)
  {
    var sectorToCountry: Adj := map[];
    var countryToSector: Adj := map[];
    for i := 0 to |links|
      invariant sectorToCountry == AdjOf(links[..i], false)
      invariant countryToSector == AdjOf(links[..i], true)
    {
      var l := links[i];
      var value := Coerce(l.value);
      var m1 := RowOf(sectorToCountry, l.sector);
      sectorToCountry := sectorToCountry[l.sector := m1[l.demand := Lookup(m1, l.demand) + value]];
      var m2 := RowOf(countryToSector, l.demand);
      countryToSector := countryToSector[l.demand := m2[l.sector := Lookup(m2, l.sector) + value]];
      assert links[..i + 1][..i] == links[..i];
    }
    assert links[..|links|] == links;

    var sectorAll := TotalsPerRow(sectorToCountry);
    var countryAll := TotalsPerRow(countryToSector);
    var sectorNoDomestic: Row := map[];
    var countryNoDomestic: Row := map[];
    if Present(domestic) {
      sectorNoDomestic := TotalsPerRowSkipping(sectorToCountry, domestic.value);
      countryNoDomestic := TotalsWithout(countryAll, domestic.value);
    }
    idx := Index(sectorToCountry, countryToSector, sectorAll, countryAll, sectorNoDomestic, countryNoDomestic);
  }

  // ---------------------------------------------------------------------------------------------
  // Properties of the adjacency fold

  lemma {:induction false} AdjCell(links: seq<Link>, t: bool, a: string, b: string)
    ensures Cell(AdjOf(links, t), a, b) == (if t then PairSum(links, b, a) else PairSum(links, a, b))
    ensures (a in AdjOf(links, t) && b in AdjOf(links, t)[a]) <==> (if t then HasPair(links, b, a) else HasPair(links, a, b))
    decreases |links|
  {
    if links != [] {
      var p, l := links[..|links| - 1], links[|links| - 1];
      assert links == p + [l];
      AdjCell(p, t, a, b);
      if t {
        assert HasPair(links, b, a) <==> HasPair(p, b, a) || (l.sector == b && l.demand == a);
      } else {
        assert HasPair(links, a, b) <==> HasPair(p, a, b) || (l.sector == a && l.demand == b);
      }
    }
  }

  /** One added entry changes the (filtered) total of its own row by `v` and no other row. */
  lemma AddEntryRow(adj: Adj, a: string, b: string, v: real, r: string, ex: set<string>)
    ensures Total(RowOf(AddEntry(adj, a, b, v), r) - ex) == Total(RowOf(adj, r) - ex) + (if r == a && b !in ex then v else 0.0)
  {
    if r == a {
      var row := RowOf(adj, a);
      var row' := row[b := Lookup(row, b) + v];
      assert RowOf(AddEntry(adj, a, b, v), r) == row';
      if b in ex {
        assert row' - ex == row - ex;
      } else {
        assert row' - ex == (row - ex)[b := Lookup(row - ex, b) + v];
        TotalUpdate(row - ex, b, Lookup(row - ex, b) + v);
      }
    } else {
      assert RowOf(AddEntry(adj, a, b, v), r) == RowOf(adj, r);
    }
  }

  lemma EmptyRowTotal(e: Row, ex: set<string>)
    requires e == map[]
    ensures Total(e - ex) == 0.0
  {
    assert e - ex == e;
  }

  lemma {:induction false} AdjRowTotal(links: seq<Link>, t: bool, a: string, ex: set<string>)
    ensures Total(RowOf(AdjOf(links, t), a) - ex) == RowSum(links, t, a, ex)
    decreases |links|
  {
    if links == [] {
      EmptyRowTotal(map[], ex);
    } else {
      var p, l := links[..|links| - 1], links[|links| - 1];
      AdjRowTotal(p, t, a, ex);
      AddEntryRow(AdjOf(p, t), RowKey(l, t), ColKey(l, t), Val(l), a, ex);
    }
  }

  /** Adding an entry to row `a` changes only that row's total. */
  lemma RowTotalsAdd(adj: Adj, a: string, b: string, v: real, ex: set<string>)
    ensures RowTotalsExcept(AddEntry(adj, a, b, v), ex)
         == RowTotalsExcept(adj, ex)[a := Total(RowOf(AddEntry(adj, a, b, v), a) - ex)]
  {
    var adj' := AddEntry(adj, a, b, v);
    forall r | r in adj' && r != a
      ensures adj'[r] == adj[r]
    {
    }
  }

  lemma {:induction false} AdjGrandTotal(links: seq<Link>, t: bool, ex: set<string>)
    ensures Total(RowTotalsExcept(AdjOf(links, t), ex)) == ExceptSum(links, t, ex)
    decreases |links|
  {
    if links != [] {
      var p, l := links[..|links| - 1], links[|links| - 1];
      var adj := AdjOf(p, t);
      var a, b, v := RowKey(l, t), ColKey(l, t), Val(l);
      var adj' := AddEntry(adj, a, b, v);
      assert adj' == AdjOf(links, t);
      AdjGrandTotal(p, t, ex);
      AddEntryRow(adj, a, b, v, a, ex);
      var m := RowTotalsExcept(adj, ex);
      var x := Total(RowOf(adj', a) - ex);
      RowTotalsAdd(adj, a, b, v, ex);
      TotalUpdate(m, a, x);
      if a !in adj {
        EmptyRowTotal(map[], ex);
      }
    }
  }

  lemma {:induction false} ExceptNothing(links: seq<Link>, t: bool)
    ensures ExceptSum(links, t, {}) == LinkTotal(links)
    decreases |links|
  {
    if links != [] {
      ExceptNothing(links[..|links| - 1], t);
    }
  }

  lemma RowTotalsNoExclusion(adj: Adj)
    ensures RowTotals(adj) == RowTotalsExcept(adj, {})
  {
    forall a | a in adj
      ensures adj[a] - {} == adj[a]
    {
    }
  }

  /** Every link either goes to the domestic country or is counted by the no-domestic sum. */
  lemma {:induction false} SplitByDemand(links: seq<Link>, d: string)
    ensures LinkTotal(links) == RowSum(links, true, d, {}) + ExceptSum(links, false, {d})
    decreases |links|
  {
    if links != [] {
      SplitByDemand(links[..|links| - 1], d);
    }
  }

  // ---------------------------------------------------------------------------------------------
  // Properties of the index

  /**
   * Both adjacency maps hold, for every (sector, country) pair, the sum of the values of the
   * surviving links with that pair; an entry exists exactly when such a link exists.
   */
  lemma AdjacencySums(links: seq<Link>, domestic: Option<string>, s: string, c: string)
    ensures var idx := IndexOf(links, domestic);
      && Cell(idx.sectorToCountry, s, c) == PairSum(links, s, c)
      && Cell(idx.countryToSector, c, s) == PairSum(links, s, c)
      && ((s in idx.sectorToCountry && c in idx.sectorToCountry[s]) <==> HasPair(links, s, c))
      && ((c in idx.countryToSector && s in idx.countryToSector[c]) <==> HasPair(links, s, c))
  {
    AdjCell(links, false, s, c);
    AdjCell(links, true, c, s);
  }

  /**
   * Each per-sector (per-country) total is the summed value of that sector's (country's) links;
   * the no-domestic sector total leaves out the links to the domestic country.
   */
  lemma TotalsAreLinkSums(links: seq<Link>, domestic: Option<string>, k: string)
    ensures var idx := IndexOf(links, domestic);
      && (k in idx.sectorTotalsAll ==> idx.sectorTotalsAll[k] == RowSum(links, false, k, {}))
      && (k in idx.countryTotalsAll ==> idx.countryTotalsAll[k] == RowSum(links, true, k, {}))
      && (k in idx.sectorTotalsNoDomestic ==> idx.sectorTotalsNoDomestic[k] == RowSum(links, false, k, {domestic.value}))
  {
    var s2c, c2s := AdjOf(links, false), AdjOf(links, true);
    AdjRowTotal(links, false, k, {});
    AdjRowTotal(links, true, k, {});
    if k in s2c {
      assert s2c[k] - {} == s2c[k];
    }
    if k in c2s {
      assert c2s[k] - {} == c2s[k];
    }
    if Present(domestic) {
      AdjRowTotal(links, false, k, {domestic.value});
    }
  }

  /**
   * Mass conservation: the sector totals and the country totals both add up to the total value
   * of the surviving links.
   */
  lemma MassConservation(links: seq<Link>, domestic: Option<string>)
    ensures var idx := IndexOf(links, domestic);
      && Total(idx.sectorTotalsAll) == LinkTotal(links)
      && Total(idx.countryTotalsAll) == LinkTotal(links)
  {
    RowTotalsNoExclusion(AdjOf(links, false));
    RowTotalsNoExclusion(AdjOf(links, true));
    AdjGrandTotal(links, false, {});
    AdjGrandTotal(links, true, {});
    ExceptNothing(links, false);
    ExceptNothing(links, true);
  }

  /**
   * The no-domestic views: empty without a domestic id; otherwise the country view is the full
   * country view without the domestic key, the sector view has one entry per sector row, and both
   * add up to the total value of the links whose demand country is not the domestic one.
   */
  lemma NoDomesticTotals(links: seq<Link>, domestic: Option<string>)
    ensures var idx := IndexOf(links, domestic);
      && (!Present(domestic) ==> idx.sectorTotalsNoDomestic == map[] && idx.countryTotalsNoDomestic == map[])
      && (Present(domestic) ==>
            && idx.countryTotalsNoDomestic.Keys == idx.countryTotalsAll.Keys - {domestic.value}
            && (forall c :: c in idx.countryTotalsNoDomestic ==> idx.countryTotalsNoDomestic[c] == idx.countryTotalsAll[c])
            && idx.sectorTotalsNoDomestic.Keys == idx.sectorTotalsAll.Keys
            && Total(idx.sectorTotalsNoDomestic) == ExceptSum(links, false, {domestic.value})
            && Total(idx.countryTotalsNoDomestic) == ExceptSum(links, false, {domestic.value}))
  {
    if Present(domestic) {
      NoDomesticSums(links, domestic.value);
    }
  }

  /** Both no-domestic views add up to the value of the links whose demand country is not `d`. */
  lemma NoDomesticSums(links: seq<Link>, d: string)
    ensures Total(RowTotalsExcept(AdjOf(links, false), {d})) == ExceptSum(links, false, {d})
    ensures Total(RowTotals(AdjOf(links, true)) - {d}) == ExceptSum(links, false, {d})
  {
    var c2s := AdjOf(links, true);
    var countryAll := RowTotals(c2s);
    AdjGrandTotal(links, false, {d});
    MassConservation(links, None);
    TotalRemove(countryAll, d);
    AdjRowTotal(links, true, d, {});
    if d in c2s {
      assert c2s[d] - {} == c2s[d];
    } else {
      EmptyRowTotal(map[], {});
    }
    SplitByDemand(links, d);
  }
}
