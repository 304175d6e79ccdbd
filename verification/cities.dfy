/** The lookup tables of main.go: regions and nations of the Star Schema
    Benchmark with their row IDs, and the city tables `DefineCityMap` builds
    (ten cities per nation, named after the nation's first nine characters
    and a digit). */
module Cities {
  import opened Basics

  const Regions: map<string, int> := map[
    "AMERICA" := 0, "AFRICA" := 1, "ASIA" := 2, "EUROPE" := 3, "MIDDLE EAST" := 4]

  /** The keys of `Regions` in ID order. */
  const RegionNames: seq<string> := ["AMERICA", "AFRICA", "ASIA", "EUROPE", "MIDDLE EAST"]

  const AmericaNations: seq<string> := ["CANADA", "ARGENTINA", "BRAZIL", "UNITED STATES", "PERU"]
  const AsiaNations: seq<string> := ["INDIA", "INDONESIA", "CHINA", "VIETNAM", "JAPAN"]
  const AsiaNationIDs: seq<int> := [10, 11, 12, 13, 14]

  /** Nation IDs: five nations per region, regions in the order of
      `Regions`. */
  const Nations: map<string, int> := map[
    "CANADA" := 0, "ARGENTINA" := 1, "BRAZIL" := 2, "UNITED STATES" := 3, "PERU" := 4,
    "ETHIOPIA" := 5, "ALGERIA" := 6, "KENYA" := 7, "MOZAMBIQUE" := 8, "MOROCCO" := 9,
    "INDIA" := 10, "INDONESIA" := 11, "CHINA" := 12, "VIETNAM" := 13, "JAPAN" := 14,
    "ROMANIA" := 15, "RUSSIA" := 16, "FRANCE" := 17, "UNITED KINGDOM" := 18, "GERMANY" := 19,
    "SAUDI ARABIA" := 20, "JORDAN" := 21, "IRAN" := 22, "IRAQ" := 23, "EGYPT" := 24]

  /** The keys of `Nations` in ID order. */
  const NationNames: seq<string> := [
    "CANADA", "ARGENTINA", "BRAZIL", "UNITED STATES", "PERU",
    "ETHIOPIA", "ALGERIA", "KENYA", "MOZAMBIQUE", "MOROCCO",
    "INDIA", "INDONESIA", "CHINA", "VIETNAM", "JAPAN",
    "ROMANIA", "RUSSIA", "FRANCE", "UNITED KINGDOM", "GERMANY",
    "SAUDI ARABIA", "JORDAN", "IRAN", "IRAQ", "EGYPT"]

  /** The nine-character stems of the nation names, in ID order. */
  const Stems: seq<string> := [
    "CANADA   ", "ARGENTINA", "BRAZIL   ", "UNITED ST", "PERU     ",
    "ETHIOPIA ", "ALGERIA  ", "KENYA    ", "MOZAMBIQU", "MOROCCO  ",
    "INDIA    ", "INDONESIA", "CHINA    ", "VIETNAM  ", "JAPAN    ",
    "ROMANIA  ", "RUSSIA   ", "FRANCE   ", "UNITED KI", "GERMANY  ",
    "SAUDI ARA", "JORDAN   ", "IRAN     ", "IRAQ     ", "EGYPT    "]

  const DecimalDigits: string := "0123456789"

  /** `PadRight(str, pad, length)`: append `pad` at least once, and until
      the string is longer than `length`, then cut it to `length`.  A
      negative length makes the final slice panic and an empty pad on a
      string no longer than `length` never leaves the loop, hence the
      requires clauses.  The result is `str` followed by copies of `pad`,
      cut to exactly `length` characters. */
  function PadRight(str: string, pad: string, length: int): (r: string)
    requires length >= 0
    requires |pad| > 0 || |str| > length
    ensures |r| == length
    ensures forall i :: 0 <= i < length ==>
      r[i] == if i < |str| then str[i] else pad[(i - |str|) % |pad|]
    decreases length - |str|
  {
    var s := str + pad;
    if |s| > length then
      ModBelow(length - |str|, |pad|);
      s[..length]
    else
      var r := PadRight(s, pad, length);
      ModShift(length - |str|, |pad|);
      r
  }

  /** Offsets inside the first copy of the pad are their own remainder. */
  lemma ModBelow(n: int, p: int)
    ensures p > 0 ==> forall x :: 0 <= x < n && x < p ==> x % p == x
  {
    if p > 0 {
      forall x | 0 <= x < n && x < p ensures x % p == x {
        DivUnique(x, p, 0, x);
      }
    }
  }

  /** Skipping one whole copy of the pad does not change the offset in
      it. */
  lemma ModShift(n: int, p: int)
    requires p > 0
    ensures forall x :: p <= x < n ==> (x - p) % p == x % p
    ensures forall x :: 0 <= x < n && x < p ==> x % p == x
  {
    forall x | p <= x < n ensures (x - p) % p == x % p {
      var q, r := (x - p) / p, (x - p) % p;
      assert x == p * (q + 1) + r;
      DivUnique(x, p, q + 1, r);
    }
    ModBelow(n, p);
  }

  /** `PadRight` cuts a string at least `length` long, and otherwise keeps
      the whole string and fills the rest with the pad. */
  lemma PadRightCases(str: string, pad: string, length: int)
    requires length >= 0 && (|pad| > 0 || |str| > length)
    ensures |str| >= length ==> PadRight(str, pad, length) == str[..length]
    ensures |str| < length ==> PadRight(str, pad, length)[..|str|] == str
  {
  }

  /** The city name `fmt.Sprintf("%s%d", PadRight(nation, " ", 9)[0:9], j)`:
      the nation name cut or blank-padded to nine characters, then the digit
      `j`. */
  function CityName(nation: string, j: int): (name: string)
    requires 0 <= j < 10
    ensures |name| == 10
    ensures forall i :: 0 <= i < 9 ==> name[i] == if i < |nation| then nation[i] else ' '
    ensures name[9] == DecimalDigits[j]
  {
    PadRight(nation, " ", 9)[..9] + [DecimalDigits[j]]
  }

  /** One assignment pair of the loop body: `cities[name] = id` and
      `cityIDs[id] = name`. */
  datatype CityEntry = CityEntry(name: string, id: int)

  /** The ten entries of one nation, `j = 0 .. 9`, with city ID
      `nationID * 10 + j`. */
  function NationEntries(nation: string, nationID: int): seq<CityEntry> {
    seq(10, j requires 0 <= j < 10 => CityEntry(CityName(nation, j), nationID * 10 + j))
  }

  /** The two tables `DefineCityMap` fills. */
  datatype CityTables = CityTables(cities: map<string, int>, cityIDs: map<int, string>)

  /** The nations in the order a `range` over `nations` visits them: each
      key exactly once, in an order Go leaves unspecified. */
  predicate NationOrder(order: seq<string>) {
    && (forall i :: 0 <= i < |order| ==> order[i] in Nations)
    && (forall i, j :: 0 <= i < j < |order| ==> order[i] != order[j])
    && (forall a :: a in Nations ==> a in order)
  }

  /** All entries, nation after nation in the visiting order, ten per
      nation. */
  function Entries(order: seq<string>): seq<CityEntry>
    requires forall i :: 0 <= i < |order| ==> order[i] in Nations
  {
    Flatten(seq(|order|, i requires 0 <= i < |order| => NationEntries(order[i], Nations[order[i]])))
  }

  /** The tables after performing the assignments of `entries` in order on
      empty tables. */
  function Assign(entries: seq<CityEntry>): CityTables
    decreases |entries|
  {
    if |entries| == 0 then CityTables(map[], map[])
    else
      var t := Assign(entries[..|entries| - 1]);
      var e := entries[|entries| - 1];
      CityTables(t.cities[e.name := e.id], t.cityIDs[e.id := e.name])
  }

  /** `DefineCityMap()`, for the given visiting order of the nations. */
  function DefineCityMap(order: seq<string>): CityTables
    requires forall i :: 0 <= i < |order| ==> order[i] in Nations
  {
    Assign(Entries(order))
  }

  predicate DistinctNames(es: seq<CityEntry>) {
    forall a, b :: 0 <= a < b < |es| ==> es[a].name != es[b].name
  }

  predicate DistinctIDs(es: seq<CityEntry>) {
    forall a, b :: 0 <= a < b < |es| ==> es[a].id != es[b].id
  }

  /** The tables' keys are exactly the assigned names and IDs. */
  lemma {:induction false} AssignKeys(es: seq<CityEntry>)
    ensures forall name :: name in Assign(es).cities <==> exists k :: 0 <= k < |es| && es[k].name == name
    ensures forall id :: id in Assign(es).cityIDs <==> exists k :: 0 <= k < |es| && es[k].id == id
    decreases |es|
  {
    if |es| > 0 {
      var init := es[..|es| - 1];
      assert forall k :: 0 <= k < |init| ==> init[k] == es[k];
      AssignKeys(init);
    }
  }

  /** With no name and no ID assigned twice, every assigned pair survives
      in both tables. */
  lemma {:induction false} AssignValues(es: seq<CityEntry>)
    requires DistinctNames(es) && DistinctIDs(es)
    ensures forall k :: 0 <= k < |es| ==>
      es[k].name in Assign(es).cities && Assign(es).cities[es[k].name] == es[k].id
    ensures forall k :: 0 <= k < |es| ==>
      es[k].id in Assign(es).cityIDs && Assign(es).cityIDs[es[k].id] == es[k].name
    decreases |es|
  {
    if |es| > 0 {
      var init := es[..|es| - 1];
      assert forall k :: 0 <= k < |init| ==> init[k] == es[k];
      AssignValues(init);
    }
  }

  /** With no name and no ID assigned twice, the two tables are mutual
      inverses. */
  lemma AssignInverse(es: seq<CityEntry>)
    requires DistinctNames(es) && DistinctIDs(es)
    ensures forall id :: id in Assign(es).cityIDs ==>
      Assign(es).cityIDs[id] in Assign(es).cities && Assign(es).cities[Assign(es).cityIDs[id]] == id
    ensures forall name :: name in Assign(es).cities ==>
      Assign(es).cities[name] in Assign(es).cityIDs && Assign(es).cityIDs[Assign(es).cities[name]] == name
  {
    AssignKeys(es);
    AssignValues(es);
  }

  /** The nation table: IDs `0 .. 24`, one nation each, and `NationNames`
      lists the nations by ID. */
  lemma NationTable()
    ensures |NationNames| == 25
    ensures forall n :: 0 <= n < 25 ==> NationNames[n] in Nations && Nations[NationNames[n]] == n
    ensures forall a :: a in Nations ==> 0 <= Nations[a] < 25 && NationNames[Nations[a]] == a
  {
    NationNamesListed();
    NationIDsListed();
  }

  lemma NationNamesListed()
    ensures |NationNames| == 25
    ensures forall n :: 0 <= n < 25 ==> NationNames[n] in Nations && Nations[NationNames[n]] == n
  {
  }

  lemma NationIDsListed()
    ensures |NationNames| == 25
    ensures forall a :: a in Nations ==> 0 <= Nations[a] < 25 && NationNames[Nations[a]] == a
  {
  }

  /** A name cut or blank-padded to nine characters. */
  function Stem(a: string): (r: string)
    ensures |r| == 9
  {
    seq(9, i requires 0 <= i < 9 => if i < |a| then a[i] else ' ')
  }

  /** Padding with blanks to nine characters gives the stem, and so does
      the stem part of a city name. */
  lemma PadRightStem(a: string, j: int)
    requires 0 <= j < 10
    ensures PadRight(a, " ", 9) == Stem(a)
    ensures CityName(a, j)[..9] == Stem(a)
  {
    var p := PadRight(a, " ", 9);
    assert forall i :: 0 <= i < 9 ==> p[i] == Stem(a)[i];
  }

  /** The stems of the nations, by ID. */
  lemma StemsTable()
    ensures |Stems| == |NationNames|
    ensures forall n :: 0 <= n < |NationNames| ==> Stem(NationNames[n]) == Stems[n]
  {
    StemsFrom(0, 13);
    StemsFrom(13, 25);
  }

  lemma StemsFrom(lo: int, hi: int)
    requires 0 <= lo <= hi <= 25 && hi - lo <= 13
    ensures |Stems| == |NationNames| == 25
    ensures forall n :: lo <= n < hi ==> Stem(NationNames[n]) == Stems[n]
  {
  }

  /** The nine-character stems of the nations are pairwise distinct (for
      instance "UNITED ST" and "UNITED KI"), so the city names are too. */
  lemma StemsDistinct()
    ensures forall a, b :: 0 <= a < b < |Stems| ==> Stems[a] != Stems[b]
  {
  }

  /** Different nations have different stems. */
  lemma NationStemsDistinct(a: string, b: string)
    requires a in Nations && b in Nations && a != b
    ensures Stem(a) != Stem(b)
  {
    NationTable();
    StemsTable();
    StemsDistinct();
    var n1, n2 := Nations[a], Nations[b];
    assert Stem(a) == Stems[n1] && Stem(b) == Stems[n2];
    assert n1 < n2 ==> Stems[n1] != Stems[n2];
    assert n2 < n1 ==> Stems[n2] != Stems[n1];
  }

  /** There are ten entries per nation. */
  lemma EntriesLength(order: seq<string>)
    requires forall i :: 0 <= i < |order| ==> order[i] in Nations
    ensures |Entries(order)| == |order| * 10
  {
    var blocks := seq(|order|, i requires 0 <= i < |order| => NationEntries(order[i], Nations[order[i]]));
    FlattenUniformLength(blocks, 10);
  }

  /** Entry `k` of the fold: nation `order[k / 10]`, digit `k % 10`. */
  lemma EntriesAt(order: seq<string>, k: nat)
    requires forall i :: 0 <= i < |order| ==> order[i] in Nations
    requires k < |order| * 10
    ensures |Entries(order)| == |order| * 10
    ensures Entries(order)[k]
      == CityEntry(CityName(order[k / 10], k % 10), Nations[order[k / 10]] * 10 + k % 10)
  {
    var blocks := seq(|order|, i requires 0 <= i < |order| => NationEntries(order[i], Nations[order[i]]));
    FlattenUniformAt(blocks, 10, k);
  }

  /** Different nations or digits give different city names. */
  lemma CityNamesDistinct(a: string, j1: int, b: string, j2: int)
    requires a in Nations && b in Nations
    requires 0 <= j1 < 10 && 0 <= j2 < 10
    requires a != b || j1 != j2
    ensures CityName(a, j1) != CityName(b, j2)
  {
    if a != b {
      NationStemsDistinct(a, b);
      PadRightStem(a, j1);
      PadRightStem(b, j2);
    } else {
      assert CityName(a, j1)[9] != CityName(b, j2)[9];
    }
  }

  /** The entries of a visiting order assign no name and no ID twice. */
  lemma EntriesDistinct(order: seq<string>)
    requires NationOrder(order)
    ensures DistinctNames(Entries(order)) && DistinctIDs(Entries(order))
  {
    var es := Entries(order);
    EntriesLength(order);
    forall a, b | 0 <= a < b < |es| ensures es[a].name != es[b].name && es[a].id != es[b].id {
      EntriesAt(order, a);
      EntriesAt(order, b);
      var i1, j1, i2, j2 := a / 10, a % 10, b / 10, b % 10;
      assert i1 != i2 || j1 != j2;
      CityNamesDistinct(order[i1], j1, order[i2], j2);
      var n1, n2 := Nations[order[i1]], Nations[order[i2]];
      NationID(order[i1]);
      NationID(order[i2]);
      assert i1 != i2 ==> n1 != n2;
      DivUnique(n1 * 10 + j1, 10, n1, j1);
      DivUnique(n2 * 10 + j2, 10, n2, j2);
    }
  }

  /** A nation's ID is below 25 and names it. */
  lemma NationID(a: string)
    requires a in Nations
    ensures 0 <= Nations[a] < 25 && NationNames[Nations[a]] == a
  {
    NationTable();
  }

  /** Every ID below 25 is a nation's. */
  lemma NationByID(n: int)
    requires 0 <= n < 25
    ensures NationNames[n] in Nations && Nations[NationNames[n]] == n
  {
    NationTable();
  }

  /** The city IDs are exactly `0 .. 249`, and ID `id` names city `id % 10`
      of nation `id / 10`, whatever the visiting order. */
  lemma CityIDs(order: seq<string>)
    requires NationOrder(order)
    ensures var t := DefineCityMap(order);
      && (forall id :: id in t.cityIDs <==> 0 <= id < 250)
      && (forall id :: id in t.cityIDs ==> t.cityIDs[id] == CityName(NationNames[id / 10], id % 10))
  {
    CityIDsSound(order);
    CityIDsComplete(order);
  }

  lemma CityIDsSound(order: seq<string>)
    requires NationOrder(order)
    ensures var t := DefineCityMap(order);
      forall id :: id in t.cityIDs ==> 0 <= id < 250 && t.cityIDs[id] == CityName(NationNames[id / 10], id % 10)
  {
    var es := Entries(order);
    var t := DefineCityMap(order);
    EntriesLength(order);
    EntriesDistinct(order);
    AssignKeys(es);
    AssignValues(es);
    forall id | id in t.cityIDs
      ensures 0 <= id < 250 && t.cityIDs[id] == CityName(NationNames[id / 10], id % 10)
    {
      var k :| 0 <= k < |es| && es[k].id == id;
      EntriesAt(order, k);
      var a := order[k / 10];
      NationID(a);
      DivUnique(id, 10, Nations[a], k % 10);
    }
  }

  lemma CityIDsComplete(order: seq<string>)
    requires NationOrder(order)
    ensures forall id :: 0 <= id < 250 ==> id in DefineCityMap(order).cityIDs
  {
    var es := Entries(order);
    var t := DefineCityMap(order);
    EntriesLength(order);
    AssignKeys(es);
    forall id | 0 <= id < 250 ensures id in t.cityIDs {
      var a := NationNames[id / 10];
      NationByID(id / 10);
      var i :| 0 <= i < |order| && order[i] == a;
      var k := i * 10 + id % 10;
      EntriesAt(order, k);
      DivUnique(k, 10, i, id % 10);
    }
  }

  /** Every city name is ten characters long. */
  lemma CityNamesLength(order: seq<string>)
    requires NationOrder(order)
    ensures forall name :: name in DefineCityMap(order).cities ==> |name| == 10
  {
    var es := Entries(order);
    EntriesLength(order);
    AssignKeys(es);
    forall name | name in DefineCityMap(order).cities ensures |name| == 10 {
      var k :| 0 <= k < |es| && es[k].name == name;
      EntriesAt(order, k);
    }
  }

  /** `DefineCityMap` builds the city tables of the benchmark, whatever the
      order in which the nations are visited: the city IDs are exactly
      `0 .. 249`; ID `id` names city `id % 10` of nation `id / 10`; every
      name is ten characters long; and the two tables are mutual
      inverses. */
  lemma CityTablesInverse(order: seq<string>)
    requires NationOrder(order)
    ensures var t := DefineCityMap(order);
      && (forall id :: id in t.cityIDs <==> 0 <= id < 250)
      && (forall id :: id in t.cityIDs ==> t.cityIDs[id] == CityName(NationNames[id / 10], id % 10))
      && (forall id :: id in t.cityIDs ==> t.cityIDs[id] in t.cities && t.cities[t.cityIDs[id]] == id)
      && (forall name :: name in t.cities ==> t.cities[name] in t.cityIDs && t.cityIDs[t.cities[name]] == name)
      && (forall name :: name in t.cities ==> |name| == 10)
  {
    EntriesDistinct(order);
    AssignInverse(Entries(order));
    CityIDs(order);
    CityNamesLength(order);
  }

  /** The ID table does not depend on the visiting order. */
  lemma IDTablesEqual(order1: seq<string>, order2: seq<string>)
    requires NationOrder(order1) && NationOrder(order2)
    ensures DefineCityMap(order1).cityIDs == DefineCityMap(order2).cityIDs
  {
    var m1, m2 := DefineCityMap(order1).cityIDs, DefineCityMap(order2).cityIDs;
    CityIDs(order1);
    CityIDs(order2);
    assert m1.Keys == m2.Keys by {
      forall id | id in m1 ensures id in m2 { }
      forall id | id in m2 ensures id in m1 { }
    }
    forall id | id in m1 ensures m1[id] == m2[id] { }
  }

  /** A table that is the inverse of a given one is determined by it. */
  lemma InverseDetermined(ids: map<int, string>, c1: map<string, int>, c2: map<string, int>)
    requires forall id :: id in ids ==> ids[id] in c1 && c1[ids[id]] == id
    requires forall id :: id in ids ==> ids[id] in c2 && c2[ids[id]] == id
    requires forall name :: name in c1 ==> c1[name] in ids && ids[c1[name]] == name
    requires forall name :: name in c2 ==> c2[name] in ids && ids[c2[name]] == name
    ensures c1 == c2
  {
    forall name | name in c1 ensures name in c2 && c2[name] == c1[name] {
      var id := c1[name];
      assert id in ids && ids[id] == name;
      assert ids[id] in c2 && c2[ids[id]] == id;
    }
    forall name | name in c2 ensures name in c1 {
      var id := c2[name];
      assert id in ids && ids[id] == name;
      assert ids[id] in c1;
    }
    assert c1.Keys == c2.Keys;
  }

  /** The order in which Go happens to visit the nations does not change
      the tables. */
  lemma CityTablesOrderIndependent(o1: seq<string>, o2: seq<string>)
    requires NationOrder(o1) && NationOrder(o2)
    ensures DefineCityMap(o1) == DefineCityMap(o2)
  {
    var t1, t2 := DefineCityMap(o1), DefineCityMap(o2);
    IDTablesEqual(o1, o2);
    CityTablesInverse(o1);
    CityTablesInverse(o2);
    InverseDetermined(t1.cityIDs, t1.cities, t2.cities);
  }

  /** The region and nation tables agree: region IDs `0 .. 4` in the order
      of `RegionNames`; each nation's region is its ID divided by five; the
      American nations are IDs `0 .. 4` and the Asian ones carry the IDs of
      `AsiaNationIDs`, both in region AMERICA and ASIA respectively. */
  lemma TablesConsistent()
    ensures forall r :: 0 <= r < 5 ==> RegionNames[r] in Regions && Regions[RegionNames[r]] == r
    ensures forall a :: a in Regions ==> 0 <= Regions[a] < 5 && RegionNames[Regions[a]] == a
    ensures forall i :: 0 <= i < 5 ==> AmericaNations[i] in Nations && Nations[AmericaNations[i]] == i
    ensures forall i :: 0 <= i < 5 ==> AmericaNations[i] in Nations && Nations[AmericaNations[i]] / 5 == Regions["AMERICA"]
    ensures forall i :: 0 <= i < 5 ==> AsiaNations[i] in Nations && Nations[AsiaNations[i]] == AsiaNationIDs[i]
    ensures forall i :: 0 <= i < 5 ==> AsiaNations[i] in Nations && Nations[AsiaNations[i]] / 5 == Regions["ASIA"]
  {
  }
}
