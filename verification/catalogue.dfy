/** The catalogue of `getQuerySet` in query.go: the Star Schema Benchmark
    queries by name, each a template over a list of argument lists.  The
    templates are opaque text here; the argument lists are modelled exactly. */
module Catalogue {
  import opened Basics
  import opened Enumerator
  import opened QuerySets
  import opened Ranges
  import opened Cities
  import opened Batching
  import opened Run

  /** The texts of a query set: its template and, for the set that stages
      an intermediate result, its setup and teardown queries. */
  datatype Texts = Texts(format: string, setup: string, teardown: string)

  /** The names `getQuerySet` knows, flight by flight. */
  const Flight1: seq<string> := ["1.1", "1.2", "1.3", "1.1b", "1.2b", "1.3b", "1.1c", "1.2c", "1.3c"]
  const Flight2: seq<string> := ["2.1", "2.1r", "2.2", "2.3"]
  const Flight3: seq<string> := ["3.1", "3.1r", "3.2", "3.2r", "3.3", "3.4"]
  const Flight4: seq<string> := ["4.1", "4.1r", "4.1rb", "4.2", "4.2r", "4.3", "4.3r"]
  const QueryNames: seq<string> := Flight1 + Flight2 + Flight3 + Flight4

  /** `arange(start, stop, 1)`, the only step the catalogue uses. */
  function Range(start: int, stop: int): (r: seq<int>)
    requires start <= stop
    ensures |r| == stop - start
    ensures forall i :: 0 <= i < |r| ==> r[i] == start + i
  {
    StepsLength(start, stop, 1);
    Arange(start, stop, 1)
  }

  /** The ten city IDs of a nation, `arange(nationID*10, nationID*10+10, 1)`. */
  function NationCities(nation: string): seq<int>
    requires nation in Nations
  {
    Range(Nations[nation] * 10, Nations[nation] * 10 + 10)
  }

  /** The argument lists of each named query set, in the order the
      template's `%d` verbs take them; `None` for an unknown name. */
  function ArgLists(qname: string): Option<seq<seq<int>>> {
    var allYears := Range(1992, 1999);
    var years := Range(1992, 1998);
    if qname == "1.1" || qname == "1.1b" || qname == "1.1c" then Some([[1993]])
    else if qname == "1.2" || qname == "1.3" || qname == "1.2b" || qname == "1.3b"
         || qname == "1.2c" || qname == "1.3c" then Some([[1994]])
    else if qname == "2.1" || qname == "2.1r" then Some([Range(40, 80), allYears])
    else if qname == "2.2" then Some([Range(260, 268), allYears])
    else if qname == "2.3" then Some([allYears])
    else if qname == "3.1" then Some([Range(10, 15), Range(10, 15), years])
    else if qname == "3.1r" then Some([years, Range(10, 15), Range(10, 15)])
    else if qname == "3.2" then Some([NationCities("UNITED STATES"), NationCities("UNITED STATES"), years])
    else if qname == "3.2r" then Some([years, NationCities("UNITED STATES"), NationCities("UNITED STATES")])
    else if qname == "3.3" then Some([[181, 185], [181, 185], years])
    else if qname == "3.4" then Some([[181, 185], [181, 185]])
    else if qname == "4.1" || qname == "4.1r" || qname == "4.1rb" then Some([Range(0, 5), allYears])
    else if qname == "4.2" || qname == "4.2r" then Some([Range(0, 10), Range(0, 5), [1997, 1998]])
    else if qname == "4.3" then Some([Range(120, 160), Range(30, 40), [1997, 1998]])
    else if qname == "4.3r" then Some([Range(120, 160), [1997, 1998], Range(30, 40)])
    else None
  }

  /** `getQuerySet(qname)`: the named set built by `NewQuerySet` (by
      `NewRegisterQuerySet` for "4.1rb"), or the zero QuerySet for an
      unknown name. */
  function GetQuerySet(qname: string, texts: Texts): (qs: QuerySet)
    ensures Valid(qs)
    ensures ArgLists(qname).Some? ==> qs.name == qname && qs.argSets == ArgLists(qname).value
  {
    match ArgLists(qname)
    case None => Zero
    case Some(g) =>
      if qname == "4.1rb" then NewRegisterQuerySet(qname, texts.format, texts.setup, texts.teardown, g)
      else NewQuerySet(qname, texts.format, g)
  }

  /** Exactly the names of the catalogue have argument lists. */
  lemma KnownNames(qname: string)
    ensures ArgLists(qname).Some? <==> qname in QueryNames
  {
    if qname in Flight1 { Flight1Known(qname); }
    else if qname in Flight2 { Flight2Known(qname); }
    else if qname in Flight3 { Flight3Known(qname); }
    else if qname in Flight4 { Flight4Known(qname); }
    else { OthersUnknown(qname); }
  }

  lemma Flight1Known(qname: string)
    requires qname in Flight1
    ensures ArgLists(qname).Some?
  {
  }

  lemma Flight2Known(qname: string)
    requires qname in Flight2
    ensures ArgLists(qname).Some?
  {
  }

  lemma Flight3Known(qname: string)
    requires qname in Flight3
    ensures ArgLists(qname).Some?
  {
  }

  lemma Flight4Known(qname: string)
    requires qname in Flight4
    ensures ArgLists(qname).Some?
  {
  }

  lemma OthersUnknown(qname: string)
    requires qname !in QueryNames
    ensures ArgLists(qname).None?
  {
  }

  /** An unknown name gives Go's zero QuerySet. */
  lemma GetQuerySetUnknown(qname: string, texts: Texts)
    requires qname !in QueryNames
    ensures GetQuerySet(qname, texts) == Zero
  {
    KnownNames(qname);
  }

  /** A set whose argument lists are all non-empty runs the product of
      their lengths. */
  lemma CountOf(qname: string, texts: Texts, lens: seq<int>)
    requires ArgLists(qname).Some? && Lengths(ArgLists(qname).value) == lens && Positive(lens)
    ensures GetQuerySet(qname, texts).iterations == Prod(lens)
  {
    var g := ArgLists(qname).value;
    assert forall k :: 0 <= k < |g| ==> |g[k]| == lens[k] > 0;
    assert NewQuerySet(qname, texts.format, g).iterations == Prod(lens);
  }

  lemma Prod2(a: int, b: int)
    ensures Prod([a, b]) == a * b
  {
    assert [b][1..] == [];
    assert Prod([b]) == b * Prod([]);
    assert [a, b][1..] == [b];
    assert Prod([a, b]) == a * Prod([b]);
  }

  lemma Prod3(a: int, b: int, c: int)
    ensures Prod([a, b, c]) == a * (b * c)
  {
    assert [a, b, c][1..] == [b, c];
    Prod2(b, c);
  }

  /** A two-list set with non-empty lists of `a` and `b` entries runs
      `a * b` queries. */
  lemma Count2(qname: string, texts: Texts, a: int, b: int)
    requires ArgLists(qname).Some? && |ArgLists(qname).value| == 2
    requires |ArgLists(qname).value[0]| == a > 0 && |ArgLists(qname).value[1]| == b > 0
    ensures GetQuerySet(qname, texts).iterations == a * b
  {
    Prod2(a, b);
    CountOf(qname, texts, [a, b]);
  }

  /** A three-list set with non-empty lists of `a`, `b` and `c` entries
      runs `a * b * c` queries. */
  lemma Count3(qname: string, texts: Texts, a: int, b: int, c: int)
    requires ArgLists(qname).Some? && |ArgLists(qname).value| == 3
    requires |ArgLists(qname).value[0]| == a > 0 && |ArgLists(qname).value[1]| == b > 0 && |ArgLists(qname).value[2]| == c > 0
    ensures GetQuerySet(qname, texts).iterations == a * (b * c)
  {
    Prod3(a, b, c);
    CountOf(qname, texts, [a, b, c]);
  }

  lemma Count21(texts: Texts)
    ensures GetQuerySet("2.1", texts).iterations == 40 * 7
  {
    assert var g := ArgLists("2.1").value; |g| == 2 && |g[0]| == 40 && |g[1]| == 7;
    Count2("2.1", texts, 40, 7);
  }

  lemma Count22(texts: Texts)
    ensures GetQuerySet("2.2", texts).iterations == 8 * 7
  {
    assert var g := ArgLists("2.2").value; |g| == 2 && |g[0]| == 8 && |g[1]| == 7;
    Count2("2.2", texts, 8, 7);
  }

  lemma Count31(texts: Texts)
    ensures GetQuerySet("3.1", texts).iterations == 5 * 5 * 6
  {
    assert var g := ArgLists("3.1").value; |g| == 3 && |g[0]| == 5 && |g[1]| == 5 && |g[2]| == 6;
    Count3("3.1", texts, 5, 5, 6);
  }

  lemma Count32(texts: Texts)
    ensures GetQuerySet("3.2", texts).iterations == 10 * 10 * 6
  {
    assert var g := ArgLists("3.2").value; |g| == 3 && |g[0]| == 10 && |g[1]| == 10 && |g[2]| == 6;
    Count3("3.2", texts, 10, 10, 6);
  }

  lemma Count33(texts: Texts)
    ensures GetQuerySet("3.3", texts).iterations == 2 * 2 * 6
  {
    assert var g := ArgLists("3.3").value; |g| == 3 && |g[0]| == 2 && |g[1]| == 2 && |g[2]| == 6;
    Count3("3.3", texts, 2, 2, 6);
  }

  lemma Count41rb(texts: Texts)
    ensures GetQuerySet("4.1rb", texts).iterations == 5 * 7
  {
    assert var g := ArgLists("4.1rb").value; |g| == 2 && |g[0]| == 5 && |g[1]| == 7;
    Count2("4.1rb", texts, 5, 7);
  }

  lemma Count42(texts: Texts)
    ensures GetQuerySet("4.2", texts).iterations == 10 * 5 * 2
  {
    assert var g := ArgLists("4.2").value; |g| == 3 && |g[0]| == 10 && |g[1]| == 5 && |g[2]| == 2;
    Count3("4.2", texts, 10, 5, 2);
  }

  lemma Count43(texts: Texts)
    ensures GetQuerySet("4.3", texts).iterations == 40 * 10 * 2
  {
    assert var g := ArgLists("4.3").value; |g| == 3 && |g[0]| == 40 && |g[1]| == 10 && |g[2]| == 2;
    Count3("4.3", texts, 40, 10, 2);
  }

  /** The iteration counts of the catalogue: the product of the list
      lengths. */
  lemma IterationCounts(texts: Texts)
    ensures GetQuerySet("1.1", texts).iterations == 1
    ensures GetQuerySet("2.1", texts).iterations == 40 * 7
    ensures GetQuerySet("2.2", texts).iterations == 8 * 7
    ensures GetQuerySet("3.1", texts).iterations == 5 * 5 * 6
    ensures GetQuerySet("3.2", texts).iterations == 10 * 10 * 6
    ensures GetQuerySet("3.3", texts).iterations == 2 * 2 * 6
    ensures GetQuerySet("4.1rb", texts).iterations == 5 * 7
    ensures GetQuerySet("4.2", texts).iterations == 10 * 5 * 2
    ensures GetQuerySet("4.3", texts).iterations == 40 * 10 * 2
  {
    assert [1][1..] == [];
    CountOf("1.1", texts, [1]);
    Count21(texts);
    Count22(texts);
    Count31(texts);
    Count32(texts);
    Count33(texts);
    Count41rb(texts);
    Count42(texts);
    Count43(texts);
  }

  /** The nations of query 3.1 are the Asian nations of the nation
      table. */
  lemma AsiaArgLists()
    ensures ArgLists("3.1").Some? && ArgLists("3.1").value[0] == AsiaNationIDs
    ensures forall i :: 0 <= i < 5 ==> AsiaNations[i] in Nations && ArgLists("3.1").value[0][i] == Nations[AsiaNations[i]]
  {
    TablesConsistent();
  }

  /** The city lists of queries 3.2 and 4.3 are the IDs `30 .. 39`. */
  lemma UnitedStatesArgLists()
    ensures ArgLists("3.2").Some? && ArgLists("3.2").value[0] == Range(30, 40)
    ensures ArgLists("4.3").Some? && ArgLists("4.3").value[1] == Range(30, 40)
  {
    assert Nations["UNITED STATES"] == 3;
  }

  /** The cities of queries 3.2 and 4.3, the IDs `30 .. 39`, are the ten
      cities of the United States in the tables `DefineCityMap` builds. */
  lemma UnitedStatesCities(order: seq<string>)
    requires NationOrder(order)
    ensures forall c :: 30 <= c < 40 ==>
      c in DefineCityMap(order).cityIDs && DefineCityMap(order).cityIDs[c] == CityName("UNITED STATES", c % 10)
  {
    var t := DefineCityMap(order);
    CityIDs(order);
    assert NationNames[3] == "UNITED STATES";
    forall c | 30 <= c < 40
      ensures c in t.cityIDs && t.cityIDs[c] == CityName("UNITED STATES", c % 10)
    {
      DivUnique(c, 10, 3, c - 30);
    }
  }

  /** The two cities of queries 3.3 and 3.4 are "UNITED KI1" and
      "UNITED KI5". */
  lemma UnitedKingdomCities(order: seq<string>)
    requires NationOrder(order)
    ensures ArgLists("3.4") == Some([[181, 185], [181, 185]])
    ensures 181 in DefineCityMap(order).cityIDs && DefineCityMap(order).cityIDs[181] == "UNITED KI1"
    ensures 185 in DefineCityMap(order).cityIDs && DefineCityMap(order).cityIDs[185] == "UNITED KI5"
  {
    CityIDs(order);
    NationByID(18);
    DivUnique(181, 10, 18, 1);
    DivUnique(185, 10, 18, 5);
    var n1, n5 := CityName("UNITED KINGDOM", 1), CityName("UNITED KINGDOM", 5);
    assert forall i :: 0 <= i < 10 ==> n1[i] == "UNITED KI1"[i];
    assert forall i :: 0 <= i < 10 ==> n5[i] == "UNITED KI5"[i];
  }

  /** An unknown name gives the zero QuerySet: no iteration, no batch, and
      a run that writes nothing and reports zero iterations. */
  lemma UnknownName(qname: string, texts: Texts, concurrency: int, batchSize: int, env: Env, render: Render)
    requires qname !in QueryNames
    requires Runnable(GetQuerySet(qname, texts), concurrency, batchSize, env, render)
    ensures GetQuerySet(qname, texts).iterations == 0
    ensures batchSize >= 0 ==> Produce(GetQuerySet(qname, texts), render, batchSize) == []
    ensures RunSumMultiBatch(GetQuerySet(qname, texts), concurrency, batchSize, env, render).lines == []
    ensures RunSumMultiBatch(GetQuerySet(qname, texts), concurrency, batchSize, env, render).result.iterations == 0
  {
    var qs := GetQuerySet(qname, texts);
    GetQuerySetUnknown(qname, texts);
    if batchSize >= 0 {
      BatchesPartition(qs, render, batchSize);
    }
    if env.mkdirOk && env.createOk && SetupOk(qs, env) {
      BatchesPartition(qs, render, batchSize);
      assert Records(qs, render) == [];
      DrainSpec(Collected(qs, concurrency, batchSize, env, render), env.writeFailsAt);
    }
  }

  /** Query 4.1 sent in batches of 8: its 35 records go out in five
      batches, four of them full. */
  lemma BatchingExample(texts: Texts, render: Render)
    ensures var bs := Produce(GetQuerySet("4.1", texts), render, 8);
      && |bs| == 5
      && (forall i :: 0 <= i < 4 ==> |bs[i]| == 8)
      && 0 < |bs[4]| <= 8
  {
    var qs := GetQuerySet("4.1", texts);
    Count2("4.1", texts, 5, 7);
    BatchesPartition(qs, render, 8);
  }
}
