/** The QuerySet of query.go: a query template plus one list of integer
    arguments per template slot, whose Cartesian product is enumerated by
    a flat counter through the enumerator. */
module QuerySets {
  import GoInt
  import opened Basics
  import opened Enumerator

  /** One slot of a record's `outputs`: Go's `interface{}`, either still
      nil or holding the integer sum the engine returned. */
  datatype Value = Nil | Int(n: int)

  /** query.go's struct, including the derived fields `dim`, `lengths`
      and `iterations` that its constructor fills in. */
  datatype QuerySet = QuerySet(
    name: string,
    format: string,
    argSets: seq<seq<int>>,
    setup: string,
    teardown: string,
    dim: int,
    iterations: int,
    lengths: seq<int>)

  /** One query record: rendered text, argument tuple, output slots and an
      optional error. */
  datatype QueryResult = QueryResult(
    raw: string,
    inputs: seq<int>,
    outputs: seq<Value>,
    err: Option<string>)

  /** Go's `fmt.Sprintf(format, args...)`, left uninterpreted: the model
      only relies on it being a function of the format and the arguments. */
  type Render = (string, seq<int>) -> string

  /** The cardinality of each argument list. */
  function Lengths(argSets: seq<seq<int>>): seq<int> {
    seq(|argSets|, k requires 0 <= k < |argSets| => |argSets[k]|)
  }

  /** The shape every QuerySet the program builds has: the derived fields
      agree with the argument lists, and the iteration count is their
      product, or 0 for the zero value that an unknown query name yields. */
  predicate Valid(qs: QuerySet) {
    && qs.dim == |qs.argSets|
    && qs.lengths == Lengths(qs.argSets)
    && (qs.iterations == 0 || qs.iterations == Prod(qs.lengths))
  }

  /** Go's zero `QuerySet{}`: empty name, no dimensions, no iterations. */
  const Zero: QuerySet := QuerySet("", "", [], "", "", 0, 0, [])

  lemma LengthsNonNegative(argSets: seq<seq<int>>)
    ensures NonNegative(Lengths(argSets))
  {
  }

  /** A QuerySet with any iteration to run has no empty argument list, so
      its counters can be unravelled. */
  lemma ValidPositive(qs: QuerySet)
    requires Valid(qs) && qs.iterations != 0
    ensures Positive(qs.lengths)
  {
    LengthsNonNegative(qs.argSets);
    ProdZero(qs.lengths);
  }

  /** `NewQuerySet`: records the dimension count and each list's length, and
      multiplies the lengths into the iteration count. */
  function NewQuerySet(name: string, format: string, argSets: seq<seq<int>>): (qs: QuerySet)
    ensures Valid(qs)
    ensures qs.name == name && qs.format == format && qs.argSets == argSets
    ensures qs.setup == "" && qs.teardown == ""
    ensures qs.dim == |argSets| == |qs.lengths|
    ensures forall k :: 0 <= k < |argSets| ==> qs.lengths[k] == |argSets[k]|
    ensures qs.iterations == Prod(qs.lengths) >= 0
    ensures qs.iterations == 0 <==> exists k :: 0 <= k < |argSets| && argSets[k] == []
    ensures |argSets| == 0 ==> qs.iterations == 1
  {
    var lens := Lengths(argSets);
    LengthsNonNegative(argSets);
    ProdZero(lens);
    assert forall k :: 0 <= k < |argSets| ==> (lens[k] == 0 <==> argSets[k] == []);
    QuerySet(name, format, argSets, "", "", |argSets|, Prod(lens), lens)
  }

  /** `NewRegisterQuerySet`: `NewQuerySet` with a setup and a teardown query;
      nothing else differs. */
  function NewRegisterQuerySet(name: string, format: string, setup: string, teardown: string,
                               argSets: seq<seq<int>>): (qs: QuerySet)
    ensures Valid(qs)
    ensures qs.setup == setup && qs.teardown == teardown
    ensures qs.(setup := "", teardown := "") == NewQuerySet(name, format, argSets)
  {
    NewQuerySet(name, format, argSets).(setup := setup, teardown := teardown)
  }

  /** Every component of the unravelled counter is a usable list index.
      This holds for every `n >= 0`; a negative counter unravels, with Go's
      truncating operators, to components in `(-dim[k], 0]`, and
      query.go's `argSets[k][inds[k]]` panics unless all of them are zero. */
  predicate Selects(qs: QuerySet, n: int)
    requires Positive(qs.lengths)
  {
    forall k :: 0 <= k < |qs.lengths| ==> Unravel(n, qs.lengths)[k] >= 0
  }

  /** The argument tuple of the `n`-th query: dimension `k` contributes the
      entry of its list selected by component `k` of the unravelled
      counter.  query.go divides by zero for an empty list and indexes out
      of range for a negative component, hence the requires clauses. */
  function Inputs(qs: QuerySet, n: int): (args: seq<int>)
    requires Valid(qs) && Positive(qs.lengths) && Selects(qs, n)
    ensures |args| == qs.dim
    ensures forall k :: 0 <= k < qs.dim ==> args[k] in qs.argSets[k]
  {
    var inds := Unravel(n, qs.lengths);
    seq(qs.dim, k requires 0 <= k < qs.dim => qs.argSets[k][inds[k]])
  }

  /** `QueryN`: the `n`-th query rendered as text, `Format + "\n"` applied
      to its argument tuple. */
  function QueryN(qs: QuerySet, n: int, render: Render): string
    requires Valid(qs) && Positive(qs.lengths) && Selects(qs, n)
  {
    render(qs.format + "\n", Inputs(qs, n))
  }

  /** `QueryResultN`: the `n`-th query as a record.  Its text is exactly
      what `QueryN` renders, it has a single still-empty output slot and no
      error. */
  function QueryResultN(qs: QuerySet, n: int, render: Render): (qr: QueryResult)
    requires Valid(qs) && Positive(qs.lengths) && Selects(qs, n)
    ensures qr.raw == QueryN(qs, n, render)
    ensures qr.inputs == Inputs(qs, n)
    ensures qr.outputs == [Nil] && qr.err == None
  {
    var inputs := Inputs(qs, n);
    QueryResult(render(qs.format + "\n", inputs), inputs, [Nil], None)
  }

  /** Not every negative counter panics: over one list of five values,
      counter -5 unravels to component 0 and selects the first value, while
      counter -1 unravels to component -1, which indexes out of range. */
  lemma NegativeCounters(xs: seq<int>)
    requires |xs| == 5
    ensures Positive(NewQuerySet("q", "", [xs]).lengths)
    ensures Selects(NewQuerySet("q", "", [xs]), -5)
    ensures Inputs(NewQuerySet("q", "", [xs]), -5) == [xs[0]]
    ensures !Selects(NewQuerySet("q", "", [xs]), -1)
  {
    var qs := NewQuerySet("q", "", [xs]);
    assert qs.lengths == [5];
    assert Stride([5], 0) == 1 by { assert [5][..0] == []; }
    assert Unravel(-5, [5])[0] == GoInt.Rem(-5, 5) == 0;
    assert Unravel(-1, [5])[0] == GoInt.Rem(-1, 5) == -1;
  }

  /** Reference definition of the Cartesian product of the argument lists,
      listed with the first dimension cycling fastest: for each tuple of
      the remaining dimensions in turn, every value of the first. */
  function Cartesian(argSets: seq<seq<int>>): seq<seq<int>>
    decreases |argSets|
  {
    if |argSets| == 0 then [[]]
    else
      var first, tails := argSets[0], Cartesian(argSets[1..]);
      Flatten(seq(|tails|, i requires 0 <= i < |tails| =>
        seq(|first|, j requires 0 <= j < |first| => [first[j]] + tails[i])))
  }

  /** The argument tuple read off the digits of `n`. */
  function DigitInputs(argSets: seq<seq<int>>, n: nat): seq<int>
    requires Positive(Lengths(argSets))
  {
    var d := Digits(n, Lengths(argSets));
    seq(|argSets|, k requires 0 <= k < |argSets| => argSets[k][d[k]])
  }

  lemma DigitInputsCons(argSets: seq<seq<int>>, n: nat)
    requires |argSets| > 0 && Positive(Lengths(argSets))
    ensures Positive(Lengths(argSets[1..])) && |argSets[0]| > 0
    ensures DigitInputs(argSets, n)
      == [argSets[0][n % |argSets[0]|]] + DigitInputs(argSets[1..], n / |argSets[0]|)
  {
    assert Lengths(argSets)[0] == |argSets[0]|;
    assert Lengths(argSets)[1..] == Lengths(argSets[1..]);
  }

  /** The product has as many tuples as the product of the lengths. */
  lemma {:induction false} CartesianSize(argSets: seq<seq<int>>)
    ensures |Cartesian(argSets)| == Prod(Lengths(argSets))
    decreases |argSets|
  {
    if |argSets| > 0 {
      var first, rest := argSets[0], argSets[1..];
      CartesianSize(rest);
      assert Lengths(argSets)[1..] == Lengths(rest);
      var tails := Cartesian(rest);
      var blocks := seq(|tails|, i requires 0 <= i < |tails| =>
        seq(|first|, j requires 0 <= j < |first| => [first[j]] + tails[i]));
      FlattenUniformLength(blocks, |first|);
      assert Prod(Lengths(argSets)) == |first| * Prod(Lengths(rest));
      assert |Cartesian(argSets)| == |tails| * |first|;
    }
  }

  /** Tuple `n` of the reference product is the tuple read off the digits
      of `n`. */
  lemma {:induction false} CartesianAt(argSets: seq<seq<int>>, n: nat)
    requires Positive(Lengths(argSets)) && n < Prod(Lengths(argSets))
    ensures |Cartesian(argSets)| == Prod(Lengths(argSets))
    ensures Cartesian(argSets)[n] == DigitInputs(argSets, n)
    decreases |argSets|
  {
    CartesianSize(argSets);
    if |argSets| > 0 {
      var first, rest := argSets[0], argSets[1..];
      var m := |first|;
      DigitInputsCons(argSets, n);
      assert Lengths(argSets)[1..] == Lengths(rest);
      CartesianSize(rest);
      var tails := Cartesian(rest);
      var blocks := seq(|tails|, i requires 0 <= i < |tails| =>
        seq(|first|, j requires 0 <= j < |first| => [first[j]] + tails[i]));
      assert Cartesian(argSets) == Flatten(blocks);
      assert Prod(Lengths(argSets)) == m * Prod(Lengths(rest));
      assert n < |blocks| * m;
      FlattenUniformAt(blocks, m, n);
      CartesianAt(rest, n / m);
    }
  }

  /** The reference product holds exactly the tuples whose `k`-th entry
      comes from list `k`. */
  lemma {:induction false} CartesianMembers(argSets: seq<seq<int>>, v: seq<int>)
    ensures v in Cartesian(argSets) <==>
      |v| == |argSets| && forall k :: 0 <= k < |v| ==> v[k] in argSets[k]
    decreases |argSets|
  {
    if |argSets| > 0 {
      var first, rest := argSets[0], argSets[1..];
      var tails := Cartesian(rest);
      var blocks := seq(|tails|, i requires 0 <= i < |tails| =>
        seq(|first|, j requires 0 <= j < |first| => [first[j]] + tails[i]));
      FlattenMembers(blocks, v);
      if |v| == |argSets| && forall k :: 0 <= k < |v| ==> v[k] in argSets[k] {
        CartesianMembers(rest, v[1..]);
        assert forall k :: 0 <= k < |v| - 1 ==> v[1..][k] == v[k + 1];
        var i :| 0 <= i < |tails| && tails[i] == v[1..];
        var j :| 0 <= j < |first| && first[j] == v[0];
        assert v == blocks[i][j];
      }
      if v in Cartesian(argSets) {
        var i :| 0 <= i < |blocks| && v in blocks[i];
        var j :| 0 <= j < |first| && v == [first[j]] + tails[i];
        CartesianMembers(rest, tails[i]);
      }
    }
  }

  /** A QuerySet built by `NewQuerySet` enumerates the reference product in
      order: its iteration count is the size of the product and its `n`-th
      argument tuple is tuple `n` of the product. */
  lemma EnumeratesCartesian(name: string, format: string, argSets: seq<seq<int>>, n: int)
    requires 0 <= n < NewQuerySet(name, format, argSets).iterations
    ensures NewQuerySet(name, format, argSets).iterations == |Cartesian(argSets)|
    ensures Positive(Lengths(argSets))
    ensures Inputs(NewQuerySet(name, format, argSets), n) == Cartesian(argSets)[n]
  {
    var qs := NewQuerySet(name, format, argSets);
    ValidPositive(qs);
    CartesianAt(argSets, n);
    UnravelIsDigits(n, qs.lengths);
  }

  /** Every combination of one value per argument list is the argument
      tuple of some iteration. */
  lemma InputsCover(name: string, format: string, argSets: seq<seq<int>>, v: seq<int>)
    requires |v| == |argSets| && forall k :: 0 <= k < |v| ==> v[k] in argSets[k]
    ensures Positive(Lengths(argSets))
    ensures exists n :: (0 <= n < NewQuerySet(name, format, argSets).iterations
                         && Inputs(NewQuerySet(name, format, argSets), n) == v)
  {
    var qs := NewQuerySet(name, format, argSets);
    CartesianMembers(argSets, v);
    CartesianSize(argSets);
    var n :| 0 <= n < |Cartesian(argSets)| && Cartesian(argSets)[n] == v;
    assert qs.iterations != 0;
    EnumeratesCartesian(name, format, argSets, n);
  }

  /** When no argument list repeats a value, distinct iterations have
      distinct argument tuples, so each combination is queried once. */
  lemma InputsDistinct(qs: QuerySet, n1: int, n2: int)
    requires Valid(qs) && qs.iterations != 0
    requires forall k, a, b :: (0 <= k < qs.dim && 0 <= a < b < |qs.argSets[k]|
                                ==> qs.argSets[k][a] != qs.argSets[k][b])
    requires 0 <= n1 < qs.iterations && 0 <= n2 < qs.iterations && n1 != n2
    ensures Positive(qs.lengths)
    ensures Inputs(qs, n1) != Inputs(qs, n2)
  {
    ValidPositive(qs);
    var u1, u2 := Unravel(n1, qs.lengths), Unravel(n2, qs.lengths);
    if Inputs(qs, n1) == Inputs(qs, n2) {
      forall k | 0 <= k < qs.dim ensures u1[k] == u2[k] {
        assert Inputs(qs, n1)[k] == qs.argSets[k][u1[k]];
        assert Inputs(qs, n2)[k] == qs.argSets[k][u2[k]];
      }
      UnravelInjective(n1, n2, qs.lengths);
    }
  }
}
