/**
 * Concrete encodings of the load block, a pipeline and a builder chain, and
 * the identity corner of the wildcard.
 */
module Scenarios {
  import opened Wrappers
  import opened Tokens
  import opened LoadClause
  import opened AggregateOptions
  import opened AggregateBuilder

  /** Clauses `a` and `b AS bb` give `LOAD 4 a b AS bb`: one argument plus three. */
  lemma LoadBlockWithAlias()
    ensures LoadSection<string, int>([BuildLoad(Identifier("a")), BuildLoad(As(Identifier("b"), "bb"))])
      == [Kw(LOAD), Int(4), Str("a"), Str("b"), Kw(AS), Str("bb")]
  {
    var loads := [BuildLoad(Identifier("a")), BuildLoad(As(Identifier("b"), "bb"))];
    assert SumNargs(loads) == 1 + SumNargs(loads[1..]) == 1 + 3;
    assert ClauseTokens<string, int>(loads[1..]) == [Str("b"), Kw(AS), Str("bb")];
    assert ClauseTokens<string, int>(loads) == [Str("a"), Str("b"), Kw(AS), Str("bb")];
  }

  /**
   * A separately built clause for `*` is not the shared wildcard instance:
   * it takes the counted path, `LOAD 1 *`.
   */
  lemma BuiltStarIsCounted()
    ensures LoadSection<string, int>([BuildLoad(Identifier("*"))]) == [Kw(LOAD), Int(1), Str("*")]
  {
  }

  /** Verbatim, one stage and two parameters, no loads and no timeout. */
  lemma VerbatimStageAndParams()
    ensures Build(Options(
        [Operation([Str("GROUPBY"), Int(1), Str("@a")])],
        [], true, None,
        [Parameter("n1", 1), Parameter("n2", 2)]))
      == [Kw(VERBATIM), Str("GROUPBY"), Int(1), Str("@a"),
          Kw(PARAMS), Int(2), Key("n1"), Value(1), Key("n2"), Value(2)]
  {
  }

  /** `loadAll()` followed by `load("title")` throws before anything is built. */
  lemma LoadAllThenLoadFails()
    ensures Run(NewBuilder<string, int>(), [LoadsCall(LoadAllCall), LoadsCall(AddCall([BuildLoad(Identifier("title"))]))]).Failure?
    ensures LoadIdentifier(LoadAllClauses(NewBuilder<string, int>()), "title").Failure?
  {
  }

  /** Setters called out of grammar order still emit in grammar order. */
  lemma SetterOrderIrrelevant()
    ensures Run(NewBuilder<string, int>(), [TimeoutCall(100), ParamCall("n", 7), LoadsCall(LoadAllCall), VerbatimCall(true)])
      == Success(Builder([], AllLoads, true, Some(100), [Parameter("n", 7)]))
    ensures Build<string, int>(Options([], [LoadAll], true, Some(100), [Parameter("n", 7)]))
      == [Kw(VERBATIM), Kw(LOAD), Str("*"), Kw(PARAMS), Int(1), Key("n"), Value(7), Kw(TIMEOUT), Int(100)]
  {
    var calls := [TimeoutCall(100), ParamCall("n", 7), LoadsCall(LoadAllCall), VerbatimCall(true)];
    var b0 := NewBuilder<string, int>();
    var b1 := SetTimeout(b0, 100);
    var b2 := AddParam(b1, "n", 7);
    var b3 := LoadAllClauses(b2);
    var b4 := SetVerbatim(b3, true);
    assert b2.params == [Parameter("n", 7)];
    RunStep(b0, calls);
    RunStep(b1, calls[1..]);
    RunStep(b2, calls[1..][1..]);
    RunStep(b3, calls[1..][1..][1..]);
    assert calls[1..][1..][1..][1..] == [];
  }

  lemma RunStep<K, V>(b: Builder<K, V>, calls: seq<Call<K, V>>)
    requires |calls| > 0 && Apply(b, calls[0]).Success?
    ensures Run(b, calls) == Run(Apply(b, calls[0]).value, calls[1..])
  {
  }
}
