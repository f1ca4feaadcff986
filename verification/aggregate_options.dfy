/**
 * The aggregate options value and its encoder: verbatim flag, load block,
 * pipeline operations, parameter block and timeout, emitted in that fixed
 * order into the argument sink.
 */
module AggregateOptions {
  import opened Wrappers
  import opened Tokens
  import opened LoadClause

  /**
   * A pipeline stage (group, sort, apply, filter, limit, ...). Its grammar is
   * not part of this model: a stage is just the tokens its `build` appends.
   */
  datatype Operation<K, V> = Operation(tokens: seq<Token<K, V>>)

  /** A query parameter: a name written as a key and a value written as a value. */
  datatype Parameter<K, V> = Parameter(name: K, value: V)

  /** The fields of `AggregateOptions`. */
  datatype Options<K, V> = Options(
    operations: seq<Operation<K, V>>,
    loads: seq<LoadRef>,
    verbatim: bool,
    timeout: Option<Long>,
    params: seq<Parameter<K, V>>)

  /** The no-argument constructor: every list empty, no verbatim, no timeout. */
  function EmptyOptions<K, V>(): (o: Options<K, V>)
    ensures Build(o) == []
  {
    Options([], [], false, None, [])
  }

  /** The load list is exactly the shared wildcard instance (compared by reference). */
  predicate IsLoadAllSingleton(loads: seq<LoadRef>) {
    |loads| == 1 && loads[0].LoadAll?
  }

  /**
   * The load block. Nothing for an empty list; `LOAD *` for the wildcard
   * singleton; otherwise `LOAD`, the Java `int` sum of the declared arities,
   * and every clause's tokens.
   */
  function LoadSection<K, V>(loads: seq<LoadRef>): (r: seq<Token<K, V>>)
    ensures |loads| == 0 <==> |r| == 0
    ensures |loads| > 0 ==> r[0] == Kw(LOAD)
    ensures IsLoadAllSingleton(loads) ==> r == [Kw(LOAD), Str(Wildcard)]
    ensures |loads| > 0 && !IsLoadAllSingleton(loads) ==>
      |r| == 2 + SumNargs(loads) && r[2..] == ClauseTokens(loads)
    ensures |loads| > 0 && !IsLoadAllSingleton(loads) && SumNargs(loads) < 0x8000_0000 ==>
      r[1] == Int(|r| - 2)
  {
    if |loads| == 0 then []
    else if IsLoadAllSingleton(loads) then [Kw(LOAD), Str(Fields(LoadAll).identifier)]
    else
      ClauseTokensLength<K, V>(loads);
      [Kw(LOAD), Int(ToInt32(SumNargs(loads)))] + ClauseTokens(loads)
  }

  /** Total number of tokens the operations contribute. */
  function TotalLength<K, V>(ops: seq<Operation<K, V>>): nat {
    if |ops| == 0 then 0 else |ops[0].tokens| + TotalLength(ops[1..])
  }

  /** Every operation's tokens, in list order. */
  function OperationTokens<K, V>(ops: seq<Operation<K, V>>): (r: seq<Token<K, V>>)
    ensures |r| == TotalLength(ops)
    ensures |ops| > 0 ==> r[..|ops[0].tokens|] == ops[0].tokens
  {
    if |ops| == 0 then [] else ops[0].tokens + OperationTokens(ops[1..])
  }

  /** The operations of a concatenated list contribute the first part's tokens, then the second's. */
  lemma {:induction false} OperationTokensAppend<K, V>(a: seq<Operation<K, V>>, c: seq<Operation<K, V>>)
    ensures OperationTokens(a + c) == OperationTokens(a) + OperationTokens(c)
    ensures TotalLength(a + c) == TotalLength(a) + TotalLength(c)
    decreases |a|
  {
    if |a| == 0 {
      assert a + c == c;
    } else {
      assert (a + c)[0] == a[0];
      assert (a + c)[1..] == a[1..] + c;
      OperationTokensAppend(a[1..], c);
    }
  }

  /**
   * Operation `i` occupies the tokens between the lengths of the operations
   * before it and of those up to and including it: every operation is
   * emitted whole, in list order.
   */
  lemma OperationTokensInOrder<K, V>(ops: seq<Operation<K, V>>, i: nat)
    requires i < |ops|
    ensures TotalLength(ops[..i]) + |ops[i].tokens| == TotalLength(ops[..i + 1]) <= |OperationTokens(ops)|
    ensures OperationTokens(ops)[TotalLength(ops[..i])..TotalLength(ops[..i + 1])] == ops[i].tokens
  {
    var before := ops[..i];
    var after := ops[i + 1..];
    assert ops == before + ([ops[i]] + after);
    assert ops[..i + 1] == before + [ops[i]];
    OperationTokensAppend([ops[i]], after);
    OperationTokensAppend(before, [ops[i]] + after);
    OperationTokensAppend(before, [ops[i]]);
    assert OperationTokens([ops[i]]) == ops[i].tokens by {
      assert [ops[i]][1..] == [];
    }
    assert OperationTokens(ops) == OperationTokens(before) + (ops[i].tokens + OperationTokens(after));
  }

  /** Each parameter as its name key followed by its value. */
  function PairTokens<K, V>(params: seq<Parameter<K, V>>): (r: seq<Token<K, V>>)
    ensures |r| == 2 * |params|
    ensures forall i :: 0 <= i < |params| ==>
      r[2 * i] == Key(params[i].name) && r[2 * i + 1] == Value(params[i].value)
  {
    if |params| == 0 then []
    else
      var rest := PairTokens(params[1..]);
      var r := [Key(params[0].name), Value(params[0].value)] + rest;
      forall i | 1 <= i < |params|
        ensures r[2 * i] == Key(params[i].name) && r[2 * i + 1] == Value(params[i].value)
      {
        assert params[i] == params[1..][i - 1];
        assert r[2 * i] == rest[2 * (i - 1)];
        assert r[2 * i + 1] == rest[2 * (i - 1) + 1];
      }
      r
  }

  /**
   * The parameter block: nothing when there are no parameters, otherwise
   * `PARAMS`, the number of pairs, and each pair.
   */
  function ParamsSection<K, V>(params: seq<Parameter<K, V>>): (r: seq<Token<K, V>>)
    ensures |params| == 0 <==> r == []
    ensures |params| > 0 ==>
      && |r| == 2 + 2 * |params|
      && r[0] == Kw(PARAMS)
      && r[1] == Int(|params|)
      && forall i :: 0 <= i < |params| ==>
           r[2 + 2 * i] == Key(params[i].name) && r[3 + 2 * i] == Value(params[i].value)
  {
    if |params| == 0 then []
    else
      var pairs := PairTokens(params);
      var r := [Kw(PARAMS), Int(|params|)] + pairs;
      assert forall i :: 0 <= i < |params| ==> r[2 + 2 * i] == pairs[2 * i] && r[3 + 2 * i] == pairs[2 * i + 1];
      r
  }

  /** `VERBATIM` when the flag is set. */
  function VerbatimSection<K, V>(verbatim: bool): seq<Token<K, V>> {
    if verbatim then [Kw(VERBATIM)] else []
  }

  /** `TIMEOUT t` when a timeout is present. */
  function TimeoutSection<K, V>(timeout: Option<Long>): seq<Token<K, V>> {
    match timeout
    case None => []
    case Some(t) => [Kw(TIMEOUT), Int(t)]
  }

  /** Length of the load block, stated from the clause arities. */
  function LoadSectionLength(loads: seq<LoadRef>): nat {
    if |loads| == 0 then 0
    else if IsLoadAllSingleton(loads) then 2
    else 2 + SumNargs(loads)
  }

  /** Length of the whole encoding, section by section. */
  function EncodedLength<K, V>(o: Options<K, V>): nat {
    (if o.verbatim then 1 else 0)
    + LoadSectionLength(o.loads)
    + TotalLength(o.operations)
    + (if |o.params| > 0 then 2 + 2 * |o.params| else 0)
    + (if o.timeout.Some? then 2 else 0)
  }

  /**
   * `AggregateOptions.build`: appends verbatim flag, load block, operations,
   * parameter block and timeout to the sink, in that order.
   */
  function Build<K, V>(o: Options<K, V>): (r: seq<Token<K, V>>)
    ensures |r| == EncodedLength(o)
    ensures o.verbatim ==> r[0] == Kw(VERBATIM)
    ensures !o.verbatim && |o.loads| > 0 ==> r[0] == Kw(LOAD)
    ensures o.timeout.Some? ==> r[|r| - 2..] == [Kw(TIMEOUT), Int(o.timeout.value)]
  {
    VerbatimSection(o.verbatim)
    + LoadSection(o.loads)
    + OperationTokens(o.operations)
    + ParamsSection(o.params)
    + TimeoutSection(o.timeout)
  }

  lemma Associate<T>(a: seq<T>, b: seq<T>, c: seq<T>, d: seq<T>, e: seq<T>)
    ensures a + b + c + d + e == a + (b + (c + (d + e)))
  {
  }

  /** `Build` as its sections, grouped from the right. */
  lemma BuildAsSections<K, V>(o: Options<K, V>)
    ensures Build(o) == VerbatimSection<K, V>(o.verbatim) + (LoadSection<K, V>(o.loads)
      + (OperationTokens(o.operations) + (ParamsSection(o.params) + TimeoutSection<K, V>(o.timeout))))
  {
    Associate(VerbatimSection<K, V>(o.verbatim), LoadSection<K, V>(o.loads),
      OperationTokens(o.operations), ParamsSection(o.params), TimeoutSection<K, V>(o.timeout));
  }
}
