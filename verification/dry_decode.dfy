/**
 * A dry decoder for the aggregate options' token stream: it walks the
 * sections in grammar order, using the emitted length prefixes, and recovers
 * the clause and parameter boundaries. It is the partner of `Build`: decoding
 * what `Build` emitted gives back the options, up to what the wire cannot
 * express (which `Load` instance was used, and where one stage ends and the
 * next begins).
 */
module DryDecode {
  import opened Wrappers
  import opened Tokens
  import opened LoadClause
  import opened AggregateOptions
  import opened EmissionOrder

  /** What the token stream determines about the options. */
  datatype Decoded<K, V> = Decoded(
    verbatim: bool,
    loads: seq<LoadRef>,
    operationTokens: seq<Token<K, V>>,
    params: seq<Parameter<K, V>>,
    timeout: Option<Long>)

  datatype DecodeError = Malformed

  predicate IsKeyword<K, V>(t: Token<K, V>, k: Keyword) {
    t.Kw? && t.keyword == k
  }

  /** Decodes load clauses until exactly `n` tokens have been consumed. */
  function DecodeClauses<K, V>(ts: seq<Token<K, V>>, n: int): Result<(seq<LoadRef>, seq<Token<K, V>>), DecodeError>
    decreases |ts|
  {
    if n == 0 then Success(([], ts))
    else if n < 0 || |ts| == 0 || !ts[0].Str? then Failure(Malformed)
    else if n >= 3 && |ts| >= 3 && IsKeyword(ts[1], AS) && ts[2].Str? then
      match DecodeClauses(ts[3..], n - 3)
      case Failure(e) => Failure(e)
      case Success(p) => Success(([Fresh(Load(ts[0].text, Some(ts[2].text)))] + p.0, p.1))
    else
      match DecodeClauses(ts[1..], n - 1)
      case Failure(e) => Failure(e)
      case Success(p) => Success(([Fresh(Load(ts[0].text, None))] + p.0, p.1))
  }

  /** Decodes an optional load block. */
  function DecodeLoads<K, V>(ts: seq<Token<K, V>>): Result<(seq<LoadRef>, seq<Token<K, V>>), DecodeError> {
    if |ts| == 0 || !IsKeyword(ts[0], LOAD) then Success(([], ts))
    else if |ts| < 2 then Failure(Malformed)
    else if ts[1].Str? && ts[1].text == Wildcard then Success(([LoadAll], ts[2..]))
    else if ts[1].Int? && ts[1].number > 0 then DecodeClauses(ts[2..], ts[1].number)
    else Failure(Malformed)
  }

  /** Splits off the operations' tokens: everything before the parameter block or the timeout. */
  function SplitOperations<K, V>(ts: seq<Token<K, V>>): (seq<Token<K, V>>, seq<Token<K, V>>) {
    if |ts| == 0 || IsKeyword(ts[0], PARAMS) || IsKeyword(ts[0], TIMEOUT) then ([], ts)
    else
      var (ops, rest) := SplitOperations(ts[1..]);
      ([ts[0]] + ops, rest)
  }

  /** Decodes `k` name/value pairs. */
  function DecodePairs<K, V>(ts: seq<Token<K, V>>, k: nat): Result<(seq<Parameter<K, V>>, seq<Token<K, V>>), DecodeError> {
    if k == 0 then Success(([], ts))
    else if |ts| < 2 || !ts[0].Key? || !ts[1].Value? then Failure(Malformed)
    else
      match DecodePairs(ts[2..], k - 1)
      case Failure(e) => Failure(e)
      case Success(p) => Success(([Parameter(ts[0].key, ts[1].value)] + p.0, p.1))
  }

  /** Decodes an optional parameter block. */
  function DecodeParams<K, V>(ts: seq<Token<K, V>>): Result<(seq<Parameter<K, V>>, seq<Token<K, V>>), DecodeError> {
    if |ts| == 0 || !IsKeyword(ts[0], PARAMS) then Success(([], ts))
    else if |ts| >= 2 && ts[1].Int? && ts[1].number > 0 then DecodePairs(ts[2..], ts[1].number)
    else Failure(Malformed)
  }

  /** Decodes an optional timeout, which must end the stream. */
  function DecodeTimeout<K, V>(ts: seq<Token<K, V>>): Result<Option<Long>, DecodeError> {
    if |ts| == 0 then Success(None)
    else if |ts| == 2 && IsKeyword(ts[0], TIMEOUT) && ts[1].Int?
      && -0x8000_0000_0000_0000 <= ts[1].number < 0x8000_0000_0000_0000
    then Success(Some(ts[1].number))
    else Failure(Malformed)
  }

  /** Decodes a whole aggregate-options token stream. */
  function Decode<K, V>(ts: seq<Token<K, V>>): Result<Decoded<K, V>, DecodeError> {
    var verbatim := |ts| > 0 && IsKeyword(ts[0], VERBATIM);
    var afterVerbatim := if verbatim then ts[1..] else ts;
    match DecodeLoads(afterVerbatim)
    case Failure(e) => Failure(e)
    case Success(lr) =>
      var (ops, afterOps) := SplitOperations(lr.1);
      match DecodeParams(afterOps)
      case Failure(e) => Failure(e)
      case Success(pr) =>
        match DecodeTimeout(pr.1)
        case Failure(e) => Failure(e)
        case Success(t) => Success(Decoded(verbatim, lr.0, ops, pr.0, t))
  }

  /** Each reference replaced by a new instance with the same fields. */
  function Refresh(loads: seq<LoadRef>): (r: seq<LoadRef>)
    ensures |r| == |loads|
    ensures forall i :: 0 <= i < |loads| ==> r[i] == Fresh(Fields(loads[i]))
  {
    if |loads| == 0 then [] else [Fresh(Fields(loads[0]))] + Refresh(loads[1..])
  }

  /**
   * The load list as the wire shows it: the wildcard singleton stays the
   * wildcard; every other list is seen as fresh clauses with the same fields.
   */
  function WireLoads(loads: seq<LoadRef>): seq<LoadRef> {
    if IsLoadAllSingleton(loads) then loads else Refresh(loads)
  }

  /** A clause without alias: one identifier token, then the remaining clauses. */
  lemma UnaliasedClause<K, V>(id: string, tail: seq<Token<K, V>>, rest: seq<Token<K, V>>, m: nat, decoded: seq<LoadRef>)
    requires m >= 2 ==> |tail| > 0 && tail[0].Str?
    requires DecodeClauses(tail + rest, m) == Success((decoded, rest))
    ensures DecodeClauses([Str(id)] + tail + rest, m + 1) == Success(([Fresh(Load(id, None))] + decoded, rest))
  {
    var ts := [Str(id)] + tail + rest;
    assert ts[1..] == tail + rest;
    if m >= 2 {
      assert ts[1] == tail[0];
    }
  }

  /** A clause with alias: identifier, `AS`, alias, then the remaining clauses. */
  lemma AliasedClause<K, V>(id: string, a: string, tail: seq<Token<K, V>>, rest: seq<Token<K, V>>, m: nat, decoded: seq<LoadRef>)
    requires DecodeClauses(tail + rest, m) == Success((decoded, rest))
    ensures DecodeClauses([Str(id), Kw(AS), Str(a)] + tail + rest, m + 3) == Success(([Fresh(Load(id, Some(a)))] + decoded, rest))
  {
    assert ([Str(id), Kw(AS), Str(a)] + tail + rest)[3..] == tail + rest;
  }

  /** A non-empty list of clauses starts with the first clause's identifier. */
  lemma ClauseTokensHead<K, V>(loads: seq<LoadRef>)
    requires |loads| > 0
    ensures |ClauseTokens<K, V>(loads)| > 0 && ClauseTokens<K, V>(loads)[0] == Str(Fields(loads[0]).identifier)
  {
  }

  lemma {:induction false} DecodeClausesRoundTrip<K, V>(loads: seq<LoadRef>, rest: seq<Token<K, V>>)
    ensures DecodeClauses(ClauseTokens<K, V>(loads) + rest, SumNargs(loads)) == Success((Refresh(loads), rest))
    decreases |loads|
  {
    if |loads| == 0 {
      assert ClauseTokens<K, V>(loads) + rest == rest;
    } else {
      var l := Fields(loads[0]);
      var m := SumNargs(loads[1..]);
      var tail := ClauseTokens<K, V>(loads[1..]);
      assert ClauseTokens<K, V>(loads) == LoadTokens<K, V>(l) + tail;
      assert SumNargs(loads) == Nargs(l) + m;
      assert Refresh(loads) == [Fresh(l)] + Refresh(loads[1..]);
      DecodeClausesRoundTrip<K, V>(loads[1..], rest);
      match l.alias
      case None =>
        if m >= 2 {
          ClauseTokensHead<K, V>(loads[1..]);
        }
        assert LoadTokens<K, V>(l) == [Str(l.identifier)];
        assert l == Load(l.identifier, None);
        UnaliasedClause(l.identifier, tail, rest, m, Refresh(loads[1..]));
      case Some(a) =>
        assert LoadTokens<K, V>(l) == [Str(l.identifier), Kw(AS), Str(a)];
        AliasedClause(l.identifier, a, tail, rest, m, Refresh(loads[1..]));
    }
  }

  lemma LoadSectionRoundTrip<K, V>(loads: seq<LoadRef>, rest: seq<Token<K, V>>)
    requires SumNargs(loads) < 0x8000_0000
    requires |loads| == 0 ==> |rest| == 0 || !IsKeyword(rest[0], LOAD)
    ensures DecodeLoads(LoadSection<K, V>(loads) + rest) == Success((WireLoads(loads), rest))
  {
    if |loads| == 0 {
      assert LoadSection<K, V>(loads) + rest == rest;
    } else if IsLoadAllSingleton(loads) {
      assert loads == [LoadAll];
      assert LoadSection<K, V>(loads) == [Kw(LOAD), Str(Wildcard)];
      WildcardPrefix(rest);
    } else {
      CountedLoadSectionRoundTrip(loads, rest);
    }
  }

  /** `LOAD *` decodes as the wildcard instance. */
  lemma WildcardPrefix<K, V>(rest: seq<Token<K, V>>)
    ensures DecodeLoads([Kw(LOAD), Str(Wildcard)] + rest) == Success(([LoadAll], rest))
  {
    assert ([Kw(LOAD), Str(Wildcard)] + rest)[2..] == rest;
  }

  lemma CountedLoadSectionRoundTrip<K, V>(loads: seq<LoadRef>, rest: seq<Token<K, V>>)
    requires |loads| > 0 && !IsLoadAllSingleton(loads)
    requires SumNargs(loads) < 0x8000_0000
    ensures DecodeLoads(LoadSection<K, V>(loads) + rest) == Success((Refresh(loads), rest))
  {
    var n := SumNargs(loads);
    var clauses := ClauseTokens<K, V>(loads);
    assert n > 0 by {
      assert n == Nargs(Fields(loads[0])) + SumNargs(loads[1..]);
    }
    assert LoadSection<K, V>(loads) == [Kw(LOAD), Int(n)] + clauses;
    DecodeClausesRoundTrip<K, V>(loads, rest);
    CountedPrefix(clauses, rest, n, Refresh(loads));
  }

  /** A positive count after `LOAD` hands the rest to the clause decoder. */
  lemma CountedPrefix<K, V>(clauses: seq<Token<K, V>>, rest: seq<Token<K, V>>, n: int, decoded: seq<LoadRef>)
    requires n > 0
    requires DecodeClauses(clauses + rest, n) == Success((decoded, rest))
    ensures DecodeLoads([Kw(LOAD), Int(n)] + clauses + rest) == Success((decoded, rest))
  {
    var ts := [Kw(LOAD), Int(n)] + clauses + rest;
    assert ts[2..] == clauses + rest;
  }

  lemma {:induction false} SplitOperationsRoundTrip<K, V>(ops: seq<Token<K, V>>, rest: seq<Token<K, V>>)
    requires NoSectionKeyword(ops)
    requires |rest| == 0 || IsKeyword(rest[0], PARAMS) || IsKeyword(rest[0], TIMEOUT)
    ensures SplitOperations(ops + rest) == (ops, rest)
  {
    if |ops| == 0 {
      assert ops + rest == rest;
    } else {
      assert !IsSectionKeyword(ops[0]);
      assert (ops + rest)[1..] == ops[1..] + rest;
      SplitOperationsRoundTrip(ops[1..], rest);
      assert [ops[0]] + ops[1..] == ops;
    }
  }

  lemma {:induction false} DecodePairsRoundTrip<K, V>(params: seq<Parameter<K, V>>, rest: seq<Token<K, V>>)
    ensures DecodePairs(PairTokens(params) + rest, |params|) == Success((params, rest))
  {
    if |params| > 0 {
      var ts := PairTokens(params) + rest;
      assert PairTokens(params) == [Key(params[0].name), Value(params[0].value)] + PairTokens(params[1..]);
      assert ts[2..] == PairTokens(params[1..]) + rest;
      DecodePairsRoundTrip(params[1..], rest);
      assert [Parameter(params[0].name, params[0].value)] + params[1..] == params;
    } else {
      assert PairTokens(params) + rest == rest;
    }
  }

  lemma ParamsSectionRoundTrip<K, V>(params: seq<Parameter<K, V>>, rest: seq<Token<K, V>>)
    requires |params| == 0 ==> |rest| == 0 || !IsKeyword(rest[0], PARAMS)
    ensures DecodeParams(ParamsSection(params) + rest) == Success((params, rest))
  {
    if |params| == 0 {
      assert ParamsSection(params) + rest == rest;
    } else {
      var pairs := PairTokens(params);
      assert ParamsSection(params) == [Kw(PARAMS), Int(|params|)] + pairs;
      DecodePairsRoundTrip(params, rest);
      ParamsPrefix(pairs, rest, |params|, params);
    }
  }

  /** A positive count after `PARAMS` hands the rest to the pair decoder. */
  lemma ParamsPrefix<K, V>(pairs: seq<Token<K, V>>, rest: seq<Token<K, V>>, k: nat, decoded: seq<Parameter<K, V>>)
    requires k > 0
    requires DecodePairs(pairs + rest, k) == Success((decoded, rest))
    ensures DecodeParams([Kw(PARAMS), Int(k)] + pairs + rest) == Success((decoded, rest))
  {
    assert ([Kw(PARAMS), Int(k)] + pairs + rest)[2..] == pairs + rest;
  }

  /** Decoding proceeds section by section, each decoder handing its rest to the next. */
  lemma DecodeBySections<K, V>(
    verbatim: bool, afterVerbatim: seq<Token<K, V>>,
    loads: seq<LoadRef>, afterLoads: seq<Token<K, V>>,
    ops: seq<Token<K, V>>, afterOps: seq<Token<K, V>>,
    params: seq<Parameter<K, V>>, afterParams: seq<Token<K, V>>,
    timeout: Option<Long>)
    requires !verbatim ==> |afterVerbatim| == 0 || !IsKeyword(afterVerbatim[0], VERBATIM)
    requires DecodeLoads(afterVerbatim) == Success((loads, afterLoads))
    requires SplitOperations(afterLoads) == (ops, afterOps)
    requires DecodeParams(afterOps) == Success((params, afterParams))
    requires DecodeTimeout(afterParams) == Success(timeout)
    ensures Decode(VerbatimSection<K, V>(verbatim) + afterVerbatim) == Success(Decoded(verbatim, loads, ops, params, timeout))
  {
    var ts := VerbatimSection<K, V>(verbatim) + afterVerbatim;
    if verbatim {
      assert ts[1..] == afterVerbatim;
    } else {
      assert ts == afterVerbatim;
    }
  }

  /** Everything after the load block: the operations, then the parameter block, then the timeout. */
  lemma AfterLoadsRoundTrip<K, V>(ops: seq<Token<K, V>>, params: seq<Parameter<K, V>>, timeout: Option<Long>)
    requires NoSectionKeyword(ops)
    ensures SplitOperations(ops + (ParamsSection(params) + TimeoutSection<K, V>(timeout)))
      == (ops, ParamsSection(params) + TimeoutSection<K, V>(timeout))
    ensures DecodeParams(ParamsSection(params) + TimeoutSection<K, V>(timeout))
      == Success((params, TimeoutSection<K, V>(timeout)))
    ensures DecodeTimeout(TimeoutSection<K, V>(timeout)) == Success(timeout)
  {
    var p := ParamsSection(params);
    var t := TimeoutSection<K, V>(timeout);
    ParamsSectionRoundTrip(params, t);
    assert |p + t| == 0 || IsKeyword((p + t)[0], PARAMS) || IsKeyword((p + t)[0], TIMEOUT);
    SplitOperationsRoundTrip(ops, p + t);
  }

  /**
   * Decoding what `Build` emitted recovers the verbatim flag, the load
   * clauses (as the wire shows them), the operations' tokens, every parameter
   * and the timeout, provided the operations emit no section keyword and the
   * clause arities sum to a Java `int`.
   */
  lemma RoundTrip<K, V>(o: Options<K, V>)
    requires OperationsKeywordFree(o.operations)
    requires SumNargs(o.loads) < 0x8000_0000
    ensures Decode(Build(o)) == Success(Decoded(o.verbatim, WireLoads(o.loads), OperationTokens(o.operations), o.params, o.timeout))
  {
    var v := VerbatimSection<K, V>(o.verbatim);
    var l := LoadSection<K, V>(o.loads);
    var ops := OperationTokens(o.operations);
    var p := ParamsSection(o.params);
    var t := TimeoutSection<K, V>(o.timeout);
    OperationTokensKeywordFree(o.operations);
    AfterLoadsRoundTrip(ops, o.params, o.timeout);
    var afterLoads := ops + (p + t);
    assert |o.loads| == 0 ==> |afterLoads| == 0 || !IsKeyword(afterLoads[0], LOAD) by {
      if |afterLoads| > 0 && |ops| > 0 {
        assert afterLoads[0] == ops[0] && !IsSectionKeyword(ops[0]);
      }
    }
    LoadSectionRoundTrip(o.loads, afterLoads);
    var afterVerbatim := l + afterLoads;
    assert |afterVerbatim| == 0 || !IsKeyword(afterVerbatim[0], VERBATIM) by {
      if |afterVerbatim| > 0 && |l| == 0 && |ops| > 0 {
        assert afterVerbatim[0] == ops[0] && !IsSectionKeyword(ops[0]);
      }
    }
    DecodeBySections(o.verbatim, afterVerbatim, WireLoads(o.loads), afterLoads, ops, p + t, o.params, t, o.timeout);
    BuildAsSections(o);
  }
}
