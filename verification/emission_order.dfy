/**
 * The fixed order of the aggregate options' sections: whatever is set, the
 * section keywords appear as VERBATIM, LOAD, PARAMS, TIMEOUT, each present
 * exactly when its section is, provided the operations themselves carry none.
 */
module EmissionOrder {
  import opened Wrappers
  import opened Tokens
  import opened LoadClause
  import opened AggregateOptions

  /** A keyword that opens a section of the options (every keyword but `AS`). */
  predicate IsSectionKeyword<K, V>(t: Token<K, V>) {
    t.Kw? && t.keyword != AS
  }

  /** No token of the sequence opens a section. */
  predicate NoSectionKeyword<K, V>(ts: seq<Token<K, V>>) {
    forall i :: 0 <= i < |ts| ==> !IsSectionKeyword(ts[i])
  }

  /** No operation emits a section keyword (the stages' own grammars do not). */
  predicate OperationsKeywordFree<K, V>(ops: seq<Operation<K, V>>) {
    forall i :: 0 <= i < |ops| ==> NoSectionKeyword(ops[i].tokens)
  }

  /** The section keywords of a token sequence, in order. */
  function SectionKeywords<K, V>(ts: seq<Token<K, V>>): seq<Keyword> {
    if |ts| == 0 then []
    else (if IsSectionKeyword(ts[0]) then [ts[0].keyword] else []) + SectionKeywords(ts[1..])
  }

  /** The section keywords the options call for, in grammar order. */
  function ExpectedKeywords<K, V>(o: Options<K, V>): seq<Keyword> {
    (if o.verbatim then [VERBATIM] else [])
    + (if |o.loads| > 0 then [LOAD] else [])
    + (if |o.params| > 0 then [PARAMS] else [])
    + (if o.timeout.Some? then [TIMEOUT] else [])
  }

  /** The section keyword a single token contributes. */
  function HeadKeyword<K, V>(t: Token<K, V>): seq<Keyword> {
    if IsSectionKeyword(t) then [t.keyword] else []
  }

  lemma SectionKeywordsUnfold<K, V>(ts: seq<Token<K, V>>)
    requires |ts| > 0
    ensures SectionKeywords(ts) == HeadKeyword(ts[0]) + SectionKeywords(ts[1..])
  {
  }

  lemma {:induction false} SectionKeywordsAppend<K, V>(a: seq<Token<K, V>>, b: seq<Token<K, V>>)
    ensures SectionKeywords(a + b) == SectionKeywords(a) + SectionKeywords(b)
    decreases |a|
  {
    if |a| == 0 {
      assert a + b == b;
    } else {
      var ab := a + b;
      assert ab[0] == a[0];
      assert ab[1..] == a[1..] + b;
      SectionKeywordsUnfold(ab);
      SectionKeywordsUnfold(a);
      SectionKeywordsAppend(a[1..], b);
      assert SectionKeywords(ab) == HeadKeyword(a[0]) + (SectionKeywords(a[1..]) + SectionKeywords(b));
    }
  }

  lemma {:induction false} NoSectionKeywordNone<K, V>(ts: seq<Token<K, V>>)
    requires NoSectionKeyword(ts)
    ensures SectionKeywords(ts) == []
  {
    if |ts| > 0 {
      assert !IsSectionKeyword(ts[0]);
      NoSectionKeywordNone(ts[1..]);
    }
  }

  lemma {:induction false} ClauseTokensKeywordFree<K, V>(loads: seq<LoadRef>)
    ensures NoSectionKeyword(ClauseTokens<K, V>(loads))
  {
    if |loads| > 0 {
      ClauseTokensKeywordFree<K, V>(loads[1..]);
      var head := LoadTokens<K, V>(Fields(loads[0]));
      var tail := ClauseTokens<K, V>(loads[1..]);
      assert ClauseTokens<K, V>(loads) == head + tail;
      assert NoSectionKeyword(head);
    }
  }

  lemma {:induction false} OperationTokensKeywordFree<K, V>(ops: seq<Operation<K, V>>)
    requires OperationsKeywordFree(ops)
    ensures NoSectionKeyword(OperationTokens(ops))
  {
    if |ops| > 0 {
      assert NoSectionKeyword(ops[0].tokens);
      assert OperationsKeywordFree(ops[1..]) by {
        forall i | 0 <= i < |ops[1..]| ensures NoSectionKeyword(ops[1..][i].tokens) {
          assert ops[1..][i] == ops[i + 1];
        }
      }
      OperationTokensKeywordFree(ops[1..]);
    }
  }

  /** A section keyword followed by a non-keyword and a keyword-free tail contributes just that keyword. */
  lemma LeadingKeyword<K, V>(k: Keyword, x: Token<K, V>, rest: seq<Token<K, V>>)
    requires k != AS && !IsSectionKeyword(x) && NoSectionKeyword(rest)
    ensures SectionKeywords([Kw(k), x] + rest) == [k]
  {
    var ts := [Kw(k), x] + rest;
    assert ts[1..][1..] == rest;
    NoSectionKeywordNone(rest);
  }

  lemma LoadSectionKeywords<K, V>(loads: seq<LoadRef>)
    ensures SectionKeywords(LoadSection<K, V>(loads)) == (if |loads| > 0 then [LOAD] else [])
  {
    var l := LoadSection<K, V>(loads);
    if IsLoadAllSingleton(loads) {
      LeadingKeyword<K, V>(LOAD, Str(Wildcard), []);
      assert l == [Kw(LOAD), Str(Wildcard)] + [];
    } else if |loads| > 0 {
      ClauseTokensKeywordFree<K, V>(loads);
      LeadingKeyword(LOAD, l[1], ClauseTokens<K, V>(loads));
      assert l == [Kw(LOAD), l[1]] + ClauseTokens<K, V>(loads);
    }
  }

  lemma ParamsSectionKeywords<K, V>(params: seq<Parameter<K, V>>)
    ensures SectionKeywords(ParamsSection(params)) == (if |params| > 0 then [PARAMS] else [])
  {
    if |params| > 0 {
      var p := ParamsSection(params);
      var pairs := PairTokens(params);
      forall j | 0 <= j < |pairs| ensures !IsSectionKeyword(pairs[j]) {
        var i := j / 2;
        assert j == 2 * i || j == 2 * i + 1;
        assert pairs[2 * i].Key? && pairs[2 * i + 1].Value?;
      }
      LeadingKeyword(PARAMS, p[1], pairs);
      assert p == [Kw(PARAMS), p[1]] + pairs;
    }
  }

  lemma TimeoutSectionKeywords<K, V>(timeout: Option<Long>)
    ensures SectionKeywords(TimeoutSection<K, V>(timeout)) == (if timeout.Some? then [TIMEOUT] else [])
  {
    if timeout.Some? {
      LeadingKeyword<K, V>(TIMEOUT, Int(timeout.value), []);
      assert TimeoutSection<K, V>(timeout) == [Kw(TIMEOUT), Int(timeout.value)] + [];
    }
  }

  /**
   * The section keywords of the encoding are exactly VERBATIM, LOAD, PARAMS,
   * TIMEOUT, each iff its section is present, in that order; absent sections
   * leave no trace.
   */
  lemma KeywordOrder<K, V>(o: Options<K, V>)
    requires OperationsKeywordFree(o.operations)
    ensures SectionKeywords(Build(o)) == ExpectedKeywords(o)
  {
    var v := VerbatimSection<K, V>(o.verbatim);
    var l := LoadSection<K, V>(o.loads);
    var ops := OperationTokens(o.operations);
    var p := ParamsSection(o.params);
    var t := TimeoutSection<K, V>(o.timeout);
    BuildAsSections(o);
    OperationTokensKeywordFree(o.operations);
    NoSectionKeywordNone(ops);
    SectionsKeywords(v, l, ops, p, t);
    assert SectionKeywords(v) == (if o.verbatim then [VERBATIM] else []);
    LoadSectionKeywords<K, V>(o.loads);
    ParamsSectionKeywords(o.params);
    TimeoutSectionKeywords<K, V>(o.timeout);
  }

  /** The keywords of five sections, the middle one keyword-free, are the other four's in order. */
  lemma SectionsKeywords<K, V>(v: seq<Token<K, V>>, l: seq<Token<K, V>>, ops: seq<Token<K, V>>, p: seq<Token<K, V>>, t: seq<Token<K, V>>)
    requires SectionKeywords(ops) == []
    ensures SectionKeywords(v + (l + (ops + (p + t))))
      == SectionKeywords(v) + SectionKeywords(l) + SectionKeywords(p) + SectionKeywords(t)
  {
    SectionKeywordsAppend(p, t);
    SectionKeywordsAppend(ops, p + t);
    SectionKeywordsAppend(l, ops + (p + t));
    SectionKeywordsAppend(v, l + (ops + (p + t)));
  }
}
