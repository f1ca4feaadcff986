/**
 * The `Load` leaf of the aggregate options: one field identifier with an
 * optional `AS` alias, its declared arity and the tokens it appends.
 */
module LoadClause {
  import opened Wrappers
  import opened Tokens

  /** The fields of a load clause. */
  datatype Load = Load(identifier: string, alias: Option<string>)

  /**
   * A `Load` object. The options encoder recognises the wildcard by comparing
   * against one shared instance by reference, so that instance is a variant of
   * its own; every other instance is `Fresh`, whatever its fields hold.
   */
  datatype LoadRef = LoadAll | Fresh(load: Load)

  /** The identifier of the shared wildcard instance. */
  const Wildcard: string := "*"

  /** The fields behind a reference; the wildcard instance is identifier `*` without alias. */
  function Fields(r: LoadRef): Load {
    match r
    case LoadAll => Load(Wildcard, None)
    case Fresh(l) => l
  }

  /** `getNargs`: the number of arguments the clause declares. */
  function Nargs(l: Load): nat {
    var nargs := 1;
    if l.alias.Some? then nargs + 2 else nargs
  }

  /** `build`: the identifier, then `AS` and the alias when there is one. */
  function LoadTokens<K, V>(l: Load): seq<Token<K, V>> {
    [Str(l.identifier)] + match l.alias
      case None => []
      case Some(a) => [Kw(AS), Str(a)]
  }

  /** The declared arity is 1 or 3 and is exactly what `build` appends. */
  lemma NargsMatchesBuild<K, V>(l: Load)
    ensures Nargs(l) == (if l.alias.None? then 1 else 3)
    ensures |LoadTokens<K, V>(l)| == Nargs(l)
    ensures LoadTokens<K, V>(l)[0] == Str(l.identifier)
    ensures l.alias.Some? ==> LoadTokens<K, V>(l)[1..] == [Kw(AS), Str(l.alias.value)]
  {
  }

  /** `Load.Builder`: an identifier and the alias set so far. */
  datatype LoadBuilder = LoadBuilder(identifier: string, alias: Option<string>)

  /** `Load.identifier(id)`: a builder without alias. */
  function Identifier(id: string): LoadBuilder {
    LoadBuilder(id, None)
  }

  /** `Builder.as(field)`: replaces the alias. */
  function As(b: LoadBuilder, field: string): LoadBuilder {
    b.(alias := Some(field))
  }

  /** `Builder.build()`: a new instance, never the shared wildcard one. */
  function BuildLoad(b: LoadBuilder): LoadRef {
    Fresh(Load(b.identifier, b.alias))
  }

  /**
   * A clause built without `as` declares one argument, one built with `as`
   * declares three and carries the last alias given; neither is the wildcard
   * instance, even for identifier `*`.
   */
  lemma LoadBuilderArity(id: string, field: string, other: string)
    ensures BuildLoad(Identifier(id)) != LoadAll
    ensures Fields(BuildLoad(Identifier(id))) == Load(id, None)
    ensures Nargs(Fields(BuildLoad(Identifier(id)))) == 1
    ensures Nargs(Fields(BuildLoad(As(Identifier(id), field)))) == 3
    ensures Fields(BuildLoad(As(As(Identifier(id), other), field))) == Load(id, Some(field))
  {
  }

  /** Sum of the declared arities of a list of clauses (mathematical, not wrapped). */
  function SumNargs(loads: seq<LoadRef>): nat
  {
    if |loads| == 0 then 0 else Nargs(Fields(loads[0])) + SumNargs(loads[1..])
  }

  /** Each clause's own tokens, in list order. */
  function ClauseTokens<K, V>(loads: seq<LoadRef>): seq<Token<K, V>>
  {
    if |loads| == 0 then [] else LoadTokens(Fields(loads[0])) + ClauseTokens(loads[1..])
  }

  /** The tokens of a list of clauses number exactly the sum of their declared arities. */
  lemma {:induction false} ClauseTokensLength<K, V>(loads: seq<LoadRef>)
    ensures |ClauseTokens<K, V>(loads)| == SumNargs(loads)
  {
    if |loads| > 0 {
      NargsMatchesBuild<K, V>(Fields(loads[0]));
      ClauseTokensLength<K, V>(loads[1..]);
    }
  }
}
