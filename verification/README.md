# Aggregate options encoder (lettucemod `AggregateOptions`)

This project is a Dafny model of the argument encoder for the search module's
aggregate query options in lettucemod, together with proofs about it.

An options value holds five things: a verbatim flag, a list of `LOAD` clauses
(or the shared "load all" wildcard instance), an ordered list of pipeline
operations, an ordered list of query parameters, and an optional timeout.
`build` appends these to the command's argument sink as one positional token
sequence. The model makes `build` a pure function from an options value to a
`seq<Token<K, V>>`. A token is a keyword (`VERBATIM`, `LOAD`, `AS`, `PARAMS`,
`TIMEOUT`), a string, an integer, a codec-encoded key or a codec-encoded value.

Modules, following the Java class and its nested classes:

- `Wrappers` holds the `Option` and `Result` types.
- `Tokens` holds the keyword set, the token kinds, Java `long`, and Java `int` wrap-around.
- `LoadClause` models `AggregateOptions.Load` and its builder: the declared arity `getNargs`, the tokens `build` appends, and the sum over a clause list.
- `AggregateOptions` models the options value, each section's encoding, and `Build`.
- `EmissionOrder` proves the fixed order of the section keywords.
- `DryDecode` is a decoder that reads a token stream back, guided by the length prefixes. It is `Build`'s partner: decoding what `Build` emitted gives back the options.
- `AggregateBuilder` models `AggregateOptions.Builder`. A sequence of builder calls is a `seq<Call>`, and `Run` applies the calls one by one.
- `Scenarios` holds concrete encodings.

Behaviour worth knowing, as the code has it:

- The wildcard is recognised by reference: `loads.get(0) == LOAD_ALL`. The model therefore has a `LoadRef` datatype with a `LoadAll` variant for the shared instance and a `Fresh` variant for every other instance. A separately built `Load.identifier("*")` is `Fresh`, so it takes the counted path and emits `LOAD 1 *`.
- The count after `LOAD` is the sum of the clause arities. For clauses `a` and `b AS bb` the block is `LOAD 4 a b AS bb`. The sum uses Java `int` arithmetic (`IntStream.sum`), so the model wraps it explicitly.
- After `loadAll()` the builder's list is an immutable singleton. Any later call that adds a clause throws `UnsupportedOperationException`, which the model writes as `Failure(UnsupportedOperation)`. There is no separate configuration error. `loads()` with no arguments never calls `add`, so it succeeds even after `loadAll()`.

## Model

| member | source | states |
|---|---|---|
| `Tokens.ToInt32` | subprojects/lettucemod/src/main/java/com/redis/lettucemod/search/AggregateOptions.java:84 | the count Java computes for the load block lies in the `int` range, is congruent to the true sum modulo 2^32, and equals it whenever the sum fits in an `int` |
| `LoadClause.NargsMatchesBuild` | subprojects/lettucemod/src/main/java/com/redis/lettucemod/search/AggregateOptions.java:120-155 | `getNargs` is 1 without an alias and 3 with one, and it equals the number of tokens `Load.build` appends: `[id]` or `[id, AS, alias]` |
| `LoadClause.LoadBuilderArity` | subprojects/lettucemod/src/main/java/com/redis/lettucemod/search/AggregateOptions.java:128-149 | a clause built without `as` declares 1 argument; one built with `as` declares 3 and keeps the last alias given; a built clause is never the wildcard instance, even for `*` |
| `LoadClause.ClauseTokensLength` | subprojects/lettucemod/src/main/java/com/redis/lettucemod/search/AggregateOptions.java:84-85 | the clauses' tokens together number exactly the sum of their declared arities |
| `AggregateOptions.EmptyOptions` | subprojects/lettucemod/src/main/java/com/redis/lettucemod/search/AggregateOptions.java:16-20 | default options (empty lists, no verbatim, no timeout) encode to no tokens at all |
| `AggregateOptions.LoadSection` | subprojects/lettucemod/src/main/java/com/redis/lettucemod/search/AggregateOptions.java:79-87 | an empty list emits nothing; the wildcard singleton emits exactly `LOAD *`; any other list emits `LOAD`, a count and every clause's tokens in list order, and the count equals the number of tokens that follow it whenever the arity sum fits in an `int` |
| `AggregateOptions.OperationTokens` | subprojects/lettucemod/src/main/java/com/redis/lettucemod/search/AggregateOptions.java:88 | the operations contribute exactly the sum of their own token counts, and the first operation's tokens come first |
| `AggregateOptions.OperationTokensAppend` | subprojects/lettucemod/src/main/java/com/redis/lettucemod/search/AggregateOptions.java:88 | the tokens of two lists of operations, one after the other, are the first list's tokens followed by the second's |
| `AggregateOptions.OperationTokensInOrder` | subprojects/lettucemod/src/main/java/com/redis/lettucemod/search/AggregateOptions.java:88 | each operation's tokens appear whole, in list order, between the token counts of the operations before it and of those up to and including it |
| `AggregateOptions.PairTokens` | subprojects/lettucemod/src/main/java/com/redis/lettucemod/search/AggregateOptions.java:92 | parameter i appears as its name key at position 2i and its value at 2i+1 |
| `AggregateOptions.ParamsSection` | subprojects/lettucemod/src/main/java/com/redis/lettucemod/search/AggregateOptions.java:89-93 | no parameters emit nothing; k ≥ 1 parameters emit `PARAMS k` (k counts pairs) followed by `Key(n1) Value(v1) … Key(nk) Value(vk)`, 2 + 2k tokens in all |
| `AggregateOptions.Build` | subprojects/lettucemod/src/main/java/com/redis/lettucemod/search/AggregateOptions.java:75-95 | the total length is (verbatim ? 1 : 0) + load block length + Σ operation lengths + (k > 0 ? 2 + 2k : 0) + (timeout ? 2 : 0); `VERBATIM` leads when set, otherwise `LOAD` leads when there are loads; a timeout ends the output as `TIMEOUT t` |
| `EmissionOrder.KeywordOrder` | subprojects/lettucemod/src/main/java/com/redis/lettucemod/search/AggregateOptions.java:75-95 | when the operations emit no section keyword, the output's section keywords are exactly VERBATIM, LOAD, PARAMS, TIMEOUT in that order, each present iff its section is set |
| `DryDecode.RoundTrip` | subprojects/lettucemod/src/main/java/com/redis/lettucemod/search/AggregateOptions.java:75-95 | decoding the output recovers the verbatim flag, the load clauses (the wildcard singleton as itself, any other list as clauses with the same fields), the operations' tokens, every parameter and the timeout; this holds when the operations emit no section keyword and the arity sum fits in an `int` |
| `DryDecode.LoadSectionRoundTrip` | subprojects/lettucemod/src/main/java/com/redis/lettucemod/search/AggregateOptions.java:79-87 | the load block decodes back to its clause list from its own length prefix and leaves the following tokens untouched |
| `DryDecode.DecodeClausesRoundTrip` | subprojects/lettucemod/src/main/java/com/redis/lettucemod/search/AggregateOptions.java:84-85 | consuming exactly the announced number of tokens splits the clause tokens back into the original clauses |
| `DryDecode.ParamsSectionRoundTrip` | subprojects/lettucemod/src/main/java/com/redis/lettucemod/search/AggregateOptions.java:89-93 | the parameter block decodes back to the same parameter list, recovering the number of pairs |
| `DryDecode.SplitOperationsRoundTrip` | subprojects/lettucemod/src/main/java/com/redis/lettucemod/search/AggregateOptions.java:88 | the operations' tokens run up to the parameter block or the timeout and no further |
| `AggregateBuilder.OperationBuilder` | subprojects/lettucemod/src/main/java/com/redis/lettucemod/search/AggregateOptions.java:164-166 | a builder started from one operation builds options holding only that operation, which encode to exactly its tokens |
| `AggregateBuilder.AddLoads` | subprojects/lettucemod/src/main/java/com/redis/lettucemod/search/AggregateOptions.java:194-218 | adding clauses fails iff the list is the immutable singleton and at least one clause is added; otherwise the clauses are appended in order |
| `AggregateBuilder.ClausesFor` | subprojects/lettucemod/src/main/java/com/redis/lettucemod/search/AggregateOptions.java:204-208 | `loads(String...)` makes one alias-free fresh clause per identifier, in order |
| `AggregateBuilder.RunByKind` | subprojects/lettucemod/src/main/java/com/redis/lettucemod/search/AggregateOptions.java:183-228 | the outcome of any chain of builder calls depends only on each setter's own calls in order: operations and parameters are appended, load calls run in order, and the last verbatim flag and last timeout are kept |
| `AggregateBuilder.SwapDifferentSetters` | subprojects/lettucemod/src/main/java/com/redis/lettucemod/search/AggregateOptions.java:183-228 | exchanging two adjacent calls to different setters does not change the outcome |
| `AggregateBuilder.BuiltFieldsFollowCalls` | subprojects/lettucemod/src/main/java/com/redis/lettucemod/search/AggregateOptions.java:50-56 | options built after a successful chain from a fresh builder hold exactly the operations and parameters given, in call order, plus the last verbatim flag and last timeout set |
| `AggregateBuilder.BuiltLoadsFollowCalls` | subprojects/lettucemod/src/main/java/com/redis/lettucemod/search/AggregateOptions.java:194-218 | a chain from a fresh builder that never calls `loadAll()` always succeeds, and the built options hold every clause that `load`/`loads` added, in call order |
| `AggregateBuilder.BuilderLoadsConsistent` | subprojects/lettucemod/src/main/java/com/redis/lettucemod/search/AggregateOptions.java:189-192 | in any builder reached from a fresh one, the immutable load list is only ever the wildcard singleton |
| `AggregateBuilder.AddAfterLoadAllFails` | subprojects/lettucemod/src/main/java/com/redis/lettucemod/search/AggregateOptions.java:189-218 | among the load calls alone, once `loadAll()` has been called, any later call that adds at least one clause fails |
| `AggregateBuilder.LoadAllThenAddFails` | subprojects/lettucemod/src/main/java/com/redis/lettucemod/search/AggregateOptions.java:189-218 | in any chain of builder calls, with any calls of any kind in between, a `load`/`loads` call that adds a clause after `loadAll()` throws `UnsupportedOperationException` |
| `AggregateBuilder.ChainAddToImmutableFails` | subprojects/lettucemod/src/main/java/com/redis/lettucemod/search/AggregateOptions.java:189-218 | from a builder that holds the immutable singleton, a later call that adds a clause throws, because every call before it either throws or keeps the singleton |
| `AggregateBuilder.EmptyAddKeepsWildcard` | subprojects/lettucemod/src/main/java/com/redis/lettucemod/search/AggregateOptions.java:204-218 | adding no clause after `loadAll()` succeeds and leaves the wildcard in place |
| `AggregateBuilder.LoadAllReplacesClauses` | subprojects/lettucemod/src/main/java/com/redis/lettucemod/search/AggregateOptions.java:189-192 | `loadAll()` discards earlier clauses, and the options then emit exactly `LOAD *` |
| `AggregateBuilder.LastLoadAllEmitsWildcard` | subprojects/lettucemod/src/main/java/com/redis/lettucemod/search/AggregateOptions.java:189-192 | if the last load call of a successful chain is `loadAll()`, the built options' load block is exactly `LOAD *` |
| `AggregateBuilder.LoadAllEmitsWildcard` | subprojects/lettucemod/src/main/java/com/redis/lettucemod/search/AggregateOptions.java:189-192 | a chain that calls `loadAll()` anywhere and does not throw builds options whose loads are exactly the wildcard, emitted as `LOAD *` |
| `AggregateBuilder.AllLoadsPersists` | subprojects/lettucemod/src/main/java/com/redis/lettucemod/search/AggregateOptions.java:189-218 | a chain that does not throw leaves the wildcard singleton in place |
| `Scenarios.LoadBlockWithAlias` | subprojects/lettucemod/src/main/java/com/redis/lettucemod/search/AggregateOptions.java:84-85 | clauses `a` and `b AS bb` encode as `LOAD 4 a b AS bb` |
| `Scenarios.BuiltStarIsCounted` | subprojects/lettucemod/src/main/java/com/redis/lettucemod/search/AggregateOptions.java:81-85 | a separately built `*` clause is not the wildcard instance and encodes as `LOAD 1 *` |
| `Scenarios.VerbatimStageAndParams` | subprojects/lettucemod/src/main/java/com/redis/lettucemod/search/AggregateOptions.java:75-95 | verbatim with one stage and two parameters encodes as `VERBATIM <stage tokens> PARAMS 2 n1 v1 n2 v2` |
| `Scenarios.LoadAllThenLoadFails` | subprojects/lettucemod/src/main/java/com/redis/lettucemod/search/AggregateOptions.java:189-197 | `loadAll()` followed by `load("title")` fails |
| `Scenarios.SetterOrderIrrelevant` | subprojects/lettucemod/src/main/java/com/redis/lettucemod/search/AggregateOptions.java:183-228 | setters called as timeout, param, loadAll, verbatim still emit `VERBATIM LOAD * PARAMS 1 n 7 TIMEOUT 100` |

## Left out

- Pipeline operations are opaque token sequences. The grammars of the individual stages (group, sort, apply, filter, limit, cursor) are not part of this model.
- `SearchCommandArgs` is the sink, modelled as the returned token sequence. `Parameter` is modelled as a name/value pair.
- The codec's byte encoding of keys and values is left out. Keys and values stay abstract tokens.
- `toString` is left out: it only produces a diagnostic string.
- The JavaBean getters and setters of `AggregateOptions` are left out: they are plain field reads and replacements. The options value is any combination of fields, which covers whatever they can set.
- Java list aliasing is left out. `Builder.build()` hands its own list objects to the options, so later builder calls would show through. The model takes a value snapshot, which matches using the builder once.
- List sizes are not bounded. Java lists hold at most `Integer.MAX_VALUE` elements, so `params.size()` always fits an `int`, and the model writes the parameter count unwrapped.
- Null identifiers, null keys and null values are left out, because Dafny values are never null.
- `AggregateOptions.LoadSection`: the count equals the number of tokens that follow it only while the arity sum fits in an `int`. Past that, Java's `int` sum wraps, and the model wraps it the same way.
- `DryDecode.RoundTrip`: the round trip is stated only for operations whose tokens contain no `VERBATIM`, `LOAD`, `PARAMS` or `TIMEOUT` keyword. Opaque operations could contain those keywords, and then the stream is ambiguous. It is also stated only for an arity sum that fits in an `int`. The decoder reads typed tokens: it tells the keyword `PARAMS` apart from a string argument spelled `"PARAMS"`, which the wire does not. Which `Load` instance was used, and where one operation ends and the next begins, do not appear on the wire, so they cannot be recovered.
- `AggregateBuilder.Run`: a chain ends at the first call that throws. A Java caller that catches `UnsupportedOperationException` can keep using the builder; the failed call left the singleton list unchanged, so a later `build()` still emits `LOAD *`. The model does not continue a chain past a failure.
