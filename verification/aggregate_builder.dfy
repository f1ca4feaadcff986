/**
 * `AggregateOptions.Builder`: accumulates operations, load clauses and
 * parameters in call order, keeps the last verbatim flag and timeout, and
 * snapshots them into an options value. `loadAll` installs an immutable
 * one-element list holding the shared wildcard instance, so any later call
 * that adds a clause to it fails.
 */
module AggregateBuilder {
  import opened Wrappers
  import opened Tokens
  import opened LoadClause
  import opened AggregateOptions

  /** The builder's load list, and whether it is the immutable singleton `loadAll` installs. */
  datatype LoadList = LoadList(items: seq<LoadRef>, immutable: bool)

  /** Adding to the immutable singleton list throws `UnsupportedOperationException`. */
  datatype BuilderError = UnsupportedOperation

  datatype Builder<K, V> = Builder(
    operations: seq<Operation<K, V>>,
    loads: LoadList,
    verbatim: bool,
    timeout: Option<Long>,
    params: seq<Parameter<K, V>>)

  /** The list `loadAll` installs. */
  const AllLoads: LoadList := LoadList([LoadAll], true)

  /** `AggregateOptions.builder()`. */
  function NewBuilder<K, V>(): Builder<K, V> {
    Builder([], LoadList([], false), false, None, [])
  }

  /** `AggregateOptions.operation(op)`: a builder already holding one operation. */
  function OperationBuilder<K, V>(op: Operation<K, V>): (b: Builder<K, V>)
    ensures BuildOptions(b) == EmptyOptions().(operations := [op])
    ensures Build(BuildOptions(b)) == op.tokens
  {
    AddOperation(NewBuilder(), op)
  }

  /** `operation(op)`: appends a pipeline stage. */
  function AddOperation<K, V>(b: Builder<K, V>, op: Operation<K, V>): Builder<K, V> {
    b.(operations := b.operations + [op])
  }

  /**
   * `Collections.addAll(loads, ...)` / `loads.add(...)`: appends the clauses in
   * order; on the immutable singleton the first add throws, but adding no
   * clause at all never touches the list and so cannot fail.
   */
  function AddLoads(l: LoadList, rs: seq<LoadRef>): (r: Result<LoadList, BuilderError>)
    ensures r.Failure? <==> l.immutable && |rs| > 0
    ensures r.Success? ==> r.value.items == l.items + rs
    ensures r.Success? && |rs| > 0 ==> !r.value.immutable
  {
    if |rs| == 0 then Success(l)
    else if l.immutable then Failure(UnsupportedOperation)
    else Success(LoadList(l.items + rs, false))
  }

  /** `loadAll()`: replaces whatever was loaded by the wildcard singleton. */
  function LoadAllClauses<K, V>(b: Builder<K, V>): Builder<K, V> {
    b.(loads := AllLoads)
  }

  /** `loads(Load...)`. */
  function LoadObjects<K, V>(b: Builder<K, V>, rs: seq<LoadRef>): Result<Builder<K, V>, BuilderError> {
    match AddLoads(b.loads, rs)
    case Failure(e) => Failure(e)
    case Success(l) => Success(b.(loads := l))
  }

  /** `load(Load)`. */
  function LoadObject<K, V>(b: Builder<K, V>, r: LoadRef): Result<Builder<K, V>, BuilderError> {
    LoadObjects(b, [r])
  }

  /** The clauses `Load.identifier(id).build()` makes for each identifier. */
  function ClausesFor(ids: seq<string>): (r: seq<LoadRef>)
    ensures |r| == |ids|
    ensures forall i :: 0 <= i < |ids| ==> r[i] == Fresh(Load(ids[i], None))
  {
    if |ids| == 0 then [] else [BuildLoad(Identifier(ids[0]))] + ClausesFor(ids[1..])
  }

  /** `loads(String...)`. */
  function LoadIdentifiers<K, V>(b: Builder<K, V>, ids: seq<string>): Result<Builder<K, V>, BuilderError> {
    LoadObjects(b, ClausesFor(ids))
  }

  /** `load(String)`. */
  function LoadIdentifier<K, V>(b: Builder<K, V>, id: string): Result<Builder<K, V>, BuilderError> {
    LoadObject(b, BuildLoad(Identifier(id)))
  }

  /** `param(name, value)`: appends a parameter. */
  function AddParam<K, V>(b: Builder<K, V>, name: K, value: V): Builder<K, V> {
    b.(params := b.params + [Parameter(name, value)])
  }

  /** `verbatim(flag)`. */
  function SetVerbatim<K, V>(b: Builder<K, V>, verbatim: bool): Builder<K, V> {
    b.(verbatim := verbatim)
  }

  /** `timeout(t)`. */
  function SetTimeout<K, V>(b: Builder<K, V>, timeout: Long): Builder<K, V> {
    b.(timeout := Some(timeout))
  }

  /** `build()`: the options hold exactly the builder's fields. */
  function BuildOptions<K, V>(b: Builder<K, V>): Options<K, V> {
    Options(b.operations, b.loads.items, b.verbatim, b.timeout, b.params)
  }

  // ---------------------------------------------------------------------------
  // Sequences of builder calls
  // ---------------------------------------------------------------------------

  /** A call that touches the load list. */
  datatype LoadCall = LoadAllCall | AddCall(refs: seq<LoadRef>)

  /**
   * One builder call. `load(String)`, `loads(String...)`, `load(Load)` and
   * `loads(Load...)` all add the clauses they make or are given: `AddCall`.
   */
  datatype Call<K, V> =
    | OperationCall(op: Operation<K, V>)
    | LoadsCall(load: LoadCall)
    | ParamCall(name: K, value: V)
    | VerbatimCall(flag: bool)
    | TimeoutCall(millis: Long)

  /** Which field a call touches. */
  function Kind<K, V>(c: Call<K, V>): nat {
    match c
    case OperationCall(_) => 0
    case LoadsCall(_) => 1
    case ParamCall(_, _) => 2
    case VerbatimCall(_) => 3
    case TimeoutCall(_) => 4
  }

  function ApplyLoad(l: LoadList, c: LoadCall): Result<LoadList, BuilderError> {
    match c
    case LoadAllCall => Success(AllLoads)
    case AddCall(rs) => AddLoads(l, rs)
  }

  function Apply<K, V>(b: Builder<K, V>, c: Call<K, V>): Result<Builder<K, V>, BuilderError> {
    match c
    case OperationCall(op) => Success(AddOperation(b, op))
    case LoadsCall(LoadAllCall) => Success(LoadAllClauses(b))
    case LoadsCall(AddCall(rs)) => LoadObjects(b, rs)
    case ParamCall(n, v) => Success(AddParam(b, n, v))
    case VerbatimCall(f) => Success(SetVerbatim(b, f))
    case TimeoutCall(t) => Success(SetTimeout(b, t))
  }

  /** A chain of builder calls; the first call that throws ends the chain. */
  function Run<K, V>(b: Builder<K, V>, calls: seq<Call<K, V>>): Result<Builder<K, V>, BuilderError>
    decreases |calls|
  {
    if |calls| == 0 then Success(b)
    else match Apply(b, calls[0])
      case Failure(e) => Failure(e)
      case Success(b') => Run(b', calls[1..])
  }

  /** The load calls alone, applied in order to a load list. */
  function RunLoads(l: LoadList, calls: seq<LoadCall>): Result<LoadList, BuilderError>
    decreases |calls|
  {
    if |calls| == 0 then Success(l)
    else match ApplyLoad(l, calls[0])
      case Failure(e) => Failure(e)
      case Success(l') => RunLoads(l', calls[1..])
  }

  /** A chain of calls split by the field each touches, each part in call order. */
  datatype CallsByKind<K, V> = CallsByKind(
    ops: seq<Operation<K, V>>,
    loads: seq<LoadCall>,
    params: seq<Parameter<K, V>>,
    verbatims: seq<bool>,
    timeouts: seq<Long>)

  function Prepend<K, V>(c: Call<K, V>, k: CallsByKind<K, V>): CallsByKind<K, V> {
    match c
    case OperationCall(op) => k.(ops := [op] + k.ops)
    case LoadsCall(lc) => k.(loads := [lc] + k.loads)
    case ParamCall(n, v) => k.(params := [Parameter(n, v)] + k.params)
    case VerbatimCall(f) => k.(verbatims := [f] + k.verbatims)
    case TimeoutCall(t) => k.(timeouts := [t] + k.timeouts)
  }

  function ByKind<K, V>(calls: seq<Call<K, V>>): CallsByKind<K, V>
    decreases |calls|
  {
    if |calls| == 0 then CallsByKind([], [], [], [], []) else Prepend(calls[0], ByKind(calls[1..]))
  }

  /** The last element of `s`, or `default` when it is empty. */
  function Last<T>(default: T, s: seq<T>): T {
    if |s| == 0 then default else s[|s| - 1]
  }

  /**
   * The builder a chain of calls leaves, computed field by field: operations
   * and parameters appended, load calls run in order, the last verbatim flag
   * and the last timeout kept.
   */
  function Assemble<K, V>(b: Builder<K, V>, k: CallsByKind<K, V>): Result<Builder<K, V>, BuilderError> {
    match RunLoads(b.loads, k.loads)
    case Failure(e) => Failure(e)
    case Success(l) =>
      Success(Builder(
        b.operations + k.ops,
        l,
        Last(b.verbatim, k.verbatims),
        if |k.timeouts| == 0 then b.timeout else Some(Last(0, k.timeouts)),
        b.params + k.params))
  }

  lemma LastPrepend<T>(default: T, x: T, s: seq<T>)
    ensures Last(default, [x] + s) == Last(x, s)
  {
  }

  /** Applying one call and then assembling the rest is assembling them all. */
  lemma AssemblePrepend<K, V>(b: Builder<K, V>, c: Call<K, V>, k: CallsByKind<K, V>)
    ensures Apply(b, c).Failure? ==> Assemble(b, Prepend(c, k)).Failure?
    ensures Apply(b, c).Success? ==> Assemble(Apply(b, c).value, k) == Assemble(b, Prepend(c, k))
  {
    match c
    case OperationCall(op) =>
      assert b.operations + [op] + k.ops == b.operations + ([op] + k.ops);
    case LoadsCall(lc) =>
      assert ([lc] + k.loads)[1..] == k.loads;
    case ParamCall(n, v) =>
      assert b.params + [Parameter(n, v)] + k.params == b.params + ([Parameter(n, v)] + k.params);
    case VerbatimCall(f) =>
      LastPrepend(b.verbatim, f, k.verbatims);
    case TimeoutCall(t) =>
      LastPrepend(0, t, k.timeouts);
  }

  /**
   * The outcome of a chain of calls depends only on each field's own calls,
   * in their order: the order in which calls to different setters interleave
   * does not matter.
   */
  lemma {:induction false} RunByKind<K, V>(b: Builder<K, V>, calls: seq<Call<K, V>>)
    ensures Run(b, calls) == Assemble(b, ByKind(calls))
    decreases |calls|
  {
    if |calls| == 0 {
      assert b.operations + [] == b.operations && b.params + [] == b.params;
    } else {
      AssemblePrepend(b, calls[0], ByKind(calls[1..]));
      match Apply(b, calls[0])
      case Failure(_) =>
      case Success(b') =>
        RunByKind(b', calls[1..]);
    }
  }

  /** The chain with the calls at `i` and `i + 1` exchanged. */
  function Swap<T>(s: seq<T>, i: nat): seq<T>
    requires i + 1 < |s|
  {
    s[..i] + [s[i + 1], s[i]] + s[i + 2..]
  }

  lemma {:induction false} ByKindSwap<K, V>(calls: seq<Call<K, V>>, i: nat)
    requires i + 1 < |calls|
    requires Kind(calls[i]) != Kind(calls[i + 1])
    ensures ByKind(Swap(calls, i)) == ByKind(calls)
    decreases i
  {
    var swapped := Swap(calls, i);
    if i == 0 {
      assert swapped[0] == calls[1] && swapped[1] == calls[0];
      assert swapped[1..][1..] == calls[1..][1..];
      var rest := ByKind(calls[2..]);
      assert ByKind(swapped) == Prepend(calls[1], Prepend(calls[0], rest));
      assert ByKind(calls) == Prepend(calls[0], Prepend(calls[1], rest));
    } else {
      assert swapped[0] == calls[0];
      assert swapped[1..] == Swap(calls[1..], i - 1);
      ByKindSwap(calls[1..], i - 1);
    }
  }

  /** Exchanging two adjacent calls to different setters leaves the outcome unchanged. */
  lemma SwapDifferentSetters<K, V>(b: Builder<K, V>, calls: seq<Call<K, V>>, i: nat)
    requires i + 1 < |calls|
    requires Kind(calls[i]) != Kind(calls[i + 1])
    ensures Run(b, Swap(calls, i)) == Run(b, calls)
  {
    RunByKind(b, calls);
    RunByKind(b, Swap(calls, i));
    ByKindSwap(calls, i);
  }

  /**
   * Starting from a fresh builder, a successful chain builds options whose
   * operations and parameters are exactly the ones given, in call order, and
   * whose verbatim flag and timeout are the last ones set.
   */
  lemma BuiltFieldsFollowCalls<K, V>(calls: seq<Call<K, V>>)
    requires Run(NewBuilder<K, V>(), calls).Success?
    ensures BuildOptions(Run(NewBuilder<K, V>(), calls).value).operations == ByKind(calls).ops
    ensures BuildOptions(Run(NewBuilder<K, V>(), calls).value).params == ByKind(calls).params
    ensures BuildOptions(Run(NewBuilder<K, V>(), calls).value).verbatim == Last(false, ByKind(calls).verbatims)
    ensures BuildOptions(Run(NewBuilder<K, V>(), calls).value).timeout
      == (if |ByKind(calls).timeouts| == 0 then None else Some(Last(0, ByKind(calls).timeouts)))
  {
    RunByKind(NewBuilder<K, V>(), calls);
  }

  /** The clauses a sequence of adding calls supplies, in call order. */
  function AddedClauses(calls: seq<LoadCall>): seq<LoadRef>
    requires forall i :: 0 <= i < |calls| ==> calls[i].AddCall?
  {
    if |calls| == 0 then [] else calls[0].refs + AddedClauses(calls[1..])
  }

  /**
   * On the growable list, adding calls never fail and append their clauses
   * in call order.
   */
  lemma {:induction false} AddCallsAppend(l: LoadList, calls: seq<LoadCall>)
    requires !l.immutable
    requires forall i :: 0 <= i < |calls| ==> calls[i].AddCall?
    ensures RunLoads(l, calls) == Success(LoadList(l.items + AddedClauses(calls), false))
    decreases |calls|
  {
    if |calls| == 0 {
      assert l.items + [] == l.items;
    } else {
      var l' := LoadList(l.items + calls[0].refs, false);
      assert ApplyLoad(l, calls[0]) == Success(if |calls[0].refs| == 0 then l else l');
      AddCallsAppend(if |calls[0].refs| == 0 then l else l', calls[1..]);
      assert l.items + calls[0].refs + AddedClauses(calls[1..]) == l.items + (calls[0].refs + AddedClauses(calls[1..]));
    }
  }

  /**
   * A chain from a fresh builder that never calls `loadAll()` cannot fail,
   * and the built options hold every added clause in call order.
   */
  lemma BuiltLoadsFollowCalls<K, V>(calls: seq<Call<K, V>>)
    requires forall i :: 0 <= i < |ByKind(calls).loads| ==> ByKind(calls).loads[i].AddCall?
    ensures Run(NewBuilder<K, V>(), calls).Success?
    ensures BuildOptions(Run(NewBuilder<K, V>(), calls).value).loads == AddedClauses(ByKind(calls).loads)
  {
    RunByKind(NewBuilder<K, V>(), calls);
    AddCallsAppend(LoadList([], false), ByKind(calls).loads);
    assert [] + AddedClauses(ByKind(calls).loads) == AddedClauses(ByKind(calls).loads);
  }

  // ---------------------------------------------------------------------------
  // The wildcard singleton
  // ---------------------------------------------------------------------------

  /** The immutable list is only ever the wildcard singleton. */
  predicate Consistent(l: LoadList) {
    l.immutable ==> l.items == [LoadAll]
  }

  lemma {:induction false} RunLoadsConsistent(l: LoadList, calls: seq<LoadCall>)
    requires Consistent(l)
    requires RunLoads(l, calls).Success?
    ensures Consistent(RunLoads(l, calls).value)
    decreases |calls|
  {
    if |calls| > 0 {
      RunLoadsConsistent(ApplyLoad(l, calls[0]).value, calls[1..]);
    }
  }

  /** Every builder a fresh builder leads to holds the immutable list only as the wildcard singleton. */
  lemma BuilderLoadsConsistent<K, V>(calls: seq<Call<K, V>>)
    requires Run(NewBuilder<K, V>(), calls).Success?
    ensures Consistent(Run(NewBuilder<K, V>(), calls).value.loads)
  {
    RunByKind(NewBuilder<K, V>(), calls);
    RunLoadsConsistent(LoadList([], false), ByKind(calls).loads);
  }

  /** Once the list is the immutable singleton, a later call that adds a clause fails. */
  lemma {:induction false} AddToImmutableFails(l: LoadList, calls: seq<LoadCall>, k: nat)
    requires l.immutable
    requires k < |calls| && calls[k].AddCall? && |calls[k].refs| > 0
    ensures RunLoads(l, calls).Failure?
    decreases k
  {
    if k > 0 {
      match ApplyLoad(l, calls[0])
      case Failure(_) =>
      case Success(l') =>
        assert l'.immutable;
        AddToImmutableFails(l', calls[1..], k - 1);
    }
  }

  /**
   * After `loadAll()`, any later call that adds at least one clause fails,
   * so the wildcard is never mixed with explicit clauses by the builder.
   */
  lemma {:induction false} AddAfterLoadAllFails(l: LoadList, calls: seq<LoadCall>, j: nat, k: nat)
    requires j < k < |calls|
    requires calls[j].LoadAllCall?
    requires calls[k].AddCall? && |calls[k].refs| > 0
    ensures RunLoads(l, calls).Failure?
    decreases j
  {
    match ApplyLoad(l, calls[0])
    case Failure(_) =>
    case Success(l') =>
      if j == 0 {
        AddToImmutableFails(l', calls[1..], k - 1);
      } else {
        AddAfterLoadAllFails(l', calls[1..], j - 1, k - 1);
      }
  }

  /** Adding no clause after `loadAll()` (`loads()` with no arguments) leaves the wildcard in place. */
  lemma EmptyAddKeepsWildcard<K, V>(b: Builder<K, V>)
    ensures LoadObjects(LoadAllClauses(b), []) == Success(LoadAllClauses(b))
    ensures LoadIdentifiers(LoadAllClauses(b), []) == Success(LoadAllClauses(b))
  {
  }

  /**
   * `loadAll()` replaces any clauses loaded before it, and the options then
   * emit exactly `LOAD *`.
   */
  lemma LoadAllReplacesClauses<K, V>(b: Builder<K, V>)
    ensures BuildOptions(LoadAllClauses(b)).loads == [LoadAll]
    ensures LoadSection<K, V>(BuildOptions(LoadAllClauses(b)).loads) == [Kw(LOAD), Str(Wildcard)]
  {
  }

  /**
   * A successful chain from a fresh builder whose last load call is
   * `loadAll()` builds options that emit exactly `LOAD *` for their loads.
   */
  lemma LastLoadAllEmitsWildcard<K, V>(calls: seq<Call<K, V>>)
    requires Run(NewBuilder<K, V>(), calls).Success?
    requires |ByKind(calls).loads| > 0 && Last(AddCall([]), ByKind(calls).loads).LoadAllCall?
    ensures BuildOptions(Run(NewBuilder<K, V>(), calls).value).loads == [LoadAll]
    ensures LoadSection<K, V>(BuildOptions(Run(NewBuilder<K, V>(), calls).value).loads) == [Kw(LOAD), Str(Wildcard)]
  {
    RunByKind(NewBuilder<K, V>(), calls);
    var lcs := ByKind(calls).loads;
    RunLoadsEndsWithLoadAll(LoadList([], false), lcs);
  }

  lemma {:induction false} RunLoadsEndsWithLoadAll(l: LoadList, calls: seq<LoadCall>)
    requires |calls| > 0 && calls[|calls| - 1].LoadAllCall?
    requires RunLoads(l, calls).Success?
    ensures RunLoads(l, calls).value == AllLoads
    decreases |calls|
  {
    var l' := ApplyLoad(l, calls[0]).value;
    if |calls| > 1 {
      RunLoadsEndsWithLoadAll(l', calls[1..]);
    }
  }

  // ---------------------------------------------------------------------------
  // The wildcard singleton along a whole chain of builder calls
  // ---------------------------------------------------------------------------

  /** A call that adds at least one clause: `load(...)`, or `loads(...)` with arguments. */
  predicate AddsClause<K, V>(c: Call<K, V>) {
    c.LoadsCall? && c.load.AddCall? && |c.load.refs| > 0
  }

  /**
   * Once the builder holds the immutable list, every call either throws or
   * leaves it holding the immutable list, so a later call that adds a clause
   * ends the chain with `UnsupportedOperationException`.
   */
  lemma {:induction false} ChainAddToImmutableFails<K, V>(b: Builder<K, V>, calls: seq<Call<K, V>>, k: nat)
    requires b.loads.immutable
    requires k < |calls| && AddsClause(calls[k])
    ensures Run(b, calls) == Failure(UnsupportedOperation)
    decreases k
  {
    if k > 0 {
      match Apply(b, calls[0])
      case Failure(_) =>
      case Success(b') =>
        assert b'.loads.immutable;
        ChainAddToImmutableFails(b', calls[1..], k - 1);
    }
  }

  /**
   * In any chain of builder calls, a `load`/`loads` call that adds a clause
   * after `loadAll()` throws, whatever calls of any kind come in between.
   */
  lemma {:induction false} LoadAllThenAddFails<K, V>(b: Builder<K, V>, calls: seq<Call<K, V>>, j: nat, k: nat)
    requires j < k < |calls|
    requires calls[j] == LoadsCall(LoadAllCall)
    requires AddsClause(calls[k])
    ensures Run(b, calls) == Failure(UnsupportedOperation)
    decreases j
  {
    match Apply(b, calls[0])
    case Failure(_) =>
    case Success(b') =>
      if j == 0 {
        ChainAddToImmutableFails(b', calls[1..], k - 1);
      } else {
        LoadAllThenAddFails(b', calls[1..], j - 1, k - 1);
      }
  }

  /** A chain that does not throw leaves the wildcard singleton where it found it. */
  lemma {:induction false} AllLoadsPersists<K, V>(b: Builder<K, V>, calls: seq<Call<K, V>>)
    requires b.loads == AllLoads
    requires Run(b, calls).Success?
    ensures Run(b, calls).value.loads == AllLoads
    decreases |calls|
  {
    if |calls| > 0 {
      var b' := Apply(b, calls[0]).value;
      assert b'.loads == AllLoads;
      AllLoadsPersists(b', calls[1..]);
    }
  }

  /**
   * A chain that calls `loadAll()` anywhere and does not throw builds options
   * whose loads are exactly the wildcard, emitted as `LOAD *`.
   */
  lemma {:induction false} LoadAllEmitsWildcard<K, V>(b: Builder<K, V>, calls: seq<Call<K, V>>, j: nat)
    requires j < |calls| && calls[j] == LoadsCall(LoadAllCall)
    requires Run(b, calls).Success?
    ensures BuildOptions(Run(b, calls).value).loads == [LoadAll]
    ensures LoadSection<K, V>(BuildOptions(Run(b, calls).value).loads) == [Kw(LOAD), Str(Wildcard)]
    decreases j
  {
    var b' := Apply(b, calls[0]).value;
    if j == 0 {
      AllLoadsPersists(b', calls[1..]);
    } else {
      LoadAllEmitsWildcard(b', calls[1..], j - 1);
    }
  }
}
