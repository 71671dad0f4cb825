/** `EffectBuilder`: one immutable unit of the fluent pipeline builder.

    A builder holds the executer built so far (the pipeline's terminal
    node), the parameters of its own step and the provider array. Appending
    a parameter asks the providers, in array order, which one can process
    it, lets the first that can create the next executer with the current
    one as its parent, and wraps the result in a new builder. */
module EffectBuilders {
  import opened Outcomes
  import opened Effects
  import opened EffectPipelineExecuterBase

  /** An effect provider (`IEffectProviderFactory`): `CanProcess` and
      `CreateExecutor(parent, parameters)`. `CreateExecutor` may throw, which
      the `Failure` case records. */
  datatype Provider = Provider(canProcess: EffectParameters -> bool,
                               createExecutor: (Option<Executer>, EffectParameters) -> Result<Executer>)

  /** A call the builder makes on a provider, identified by the provider's
      index in the array. */
  datatype ProviderCall =
    | CanProcessCall(provider: nat, parameters: EffectParameters)
    | CreateExecutorCall(provider: nat, parent: Option<Executer>, parameters: EffectParameters)

  /** The three read-only fields `_executor`, `_parameters` and `_providers`. */
  datatype EffectBuilder = EffectBuilder(executor: Executer, parameters: EffectParameters, providers: seq<Provider>)

  /** What creating or appending yields: the new builder, or the exception
      that escaped, together with the provider calls made on the way. */
  datatype Appended = Appended(result: Result<EffectBuilder>, calls: seq<ProviderCall>)

  /** The index of the provider `providers.First(m => m.CanProcess(p))`
      picks, or `|providers|` when `First` finds none. */
  function FirstMatch(providers: seq<Provider>, parameters: EffectParameters): (k: nat)
    ensures k <= |providers|
    ensures forall j :: 0 <= j < k ==> !providers[j].canProcess(parameters)
    ensures k < |providers| ==> providers[k].canProcess(parameters)
    decreases |providers|
  {
    if providers == [] || providers[0].canProcess(parameters) then 0
    else
      var k := FirstMatch(providers[1..], parameters);
      assert forall j :: 1 <= j < k + 1 ==> providers[j] == providers[1..][j - 1];
      k + 1
  }

  /** `First` asks `CanProcess` of providers `0 .. n - 1`, in order. */
  function Probes(parameters: EffectParameters, n: nat): (calls: seq<ProviderCall>)
    ensures |calls| == n
    ensures forall j :: 0 <= j < n ==> calls[j] == CanProcessCall(j, parameters)
  {
    seq(n, j requires 0 <= j => CanProcessCall(j, parameters))
  }

  /** The builder around an executer that `CreateExecutor` produced, or the
      exception it threw. */
  function Wrapped(created: Result<Executer>, parameters: EffectParameters, providers: seq<Provider>): (r: Result<EffectBuilder>)
    ensures created.Failure? ==> r == Failure(created.error)
    ensures created.Success? ==> r == Success(EffectBuilder(created.value, parameters, providers))
  {
    match created
    case Success(executor) => Success(EffectBuilder(executor, parameters, providers))
    case Failure(error) => Failure(error)
  }

  /** `EffectBuilder.Create(parent, parameters, providers)`: `First` picks
      the first accepting provider (and throws when there is none, before
      any executer is created); that provider creates the executer with the
      given parent; the new builder keeps the parameters and the whole
      provider array. */
  function Create(parent: Option<Executer>, parameters: EffectParameters, providers: seq<Provider>): (a: Appended)
    ensures a.result.Success? ==> a.result.value.parameters == parameters && a.result.value.providers == providers
    ensures forall c :: c in a.calls ==> c.parameters == parameters && c.provider < |providers|
  {
    var k := FirstMatch(providers, parameters);
    if k == |providers| then
      Appended(Failure(InvalidOperation), Probes(parameters, k))
    else
      Appended(Wrapped(providers[k].createExecutor(parent, parameters), parameters, providers),
               Probes(parameters, k + 1) + [CreateExecutorCall(k, parent, parameters)])
  }

  /** `EffectBuilder.Append`: `Create` with the receiver's executer as the
      parent and the receiver's providers. */
  function Append(b: EffectBuilder, parameters: EffectParameters): (a: Appended)
    ensures a.result.Success? ==> a.result.value.providers == b.providers
  {
    Create(Some(b.executor), parameters, b.providers)
  }

  /** `EffectBuilder.Build`: the stored executer, which is the very one
      the provider's `CreateExecutor` returned when the builder was made. */
  function Build(b: EffectBuilder): (x: Executer)
    ensures forall created: Result<Executer>, parameters, providers ::
              Wrapped(created, parameters, providers) == Success(b) ==> created == Success(x)
  {
    b.executor
  }

  /** The `CreateExecutor` calls among `calls`. */
  function Creations(calls: seq<ProviderCall>): (r: seq<ProviderCall>)
    ensures |r| <= |calls|
    ensures forall c :: c in r <==> c in calls && c.CreateExecutorCall?
  {
    if calls == [] then []
    else
      assert calls == [calls[0]] + calls[1..];
      (if calls[0].CreateExecutorCall? then [calls[0]] else []) + Creations(calls[1..])
  }

  lemma {:induction false} CreationsAppend(a: seq<ProviderCall>, b: seq<ProviderCall>)
    ensures Creations(a + b) == Creations(a) + Creations(b)
    decreases |a|
  {
    if a == [] {
      assert a + b == b;
    } else {
      assert (a + b)[0] == a[0] && (a + b)[1..] == a[1..] + b;
      CreationsAppend(a[1..], b);
      var head := if a[0].CreateExecutorCall? then [a[0]] else [];
      assert Creations(a + b) == head + (Creations(a[1..]) + Creations(b));
      assert head + (Creations(a[1..]) + Creations(b)) == (head + Creations(a[1..])) + Creations(b);
    }
  }

  /** `First` picks the first accepting provider: when provider `k` accepts
      and none before it does, `Create` asks `CanProcess` of providers
      `0 .. k` exactly, then calls `CreateExecutor(parent, parameters)` on
      provider `k` only, and the new builder carries what that call
      returned (or the call's exception). */
  lemma CreateUsesFirstAcceptingProvider(parent: Option<Executer>, parameters: EffectParameters,
                                         providers: seq<Provider>, k: nat)
    requires k < |providers| && providers[k].canProcess(parameters)
    requires forall j :: 0 <= j < k ==> !providers[j].canProcess(parameters)
    ensures Create(parent, parameters, providers).calls
            == Probes(parameters, k + 1) + [CreateExecutorCall(k, parent, parameters)]
    ensures Create(parent, parameters, providers).result
            == Wrapped(providers[k].createExecutor(parent, parameters), parameters, providers)
  {
  }

  /** When no provider accepts the parameters, `First` throws
      `InvalidOperationException` after asking every provider once, and no
      `CreateExecutor` call is made. */
  lemma CreateFailsWithoutProvider(parent: Option<Executer>, parameters: EffectParameters, providers: seq<Provider>)
    requires forall j :: 0 <= j < |providers| ==> !providers[j].canProcess(parameters)
    ensures Create(parent, parameters, providers).result == Failure(InvalidOperation)
    ensures Create(parent, parameters, providers).calls == Probes(parameters, |providers|)
    ensures Creations(Create(parent, parameters, providers).calls) == []
  {
    ProbesCreateNothing(parameters, |providers|);
  }

  /** Whatever the providers do, `Create` calls `CreateExecutor` at most
      once, and exactly once when it succeeds; a successful `Create` took
      its executer from that one call. */
  lemma CreateCallsCreateExecutorOnce(parent: Option<Executer>, parameters: EffectParameters, providers: seq<Provider>)
    ensures |Creations(Create(parent, parameters, providers).calls)| <= 1
    ensures Create(parent, parameters, providers).result.Success? ==>
              exists k :: 0 <= k < |providers| &&
                Creations(Create(parent, parameters, providers).calls) == [CreateExecutorCall(k, parent, parameters)] &&
                providers[k].createExecutor(parent, parameters)
                == Success(Create(parent, parameters, providers).result.value.executor)
  {
    var k := FirstMatch(providers, parameters);
    var probes := Probes(parameters, if k < |providers| then k + 1 else k);
    ProbesCreateNothing(parameters, if k < |providers| then k + 1 else k);
    if k < |providers| {
      CreationsAppend(probes, [CreateExecutorCall(k, parent, parameters)]);
      assert Creations([CreateExecutorCall(k, parent, parameters)]) == [CreateExecutorCall(k, parent, parameters)];
    }
  }

  lemma {:induction false} ProbesCreateNothing(parameters: EffectParameters, n: nat)
    ensures Creations(Probes(parameters, n)) == []
  {
    if n > 0 {
      ProbesCreateNothing(parameters, n - 1);
      assert Probes(parameters, n) == Probes(parameters, n - 1) + [CanProcessCall(n - 1, parameters)];
      CreationsAppend(Probes(parameters, n - 1), [CanProcessCall(n - 1, parameters)]);
    }
  }

  /** `Append` asks the same providers as `Create` would with the
      receiver's executer as the parent: the receiver's executer is the
      `parent` of the one `CreateExecutor` call, and its providers go to
      the new builder unchanged. */
  lemma AppendPassesReceiverAsParent(b: EffectBuilder, parameters: EffectParameters, k: nat)
    requires k < |b.providers| && b.providers[k].canProcess(parameters)
    requires forall j :: 0 <= j < k ==> !b.providers[j].canProcess(parameters)
    ensures Creations(Append(b, parameters).calls) == [CreateExecutorCall(k, Some(b.executor), parameters)]
    ensures Append(b, parameters).result.Success? <==> b.providers[k].createExecutor(Some(b.executor), parameters).Success?
    ensures Append(b, parameters).result.Success? ==>
              Build(Append(b, parameters).result.value) == b.providers[k].createExecutor(Some(b.executor), parameters).value
              && Append(b, parameters).result.value.providers == b.providers
  {
    CreateUsesFirstAcceptingProvider(Some(b.executor), parameters, b.providers, k);
    ProbesCreateNothing(parameters, k + 1);
    CreationsAppend(Probes(parameters, k + 1), [CreateExecutorCall(k, Some(b.executor), parameters)]);
    assert Creations([CreateExecutorCall(k, Some(b.executor), parameters)]) == [CreateExecutorCall(k, Some(b.executor), parameters)];
  }

  /** The fluent chain `x.Append(p)` applied to the outcome `a` of the
      previous step: an exception of an earlier step propagates, so nothing
      more is called; otherwise the calls of this step follow the earlier
      ones. */
  function Then(a: Appended, parameters: EffectParameters): (r: Appended)
    ensures a.result.Failure? ==> r == a
    ensures a.calls <= r.calls
    ensures r.result.Success? ==> a.result.Success? && r.result.value.providers == a.result.value.providers
  {
    if a.result.Failure? then a
    else
      var step := Append(a.result.value, parameters);
      Appended(step.result, a.calls + step.calls)
  }

  /** A sole provider that accepts `parameters` is asked once and then
      creates the executer. */
  lemma SoleProviderCreates(q: Provider, parent: Option<Executer>, parameters: EffectParameters)
    requires q.canProcess(parameters)
    ensures Create(parent, parameters, [q]).calls
            == [CanProcessCall(0, parameters), CreateExecutorCall(0, parent, parameters)]
    ensures Creations(Create(parent, parameters, [q]).calls) == [CreateExecutorCall(0, parent, parameters)]
    ensures Create(parent, parameters, [q]).result == Wrapped(q.createExecutor(parent, parameters), parameters, [q])
  {
    CreateUsesFirstAcceptingProvider(parent, parameters, [q], 0);
    assert Probes(parameters, 1) == [CanProcessCall(0, parameters)];
    var calls := [CanProcessCall(0, parameters), CreateExecutorCall(0, parent, parameters)];
    assert calls[1..][1..] == [];
  }

  /** With a single provider that accepts `A`, `B` and `C` and creates
      `exA`, `exB` and `exC` for them, `Create(A)` followed by
      `.Append(B).Append(C)` asks `CanProcess` once per parameter and calls
      `CreateExecutor` exactly three times: with no parent and `A`, with
      `exA` and `B`, and with `exB` and `C`; the final builder holds `exC`. */
  lemma ThreeAppendsWireParents(q: Provider, a: EffectParameters, b: EffectParameters, c: EffectParameters,
                                exA: Executer, exB: Executer, exC: Executer)
    requires q.canProcess(a) && q.canProcess(b) && q.canProcess(c)
    requires q.createExecutor(None, a) == Success(exA)
    requires q.createExecutor(Some(exA), b) == Success(exB)
    requires q.createExecutor(Some(exB), c) == Success(exC)
    ensures Then(Then(Create(None, a, [q]), b), c).calls
            == [CanProcessCall(0, a), CreateExecutorCall(0, None, a),
                CanProcessCall(0, b), CreateExecutorCall(0, Some(exA), b),
                CanProcessCall(0, c), CreateExecutorCall(0, Some(exB), c)]
    ensures |Creations(Then(Then(Create(None, a, [q]), b), c).calls)| == 3
    ensures Then(Then(Create(None, a, [q]), b), c).result == Success(EffectBuilder(exC, c, [q]))
  {
    SoleProviderCreates(q, None, a);
    SoleProviderCreates(q, Some(exA), b);
    SoleProviderCreates(q, Some(exB), c);
    var first := Create(None, a, [q]);
    assert first.result == Success(EffectBuilder(exA, a, [q]));
    var stepB := Create(Some(exA), b, [q]);
    var second := Then(first, b);
    assert second == Appended(stepB.result, first.calls + stepB.calls);
    assert second.result == Success(EffectBuilder(exB, b, [q]));
    var stepC := Create(Some(exB), c, [q]);
    var third := Then(second, c);
    assert third == Appended(stepC.result, second.calls + stepC.calls);
    CreationsAppend(first.calls, stepB.calls);
    CreationsAppend(second.calls, stepC.calls);
    assert third.calls == first.calls + stepB.calls + stepC.calls;
    Pairs(CanProcessCall(0, a), CreateExecutorCall(0, None, a),
          CanProcessCall(0, b), CreateExecutorCall(0, Some(exA), b),
          CanProcessCall(0, c), CreateExecutorCall(0, Some(exB), c));
  }

  lemma Pairs<T>(x0: T, x1: T, x2: T, x3: T, x4: T, x5: T)
    ensures [x0, x1] + [x2, x3] + [x4, x5] == [x0, x1, x2, x3, x4, x5]
  {
  }
}
