/** `EffectBuilderFactory`: where a fluent pipeline starts. The factory
    keeps the provider array it was given and one empty builder made from
    the same array; `Create(p)` starts a chain at `p`, `Create()` hands out
    the empty builder, whose `Build` is a copy-through executer. */
module EffectBuilderFactories {
  import opened Outcomes
  import opened Effects
  import opened EffectPipelineExecuterBase
  import opened EffectBuilders

  /** The nested `EmptyEffectBuilder`: only a provider array. */
  datatype EmptyEffectBuilder = EmptyEffectBuilder(providers: seq<Provider>)

  /** The factory's read-only fields `_providers` and `_empty`. */
  datatype EffectBuilderFactory = EffectBuilderFactory(providers: seq<Provider>, empty: EmptyEffectBuilder)

  /** A factory as its constructor leaves it: the empty builder carries the
      factory's own provider array. */
  type Factory = f: EffectBuilderFactory | f.empty.providers == f.providers
    witness EffectBuilderFactory([], EmptyEffectBuilder([]))

  /** The factory's constructor: keeps the array and makes the one empty
      builder from that same array. */
  function NewFactory(providers: seq<Provider>): (f: Factory)
    ensures f.providers == providers && f.empty.providers == providers
  {
    EffectBuilderFactory(providers, EmptyEffectBuilder(providers))
  }

  /** `Create(parameters)`: `EffectBuilder.Create` with a null parent and the
      factory's providers. */
  function Create(f: Factory, parameters: EffectParameters): (a: Appended)
    ensures forall c :: c in a.calls && c.CreateExecutorCall? ==> c.parent == None
    ensures a.result.Success? ==> a.result.value.providers == f.providers
  {
    EffectBuilders.Create(None, parameters, f.providers)
  }

  /** `Create()`: the factory's single empty builder, which carries the
      factory's providers, so that appending `p` to it is `Create(p)`. */
  function CreateEmpty(f: Factory): (e: EmptyEffectBuilder)
    ensures e.providers == f.providers
    ensures forall parameters :: EmptyAppend(e, parameters) == Create(f, parameters)
  {
    f.empty
  }

  /** `EmptyEffectBuilder.Append`: `EffectBuilder.Create` with a null parent
      and the empty builder's providers. */
  function EmptyAppend(e: EmptyEffectBuilder, parameters: EffectParameters): (a: Appended)
    ensures forall c :: c in a.calls && c.CreateExecutorCall? ==> c.parent == None
    ensures a.result.Success? ==> a.result.value.providers == e.providers
  {
    EffectBuilders.Create(None, parameters, e.providers)
  }

  /** `NonEffectPipelineExecuter.Default`: an executer without parameters
      and without a parent, so its list holds itself alone. */
  const NonEffectDefault: Executer := Construct(None, NonEffectExecuter, None)

  /** `EmptyEffectBuilder.Build`: the shared copy-through executer. */
  function EmptyBuild(e: EmptyEffectBuilder): (x: Executer)
    ensures x.self == Node(None, NonEffectExecuter)
    ensures x.executers == [x.self]
  {
    NonEffectDefault
  }

  /** The empty builder's `Append(p)` is the factory's `Create(p)`: the same
      provider calls, a null parent and the same providers. */
  lemma EmptyAppendIsCreate(providers: seq<Provider>, parameters: EffectParameters)
    ensures EmptyAppend(CreateEmpty(NewFactory(providers)), parameters) == Create(NewFactory(providers), parameters)
  {
  }

  /** `Create()` hands out the same empty builder, built from the factory's
      providers, every time, and whatever the providers, its `Build` is the
      one shared copy-through executer. */
  lemma CreateEmptyIsShared(providers: seq<Provider>, other: seq<Provider>)
    ensures CreateEmpty(NewFactory(providers)).providers == providers
    ensures EmptyBuild(CreateEmpty(NewFactory(providers))) == EmptyBuild(CreateEmpty(NewFactory(other)))
  {
  }

  /** When provider `k` is the first to accept `parameters`, `Create(p)`
      makes the executer with a null parent: `p` becomes the first node of
      the chain, and the builder keeps the factory's providers. */
  lemma CreateStartsChain(f: Factory, parameters: EffectParameters, k: nat)
    requires k < |f.providers| && f.providers[k].canProcess(parameters)
    requires forall j :: 0 <= j < k ==> !f.providers[j].canProcess(parameters)
    ensures Creations(Create(f, parameters).calls) == [CreateExecutorCall(k, None, parameters)]
    ensures Create(f, parameters).result
            == Wrapped(f.providers[k].createExecutor(None, parameters), parameters, f.providers)
  {
    CreateUsesFirstAcceptingProvider(None, parameters, f.providers, k);
    ProbesCreateNothing(parameters, k + 1);
    CreationsAppend(Probes(parameters, k + 1), [CreateExecutorCall(k, None, parameters)]);
    assert Creations([CreateExecutorCall(k, None, parameters)]) == [CreateExecutorCall(k, None, parameters)];
  }
}
