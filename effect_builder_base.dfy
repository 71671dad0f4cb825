/** `EffectBuilderBase`: what every builder offers. `Append` and `Build` are
    abstract, implemented by `EffectBuilder` and by the factory's
    `EmptyEffectBuilder`; `Grayscale()`, `Resize(w, h)` and `operator +` are
    stateless helpers that only delegate to `Append`. */
module EffectBuilderBase {
  import opened Outcomes
  import opened Int32
  import opened Effects
  import opened EffectPipelineExecuterBase
  import opened EffectBuilders
  import opened EffectBuilderFactories

  /** A builder of either implementing class. */
  datatype Builder =
    | Seeded(builder: EffectBuilder)
    | Empty(empty: EmptyEffectBuilder)

  /** The provider array a builder carries. */
  function ProvidersOf(b: Builder): seq<Provider>
  {
    match b
    case Seeded(x) => x.providers
    case Empty(e) => e.providers
  }

  /** The virtual `Append`, dispatched on the receiver's class. Whichever
      class, the new builder keeps the receiver's providers and holds the
      appended parameters. */
  function Append(b: Builder, parameters: EffectParameters): (a: Appended)
    ensures a.result.Success? ==>
              a.result.value.providers == ProvidersOf(b) && a.result.value.parameters == parameters
  {
    match b
    case Seeded(x) => EffectBuilders.Append(x, parameters)
    case Empty(e) => EmptyAppend(e, parameters)
  }

  /** The virtual `Build`, dispatched on the receiver's class: the empty
      builder builds the copy-through executer, alone in its list; a chain's
      builder builds the executer its provider created for it. */
  function Build(b: Builder): (x: Executer)
    ensures b.Empty? ==> x.self == Node(None, NonEffectExecuter) && x.executers == [x.self]
    ensures b.Seeded? ==>
              forall created: Result<Executer>, parameters, providers ::
                Wrapped(created, parameters, providers) == Success(b.builder) ==> created == Success(x)
  {
    match b
    case Seeded(x) => EffectBuilders.Build(x)
    case Empty(e) => EmptyBuild(e)
  }

  /** `Grayscale()`: appends `GrayscaleEffectParameters.Default`. */
  function Grayscale(b: Builder): (a: Appended)
    ensures a.result.Success? ==> a.result.value.parameters == Effects.Grayscale
  {
    Append(b, GrayscaleDefault)
  }

  /** `Resize(width, height)`: appends a resize of exactly `width` by
      `height`, whatever the values. */
  function Resize(b: Builder, width: int32, height: int32): (a: Appended)
    ensures a.result.Success? ==> a.result.value.parameters == Effects.Resize(width, height)
  {
    Append(b, Effects.Resize(width, height))
  }

  /** `pipe + parameter`: asks the providers about `parameter` alone, and
      the new builder holds `parameter` and keeps the receiver's providers. */
  function Plus(pipe: Builder, parameter: EffectParameters): (a: Appended)
    ensures forall c :: c in a.calls ==> c.parameters == parameter
    ensures a.result.Success? ==>
              a.result.value.providers == ProvidersOf(pipe) && a.result.value.parameters == parameter
  {
    Append(pipe, parameter)
  }

  /** Each helper is `Append` with one fixed parameter, so `b.Grayscale()`,
      `b.Resize(w, h)` and `b + p` are indistinguishable from the matching
      `Append`, and `b + x + y` is `b.Append(x).Append(y)`. */
  lemma HelpersAreAppends(b: Builder, width: int32, height: int32, x: EffectParameters, y: EffectParameters)
    ensures Grayscale(b) == Append(b, Effects.Grayscale)
    ensures Resize(b, width, height) == Append(b, Effects.Resize(width, height))
    ensures Plus(b, x) == Append(b, x)
    ensures Plus(b, x).result.Success? ==>
              Plus(Seeded(Plus(b, x).result.value), y) == Append(Seeded(Append(b, x).result.value), y)
              && Plus(Seeded(Plus(b, x).result.value), y).calls == Then(Append(b, x), y).calls[|Append(b, x).calls|..]
  {
  }

  /** On the empty builder, appending is starting a chain: `Create().Append(p)`
      of a factory is its `Create(p)`. */
  lemma EmptyStartsLikeCreate(providers: seq<Provider>, parameters: EffectParameters)
    ensures Append(Empty(CreateEmpty(NewFactory(providers))), parameters)
            == EffectBuilderFactories.Create(NewFactory(providers), parameters)
  {
  }
}
