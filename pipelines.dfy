/** Whole pipelines: built with the fluent builders and run by the batch
    driver, with the ImageSharp provider's executers answering for
    themselves. The virtual calls the driver makes are given as functions;
    the requirements below say that on this provider's executers they
    behave as its overrides do. */
module Pipelines {
  import opened Outcomes
  import opened GrayscaleModeParameters
  import opened Effects
  import opened Batching
  import opened EffectPipelineExecuterBase
  import opened EffectBuilders
  import opened EffectBuilderFactories
  import EffectBuilderBase
  import opened ImageSharpEffectsProvider

  /** `ShouldSkipExecute` dispatches to the ImageSharp override on this
      provider's executers. */
  ghost predicate SkipsAsImageSharp(skip: (Node, Node) -> bool)
  {
    forall current: Node, next: Node :: current.origin == ImageSharpExecuter ==>
      skip(current, next) == ImageSharpEffectsProvider.ShouldSkipExecute(current, next)
  }

  /** `OnExecuteAsync` dispatches to the ImageSharp override on calls made
      on this provider's executers. */
  ghost predicate ExecutesAsImageSharp(onExecute: Flush -> Option<Error>, imaging: ImagingCall -> Option<Error>)
  {
    forall f: Flush :: f.target.origin == ImageSharpExecuter ==> onExecute(f) == Outcome(imaging, f)
  }

  /** No call into the imaging library throws: the input is a readable
      image and the output stream takes the saved one. */
  ghost predicate ImagingSucceeds(imaging: ImagingCall -> Option<Error>)
  {
    forall c: ImagingCall :: imaging(c) == None
  }

  /** A run of a two-node ImageSharp chain `[a, b]` whose parameters are
      known, where no imaging call fails: one batch, executed by `b` with
      the caller's streams, after one question to `a`; the input is decoded
      once, `a`'s effect and then `b`'s are applied, the image is saved
      once, and nothing is thrown. */
  lemma {:induction false} TwoImageSharpNodesRunOnce(a: Node, b: Node, skip: (Node, Node) -> bool,
                                                     onExecute: Flush -> Option<Error>,
                                                     imaging: ImagingCall -> Option<Error>,
                                                     input: Stream, output: Stream,
                                                     asked: seq<nat>, flushes: seq<Flush>, thrown: Option<Error>)
    requires a.origin == ImageSharpExecuter && b.origin == ImageSharpExecuter
    requires Effect(a.parameters).Some? && Effect(b.parameters).Some?
    requires SkipsAsImageSharp(skip) && ExecutesAsImageSharp(onExecute, imaging) && ImagingSucceeds(imaging)
    requires Ran([a, b], skip, onExecute, input, output, asked, flushes, thrown)
    ensures thrown == None && asked == [0]
    ensures flushes == [Flush(b, input, output, [a, b])]
    ensures Run(imaging, input, output, [a, b])
            == Imaging([Decode(input), Effect(a.parameters).value, Effect(b.parameters).value, Save(output)], None)
  {
    var chain := [a, b];
    assert skip(chain[0], chain[1]);
    AllSkipGivesOneBatch(chain, skip);
    assert FirstUnknown(chain) == 2 by {
      assert FirstUnknown(chain[1..]) == 1 by {
        assert chain[1..][1..] == [];
      }
    }
    var plan := [Decode(input), Effect(a.parameters).value, Effect(b.parameters).value, Save(output)];
    assert Planned(input, output, chain) == plan;
    RunEndsAt(imaging, input, output, chain, plan);
    assert flushes[0] == FlushOf(chain, input, output);
    assert Batches(chain, skip)[..1] == [chain];
    assert Flatten([chain]) == chain + Flatten([chain][1..]);
  }

  /** The provider test: an executer made for a 50 x 60 resize with no
      parent, then a plain grayscale executer made on it. Executing the
      second one runs both as one batch on the second node: the input is
      decoded once, resized to exactly 50 x 60, converted with `Bt601`, and
      saved once to the output. */
  lemma {:induction false} ResizeThenGrayscale(skip: (Node, Node) -> bool, onExecute: Flush -> Option<Error>,
                                               imaging: ImagingCall -> Option<Error>, input: Stream, output: Stream,
                                               asked: seq<nat>, flushes: seq<Flush>, thrown: Option<Error>)
    requires SkipsAsImageSharp(skip) && ExecutesAsImageSharp(onExecute, imaging) && ImagingSucceeds(imaging)
    requires var resize := CreateExecutor(None, Resize(50, 60)).value;
             var grayscale := CreateExecutor(Some(resize), Effects.Grayscale).value;
             Ran(grayscale.executers, skip, onExecute, input, output, asked, flushes, thrown)
    ensures var resize := CreateExecutor(None, Resize(50, 60)).value;
            var grayscale := CreateExecutor(Some(resize), Effects.Grayscale).value;
            && thrown == None
            && flushes == [Flush(grayscale.self, input, output, grayscale.executers)]
            && Run(imaging, input, output, grayscale.executers).trace
               == [Decode(input), ResizeTo(50, 60), ToGrayscale(Bt601), Save(output)]
  {
    var resize := CreateExecutor(None, Resize(50, 60)).value;
    var grayscale := CreateExecutor(Some(resize), Effects.Grayscale).value;
    assert grayscale.executers == [resize.self, grayscale.self];
    TwoImageSharpNodesRunOnce(resize.self, grayscale.self, skip, onExecute, imaging, input, output, asked, flushes, thrown);
  }

  /** The fluent test with a single provider `q` that accepts grayscale
      and resize: `Create().Grayscale().Resize(100, 100).Build()` asks
      `CanProcess` once for each parameter, calls `CreateExecutor` once for
      each (the grayscale executer first, with no parent, then the resize
      executer on it), and builds the resize executer. */
  lemma FluentGrayscaleThenResize(q: Provider, exGrayscale: Executer, exResize: Executer)
    requires q.canProcess(Effects.Grayscale) && q.canProcess(Resize(100, 100))
    requires q.createExecutor(None, Effects.Grayscale) == Success(exGrayscale)
    requires q.createExecutor(Some(exGrayscale), Resize(100, 100)) == Success(exResize)
    ensures var first := EffectBuilderBase.Grayscale(EffectBuilderBase.Empty(CreateEmpty(NewFactory([q]))));
            && first.result.Success?
            && var second := EffectBuilderBase.Resize(EffectBuilderBase.Seeded(first.result.value), 100, 100);
               && second.result.Success?
               && EffectBuilderBase.Build(EffectBuilderBase.Seeded(second.result.value)) == exResize
               && first.calls + second.calls
                  == [CanProcessCall(0, Effects.Grayscale), CreateExecutorCall(0, None, Effects.Grayscale),
                      CanProcessCall(0, Resize(100, 100)), CreateExecutorCall(0, Some(exGrayscale), Resize(100, 100))]
  {
    SoleProviderCreates(q, None, Effects.Grayscale);
    SoleProviderCreates(q, Some(exGrayscale), Resize(100, 100));
  }

  /** The same fluent pipeline with the ImageSharp provider: both appends
      succeed, and the built executer's list is the grayscale node followed
      by the resize node, both of them ImageSharp executers; so executing
      it, where no imaging call fails, makes one call, on the resize node,
      which converts with `Bt601` and then resizes to 100 x 100. */
  lemma {:induction false} FluentImageSharpPipeline(skip: (Node, Node) -> bool, onExecute: Flush -> Option<Error>,
                                                    imaging: ImagingCall -> Option<Error>, input: Stream, output: Stream,
                                                    asked: seq<nat>, flushes: seq<Flush>, thrown: Option<Error>)
    requires SkipsAsImageSharp(skip) && ExecutesAsImageSharp(onExecute, imaging) && ImagingSucceeds(imaging)
    requires Ran([Node(Some(Effects.Grayscale), ImageSharpExecuter), Node(Some(Resize(100, 100)), ImageSharpExecuter)],
                 skip, onExecute, input, output, asked, flushes, thrown)
    ensures var first := EffectBuilderBase.Grayscale(EffectBuilderBase.Empty(CreateEmpty(NewFactory([ImageSharp]))));
            && first.result.Success?
            && var second := EffectBuilderBase.Resize(EffectBuilderBase.Seeded(first.result.value), 100, 100);
               && second.result.Success?
               && EffectBuilderBase.Build(EffectBuilderBase.Seeded(second.result.value)).executers
                  == [Node(Some(Effects.Grayscale), ImageSharpExecuter), Node(Some(Resize(100, 100)), ImageSharpExecuter)]
    ensures thrown == None && |flushes| == 1
    ensures flushes[0].target == Node(Some(Resize(100, 100)), ImageSharpExecuter)
    ensures Run(imaging, input, output, flushes[0].batch).trace
            == [Decode(input), ToGrayscale(Bt601), ResizeTo(100, 100), Save(output)]
  {
    var g := CreateExecutor(None, Effects.Grayscale).value;
    var r := CreateExecutor(Some(g), Resize(100, 100)).value;
    FluentGrayscaleThenResize(ImageSharp, g, r);
    assert r.executers == [g.self, r.self];
    TwoImageSharpNodesRunOnce(g.self, r.self, skip, onExecute, imaging, input, output, asked, flushes, thrown);
  }

  /** The empty pipeline: executing what `Create().Build()` returns makes
      exactly one `OnExecuteAsync` call, on the copy-through executer alone,
      with the caller's streams, and asks no `ShouldSkipExecute` question. */
  lemma {:induction false} EmptyPipelineCopiesOnce(providers: seq<Provider>, skip: (Node, Node) -> bool,
                                                   onExecute: Flush -> Option<Error>,
                                                   input: Stream, output: Stream,
                                                   asked: seq<nat>, flushes: seq<Flush>)
    requires Ran(EffectBuilderBase.Build(EffectBuilderBase.Empty(CreateEmpty(NewFactory(providers)))).executers,
                 skip, onExecute, input, output, asked, flushes, None)
    ensures asked == []
    ensures flushes == [Flush(Node(None, NonEffectExecuter), input, output, [Node(None, NonEffectExecuter)])]
  {
    var n := Node(None, NonEffectExecuter);
    var chain := [n];
    assert EffectBuilderBase.Build(EffectBuilderBase.Empty(CreateEmpty(NewFactory(providers)))).executers == chain;
    RanAlone(chain, skip, onExecute, input, output, asked, flushes);
    RanCompletely(chain, skip, onExecute, input, output, asked, flushes);
  }
}
