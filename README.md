# Effect pipelines: assembly and batched execution

This project models the engine of an image-effect library. The engine assembles
effect pipelines and runs them batch by batch.

- **Building a pipeline.** A fluent builder (`EffectBuilderFactory`, `EffectBuilder`,
  `EffectBuilderBase`) turns a sequence of effect parameters (resize, grayscale,
  grayscale with an explicit luma mode) into a chain of executer nodes.
  - For each parameter, the builder asks the configured effect providers, in array
    order, whether they can process it.
  - The first provider that accepts it creates the next node, with the current
    terminal node as the parent.
  - Every node keeps an immutable list: its parent's list with itself appended.
- **Running a pipeline.** Executing a node (`EffectPipelineExecuterBase.ExecuteAsync`)
  walks that list front to back.
  - For each node, it asks whether the node's step may be merged into the next node
    (`ShouldSkipExecute`).
  - It hands every maximal merged run, a *batch*, to the run's last node
    (`OnExecuteAsync`), together with the caller's input and output streams.
- **The ImageSharp provider.** It accepts the three known parameter kinds and merges
  any run of its own executers. It executes a batch as one decode, the batch's effects
  in list order on that one image, and one save; an exception from any of these calls
  ends the batch.
- **`GrayscaleModeEffectParameters`.** This is the provider's own parameter value,
  with value equality and a hash code.

## Module layout

Each module follows one source file. Modules import one another; none is nested.

- `Outcomes`: `Option`, `Result` and the exceptions the engine can raise.
- `Int32`: C#'s `int` and its unchecked wrap-around.
- `Effects`: the effect parameters.
- `GrayscaleModeParameters`: `GrayscaleModeEffectParameters`.
- `Batching`: the pure batching rule `Batches(chain, skip)`, its declarative
  characterisation and its counting facts.
- `EffectPipelineExecuterBase`: the executer node, its list, and the `ExecuteAsync`
  loop. The loop is a `method` proved against `Batches` through a loop invariant.
- `EffectBuilders`: `EffectBuilder.Create`, `Append` and `Build`. They return the new
  builder together with a log of the provider calls made.
- `EffectBuilderFactories`: the factory, its empty builder, and the copy-through
  executer.
- `EffectBuilderBase`: the virtual `Append`/`Build` dispatch, and the helpers
  `Grayscale()`, `Resize(w, h)` and `+`.
- `ImageSharpEffectsProvider`: `CanProcess`, `CreateExecutor` and `ShouldSkipExecute`.
  It also holds the `OnExecuteAsync` loop, as a `method` that records the imaging
  calls as a trace, and the `Grayscale(mode)` extension. Which imaging calls throw is
  a function parameter, `imaging(call)`.
- `Pipelines`: whole pipelines built with the builders and run by the driver,
  following the repository's unit tests.

The overrides of `ShouldSkipExecute` and `OnExecuteAsync` are virtual calls into
arbitrary subclasses. The driver therefore takes them as function parameters:
- `skip(current, next)` is the answer to `current.ShouldSkipExecute(next)`.
- `onExecute(call)` is the exception, if any, that the call throws.

`ExecuteAsync` returns three things:
- the indices `i` for which `L[i].ShouldSkipExecute(L[i + 1])` was asked;
- the `OnExecuteAsync` calls made, in order;
- the exception it rethrows, if any.

Builders, factories and executers are immutable in the source (read-only fields and
immutable lists), so they are datatypes here. "Leaves the receiver unchanged" holds
by construction.

## Model

| member | source | states |
|---|---|---|
| `Int32.Wrap` | src/Implementations/Providers/ImageProcessing.Providers.ImageSharp/GrayscaleModeEffectParameters.cs:37-39 | unchecked `int` arithmetic: the result is the one 32-bit value congruent to the exact result modulo 2^32, and equals it when the exact result is in range |
| `GrayscaleModeParameters.Equals` | src/Implementations/Providers/ImageProcessing.Providers.ImageSharp/GrayscaleModeEffectParameters.cs:30-33 | typed `Equals` holds exactly when the two values are equal |
| `GrayscaleModeParameters.EqualsObject` | src/Implementations/Providers/ImageProcessing.Providers.ImageSharp/GrayscaleModeEffectParameters.cs:25-28 | `Equals(object)` holds exactly for a boxed value equal to the receiver |
| `GrayscaleModeParameters.EqualityOperator` | src/Implementations/Providers/ImageProcessing.Providers.ImageSharp/GrayscaleModeEffectParameters.cs:42-45 | `==` holds exactly when the modes are equal |
| `GrayscaleModeParameters.InequalityOperator` | src/Implementations/Providers/ImageProcessing.Providers.ImageSharp/GrayscaleModeEffectParameters.cs:47-50 | `!=` holds exactly when the modes differ |
| `GrayscaleModeParameters.GetHashCode` | src/Implementations/Providers/ImageProcessing.Providers.ImageSharp/GrayscaleModeEffectParameters.cs:35-40 | with 32-bit wrap-around, the hash is 851357954 plus the mode's underlying value |
| `GrayscaleModeParameters.ConstructedEquality` | src/Implementations/Providers/ImageProcessing.Providers.ImageSharp/GrayscaleModeEffectParameters.cs:16-33 | the constructor keeps its mode; two constructed values are equal under `Equals`, `Equals(object)` and `==` exactly when their modes are equal, and `!=` is the opposite |
| `GrayscaleModeParameters.EqualsObjectRejectsOtherTypes` | src/Implementations/Providers/ImageProcessing.Providers.ImageSharp/GrayscaleModeEffectParameters.cs:25-28 | `Equals(object)` is false for null and for every object of another type |
| `GrayscaleModeParameters.OperatorsAgreeWithEquals` | src/Implementations/Providers/ImageProcessing.Providers.ImageSharp/GrayscaleModeEffectParameters.cs:42-50 | `==` agrees with `Equals`, and `!=` is its negation |
| `GrayscaleModeParameters.HashCodeAgreesWithEquals` | src/Implementations/Providers/ImageProcessing.Providers.ImageSharp/GrayscaleModeEffectParameters.cs:30-40 | equal values have equal hash codes, and (two modes only) equal hash codes mean equal values |
| `Batching.Batches` | src/Contracts/ImageProcessing.Contracts/EffectPipelineExecuterBase.cs:59-73 | the batches of a chain: there are some exactly when the chain is non-empty, never more than the nodes, and every batch is non-empty |
| `Batching.BatchesFlatten` | src/Contracts/ImageProcessing.Contracts/EffectPipelineExecuterBase.cs:59-73 | the batches, concatenated in order, give back the whole chain |
| `Batching.BatchCount` | src/Contracts/ImageProcessing.Contracts/EffectPipelineExecuterBase.cs:67-72 | the number of batches is one plus the number of adjacent pairs answered false |
| `Batching.BatchesAreRunPartition` | src/Contracts/ImageProcessing.Contracts/EffectPipelineExecuterBase.cs:64-72 | the batches split the chain into non-empty consecutive runs; `skip` holds between neighbours inside a run and fails between runs |
| `Batching.RunPartitionIsBatches` | src/Contracts/ImageProcessing.Contracts/EffectPipelineExecuterBase.cs:64-72 | any split with those properties is the batches, so a batch ends exactly at the last node or at a false answer |
| `Batching.BatchesCharacterized` | src/Contracts/ImageProcessing.Contracts/EffectPipelineExecuterBase.cs:64-72 | a split satisfies the run description if and only if it is the batches |
| `Batching.NoSkipGivesSingletons` | src/Contracts/ImageProcessing.Contracts/EffectPipelineExecuterBase.cs:67-72 | when every answer is false, batch `k` is `[chain[k]]` |
| `Batching.AllSkipGivesOneBatch` | src/Contracts/ImageProcessing.Contracts/EffectPipelineExecuterBase.cs:67-69 | when every answer is true, the whole chain is one batch |
| `EffectPipelineExecuterBase.Construct` | src/Contracts/ImageProcessing.Contracts/EffectPipelineExecuterBase.cs:27-40 | the new node keeps its parameters; its list is the parent's list (empty for a null parent) with the node appended last |
| `EffectPipelineExecuterBase.SiblingsSharePrefix` | src/Contracts/ImageProcessing.Contracts/EffectPipelineExecuterBase.cs:36-39 | two children of one parent both extend the parent's unchanged list; a child of no parent is alone in its list |
| `EffectPipelineExecuterBase.ExecuteAsync` | src/Contracts/ImageProcessing.Contracts/EffectPipelineExecuterBase.cs:54-98 | an empty list makes no call; otherwise the calls are made for the batches of the list, in order, and stop at the first exception, which is rethrown; `ShouldSkipExecute` is asked once per adjacent pair up to the end of the last executed batch |
| `EffectPipelineExecuterBase.RanCallsBatchEnds` | src/Contracts/ImageProcessing.Contracts/EffectPipelineExecuterBase.cs:71-88 | call `k` hands over batch `k`, is made on that batch's last node (never on a merged node), and passes the caller's streams unchanged |
| `EffectPipelineExecuterBase.RanCompletely` | src/Contracts/ImageProcessing.Contracts/EffectPipelineExecuterBase.cs:60-73 | without an exception, the batches handed over are all the batches, and they concatenate to the chain; there is one call more than there were false answers; `ShouldSkipExecute` was asked exactly of nodes `0 .. n - 2`, in order |
| `EffectPipelineExecuterBase.RanAlone` | src/Tests/ImageProcessing.UnitTests/EffectPipelineExecuterBaseTests.cs:45-75 | when every answer is false, node `k` is executed alone by call `k`, with the caller's streams |
| `EffectPipelineExecuterBase.FirstPairMerged` | src/Tests/ImageProcessing.UnitTests/EffectPipelineExecuterBaseTests.cs:83-113 | answers true then false for `[a, b, c]`: both questions asked once, in order; then one call on `b` with `[a, b]` and one on `c` with `[c]` |
| `EffectPipelineExecuterBase.RanStoppedAtThrow` | src/Contracts/ImageProcessing.Contracts/EffectPipelineExecuterBase.cs:80-95 | an exception is the last call's and is rethrown unchanged; every earlier call returned; only a prefix of the batches was executed |
| `EffectBuilders.FirstMatch` | src/Implementations/ImageProcessing.Commons/EffectBuilder.cs:72 | `First` picks the lowest-indexed provider whose `CanProcess` is true; every earlier one refused |
| `EffectBuilders.Wrapped` | src/Implementations/ImageProcessing.Commons/EffectBuilder.cs:73-75 | the new builder wraps the created executer, or the exception `CreateExecutor` threw propagates |
| `EffectBuilders.Create` | src/Implementations/ImageProcessing.Commons/EffectBuilder.cs:66-76 | a new builder keeps the parameters and the whole provider array; every provider call concerns these parameters and a provider of the array |
| `EffectBuilders.Build` | src/Implementations/ImageProcessing.Commons/EffectBuilder.cs:87 | `Build` returns the very executer that the provider's `CreateExecutor` returned when the builder was made |
| `EffectBuilders.Append` | src/Implementations/ImageProcessing.Commons/EffectBuilder.cs:48-52 | the appended builder carries the receiver's providers unchanged |
| `EffectBuilders.CreateUsesFirstAcceptingProvider` | src/Implementations/ImageProcessing.Commons/EffectBuilder.cs:71-75 | when provider `k` is the first to accept, `CanProcess` is asked of providers `0 .. k` only, then `CreateExecutor(parent, parameters)` is called on provider `k` alone, and its result is wrapped |
| `EffectBuilders.CreateFailsWithoutProvider` | src/Implementations/ImageProcessing.Commons/EffectBuilder.cs:72-73 | when no provider accepts, `InvalidOperationException` is thrown after asking each provider once, and `CreateExecutor` is never called |
| `EffectBuilders.CreateCallsCreateExecutorOnce` | src/Implementations/ImageProcessing.Commons/EffectBuilder.cs:72-74 | `CreateExecutor` is called at most once; on success exactly once, and the builder holds what that call returned |
| `EffectBuilders.AppendPassesReceiverAsParent` | src/Implementations/ImageProcessing.Commons/EffectBuilder.cs:48-87 | `Append` passes the receiver's executer as the one `CreateExecutor` call's parent; the new builder's `Build` is that call's executer, and the providers are kept |
| `EffectBuilders.Then` | src/Tests/ImageProcessing.UnitTests/EffectBuildingTests.cs:97-101 | one more step of a fluent chain: an earlier exception propagates unchanged, calls only accumulate, and providers are kept |
| `EffectBuilders.SoleProviderCreates` | src/Implementations/ImageProcessing.Commons/EffectBuilder.cs:66-76 | a sole accepting provider is asked `CanProcess` once, then creates the executer once |
| `EffectBuilders.ThreeAppendsWireParents` | src/Tests/ImageProcessing.UnitTests/EffectBuildingTests.cs:178-185 | `Create(A).Append(B).Append(C)` calls `CreateExecutor(null, A)`, `(exA, B)` and `(exB, C)`, three in all, and ends with `exC` |
| `EffectBuilderFactories.NewFactory` | src/Implementations/ImageProcessing.Commons/EffectBuilderFactory.cs:24-29 | the factory and its single empty builder both keep the constructor's provider array |
| `EffectBuilderFactories.Create` | src/Implementations/ImageProcessing.Commons/EffectBuilderFactory.cs:41-45 | `Create(p)` passes a null parent to every `CreateExecutor` call and keeps the factory's providers |
| `EffectBuilderFactories.CreateEmpty` | src/Implementations/ImageProcessing.Commons/EffectBuilderFactory.cs:47 | `Create()` returns an empty builder that carries the factory's providers, so appending `p` to it is the factory's `Create(p)` |
| `EffectBuilderFactories.EmptyAppend` | src/Implementations/ImageProcessing.Commons/EffectBuilderFactory.cs:78-81 | the empty builder's `Append` passes a null parent and keeps its providers |
| `EffectBuilderFactories.EmptyBuild` | src/Implementations/ImageProcessing.Commons/EffectBuilderFactory.cs:91-104 | the empty builder builds the copy-through executer, which has no parameters and is alone in its list |
| `EffectBuilderFactories.EmptyAppendIsCreate` | src/Implementations/ImageProcessing.Commons/EffectBuilderFactory.cs:41-81 | the empty builder's `Append(p)` is the factory's `Create(p)` |
| `EffectBuilderFactories.CreateEmptyIsShared` | src/Implementations/ImageProcessing.Commons/EffectBuilderFactory.cs:47 | `Create()` returns the factory's empty builder, which holds the factory's providers; its `Build` is the same executer whatever the providers |
| `EffectBuilderFactories.CreateStartsChain` | src/Implementations/ImageProcessing.Commons/EffectBuilderFactory.cs:41-45 | `Create(p)` makes exactly one `CreateExecutor` call, with a null parent, on the first accepting provider, so `p` starts the chain |
| `EffectBuilderBase.Append` | src/Contracts/ImageProcessing.Contracts/EffectBuilderBase.cs:25-26 | whichever builder class receives it, `Append` yields a builder that keeps the providers and holds the appended parameters |
| `EffectBuilderBase.Build` | src/Contracts/ImageProcessing.Contracts/EffectBuilderBase.cs:56 | dispatched on the empty builder, `Build` gives the copy-through executer alone in its list; on a chain's builder, the executer its provider created |
| `EffectBuilderBase.Grayscale` | src/Contracts/ImageProcessing.Contracts/EffectBuilderBase.cs:36 | `Grayscale()` appends `GrayscaleEffectParameters.Default` |
| `EffectBuilderBase.Resize` | src/Contracts/ImageProcessing.Contracts/EffectBuilderBase.cs:48 | `Resize(w, h)` appends a resize of exactly `w` by `h`, unvalidated |
| `EffectBuilderBase.Plus` | src/Contracts/ImageProcessing.Contracts/EffectBuilderBase.cs:68-73 | `pipe + p` asks the providers about `p` only; the new builder holds `p` and keeps the receiver's providers |
| `EffectBuilderBase.HelpersAreAppends` | src/Contracts/ImageProcessing.Contracts/EffectBuilderBase.cs:36-73 | `Grayscale()`, `Resize(w, h)` and `+` are `Append` with one fixed parameter, and `b + x + y` is `b.Append(x).Append(y)` |
| `EffectBuilderBase.EmptyStartsLikeCreate` | src/Implementations/ImageProcessing.Commons/EffectBuilderFactory.cs:78-81 | dispatched on the empty builder, `Append(p)` is the factory's `Create(p)` |
| `ImageSharpEffectsProvider.CanProcess` | src/Implementations/Providers/ImageProcessing.Providers.ImageSharp/ImageSharpEffectsProvider.cs:48-57 | true exactly for resize, grayscale and grayscale-mode parameters |
| `ImageSharpEffectsProvider.CreateExecutor` | src/Implementations/Providers/ImageProcessing.Providers.ImageSharp/ImageSharpEffectsProvider.cs:72-88 | for a known parameter, an executer holding it, appended to the parent's list; otherwise `NotImplementedException` |
| `ImageSharpEffectsProvider.CreatesExactlyWhatItAccepts` | src/Implementations/Providers/ImageProcessing.Providers.ImageSharp/ImageSharpEffectsProvider.cs:48-88 | `CreateExecutor` succeeds if and only if `CanProcess` is true, and throws `NotImplementedException` otherwise |
| `ImageSharpEffectsProvider.ShouldSkipExecute` | src/Implementations/Providers/ImageProcessing.Providers.ImageSharp/ImageSharpEffectsProvider.cs:237-238 | true whenever `next` is an executer this provider's `CreateExecutor` made; false for an executer of any other class |
| `ImageSharpEffectsProvider.OwnChainIsOneBatch` | src/Implementations/Providers/ImageProcessing.Providers.ImageSharp/ImageSharpEffectsProvider.cs:237-238 | `ShouldSkipExecute(next)` holds when `next` is this provider's executer, so a chain of its executers is one batch |
| `ImageSharpEffectsProvider.Effect` | src/Implementations/Providers/ImageProcessing.Providers.ImageSharp/ImageSharpEffectsProvider.cs:205-224 | the switch has a case exactly for the parameters `CanProcess` accepts |
| `ImageSharpEffectsProvider.FirstUnknown` | src/Implementations/Providers/ImageProcessing.Providers.ImageSharp/ImageSharpEffectsProvider.cs:203-224 | the position where the `foreach` throws: every earlier executer's parameters are known, and the one there is not |
| `ImageSharpEffectsProvider.Applied` | src/Implementations/Providers/ImageProcessing.Providers.ImageSharp/ImageSharpEffectsProvider.cs:203-226 | one imaging call per executer, in list order, each the effect of that executer's parameters |
| `ImageSharpEffectsProvider.Planned` | src/Implementations/Providers/ImageProcessing.Providers.ImageSharp/ImageSharpEffectsProvider.cs:201-227 | without exceptions from the library, the calls are one decode of the input, the known prefix's effects in list order, and one save exactly when every parameter is known |
| `ImageSharpEffectsProvider.FirstFailure` | src/Implementations/Providers/ImageProcessing.Providers.ImageSharp/ImageSharpEffectsProvider.cs:201-227 | the position of the first imaging call that throws: every earlier call returned |
| `ImageSharpEffectsProvider.Run` | src/Implementations/Providers/ImageProcessing.Providers.ImageSharp/ImageSharpEffectsProvider.cs:196-231 | the calls made are a prefix of the planned ones, all but the last of which returned; what is thrown is nothing, `NotImplementedException`, or the last call's own exception |
| `ImageSharpEffectsProvider.RunEndsAt` | src/Implementations/Providers/ImageProcessing.Providers.ImageSharp/ImageSharpEffectsProvider.cs:196-231 | once planned calls have been made with only the last throwing, the run ends there with that exception; when all planned calls returned, it ends with `NotImplementedException` at an unknown parameter and with nothing thrown otherwise |
| `ImageSharpEffectsProvider.OnExecuteAsync` | src/Implementations/Providers/ImageProcessing.Providers.ImageSharp/ImageSharpEffectsProvider.cs:196-231 | the decode, the `foreach` loop and the save make exactly the calls and throw exactly the exception of `Run` |
| `ImageSharpEffectsProvider.RunDecodesOnceAndSavesOnce` | src/Implementations/Providers/ImageProcessing.Providers.ImageSharp/ImageSharpEffectsProvider.cs:201-227 | decode first and once; every call before the last returned and none of them is the save; a save is made only when every parameter is known; nothing is thrown exactly when the save was made and returned, and then the batch's effects came in list order |
| `ImageSharpEffectsProvider.DecodeFailureEndsRun` | src/Implementations/Providers/ImageProcessing.Providers.ImageSharp/ImageSharpEffectsProvider.cs:201 | a decode that throws ends the run at once with its exception: no effect is applied and nothing is saved |
| `ImageSharpEffectsProvider.UnknownParametersThrow` | src/Implementations/Providers/ImageProcessing.Providers.ImageSharp/ImageSharpEffectsProvider.cs:203-227 | a batch holding an unknown parameter throws and saves nothing; when the decode and the effects before it returned, the exception is `NotImplementedException` |
| `ImageSharpEffectsProvider.EffectsOfTheKnownParameters` | src/Implementations/Providers/ImageProcessing.Providers.ImageSharp/ImageSharpEffectsProvider.cs:164-182 | plain grayscale uses `Bt601`, grayscale-mode uses its own mode, resize targets exactly the given size |
| `ImageSharpEffectsProvider.GrayscaleWithModeExtension` | src/Implementations/Providers/ImageProcessing.Providers.ImageSharp/ImageSharpEffectsProviderExtensions.cs:22-28 | `Grayscale(mode)` appends a grayscale-mode parameter with that mode |
| `Pipelines.TwoImageSharpNodesRunOnce` | src/Implementations/Providers/ImageProcessing.Providers.ImageSharp/ImageSharpEffectsProvider.cs:196-238 | two ImageSharp executers with known parameters, where no imaging call throws, run as one call on the second, after one question; decode, both effects in order, save, nothing thrown |
| `Pipelines.ResizeThenGrayscale` | src/Tests/ImageProcessing.UnitTests/ImageSharpEffectsProviderTests.cs:44-68 | resize 50 x 60 then grayscale, on a readable input: one call, nothing thrown, trace decode, resize to exactly 50 x 60, grayscale `Bt601`, save |
| `Pipelines.FluentGrayscaleThenResize` | src/Tests/ImageProcessing.UnitTests/EffectBuildingTests.cs:118-142 | `Create().Grayscale().Resize(100, 100).Build()`: `CanProcess` and `CreateExecutor` once per parameter, in order, and the built executer is the resize executer |
| `Pipelines.FluentImageSharpPipeline` | src/Tests/ImageProcessing.UnitTests/EffectBuildingTests.cs:118-126 | the same pipeline on the ImageSharp provider: both appends succeed, the built list is the grayscale node then the resize node, and, on a readable input, it runs as one call on the resize node: grayscale `Bt601`, then resize to 100 x 100 |
| `Pipelines.EmptyPipelineCopiesOnce` | src/Implementations/ImageProcessing.Commons/EffectBuilderFactory.cs:91-111 | running the empty builder's executer asks no question and makes exactly one call, on the copy-through executer alone, with the caller's streams |

## Left out

- Pixel work and image codecs: decoding, resizing, grayscale conversion and saving
  belong to the ImageSharp library. They are recorded as a trace of calls
  (`ImagingCall`), each of which may throw, as `imaging(call)` says; image contents
  are not modelled.
- ImageSharp's global format registration in the provider's constructor: it changes
  library-wide configuration that nothing in the engine reads.
- Logging, metrics and the correlation-id log context around each flush: they affect
  no result.
- Tasks and `await`: execution is modelled as sequential, which is how the source
  awaits each call.
- Stream contents: streams are opaque handles. The model shows that every call
  receives the caller's own two streams, not what the calls do to them.
- The provider setting classes and the key-value setting store: the shown provider
  never reads them.
- The interfaces without logic (`IEffectProviderFactory`, `IEffectBuilderFactory`,
  `IEffectPipelineExecuter`, `IEffectParameters`). A provider is a pair of functions,
  and a node is one datatype.
- `IEffectBuilder.cs` is not part of this model; it is an older duplicate of
  `EffectBuilderBase`.
- The obsolete parameterless executer constructor: it exists for tests. The model
  covers the empty list it produces through `ExecuteAsync`'s empty-list case.
- ImageSharp's `GrayscaleMode` enumeration is not part of this model. Its two
  members are taken with underlying values 0 (`Bt709`) and
  1 (`Bt601`), and the hash code relies on those values.
- `EffectPipelineExecuterBase.ExecuteAsync`: `ShouldSkipExecute` and `OnExecuteAsync`
  are function parameters. Each answer depends only on its arguments, so an override
  that answers differently on a second call with the same arguments is not captured.
  An `OnExecuteAsync` call is observed only through the exception it throws.
  `ShouldSkipExecute` is a `bool` function, so an override that throws is not
  modelled. In the source that exception would leave the loop outside the `try`
  block and propagate without the flush's logging.
- `Pipelines.EmptyPipelineCopiesOnce`: it states the single call on the copy-through
  executer, but not the copy itself, since stream contents are not modelled. In the
  source, the copy-through executer overrides a two-argument `OnExecuteAsync` that
  does not match the base class's three-argument one. The model keeps only its
  intent: one call on that executer.
- `EffectBuilders.Create`: a provider's `CanProcess` is a `bool` function, so a
  `CanProcess` that throws is not modelled. In the source that exception would
  propagate out of `First` before any executer is created. Exceptions from
  `CreateExecutor` are modelled.
- `EffectBuilderFactories.CreateEmptyIsShared`: "the same instance every time" is
  stated as equality of values. Object identity is not modelled.
- `ImageSharpEffectsProvider.OnExecuteAsync`: it states which imaging calls are made,
  in which order, and what is thrown, not their effect on pixels. Whether a call
  throws depends only on the call, so a library that fails on the second of two
  identical resizes in one batch is not captured. The image's disposal at the end
  of the `using` block is not modelled.
- The `OnExecuteAsync` expectations at the end of the builder tests
  (`EffectBuildingTests.cs`, lines 191-196): they target an older two-argument
  `OnExecuteAsync` and are not modelled.
- Intermediate buffers between batches: none. Every batch receives the caller's own
  input and output streams (`EffectPipelineExecuterBase.cs`, line 88), so a pipeline
  of several batches does not feed one batch's output to the next; the model shows
  exactly this.
