/** `ImageSharpEffectsProvider`: the provider backed by the ImageSharp
    imaging library. It accepts resize and the two grayscale parameters,
    makes one executer class for all three, merges every run of its own
    executers into one batch, and runs a batch as one decode, the batch's
    effects in list order on that one image, and one save.

    The imaging library is outside this model: decoding, resizing,
    converting to grayscale and saving are recorded as a trace of calls. */
module ImageSharpEffectsProvider {
  import opened Outcomes
  import opened Int32
  import opened GrayscaleModeParameters
  import opened Effects
  import opened Batching
  import opened EffectPipelineExecuterBase
  import EffectBuilders
  import EffectBuilderBase

  /** `CanProcess`: a type test for the three parameter types this
      provider knows; it never throws. */
  function CanProcess(parameters: EffectParameters): (r: bool)
    ensures r <==> !parameters.Unrecognized?
  {
    match parameters
    case Resize(_, _) => true
    case Grayscale => true
    case GrayscaleWithMode(_) => true
    case Unrecognized(_) => false
  }

  /** `CreateExecutor(parent, parameters)`: a new `Executer<T>` for the
      three known types, constructed on `parent`; `NotImplementedException`
      for any other. */
  function CreateExecutor(parent: Option<Executer>, parameters: EffectParameters): (r: Result<Executer>)
    ensures r.Success? ==> r.value.self == Node(Some(parameters), ImageSharpExecuter)
    ensures r.Success? ==> r.value.executers == ParentList(parent) + [r.value.self]
    ensures r.Failure? ==> r.error == NotImplemented
  {
    match parameters
    case Unrecognized(_) => Failure(NotImplemented)
    case _ => Success(Construct(Some(parameters), ImageSharpExecuter, parent))
  }

  /** The provider object as the builders see it. */
  const ImageSharp: EffectBuilders.Provider := EffectBuilders.Provider(CanProcess, CreateExecutor)

  /** `CanProcess` and `CreateExecutor` agree: the provider creates an
      executer exactly for the parameters it claims, and throws for the
      others. */
  lemma CreatesExactlyWhatItAccepts(parent: Option<Executer>, parameters: EffectParameters)
    ensures CreateExecutor(parent, parameters).Success? <==> CanProcess(parameters)
    ensures !CanProcess(parameters) ==> CreateExecutor(parent, parameters) == Failure(NotImplemented)
  {
  }

  /** `Executer<T>.ShouldSkipExecute(next)`: merge into `next` exactly when
      `next` is also one of this provider's executers (the private
      `ILocalExecuter` type test): yes for every executer `CreateExecutor`
      makes, no for an executer of any other class. */
  function ShouldSkipExecute(current: Node, next: Node): (r: bool)
    ensures forall parent, parameters ::
              CreateExecutor(parent, parameters).Success? && next == CreateExecutor(parent, parameters).value.self ==> r
    ensures next.origin != ImageSharpExecuter ==> !r
  {
    next.origin == ImageSharpExecuter
  }

  /** A chain made only of this provider's executers runs as one batch,
      executed by its last node. */
  lemma OwnChainIsOneBatch(chain: seq<Node>)
    requires chain != []
    requires forall i :: 0 <= i < |chain| ==> chain[i].origin == ImageSharpExecuter
    ensures Batches(chain, ShouldSkipExecute) == [chain]
  {
    AllSkipGivesOneBatch(chain, ShouldSkipExecute);
  }

  /** A call into the imaging library. */
  datatype ImagingCall =
    /** `new Image(inputStream)`. */
    | Decode(input: Stream)
    /** `image.Resize(new Size(width, height))`. */
    | ResizeTo(width: int32, height: int32)
    /** `image.Grayscale(mode)`. */
    | ToGrayscale(mode: GrayscaleMode)
    /** `image.Save(outputStream)`. */
    | Save(output: Stream)

  /** The effect the `OnExecuteAsync` switch applies for an executer's
      parameters: `DoResize` with the parameters' size, `DoGrayscale` with
      its default mode `Bt601`, or `DoGrayscale` with the parameters' mode;
      `None` where the switch throws `NotImplementedException`. */
  function Effect(parameters: Option<EffectParameters>): (op: Option<ImagingCall>)
    ensures op.None? <==> parameters.None? || !CanProcess(parameters.value)
    ensures op.Some? ==> op.value.ResizeTo? || op.value.ToGrayscale?
  {
    match parameters
    case Some(Resize(width, height)) => Some(ResizeTo(width, height))
    case Some(Grayscale) => Some(ToGrayscale(Bt601))
    case Some(GrayscaleWithMode(p)) => Some(ToGrayscale(p.mode))
    case _ => None
  }

  /** The position of the first executer in `batch` whose parameters the
      switch does not know, or `|batch|` when it knows them all. */
  function FirstUnknown(batch: seq<Node>): (k: nat)
    ensures k <= |batch|
    ensures forall j :: 0 <= j < k ==> Effect(batch[j].parameters).Some?
    ensures k < |batch| ==> Effect(batch[k].parameters).None?
    decreases |batch|
  {
    if batch == [] || Effect(batch[0].parameters).None? then 0
    else
      var k := FirstUnknown(batch[1..]);
      assert forall j :: 1 <= j < k + 1 ==> batch[j] == batch[1..][j - 1];
      k + 1
  }

  /** The effects of a batch whose parameters are all known, in list order. */
  function Applied(batch: seq<Node>): (ops: seq<ImagingCall>)
    requires forall j :: 0 <= j < |batch| ==> Effect(batch[j].parameters).Some?
    ensures |ops| == |batch|
    ensures forall j :: 0 <= j < |batch| ==> ops[j] == Effect(batch[j].parameters).value
    decreases |batch|
  {
    if batch == [] then []
    else Applied(batch[..|batch| - 1]) + [Effect(batch[|batch| - 1].parameters).value]
  }

  /** The calls `OnExecuteAsync` makes on a batch when none of them throws:
      decode the input once, apply the effects of the known prefix in list
      order, and save once if every parameter was known. */
  function Planned(input: Stream, output: Stream, batch: seq<Node>): (plan: seq<ImagingCall>)
    ensures plan != [] && plan[0] == Decode(input)
    ensures |plan| == FirstUnknown(batch) + (if FirstUnknown(batch) == |batch| then 2 else 1)
    ensures forall m :: 1 <= m <= FirstUnknown(batch) ==> plan[m] == Effect(batch[m - 1].parameters).value
    ensures FirstUnknown(batch) == |batch| ==> plan[|plan| - 1] == Save(output)
  {
    var k := FirstUnknown(batch);
    if k == |batch| then [Decode(input)] + Applied(batch) + [Save(output)]
    else [Decode(input)] + Applied(batch[..k])
  }

  /** The position of the first call in `calls` that throws, or `|calls|`
      when none does. */
  function FirstFailure(imaging: ImagingCall -> Option<Error>, calls: seq<ImagingCall>): (j: nat)
    ensures j <= |calls|
    ensures forall m :: 0 <= m < j ==> imaging(calls[m]) == None
    ensures j < |calls| ==> imaging(calls[j]) != None
    decreases |calls|
  {
    if calls == [] || imaging(calls[0]) != None then 0
    else
      var j := FirstFailure(imaging, calls[1..]);
      assert forall m :: 1 <= m < j + 1 ==> calls[m] == calls[1..][m - 1];
      j + 1
  }

  /** What `OnExecuteAsync` does with a batch: the calls it made into the
      imaging library, in order, and the exception it threw, if any. */
  datatype Imaging = Imaging(trace: seq<ImagingCall>, thrown: Option<Error>)

  /** A run of `OnExecuteAsync` on a batch, where `imaging` says which
      calls into the imaging library throw (an unreadable input, a resize
      the library refuses, a failing output stream): the planned calls are
      made in order until one throws, and that exception propagates;
      if none throws, the run throws `NotImplementedException` at an
      unknown parameter and otherwise completes. */
  function Run(imaging: ImagingCall -> Option<Error>, input: Stream, output: Stream, batch: seq<Node>): (r: Imaging)
    ensures r.trace != [] && r.trace <= Planned(input, output, batch)
    ensures forall m :: 0 <= m < |r.trace| - 1 ==> imaging(r.trace[m]) == None
    ensures r.thrown == None || r.thrown == Some(NotImplemented) || r.thrown == imaging(Last(r.trace))
  {
    var plan := Planned(input, output, batch);
    var j := FirstFailure(imaging, plan);
    if j < |plan| then Imaging(plan[..j + 1], imaging(plan[j]))
    else Imaging(plan, if FirstUnknown(batch) < |batch| then Some(NotImplemented) else None)
  }

  /** A run that has made the planned calls `trace`, all but the last of
      which returned, ends there if the last one threw, and ends as the
      plan says if the plan is done and the last one returned. */
  lemma {:induction false} RunEndsAt(imaging: ImagingCall -> Option<Error>, input: Stream, output: Stream,
                                     batch: seq<Node>, trace: seq<ImagingCall>)
    requires trace != [] && trace <= Planned(input, output, batch)
    requires forall m :: 0 <= m < |trace| - 1 ==> imaging(trace[m]) == None
    ensures imaging(Last(trace)) != None ==> Run(imaging, input, output, batch) == Imaging(trace, imaging(Last(trace)))
    ensures imaging(Last(trace)) == None && |trace| == |Planned(input, output, batch)| ==>
              Run(imaging, input, output, batch)
                == Imaging(trace, if FirstUnknown(batch) < |batch| then Some(NotImplemented) else None)
  {
    var plan := Planned(input, output, batch);
    var j := FirstFailure(imaging, plan);
    var n := |trace| - 1;
    assert trace == plan[..n + 1];
    if imaging(Last(trace)) != None {
      assert j == n by {
        assert imaging(plan[n]) != None;
        assert forall m :: 0 <= m < n ==> imaging(plan[m]) == None;
      }
    } else if |trace| == |plan| {
      assert j == |plan| by {
        assert forall m :: 0 <= m <= n ==> imaging(plan[m]) == None;
      }
      assert trace == plan;
    }
  }

  /** `Executer<T>.OnExecuteAsync(inputStream, outputStream, effectExecuters)`:
      decode the input into one image, the `foreach` over the batch
      switching on each executer's `Parameters` and acting on that image,
      and the save; an exception from any of these calls leaves the
      method at once. */
  method OnExecuteAsync(imaging: ImagingCall -> Option<Error>, input: Stream, output: Stream, effectExecuters: seq<Node>)
    returns (trace: seq<ImagingCall>, thrown: Option<Error>)
    ensures Imaging(trace, thrown) == Run(imaging, input, output, effectExecuters)
  {
    ghost var k := FirstUnknown(effectExecuters);
    ghost var plan := Planned(input, output, effectExecuters);
    trace := [Decode(input)];
    thrown := imaging(Decode(input));
    if thrown != None {
      RunEndsAt(imaging, input, output, effectExecuters, trace);
      return;
    }
    var i := 0;
    while i < |effectExecuters|
      invariant i <= |effectExecuters| && i <= k
      invariant |trace| == i + 1 && trace <= plan
      invariant forall m :: 0 <= m < |trace| ==> imaging(trace[m]) == None
    {
      var executer := effectExecuters[i];
      var call: ImagingCall;
      match executer.parameters {
        case Some(Resize(width, height)) =>
          call := ResizeTo(width, height);
        case Some(Grayscale) =>
          call := ToGrayscale(Bt601);
        case Some(GrayscaleWithMode(grayscale)) =>
          call := ToGrayscale(grayscale.mode);
        case _ =>
          assert k == i;
          RunEndsAt(imaging, input, output, effectExecuters, trace);
          thrown := Some(NotImplemented);
          return;
      }
      assert k > i;
      trace := trace + [call];
      thrown := imaging(call);
      if thrown != None {
        RunEndsAt(imaging, input, output, effectExecuters, trace);
        return;
      }
      i := i + 1;
    }
    trace := trace + [Save(output)];
    thrown := imaging(Save(output));
    RunEndsAt(imaging, input, output, effectExecuters, trace);
  }

  /** The exception (if any) `OnExecuteAsync` throws for a call, as the
      driver sees it. */
  function Outcome(imaging: ImagingCall -> Option<Error>, f: Flush): Option<Error>
  {
    Run(imaging, f.input, f.output, f.batch).thrown
  }

  /** `OnExecuteAsync` decodes the input exactly once, first; every call
      before the last one returned, and none of them is the save; it saves
      to the output only when every earlier call returned and every
      parameter was known, and it throws nothing exactly when that save
      returned too; a run that throws nothing made every executer's effect,
      in list order. */
  lemma {:induction false} RunDecodesOnceAndSavesOnce(imaging: ImagingCall -> Option<Error>, input: Stream,
                                                      output: Stream, batch: seq<Node>)
    ensures var r := Run(imaging, input, output, batch);
            && r.trace[0] == Decode(input)
            && (forall j :: 1 <= j < |r.trace| ==> !r.trace[j].Decode?)
            && (forall j :: 0 <= j < |r.trace| - 1 ==> !r.trace[j].Save? && imaging(r.trace[j]) == None)
            && (Last(r.trace) == Save(output) ==> FirstUnknown(batch) == |batch|)
            && (r.thrown == None <==> Last(r.trace) == Save(output) && imaging(Save(output)) == None)
            && (r.thrown == None ==>
                  && |r.trace| == |batch| + 2
                  && forall j :: 0 <= j < |batch| ==> Effect(batch[j].parameters) == Some(r.trace[j + 1]))
  {
    var r := Run(imaging, input, output, batch);
    var plan := Planned(input, output, batch);
    var k := FirstUnknown(batch);
    assert forall m :: 1 <= m <= k ==> !plan[m].Decode? && !plan[m].Save?;
    assert forall m :: 0 <= m < |r.trace| ==> r.trace[m] == plan[m];
  }

  /** A decoding that throws ends the run at once with that exception:
      nothing else is done to the batch and nothing is saved. */
  lemma DecodeFailureEndsRun(imaging: ImagingCall -> Option<Error>, input: Stream, output: Stream, batch: seq<Node>)
    requires imaging(Decode(input)) != None
    ensures Run(imaging, input, output, batch) == Imaging([Decode(input)], imaging(Decode(input)))
  {
    RunEndsAt(imaging, input, output, batch, [Decode(input)]);
  }

  /** A batch with an executer whose parameters the switch does not know
      throws and saves nothing; when decoding and the effects before it
      returned, what it throws is `NotImplementedException`. */
  lemma {:induction false} UnknownParametersThrow(imaging: ImagingCall -> Option<Error>, input: Stream, output: Stream,
                                                  batch: seq<Node>, i: nat)
    requires i < |batch| && Effect(batch[i].parameters).None?
    ensures Run(imaging, input, output, batch).thrown != None
    ensures forall j :: 0 <= j < |Run(imaging, input, output, batch).trace| ==>
              !Run(imaging, input, output, batch).trace[j].Save?
    ensures imaging(Decode(input)) == None
            && (forall j :: 0 <= j < i && Effect(batch[j].parameters).Some? ==>
                  imaging(Effect(batch[j].parameters).value) == None)
            ==> Run(imaging, input, output, batch).thrown == Some(NotImplemented)
  {
    var r := Run(imaging, input, output, batch);
    var plan := Planned(input, output, batch);
    var k := FirstUnknown(batch);
    assert k <= i;
    assert forall m :: 0 <= m < |plan| ==> !plan[m].Save?;
    assert forall m :: 0 <= m < |r.trace| ==> r.trace[m] == plan[m];
  }

  /** Plain grayscale uses `Bt601`; the mode parameters use their own mode;
      a resize targets exactly the requested size. */
  lemma EffectsOfTheKnownParameters(mode: GrayscaleMode, width: int32, height: int32)
    ensures Effect(Some(Effects.Grayscale)) == Some(ToGrayscale(Bt601))
    ensures Effect(Some(GrayscaleWithMode(GrayscaleModeEffectParameters(mode)))) == Some(ToGrayscale(mode))
    ensures Effect(Some(Effects.Resize(width, height))) == Some(ResizeTo(width, height))
  {
  }

  /** The extension method `Grayscale(mode)` on any builder: appends a
      `GrayscaleModeEffectParameters` with that mode. */
  function GrayscaleWithModeExtension(instance: EffectBuilderBase.Builder, mode: GrayscaleMode): (a: EffectBuilders.Appended)
    ensures a.result.Success? ==>
              a.result.value.parameters == GrayscaleWithMode(GrayscaleModeEffectParameters(mode))
  {
    EffectBuilderBase.Append(instance, GrayscaleWithMode(GrayscaleModeEffectParameters(mode)))
  }
}
