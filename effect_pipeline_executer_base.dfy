/** `EffectPipelineExecuterBase`: one node of the effect pipeline and the
    driver that runs a whole chain.

    Every executer object keeps an immutable list of executers: its
    parent's list with itself appended. Executing an executer walks that
    list front to back, asks each node whether its step may be merged into
    the next one (`ShouldSkipExecute`), and hands every maximal merged run
    (a "batch") to the run's last node (`OnExecuteAsync`). */
module EffectPipelineExecuterBase {
  import opened Outcomes
  import opened Effects
  import opened Batching

  /** The runtime class of an executer object, which decides what its
      overrides of `ShouldSkipExecute` and `OnExecuteAsync` do. */
  datatype Origin =
    /** `ImageSharpEffectsProvider.Executer<T>`. */
    | ImageSharpExecuter
    /** `EffectBuilderFactory`'s copy-through `NonEffectPipelineExecuter`. */
    | NonEffectExecuter
    /** An executer of any other provider (test doubles included). */
    | ForeignExecuter(tag: nat)

  /** What an executer object is apart from its list: its `Parameters`
      (which may be null) and its class. */
  datatype Node = Node(parameters: Option<EffectParameters>, origin: Origin)

  /** An executer object: the node itself and its `_effectExecuters` list. */
  datatype Executer = Executer(self: Node, executers: seq<Node>)

  /** A caller-supplied stream, opaque to the engine. */
  datatype Stream = Stream(handle: nat)

  /** One `OnExecuteAsync` call: `target.OnExecuteAsync(input, output, batch)`. */
  datatype Flush = Flush(target: Node, input: Stream, output: Stream, batch: seq<Node>)

  /** The list a new executer starts from: the parent's list, or the empty
      list when the parent is null. */
  function ParentList(parent: Option<Executer>): seq<Node>
  {
    if parent.None? then [] else parent.value.executers
  }

  /** The constructor: stores the parameters and sets the list to the
      parent's list with the new node appended. */
  function Construct(parameters: Option<EffectParameters>, origin: Origin, parent: Option<Executer>): (e: Executer)
    ensures e.self == Node(parameters, origin)
    ensures e.executers != [] && Last(e.executers) == e.self
    ensures |e.executers| == |ParentList(parent)| + 1
    ensures e.executers[..|ParentList(parent)|] == ParentList(parent)
  {
    var node := Node(parameters, origin);
    Executer(node, ParentList(parent) + [node])
  }

  /** Two children of one parent share the parent's list as their common
      prefix, and a child of no parent is alone in its list. */
  lemma SiblingsSharePrefix(parent: Executer, a: Executer, b: Executer,
                            pa: Option<EffectParameters>, oa: Origin,
                            pb: Option<EffectParameters>, ob: Origin)
    requires a == Construct(pa, oa, Some(parent))
    requires b == Construct(pb, ob, Some(parent))
    ensures a.executers == parent.executers + [a.self]
    ensures b.executers == parent.executers + [b.self]
    ensures Construct(pa, oa, None).executers == [Node(pa, oa)]
  {
  }

  /** The call made for a flushed batch: on the batch's last node, with the
      caller's own streams. */
  function FlushOf(batch: seq<Node>, input: Stream, output: Stream): (f: Flush)
    requires batch != []
    ensures f.target == Last(batch) && f.batch == batch
    ensures f.input == input && f.output == output
  {
    Flush(Last(batch), input, output, batch)
  }

  /** The batches of a sequence of calls, in call order. */
  function BatchesOf(flushes: seq<Flush>): (bs: seq<seq<Node>>)
    ensures |bs| == |flushes|
    ensures forall k :: 0 <= k < |flushes| ==> bs[k] == flushes[k].batch
  {
    seq(|flushes|, k requires 0 <= k < |flushes| => flushes[k].batch)
  }

  function Min(a: int, b: int): int
  {
    if a <= b then a else b
  }

  lemma BatchesOfAppend(flushes: seq<Flush>, f: Flush)
    ensures BatchesOf(flushes + [f]) == BatchesOf(flushes) + [f.batch]
  {
    assert BatchesOf(flushes + [f]) == BatchesOf(flushes) + [f.batch];
  }

  /** The loop state of `ExecuteAsync` after looking at `chain[..i]`: the
      batches already flushed (`done`) and the run still pending, followed by
      the batches of the unvisited tail, make up the batches of the whole
      chain, and together the flushed and pending nodes are `chain[..i]`. */
  ghost predicate Progress(chain: seq<Node>, skip: (Node, Node) -> bool,
                           done: seq<seq<Node>>, pending: seq<Node>, i: nat)
  {
    && i <= |chain|
    && (pending != [] ==> i < |chain|)
    && Batches(chain, skip) == done + Prepend(pending, Batches(chain[i..], skip))
    && Flatten(done) + pending == chain[..i]
  }

  lemma ProgressStart(chain: seq<Node>, skip: (Node, Node) -> bool)
    ensures Progress(chain, skip, [], [], 0)
  {
    assert chain[0..] == chain;
  }

  /** A `true` answer moves the current node into the pending run. */
  lemma {:induction false} ProgressSkip(chain: seq<Node>, skip: (Node, Node) -> bool,
                                        done: seq<seq<Node>>, pending: seq<Node>, i: nat)
    requires Progress(chain, skip, done, pending, i)
    requires i + 1 < |chain| && skip(chain[i], chain[i + 1])
    ensures Progress(chain, skip, done, pending + [chain[i]], i + 1)
  {
    var rest := Batches(chain[i + 1..], skip);
    BatchesStep(chain, i, skip);
    assert Batches(chain[i..], skip) == Prepend([chain[i]], rest);
    PrependExtend(pending, chain[i], rest);
    assert Prepend(pending, Batches(chain[i..], skip)) == Prepend(pending + [chain[i]], rest);
    assert chain[..i + 1] == chain[..i] + [chain[i]];
    assert Flatten(done) + (pending + [chain[i]]) == (Flatten(done) + pending) + [chain[i]];
  }

  /** A `false` answer, or the end of the chain, closes the pending run with
      the current node as its last element. */
  lemma {:induction false} ProgressFlush(chain: seq<Node>, skip: (Node, Node) -> bool,
                                         done: seq<seq<Node>>, pending: seq<Node>, i: nat)
    requires Progress(chain, skip, done, pending, i)
    requires i < |chain| && !(i + 1 < |chain| && skip(chain[i], chain[i + 1]))
    ensures Progress(chain, skip, done + [pending + [chain[i]]], [], i + 1)
    ensures done + [pending + [chain[i]]] == Batches(chain, skip)[..|done| + 1]
  {
    var run := pending + [chain[i]];
    var rest := Batches(chain[i + 1..], skip);
    BatchesStep(chain, i, skip);
    PrependClose(pending, chain[i], rest);
    ShiftRun(Batches(chain, skip), done, run, rest);
    FlattenClose(chain, i, done, pending);
  }

  lemma ShiftRun<T>(all: seq<seq<T>>, done: seq<seq<T>>, run: seq<T>, rest: seq<seq<T>>)
    requires all == done + ([run] + rest)
    ensures all == (done + [run]) + Prepend([], rest)
    ensures done + [run] == all[..|done| + 1]
  {
    assert all == (done + [run]) + rest;
  }

  lemma FlattenClose(chain: seq<Node>, i: nat, done: seq<seq<Node>>, pending: seq<Node>)
    requires i < |chain| && Flatten(done) + pending == chain[..i]
    ensures Flatten(done + [pending + [chain[i]]]) == chain[..i + 1]
  {
    var run := pending + [chain[i]];
    FlattenAppend(done, [run]);
    assert Flatten([run]) == run by {
      assert [run][1..] == [];
    }
    assert chain[..i + 1] == chain[..i] + [chain[i]];
  }

  /** At the end of the chain nothing is pending and every batch is done. */
  lemma ProgressEnd(chain: seq<Node>, skip: (Node, Node) -> bool,
                    done: seq<seq<Node>>, pending: seq<Node>)
    requires Progress(chain, skip, done, pending, |chain|)
    ensures pending == [] && done == Batches(chain, skip)
  {
    assert chain[|chain|..] == [];
  }

  /** `flushes` are the calls for the first `|flushes|` of `batches`. */
  ghost predicate CallsFor(flushes: seq<Flush>, batches: seq<seq<Node>>, input: Stream, output: Stream)
  {
    && |flushes| <= |batches|
    && forall k :: 0 <= k < |flushes| ==> batches[k] != [] && flushes[k] == FlushOf(batches[k], input, output)
  }

  lemma CallsForAppend(flushes: seq<Flush>, batches: seq<seq<Node>>, input: Stream, output: Stream, run: seq<Node>)
    requires CallsFor(flushes, batches, input, output)
    requires run != [] && |flushes| < |batches| && BatchesOf(flushes) + [run] == batches[..|flushes| + 1]
    ensures CallsFor(flushes + [FlushOf(run, input, output)], batches, input, output)
  {
    assert batches[|flushes|] == (BatchesOf(flushes) + [run])[|flushes|];
  }

  /** The variables of the `ExecuteAsync` loop: the calls made so far, the
      pending run (`optimizedBuilderList`), the index of the current node and
      the `ShouldSkipExecute` questions asked so far. */
  datatype LoopState = LoopState(flushes: seq<Flush>, pending: seq<Node>, i: nat, asked: seq<nat>)

  /** Every call in `flushes` returned normally. */
  ghost predicate Returned(onExecute: Flush -> Option<Error>, flushes: seq<Flush>)
  {
    forall k :: 0 <= k < |flushes| ==> onExecute(flushes[k]) == None
  }

  /** `asked` are the questions `L[j].ShouldSkipExecute(L[j + 1])` for every
      `j < i` that has a successor in a list of `n` nodes, in order. */
  ghost predicate AskedBefore(asked: seq<nat>, i: nat, n: nat)
  {
    && |asked| == Min(i, n - 1)
    && forall j :: 0 <= j < |asked| ==> asked[j] == j
  }

  lemma ReturnedAppend(onExecute: Flush -> Option<Error>, flushes: seq<Flush>, f: Flush)
    requires Returned(onExecute, flushes) && onExecute(f) == None
    ensures Returned(onExecute, flushes + [f])
  {
  }

  lemma AskedStep(asked: seq<nat>, i: nat, n: nat)
    requires i < n && AskedBefore(asked, i, n)
    ensures AskedBefore(if i + 1 < n then asked + [i] else asked, i + 1, n)
  {
  }

  /** The loop invariant of `ExecuteAsync`: the batching progress, the calls
      made so far (each of which returned normally) and the questions asked
      so far. */
  ghost predicate Driving(chain: seq<Node>, skip: (Node, Node) -> bool, onExecute: Flush -> Option<Error>,
                          input: Stream, output: Stream, st: LoopState)
  {
    && Progress(chain, skip, BatchesOf(st.flushes), st.pending, st.i)
    && CallsFor(st.flushes, Batches(chain, skip), input, output)
    && Returned(onExecute, st.flushes)
    && AskedBefore(st.asked, st.i, |chain|)
  }

  lemma DriveStart(chain: seq<Node>, skip: (Node, Node) -> bool, onExecute: Flush -> Option<Error>,
                   input: Stream, output: Stream)
    requires chain != []
    ensures Driving(chain, skip, onExecute, input, output, LoopState([], [], 0, []))
  {
    ProgressStart(chain, skip);
    assert BatchesOf([]) == [];
  }

  /** A `true` answer moves node `i` into the pending run. */
  lemma {:induction false} DriveSkip(chain: seq<Node>, skip: (Node, Node) -> bool, onExecute: Flush -> Option<Error>,
                                     input: Stream, output: Stream, st: LoopState)
    requires Driving(chain, skip, onExecute, input, output, st)
    requires st.i + 1 < |chain| && skip(chain[st.i], chain[st.i + 1])
    ensures Driving(chain, skip, onExecute, input, output,
                    LoopState(st.flushes, st.pending + [chain[st.i]], st.i + 1, st.asked + [st.i]))
  {
    assert Progress(chain, skip, BatchesOf(st.flushes), st.pending + [chain[st.i]], st.i + 1) by {
      ProgressSkip(chain, skip, BatchesOf(st.flushes), st.pending, st.i);
    }
    assert AskedBefore(st.asked + [st.i], st.i + 1, |chain|) by {
      AskedStep(st.asked, st.i, |chain|);
    }
    DrivingIntro(chain, skip, onExecute, input, output,
                 st.flushes, st.pending + [chain[st.i]], st.i + 1, st.asked + [st.i]);
  }

  lemma DrivingIntro(chain: seq<Node>, skip: (Node, Node) -> bool, onExecute: Flush -> Option<Error>,
                     input: Stream, output: Stream, flushes: seq<Flush>, pending: seq<Node>, i: nat, asked: seq<nat>)
    requires Progress(chain, skip, BatchesOf(flushes), pending, i)
    requires CallsFor(flushes, Batches(chain, skip), input, output)
    requires Returned(onExecute, flushes)
    requires AskedBefore(asked, i, |chain|)
    ensures Driving(chain, skip, onExecute, input, output, LoopState(flushes, pending, i, asked))
  {
  }

  /** A `false` answer, or the last node, flushes the run ending at node `i`;
      here the call returned normally. */
  lemma {:induction false} DriveFlush(chain: seq<Node>, skip: (Node, Node) -> bool, onExecute: Flush -> Option<Error>,
                                      input: Stream, output: Stream, st: LoopState)
    requires Driving(chain, skip, onExecute, input, output, st)
    requires st.i < |chain| && !(st.i + 1 < |chain| && skip(chain[st.i], chain[st.i + 1]))
    requires onExecute(FlushOf(st.pending + [chain[st.i]], input, output)) == None
    ensures Driving(chain, skip, onExecute, input, output,
                    LoopState(st.flushes + [FlushOf(st.pending + [chain[st.i]], input, output)], [], st.i + 1,
                              if st.i + 1 < |chain| then st.asked + [st.i] else st.asked))
  {
    var f := FlushOf(st.pending + [chain[st.i]], input, output);
    Flushed(chain, skip, input, output, st.flushes, st.pending, st.i);
    ReturnedAppend(onExecute, st.flushes, f);
    AskedStep(st.asked, st.i, |chain|);
    DrivingIntro(chain, skip, onExecute, input, output,
                 st.flushes + [f], [], st.i + 1, if st.i + 1 < |chain| then st.asked + [st.i] else st.asked);
  }

  lemma {:induction false} Flushed(chain: seq<Node>, skip: (Node, Node) -> bool, input: Stream, output: Stream,
                flushes: seq<Flush>, pending: seq<Node>, i: nat)
    requires Progress(chain, skip, BatchesOf(flushes), pending, i)
    requires CallsFor(flushes, Batches(chain, skip), input, output)
    requires i < |chain| && !(i + 1 < |chain| && skip(chain[i], chain[i + 1]))
    ensures Progress(chain, skip, BatchesOf(flushes + [FlushOf(pending + [chain[i]], input, output)]), [], i + 1)
    ensures CallsFor(flushes + [FlushOf(pending + [chain[i]], input, output)], Batches(chain, skip), input, output)
  {
    var run := pending + [chain[i]];
    ProgressFlush(chain, skip, BatchesOf(flushes), pending, i);
    CallsForAppend(flushes, Batches(chain, skip), input, output, run);
    BatchesOfAppend(flushes, FlushOf(run, input, output));
  }

  /** The calls stop at the first one that throws, and only there: every
      call but the last returned normally; without an exception all `n`
      batches were executed, and an exception is the last call's. */
  ghost predicate StopsAt(onExecute: Flush -> Option<Error>, flushes: seq<Flush>, thrown: Option<Error>, n: nat)
  {
    && (forall k :: 0 <= k < |flushes| - 1 ==> onExecute(flushes[k]) == None)
    && (thrown == None ==> |flushes| == n && Returned(onExecute, flushes))
    && (thrown != None ==> flushes != [] && thrown == onExecute(flushes[|flushes| - 1]))
  }

  /** What `ExecuteAsync` promises about a non-empty list `chain`: the calls
      are made for the batches of `chain`, in order, each on the batch's last
      node and with the caller's streams; they stop at the first exception,
      which is rethrown; and `ShouldSkipExecute` is asked once per adjacent
      pair, front to back, up to the end of the last executed batch and never
      of the last node. */
  ghost predicate Ran(chain: seq<Node>, skip: (Node, Node) -> bool, onExecute: Flush -> Option<Error>,
                      input: Stream, output: Stream,
                      asked: seq<nat>, flushes: seq<Flush>, thrown: Option<Error>)
  {
    && CallsFor(flushes, Batches(chain, skip), input, output)
    && StopsAt(onExecute, flushes, thrown, |Batches(chain, skip)|)
    && AskedBefore(asked, |Flatten(Batches(chain, skip)[..|flushes|])|, |chain|)
  }

  /** With nothing pending after `chain[..i]`, the executed batches cover
      exactly `chain[..i]`; at the end of the chain they are all the batches. */
  lemma Settled(chain: seq<Node>, skip: (Node, Node) -> bool, flushes: seq<Flush>, i: nat)
    requires Progress(chain, skip, BatchesOf(flushes), [], i)
    ensures |Flatten(Batches(chain, skip)[..|flushes|])| == i
    ensures i == |chain| ==> |flushes| == |Batches(chain, skip)|
  {
    var all := Batches(chain, skip);
    assert all == BatchesOf(flushes) + Batches(chain[i..], skip);
    assert all[..|flushes|] == BatchesOf(flushes);
    if i == |chain| {
      ProgressEnd(chain, skip, BatchesOf(flushes), []);
    }
  }

  lemma ThrewLast(onExecute: Flush -> Option<Error>, flushes: seq<Flush>, f: Flush, thrown: Option<Error>, n: nat)
    requires Returned(onExecute, flushes)
    requires thrown != None && thrown == onExecute(f)
    ensures StopsAt(onExecute, flushes + [f], thrown, n)
  {
    assert forall k :: 0 <= k < |flushes| ==> (flushes + [f])[k] == flushes[k];
  }

  /** The loop stops because the call for the run ending at node `i` threw
      `thrown`. */
  lemma {:induction false} DriveThrow(chain: seq<Node>, skip: (Node, Node) -> bool, onExecute: Flush -> Option<Error>,
                   input: Stream, output: Stream, st: LoopState, thrown: Option<Error>)
    requires Driving(chain, skip, onExecute, input, output, st)
    requires st.i < |chain| && !(st.i + 1 < |chain| && skip(chain[st.i], chain[st.i + 1]))
    requires thrown != None && thrown == onExecute(FlushOf(st.pending + [chain[st.i]], input, output))
    ensures Ran(chain, skip, onExecute, input, output,
                if st.i + 1 < |chain| then st.asked + [st.i] else st.asked,
                st.flushes + [FlushOf(st.pending + [chain[st.i]], input, output)], thrown)
  {
    var f := FlushOf(st.pending + [chain[st.i]], input, output);
    var all := Batches(chain, skip);
    assert CallsFor(st.flushes + [f], all, input, output)
           && |Flatten(all[..|st.flushes + [f]|])| == st.i + 1 by {
      Flushed(chain, skip, input, output, st.flushes, st.pending, st.i);
      Settled(chain, skip, st.flushes + [f], st.i + 1);
    }
    assert StopsAt(onExecute, st.flushes + [f], thrown, |all|) by {
      ThrewLast(onExecute, st.flushes, f, thrown, |all|);
    }
    var asked := if st.i + 1 < |chain| then st.asked + [st.i] else st.asked;
    assert AskedBefore(asked, st.i + 1, |chain|) by {
      AskedStep(st.asked, st.i, |chain|);
    }
    RanIntro(chain, skip, onExecute, input, output, asked, st.flushes + [f], thrown, st.i + 1);
  }

  lemma RanIntro(chain: seq<Node>, skip: (Node, Node) -> bool, onExecute: Flush -> Option<Error>,
                 input: Stream, output: Stream,
                 asked: seq<nat>, flushes: seq<Flush>, thrown: Option<Error>, n: nat)
    requires CallsFor(flushes, Batches(chain, skip), input, output)
    requires StopsAt(onExecute, flushes, thrown, |Batches(chain, skip)|)
    requires n == |Flatten(Batches(chain, skip)[..|flushes|])| && AskedBefore(asked, n, |chain|)
    ensures Ran(chain, skip, onExecute, input, output, asked, flushes, thrown)
  {
  }

  /** The loop runs off the end of the chain. */
  lemma {:induction false} DriveEnd(chain: seq<Node>, skip: (Node, Node) -> bool, onExecute: Flush -> Option<Error>,
                 input: Stream, output: Stream, st: LoopState)
    requires chain != [] && st.i == |chain|
    requires Driving(chain, skip, onExecute, input, output, st)
    ensures Ran(chain, skip, onExecute, input, output, st.asked, st.flushes, None)
  {
    ProgressEnd(chain, skip, BatchesOf(st.flushes), st.pending);
    Settled(chain, skip, st.flushes, st.i);
  }

  /** What one call of `ExecuteAsync` did: the `ShouldSkipExecute`
      questions asked, the `OnExecuteAsync` calls made and the exception
      rethrown, if any. */
  datatype Execution = Execution(asked: seq<nat>, flushes: seq<Flush>, thrown: Option<Error>)

  /** The rest of the `ExecuteAsync` loop from the loop state `st`, one node
      per step. */
  ghost function Drive(chain: seq<Node>, skip: (Node, Node) -> bool, onExecute: Flush -> Option<Error>,
                       input: Stream, output: Stream, st: LoopState): Execution
    requires st.i <= |chain|
    decreases |chain| - st.i
  {
    if st.i == |chain| then Execution(st.asked, st.flushes, None)
    else
      var asked := if st.i + 1 < |chain| then st.asked + [st.i] else st.asked;
      if st.i + 1 < |chain| && skip(chain[st.i], chain[st.i + 1]) then
        Drive(chain, skip, onExecute, input, output,
              LoopState(st.flushes, st.pending + [chain[st.i]], st.i + 1, asked))
      else
        var call := FlushOf(st.pending + [chain[st.i]], input, output);
        if onExecute(call) != None then Execution(asked, st.flushes + [call], onExecute(call))
        else Drive(chain, skip, onExecute, input, output, LoopState(st.flushes + [call], [], st.i + 1, asked))
  }

  /** From any state satisfying the loop invariant, the rest of the loop
      ends in an execution that keeps the promises of `ExecuteAsync`. */
  lemma {:induction false} DriveRan(chain: seq<Node>, skip: (Node, Node) -> bool, onExecute: Flush -> Option<Error>,
                                    input: Stream, output: Stream, st: LoopState)
    requires chain != [] && st.i <= |chain|
    requires Driving(chain, skip, onExecute, input, output, st)
    ensures var x := Drive(chain, skip, onExecute, input, output, st);
            Ran(chain, skip, onExecute, input, output, x.asked, x.flushes, x.thrown)
    decreases |chain| - st.i
  {
    if st.i == |chain| {
      DriveEnd(chain, skip, onExecute, input, output, st);
    } else if st.i + 1 < |chain| && skip(chain[st.i], chain[st.i + 1]) {
      DriveSkip(chain, skip, onExecute, input, output, st);
      DriveRan(chain, skip, onExecute, input, output,
               LoopState(st.flushes, st.pending + [chain[st.i]], st.i + 1, st.asked + [st.i]));
    } else if onExecute(FlushOf(st.pending + [chain[st.i]], input, output)) != None {
      DriveThrow(chain, skip, onExecute, input, output, st, onExecute(FlushOf(st.pending + [chain[st.i]], input, output)));
    } else {
      DriveFlush(chain, skip, onExecute, input, output, st);
      DriveRan(chain, skip, onExecute, input, output,
               LoopState(st.flushes + [FlushOf(st.pending + [chain[st.i]], input, output)], [], st.i + 1,
                         if st.i + 1 < |chain| then st.asked + [st.i] else st.asked));
    }
  }

  /** `ExecuteAsync(inputStream, outputStream)` of the executer `e`.

      `shouldSkip(current, next)` is what `current.ShouldSkipExecute(next)`
      answers, and `onExecute(f)` is the exception (if any) that the call `f`
      to `OnExecuteAsync` throws. The method returns the indices `i` for which
      `L[i].ShouldSkipExecute(L[i + 1])` was called, in call order, the
      `OnExecuteAsync` calls made, in call order, and the exception that
      `ExecuteAsync` rethrows, if any. */
  method ExecuteAsync(e: Executer, input: Stream, output: Stream,
                      shouldSkip: (Node, Node) -> bool, onExecute: Flush -> Option<Error>)
    returns (asked: seq<nat>, flushes: seq<Flush>, thrown: Option<Error>)
    ensures e.executers == [] ==> asked == [] && flushes == [] && thrown == None
    ensures e.executers != [] ==> Ran(e.executers, shouldSkip, onExecute, input, output, asked, flushes, thrown)
  {
    var executers := e.executers;
    asked, flushes, thrown := [], [], None;
    if |executers| == 0 {
      return;
    }
    var optimizedBuilderList: seq<Node> := [];
    var i := 0;
    ghost var st := LoopState([], [], 0, []);
    ghost var whole := Drive(executers, shouldSkip, onExecute, input, output, st);
    DriveStart(executers, shouldSkip, onExecute, input, output);
    DriveRan(executers, shouldSkip, onExecute, input, output, st);
    while i < |executers|
      invariant i <= |executers|
      invariant st == LoopState(flushes, optimizedBuilderList, i, asked)
      invariant Drive(executers, shouldSkip, onExecute, input, output, st) == whole
    {
      var current := executers[i];
      optimizedBuilderList := optimizedBuilderList + [current];
      if i < |executers| - 1 {
        var next := executers[i + 1];
        asked := asked + [i];
        if shouldSkip(current, next) {
          i := i + 1;
          st := LoopState(flushes, optimizedBuilderList, i, asked);
          continue;
        }
      }
      // ExecuteInternalAsync(current): the pending run, which `current`
      // closes, goes to `current.OnExecuteAsync`; then the run is cleared
      var call := Flush(current, input, output, optimizedBuilderList);
      flushes := flushes + [call];
      optimizedBuilderList := [];
      var outcome := onExecute(call);
      if outcome != None {
        thrown := outcome;
        return;
      }
      i := i + 1;
      st := LoopState(flushes, optimizedBuilderList, i, asked);
    }
  }

  /** A run in which nothing threw executed every batch of the chain once,
      in order: the batches handed over, concatenated, give back the chain;
      there is one call more than there were `false` answers; and
      `ShouldSkipExecute` was asked of every node but the last, in order. */
  lemma {:induction false} RanCompletely(chain: seq<Node>, skip: (Node, Node) -> bool,
                                         onExecute: Flush -> Option<Error>, input: Stream, output: Stream,
                                         asked: seq<nat>, flushes: seq<Flush>)
    requires chain != []
    requires Ran(chain, skip, onExecute, input, output, asked, flushes, None)
    ensures BatchesOf(flushes) == Batches(chain, skip)
    ensures Flatten(BatchesOf(flushes)) == chain
    ensures |flushes| == 1 + Cuts(chain, skip)
    ensures |asked| == |chain| - 1 && forall j :: 0 <= j < |asked| ==> asked[j] == j
  {
    var all := Batches(chain, skip);
    assert BatchesOf(flushes) == all;
    assert all[..|flushes|] == all;
    BatchesFlatten(chain, skip);
    BatchCount(chain, skip);
  }

  /** When every `ShouldSkipExecute` answer is false and nothing throws,
      each node is executed alone, once, in chain order, with the caller's
      streams. */
  lemma {:induction false} RanAlone(chain: seq<Node>, skip: (Node, Node) -> bool,
                                    onExecute: Flush -> Option<Error>, input: Stream, output: Stream,
                                    asked: seq<nat>, flushes: seq<Flush>)
    requires chain != []
    requires forall i :: 0 <= i < |chain| - 1 ==> !skip(chain[i], chain[i + 1])
    requires Ran(chain, skip, onExecute, input, output, asked, flushes, None)
    ensures |flushes| == |chain|
    ensures forall k :: 0 <= k < |chain| ==> flushes[k] == Flush(chain[k], input, output, [chain[k]])
  {
    NoSkipGivesSingletons(chain, skip);
    var all := Batches(chain, skip);
    forall k | 0 <= k < |chain|
      ensures flushes[k] == Flush(chain[k], input, output, [chain[k]])
    {
      assert all[k] == [chain[k]];
      assert flushes[k] == FlushOf(all[k], input, output);
    }
  }

  /** Whatever the answers and whatever is thrown, call `k` hands over the
      `k`-th batch, is made on that batch's last node (so a node whose step
      was merged into the next one is never called), and receives the
      caller's own streams, unchanged. */
  lemma RanCallsBatchEnds(chain: seq<Node>, skip: (Node, Node) -> bool,
                          onExecute: Flush -> Option<Error>, input: Stream, output: Stream,
                          asked: seq<nat>, flushes: seq<Flush>, thrown: Option<Error>)
    requires Ran(chain, skip, onExecute, input, output, asked, flushes, thrown)
    ensures forall k :: 0 <= k < |flushes| ==>
              && flushes[k].batch == Batches(chain, skip)[k]
              && flushes[k].target == Last(flushes[k].batch)
              && flushes[k].input == input && flushes[k].output == output
  {
  }

  /** A three-node chain whose first answer is true and second is false
      runs as two batches: `[a, b]` on `b`, then `[c]` on `c`; `a` is never
      executed on its own, and both questions are asked once, in order. */
  lemma {:induction false} FirstPairMerged(a: Node, b: Node, c: Node, skip: (Node, Node) -> bool,
                                           onExecute: Flush -> Option<Error>, input: Stream, output: Stream,
                                           asked: seq<nat>, flushes: seq<Flush>)
    requires skip(a, b) && !skip(b, c)
    requires Ran([a, b, c], skip, onExecute, input, output, asked, flushes, None)
    ensures asked == [0, 1]
    ensures flushes == [Flush(b, input, output, [a, b]), Flush(c, input, output, [c])]
  {
    var chain := [a, b, c];
    assert Batches(chain, skip) == [[a, b], [c]] by {
      assert chain[1..] == [b, c] && chain[1..][1..] == [c] && chain[1..][1..][1..] == [];
      assert Batches([c], skip) == [[c]];
      assert Batches([b, c], skip) == [[b]] + [[c]];
      assert Batches(chain, skip) == Prepend([a], [[b], [c]]);
      assert [a] + [b] == [a, b];
    }
    RanCompletely(chain, skip, onExecute, input, output, asked, flushes);
  }

  /** When an `OnExecuteAsync` call throws, it is the last call made: the
      exception is that call's, every earlier call returned, and the
      batches after it were never executed. */
  lemma RanStoppedAtThrow(chain: seq<Node>, skip: (Node, Node) -> bool,
                          onExecute: Flush -> Option<Error>, input: Stream, output: Stream,
                          asked: seq<nat>, flushes: seq<Flush>, thrown: Option<Error>)
    requires thrown != None
    requires Ran(chain, skip, onExecute, input, output, asked, flushes, thrown)
    ensures 1 <= |flushes| <= |Batches(chain, skip)|
    ensures thrown == onExecute(flushes[|flushes| - 1])
    ensures forall k :: 0 <= k < |flushes| - 1 ==> onExecute(flushes[k]) == None
    ensures BatchesOf(flushes) == Batches(chain, skip)[..|flushes|]
  {
  }
}
