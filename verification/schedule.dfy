/** The step, checkpoint and termination bookkeeping of the two training
    loops, `Trainer.train` and `AdversarialTrainer.train` in train.py. Both
    loops share this bookkeeping line for line; the tensor work done on each
    batch is opaque here and shows up only as a `Batch` event.

    The loop is modelled as it is written (`Epochs` over `EpochBatches` over
    `Step`), and then compared with `Reference`, a closed form of the same
    schedule. The lemmas at the end state the schedule's promises about the
    closed form and carry them over to `Run`. */
module Schedule {

  /** What the loop depends on: `cfg.n_epochs`, the number of batches the data
      iterator yields per epoch, `cfg.save_steps` and `cfg.total_steps`. The
      config fields are plain Python ints, so every field but the batch count
      may be zero or negative. The iterator is taken to yield the same number
      of batches in every epoch, as a re-iterable data loader does. */
  datatype Plan = Plan(nEpochs: int, batchesPerEpoch: nat, saveSteps: int, totalSteps: int)

  /** What a run does that can be observed. `Batch(k)` is a processed batch,
      numbered by the global step it leaves behind. `Save(k)` is one call of
      `save(k)`, which writes both checkpoint files. `EarlyStop` marks the
      early-termination branch being taken: it comes after the batch that
      triggers it and before that branch's own save. */
  datatype Event = Batch(step: nat) | Save(step: nat) | EarlyStop

  /** The exceptions the bookkeeping itself can raise. */
  datatype Error =
    | ZeroDivision      // `global_step % save_steps` with save_steps == 0
    | UnboundLoopIndex  // `loss_sum/(i+1)` after an epoch that never bound `i`

  datatype Outcome = Returned | Raised(error: Error)

  /** Everything a run did, and how it ended. */
  datatype Trace = Trace(events: seq<Event>, outcome: Outcome)

  /** The state of the inner loop: either it continues with the events so far
      and the current global step, or the function has left (by `return` or
      by an exception) with its final trace. */
  datatype Flow = Continue(events: seq<Event>, globalStep: nat) | Exit(trace: Trace)

  /** The early-termination test. `total_steps` equal to 0 is falsy in Python,
      which switches the test off; the comparison is strict. */
  predicate StopsAfter(p: Plan, g: nat) {
    p.totalSteps != 0 && p.totalSteps < g
  }

  /** A run finishes without an exception: either no epoch runs at all, or
      each epoch has a batch and the save interval can be divided by. */
  predicate Completes(p: Plan) {
    p.nEpochs <= 0 || (p.batchesPerEpoch > 0 && p.saveSteps != 0)
  }

  // ---------------------------------------------------------------------
  // The loop as written
  // ---------------------------------------------------------------------

  /** The bookkeeping after one batch, with `g` the global step before it:
      increment, periodic save, early-termination test. */
  function Step(p: Plan, g: nat): (f: Flow)
    ensures f.Continue? ==> f.globalStep == g + 1
    ensures f.Exit? <==> p.saveSteps == 0 || StopsAfter(p, g + 1)
  {
    var k := g + 1;
    if p.saveSteps == 0 then
      Exit(Trace([Batch(k)], Raised(ZeroDivision)))
    else
      var periodic := if k % p.saveSteps == 0 then [Save(k)] else [];
      if StopsAfter(p, k) then
        Exit(Trace([Batch(k)] + periodic + [EarlyStop, Save(k)], Returned))
      else
        Continue([Batch(k)] + periodic, k)
  }

  /** Puts events in front of a flow. */
  function Prepend(events: seq<Event>, f: Flow): Flow {
    match f
    case Continue(rest, g) => Continue(events + rest, g)
    case Exit(t) => Exit(Trace(events + t.events, t.outcome))
  }

  /** The inner loop over batches `i`, `i+1`, ... of one epoch, starting at
      global step `g`. */
  function EpochBatches(p: Plan, i: nat, g: nat): (f: Flow)
    requires i <= p.batchesPerEpoch
    ensures f.Continue? ==> f.globalStep == g + (p.batchesPerEpoch - i)
    decreases p.batchesPerEpoch - i
  {
    if i == p.batchesPerEpoch then
      Continue([], g)
    else
      match Step(p, g)
      case Exit(t) => Exit(t)
      case Continue(events, g') => Prepend(events, EpochBatches(p, i + 1, g'))
  }

  /** The outer loop over epochs `e`, `e+1`, ..., starting at global step `g`,
      followed by the final save. */
  function Epochs(p: Plan, e: nat, g: nat): Trace
    decreases p.nEpochs - e
  {
    if p.nEpochs <= e then
      Trace([Save(g)], Returned)
    else
      match EpochBatches(p, 0, g)
      case Exit(t) => t
      case Continue(events, g') =>
        if p.batchesPerEpoch == 0 then
          Trace(events, Raised(UnboundLoopIndex))
        else
          var rest := Epochs(p, e + 1, g');
          Trace(events + rest.events, rest.outcome)
  }

  /** A whole training run: the global step starts at 0. */
  function Run(p: Plan): Trace {
    Epochs(p, 0, 0)
  }

  // ---------------------------------------------------------------------
  // The same schedule in closed form
  // ---------------------------------------------------------------------

  /** The number of batches the epochs offer (`range` of a non-positive count
      is empty). */
  function Available(p: Plan): nat {
    if p.nEpochs <= 0 then 0 else p.nEpochs * p.batchesPerEpoch
  }

  /** The first global step at which the early-termination test fires, when
      it is switched on: one past `total_steps`, and at once for a negative
      `total_steps`. */
  function StopStep(p: Plan): (k: nat)
    ensures k >= 1
    ensures forall g: nat {:trigger StopsAfter(p, g)} :: 1 <= g ==> (StopsAfter(p, g) <==> p.totalSteps != 0 && k <= g)
  {
    if p.totalSteps < 0 then 1 else p.totalSteps + 1
  }

  /** The run ends through the early-termination branch. */
  predicate StopsEarly(p: Plan) {
    p.nEpochs > 0 && p.totalSteps != 0 && StopStep(p) <= Available(p)
  }

  /** The number of batches a run processes. */
  function Processed(p: Plan): nat {
    if p.nEpochs <= 0 || p.batchesPerEpoch == 0 then 0
    else if p.saveSteps == 0 then 1
    else if StopsEarly(p) then StopStep(p)
    else Available(p)
  }

  /** The periodic save fires after the batch that leaves global step `k`. */
  predicate Periodic(p: Plan, k: nat) {
    p.saveSteps != 0 && k % p.saveSteps == 0
  }

  /** The events of the batch that leaves global step `k`, when no exception
      and no early termination follows it. */
  function BatchEvents(p: Plan, k: nat): seq<Event> {
    [Batch(k)] + (if Periodic(p, k) then [Save(k)] else [])
  }

  /** The events of the first `k` batches. */
  function Prefix(p: Plan, k: nat): seq<Event> {
    if k == 0 then [] else Prefix(p, k - 1) + BatchEvents(p, k)
  }

  /** The events after the last batch of a completed run. */
  function Tail(p: Plan): seq<Event> {
    (if StopsEarly(p) then [EarlyStop] else []) + [Save(Processed(p))]
  }

  /** The closed form of a run. */
  function Reference(p: Plan): Trace {
    if p.nEpochs > 0 && p.batchesPerEpoch == 0 then Trace([], Raised(UnboundLoopIndex))
    else if p.nEpochs > 0 && p.saveSteps == 0 then Trace([Batch(1)], Raised(ZeroDivision))
    else Trace(Prefix(p, Processed(p)) + Tail(p), Returned)
  }

  // ---------------------------------------------------------------------
  // The loop meets its closed form
  // ---------------------------------------------------------------------

  /** One step of the loop, for a divisible save interval, in terms of
      `BatchEvents`. */
  lemma StepShape(p: Plan, g: nat)
    requires p.saveSteps != 0
    ensures Step(p, g) ==
            if StopsAfter(p, g + 1) then Exit(Trace(BatchEvents(p, g + 1) + [EarlyStop, Save(g + 1)], Returned))
            else Continue(BatchEvents(p, g + 1), g + 1)
  {
  }

  /** The inner loop, run from batch `i` at global step `g` before the
      early-termination step, produces the next batches of `Prefix` and stops
      exactly when it reaches the early-termination step. */
  lemma {:induction false} EpochBatchesFollowPrefix(p: Plan, i: nat, g: nat)
    requires p.saveSteps != 0 && i <= p.batchesPerEpoch
    requires p.totalSteps == 0 || g < StopStep(p)
    ensures var f := EpochBatches(p, i, g);
            var m := p.batchesPerEpoch - i;
            && (f.Exit? <==> p.totalSteps != 0 && StopStep(p) <= g + m)
            && (f.Continue? ==> Prefix(p, g) + f.events == Prefix(p, g + m))
            && (f.Exit? ==> f.trace.outcome == Returned)
            && (f.Exit? ==> Prefix(p, g) + f.trace.events == Prefix(p, StopStep(p)) + [EarlyStop, Save(StopStep(p))])
    decreases p.batchesPerEpoch - i
  {
    if i == p.batchesPerEpoch {
      assert Prefix(p, g) + [] == Prefix(p, g);
    } else {
      var k := g + 1;
      var here := BatchEvents(p, k);
      StepShape(p, g);
      if StopsAfter(p, k) {
        StopBranch(p, g);
      } else {
        EpochBatchesFollowPrefix(p, i + 1, k);
        var rest := EpochBatches(p, i + 1, k);
        assert EpochBatches(p, i, g) == Prepend(here, rest);
        PrependFollowsPrefix(p, g, rest);
      }
    }
  }

  /** The batch that triggers early termination completes the prefix. */
  lemma StopBranch(p: Plan, g: nat)
    requires p.saveSteps != 0 && StopsAfter(p, g + 1)
    ensures Prefix(p, g) + (BatchEvents(p, g + 1) + [EarlyStop, Save(g + 1)]) ==
            Prefix(p, g + 1) + [EarlyStop, Save(g + 1)]
  {
    assert Prefix(p, g + 1) == Prefix(p, g) + BatchEvents(p, g + 1);
  }

  /** Putting one batch's events in front of the rest of the loop extends the
      prefix by that batch. */
  lemma PrependFollowsPrefix(p: Plan, g: nat, rest: Flow)
    requires p.saveSteps != 0
    ensures var f := Prepend(BatchEvents(p, g + 1), rest);
            && (f.Continue? ==> rest.Continue? && Prefix(p, g) + f.events == Prefix(p, g + 1) + rest.events)
            && (f.Exit? ==> rest.Exit? && f.trace.outcome == rest.trace.outcome)
            && (f.Exit? ==> Prefix(p, g) + f.trace.events == Prefix(p, g + 1) + rest.trace.events)
  {
    var here := BatchEvents(p, g + 1);
    assert Prefix(p, g + 1) == Prefix(p, g) + here;
    if rest.Continue? {
      assert Prefix(p, g) + (here + rest.events) == Prefix(p, g + 1) + rest.events;
    } else {
      assert Prefix(p, g) + (here + rest.trace.events) == Prefix(p, g + 1) + rest.trace.events;
    }
  }

  /** One more epoch adds one epoch's batches and stays within the plan. */
  lemma MulStep(e: nat, b: nat, n: int)
    requires e < n
    ensures (e + 1) * b == e * b + b
    ensures (e + 1) * b <= n * b
  {
  }

  /** The outer loop, entered at epoch `e` with `e` full epochs behind it and
      before the early-termination step, ends as the closed form says. */
  lemma {:induction false} EpochsFollowReference(p: Plan, e: nat, g: nat)
    requires p.nEpochs > 0 && p.batchesPerEpoch > 0 && p.saveSteps != 0
    requires e <= p.nEpochs && g == e * p.batchesPerEpoch
    requires p.totalSteps == 0 || g < StopStep(p)
    ensures Epochs(p, e, g).outcome == Returned
    ensures Prefix(p, g) + Epochs(p, e, g).events == Prefix(p, Processed(p)) + Tail(p)
    decreases p.nEpochs - e
  {
    if p.nEpochs <= e {
      assert g == Available(p);
      assert !StopsEarly(p);
    } else {
      var b := p.batchesPerEpoch;
      MulStep(e, b, p.nEpochs);
      EpochBatchesFollowPrefix(p, 0, g);
      var f := EpochBatches(p, 0, g);
      if f.Exit? {
        assert StopsEarly(p);
        assert Tail(p) == [EarlyStop, Save(StopStep(p))];
      } else {
        var g' := f.globalStep;
        assert g' == (e + 1) * b;
        EpochsFollowReference(p, e + 1, g');
        var rest := Epochs(p, e + 1, g');
        assert Epochs(p, e, g).events == f.events + rest.events;
        assert Prefix(p, g) + (f.events + rest.events) == Prefix(p, g') + rest.events;
      }
    }
  }

  /** The loop as written and the closed form agree on every plan. */
  lemma RunIsReference(p: Plan)
    ensures Run(p) == Reference(p)
  {
    if p.nEpochs <= 0 {
      assert Tail(p) == [Save(0)];
    } else if p.batchesPerEpoch == 0 {
      assert EpochBatches(p, 0, 0) == Continue([], 0);
    } else if p.saveSteps == 0 {
      assert EpochBatches(p, 0, 0) == Exit(Trace([Batch(1)], Raised(ZeroDivision)));
    } else {
      EpochsFollowReference(p, 0, 0);
      assert Prefix(p, 0) == [];
      assert Run(p).events == [] + Run(p).events;
    }
  }

  /** A completed run is its batches' events followed by its tail. */
  lemma CompletedRun(p: Plan)
    requires Completes(p)
    ensures Run(p) == Trace(Prefix(p, Processed(p)) + Tail(p), Returned)
  {
    RunIsReference(p);
  }

  // ---------------------------------------------------------------------
  // Views of a trace
  // ---------------------------------------------------------------------

  /** The global steps of the processed batches, in order. */
  function BatchSteps(events: seq<Event>): seq<nat> {
    if events == [] then []
    else (if events[0].Batch? then [events[0].step] else []) + BatchSteps(events[1..])
  }

  /** The arguments of the `save` calls, in order. */
  function SavedSteps(events: seq<Event>): seq<nat> {
    if events == [] then []
    else (if events[0].Save? then [events[0].step] else []) + SavedSteps(events[1..])
  }

  /** Both views distribute over concatenation. */
  lemma {:induction false} StepsDistribute(a: seq<Event>, b: seq<Event>)
    ensures BatchSteps(a + b) == BatchSteps(a) + BatchSteps(b)
    ensures SavedSteps(a + b) == SavedSteps(a) + SavedSteps(b)
    decreases |a|
  {
    if a == [] {
      assert a + b == b;
    } else {
      assert (a + b)[1..] == a[1..] + b;
      StepsDistribute(a[1..], b);
    }
  }

  /** The views of a single event. */
  lemma SingleViews(e: Event)
    ensures BatchSteps([e]) == if e.Batch? then [e.step] else []
    ensures SavedSteps([e]) == if e.Save? then [e.step] else []
  {
    assert [e][1..] == [];
  }

  /** The views of one batch's events. */
  lemma BatchEventsViews(p: Plan, k: nat)
    ensures BatchSteps(BatchEvents(p, k)) == [k]
    ensures SavedSteps(BatchEvents(p, k)) == if Periodic(p, k) then [k] else []
  {
    SingleViews(Batch(k));
    SingleViews(Save(k));
    StepsDistribute([Batch(k)], if Periodic(p, k) then [Save(k)] else []);
  }

  /** The views of a completed run's tail: no batch, one save. */
  lemma TailViews(p: Plan)
    ensures BatchSteps(Tail(p)) == []
    ensures SavedSteps(Tail(p)) == [Processed(p)]
  {
    SingleViews(EarlyStop);
    SingleViews(Save(Processed(p)));
    StepsDistribute(if StopsEarly(p) then [EarlyStop] else [], [Save(Processed(p))]);
  }

  /** Each element is at most every later one. */
  ghost predicate Nondecreasing(s: seq<nat>) {
    forall i, j :: 0 <= i < j < |s| ==> s[i] <= s[j]
  }

  /** The batches of `Prefix(p, k)` are numbered 1 to k. */
  lemma {:induction false} PrefixBatches(p: Plan, k: nat)
    ensures var bs := BatchSteps(Prefix(p, k));
            |bs| == k && forall j :: 0 <= j < k ==> bs[j] == j + 1
  {
    if k > 0 {
      PrefixBatches(p, k - 1);
      StepsDistribute(Prefix(p, k - 1), BatchEvents(p, k));
      BatchEventsViews(p, k);
    }
  }

  /** Each element is smaller than every later one. */
  ghost predicate Increasing(s: seq<nat>) {
    forall i, j :: 0 <= i < j < |s| ==> s[i] < s[j]
  }

  /** Appending a step larger than every earlier one keeps the strict order. */
  lemma AppendIncreasing(s: seq<nat>, x: nat)
    requires Increasing(s)
    requires forall j :: 0 <= j < |s| ==> s[j] < x
    ensures Increasing(s + [x])
  {
  }

  /** Appending a step no smaller than every earlier one keeps the order. */
  lemma AppendNondecreasing(s: seq<nat>, x: nat)
    requires Nondecreasing(s)
    requires forall j :: 0 <= j < |s| ==> s[j] <= x
    ensures Nondecreasing(s + [x])
  {
  }

  /** The saves of `Prefix(p, k)` are the periodic steps up to k, in
      strictly increasing order, so no step is saved twice mid-loop. */
  lemma {:induction false} PrefixSaves(p: Plan, k: nat)
    ensures var ss := SavedSteps(Prefix(p, k));
            && Increasing(ss)
            && (forall j :: 0 <= j < |ss| ==> 1 <= ss[j] <= k)
            && (forall s: nat :: s in ss <==> 1 <= s <= k && Periodic(p, s))
  {
    if k > 0 {
      PrefixSaves(p, k - 1);
      var before := SavedSteps(Prefix(p, k - 1));
      StepsDistribute(Prefix(p, k - 1), BatchEvents(p, k));
      BatchEventsViews(p, k);
      if Periodic(p, k) {
        assert SavedSteps(Prefix(p, k)) == before + [k];
        AppendIncreasing(before, k);
      } else {
        assert SavedSteps(Prefix(p, k)) == before + [];
      }
    }
  }

  /** A prefix holds no early-termination mark, and `Save(s)` is among its
      events exactly when `s` is among its saved steps. */
  lemma {:induction false} PrefixEvents(p: Plan, k: nat)
    ensures forall j :: 0 <= j < |Prefix(p, k)| ==> Prefix(p, k)[j] != EarlyStop
    ensures forall s :: Save(s) in Prefix(p, k) <==> s in SavedSteps(Prefix(p, k))
  {
    if k > 0 {
      PrefixEvents(p, k - 1);
      StepsDistribute(Prefix(p, k - 1), BatchEvents(p, k));
      BatchEventsViews(p, k);
      var here := BatchEvents(p, k);
      forall s ensures Save(s) in Prefix(p, k) <==> s in SavedSteps(Prefix(p, k)) {
        assert Save(s) in Prefix(p, k) <==> Save(s) in Prefix(p, k - 1) || Save(s) in here;
      }
    }
  }

  // ---------------------------------------------------------------------
  // The promises of the schedule
  // ---------------------------------------------------------------------

  /** How a run ends: it returns normally exactly for the completing plans;
      a zero save interval raises right after the first batch, and an empty
      data iterator raises at the end of the first epoch, before any batch. */
  lemma RunOutcome(p: Plan)
    ensures Run(p).outcome == Returned <==> Completes(p)
    ensures Run(p).outcome == Raised(ZeroDivision) <==> p.nEpochs > 0 && p.batchesPerEpoch > 0 && p.saveSteps == 0
    ensures Run(p).outcome == Raised(ZeroDivision) ==> Run(p).events == [Batch(1)]
    ensures Run(p).outcome == Raised(UnboundLoopIndex) <==> p.nEpochs > 0 && p.batchesPerEpoch == 0
    ensures Run(p).outcome == Raised(UnboundLoopIndex) ==> Run(p).events == []
  {
    RunIsReference(p);
  }

  /** The global step starts at 0 and rises by exactly one per processed
      batch: the j-th batch of any run leaves global step j + 1. */
  lemma GlobalStepCountsBatches(p: Plan)
    ensures var bs := BatchSteps(Run(p).events);
            |bs| == Processed(p) && forall j :: 0 <= j < |bs| ==> bs[j] == j + 1
  {
    RunIsReference(p);
    if p.nEpochs > 0 && p.batchesPerEpoch == 0 {
    } else if p.nEpochs > 0 && p.saveSteps == 0 {
      SingleViews(Batch(1));
    } else {
      var k := Processed(p);
      PrefixBatches(p, k);
      StepsDistribute(Prefix(p, k), Tail(p));
      TailViews(p);
      assert BatchSteps(Run(p).events) == BatchSteps(Prefix(p, k)) + [];
    }
  }

  /** The smaller of two integers. */
  function Min(a: int, b: int): int {
    if a <= b then a else b
  }

  /** How many batches a completed run processes. With `total_steps` set to
      a positive value the run stops after `total_steps + 1` batches (the test
      is strict), unless the epochs run out first; `total_steps == 0` switches
      the limit off; a negative `total_steps` stops after the first batch. */
  lemma BatchBudget(p: Plan)
    requires Completes(p)
    ensures var n := |BatchSteps(Run(p).events)|;
            && (p.totalSteps == 0 ==> n == Available(p))
            && (p.totalSteps > 0 ==> n == Min(Available(p), p.totalSteps + 1))
            && (p.totalSteps < 0 ==> n == Min(Available(p), 1))
  {
    GlobalStepCountsBatches(p);
  }

  /** `save(k)` is called in a completed run exactly when k is a positive
      multiple of the save interval no larger than the number of processed
      batches, or k is the final global step. */
  lemma SaveIff(p: Plan, k: nat)
    requires Completes(p)
    ensures Save(k) in Run(p).events <==>
              || (p.saveSteps != 0 && 1 <= k <= Processed(p) && k % p.saveSteps == 0)
              || k == Processed(p)
  {
    CompletedRun(p);
    var n := Processed(p);
    PrefixSaves(p, n);
    PrefixEvents(p, n);
    assert Save(k) in Tail(p) <==> k == n;
    assert Save(k) in Run(p).events <==> Save(k) in Prefix(p, n) || Save(k) in Tail(p);
  }

  /** Every completed run ends with `save` of its final global step; the
      early-termination mark appears exactly when the run stops early, and
      then only that final save follows it, so no batch comes after it. */
  lemma EndsWithFinalSave(p: Plan)
    requires Completes(p)
    ensures var ev := Run(p).events;
            && |ev| > 0 && ev[|ev| - 1] == Save(Processed(p))
            && (EarlyStop in ev <==> StopsEarly(p))
            && forall i :: 0 <= i < |ev| && ev[i] == EarlyStop ==> i == |ev| - 2
  {
    CompletedRun(p);
    var n := Processed(p);
    PrefixEvents(p, n);
    var pre := Prefix(p, n);
    var ev := Run(p).events;
    assert forall i :: 0 <= i < |pre| ==> ev[i] == pre[i];
    assert forall i :: |pre| <= i < |ev| ==> ev[i] == Tail(p)[i - |pre|];
    assert EarlyStop in ev <==> EarlyStop in pre || EarlyStop in Tail(p);
  }

  /** The saved global steps of any run never decrease. */
  lemma SavesNondecreasing(p: Plan)
    ensures Nondecreasing(SavedSteps(Run(p).events))
  {
    RunIsReference(p);
    if p.nEpochs > 0 && p.batchesPerEpoch == 0 {
    } else if p.nEpochs > 0 && p.saveSteps == 0 {
      SingleViews(Batch(1));
    } else {
      var n := Processed(p);
      PrefixSaves(p, n);
      StepsDistribute(Prefix(p, n), Tail(p));
      TailViews(p);
      AppendNondecreasing(SavedSteps(Prefix(p, n)), n);
    }
  }

  /** The same global step is saved twice in a row, once by the periodic
      save and once by the final (or early-termination) save, exactly when
      the run processed at least one batch and its final step is a multiple
      of the save interval. */
  lemma DoubleFinalSave(p: Plan)
    requires Completes(p)
    ensures var ss := SavedSteps(Run(p).events);
            (|ss| >= 2 && ss[|ss| - 2] == ss[|ss| - 1]) <==> Processed(p) >= 1 && Periodic(p, Processed(p))
  {
    CompletedRun(p);
    var n := Processed(p);
    PrefixSaves(p, n);
    StepsDistribute(Prefix(p, n), Tail(p));
    TailViews(p);
    var pre := SavedSteps(Prefix(p, n));
    var ss := pre + [n];
    assert SavedSteps(Run(p).events) == ss;
    if n >= 1 && Periodic(p, n) {
      assert n in pre;
      var i :| 0 <= i < |pre| && pre[i] == n;
      assert pre[|pre| - 1] == n;
    } else if |pre| > 0 {
      assert pre[|pre| - 1] in pre;
    }
  }

  /** Appending a bound to a strictly increasing sequence below it: a value
      can occur twice only as the last two elements. */
  lemma RepeatOnlyAtEnd(s: seq<nat>, x: nat)
    requires Increasing(s)
    requires forall j :: 0 <= j < |s| ==> s[j] <= x
    ensures var t := s + [x];
            forall i, j :: 0 <= i < j < |t| && t[i] == t[j] ==> j == |t| - 1 && i == |t| - 2
  {
    var t := s + [x];
    assert forall i, j :: 0 <= i < j < |s| ==> t[i] < t[j];
    assert forall i :: 0 <= i < |s| - 1 ==> t[i] < t[|s| - 1] <= x;
  }

  /** In a completed run no step is saved twice, except that the final save
      may repeat the one just before it. */
  lemma OnlyFinalSaveRepeats(p: Plan)
    requires Completes(p)
    ensures var ss := SavedSteps(Run(p).events);
            forall i, j :: 0 <= i < j < |ss| && ss[i] == ss[j] ==> j == |ss| - 1 && i == |ss| - 2
  {
    CompletedRun(p);
    var n := Processed(p);
    PrefixSaves(p, n);
    StepsDistribute(Prefix(p, n), Tail(p));
    TailViews(p);
    var pre := SavedSteps(Prefix(p, n));
    var ss := SavedSteps(Run(p).events);
    assert ss == pre + [n];
    RepeatOnlyAtEnd(pre, n);
  }

  // ---------------------------------------------------------------------
  // Worked examples
  // ---------------------------------------------------------------------

  /** One epoch of three batches, saving every step with `total_steps` 3:
      three batches, three periodic saves, and the final save repeats step 3;
      the strict test never fires. */
  lemma ThreeBatchScenario()
    ensures Run(Plan(1, 3, 1, 3)) ==
            Trace([Batch(1), Save(1), Batch(2), Save(2), Batch(3), Save(3), Save(3)], Returned)
  {
    var p := Plan(1, 3, 1, 3);
    CompletedRun(p);
    assert Processed(p) == 3;
    assert Prefix(p, 3) == [Batch(1), Save(1), Batch(2), Save(2), Batch(3), Save(3)];
  }

  /** With more batches available the same budget runs a fourth batch before
      stopping: the test `total_steps < global_step` is strict. */
  lemma StrictBudgetRunsOneMore()
    ensures Run(Plan(1, 5, 1, 3)) ==
            Trace([Batch(1), Save(1), Batch(2), Save(2), Batch(3), Save(3), Batch(4), Save(4), EarlyStop, Save(4)], Returned)
  {
    var p := Plan(1, 5, 1, 3);
    CompletedRun(p);
    assert Processed(p) == 4;
    assert Prefix(p, 4) == [Batch(1), Save(1), Batch(2), Save(2), Batch(3), Save(3), Batch(4), Save(4)];
  }
}
