/** Sequences of per-epoch calls on one monitor, and the invariants that hold
    across them. */
module StoppingRuns {
  import opened Results
  import opened EarlyStopping

  /** The arguments of one call: the epoch and the named metric values. */
  datatype Call = Call(epoch: int, values: map<string, real>)

  /** The state in force before call `i` of a run that started in `st`. */
  function Before(st: State, outs: seq<Outcome>, i: nat): State
    requires i <= |outs|
  {
    if i == 0 then st else outs[i - 1].next
  }

  /** The state after a run that started in `st`. */
  function Final(st: State, outs: seq<Outcome>): State
  {
    Before(st, outs, |outs|)
  }

  /** Applies the calls in order. The first error propagates, as the
      exception does to the training loop, so a run is accepted exactly when
      every call is. */
  function Run(cfg: Config, st: State, calls: seq<Call>): (r: Result<seq<Outcome>, Error>)
    ensures r.Ok? ==> |r.value| == |calls|
    ensures r.Ok? <==> forall i | 0 <= i < |calls| :: ValidCall(cfg, calls[i].values)
    decreases |calls|
  {
    if calls == [] then Ok([])
    else
      match Step(cfg, st, calls[0].epoch, calls[0].values)
      case Err(e) => Err(e)
      case Ok(o) =>
        match Run(cfg, o.next, calls[1..])
        case Err(e) =>
          assert exists i | 0 <= i < |calls| :: !ValidCall(cfg, calls[i].values) by {
            var j :| 0 <= j < |calls[1..]| && !ValidCall(cfg, calls[1..][j].values);
            assert calls[j + 1] == calls[1..][j];
          }
          Err(e)
        case Ok(os) =>
          assert forall i | 0 <= i < |calls| :: ValidCall(cfg, calls[i].values) by {
            forall i | 0 < i < |calls| ensures ValidCall(cfg, calls[i].values) {
              assert calls[i] == calls[1..][i - 1];
            }
          }
          Ok([o] + os)
  }

  /** A non-empty accepted run is its first step followed by the run of the
      remaining calls from the state that step left. */
  lemma RunUnfold(cfg: Config, st: State, calls: seq<Call>)
    requires calls != []
    requires Run(cfg, st, calls).Ok?
    ensures var outs := Run(cfg, st, calls).value;
      && Step(cfg, st, calls[0].epoch, calls[0].values) == Ok(outs[0])
      && Run(cfg, outs[0].next, calls[1..]) == Ok(outs[1..])
  {
  }

  /** The converse: an accepted first step followed by the accepted run of
      the remaining calls from the state it left is the run of all calls. */
  lemma RunCons(cfg: Config, st: State, calls: seq<Call>, outs: seq<Outcome>)
    requires calls != [] && |outs| == |calls|
    requires Step(cfg, st, calls[0].epoch, calls[0].values) == Ok(outs[0])
    requires Run(cfg, outs[0].next, calls[1..]) == Ok(outs[1..])
    ensures Run(cfg, st, calls) == Ok(outs)
  {
    assert [outs[0]] + outs[1..] == outs;
  }

  /** An accepted run is a chain of steps: call `i` is applied to the state
      that call `i - 1` left. */
  lemma {:induction false} RunChains(cfg: Config, st: State, calls: seq<Call>)
    requires Run(cfg, st, calls).Ok?
    ensures var outs := Run(cfg, st, calls).value;
      forall i {:trigger calls[i]} | 0 <= i < |calls| ::
        Step(cfg, Before(st, outs, i), calls[i].epoch, calls[i].values) == Ok(outs[i])
    decreases |calls|
  {
    if calls != [] {
      var outs := Run(cfg, st, calls).value;
      RunUnfold(cfg, st, calls);
      RunChains(cfg, outs[0].next, calls[1..]);
      forall i | 0 < i < |calls|
        ensures Step(cfg, Before(st, outs, i), calls[i].epoch, calls[i].values) == Ok(outs[i])
      {
        assert calls[i] == calls[1..][i - 1];
        assert outs[i] == outs[1..][i - 1];
        assert Before(st, outs, i) == Before(outs[0].next, outs[1..], i - 1);
      }
    }
  }

  /** Number of calls that did not improve (the ones without a save). */
  function Stalls(outs: seq<Outcome>): nat
  {
    if outs == [] then 0
    else Stalls(outs[..|outs| - 1]) + (if outs[|outs| - 1].save then 0 else 1)
  }

  /** The index of the last call that requested a save, if any. */
  function LastSave(outs: seq<Outcome>): (k: Option<nat>)
    ensures k.Some? ==> k.value < |outs| && outs[k.value].save
    ensures k.Some? ==> forall j | k.value < j < |outs| :: !outs[j].save
    ensures k.None? ==> forall j | 0 <= j < |outs| :: !outs[j].save
  {
    if outs == [] then None
    else if outs[|outs| - 1].save then Some(|outs| - 1)
    else LastSave(outs[..|outs| - 1])
  }

  /** The bookkeeping shape every reachable state keeps: one best entry per
      metric, either all unset with no best epoch or all set with one. */
  predicate Consistent(cfg: Config, st: State)
  {
    && |st.best| == |cfg.metrics|
    && (|| ((forall i | 0 <= i < |st.best| :: st.best[i].None?) && st.bestEpoch.None?)
        || ((forall i | 0 <= i < |st.best| :: st.best[i].Some?) && st.bestEpoch.Some?))
  }

  /** The flag mirrors the counter: set exactly when the counter has reached
      patience. */
  predicate StopMatchesCounter(cfg: Config, st: State)
  {
    st.earlyStop <==> st.counter >= cfg.patience
  }

  /** `outs` answers `calls` step by step: each outcome is the step of its
      call from the state the previous outcome left, starting in `st`. */
  predicate Chain(cfg: Config, st: State, calls: seq<Call>, outs: seq<Outcome>)
    decreases |calls|
  {
    && |outs| == |calls|
    && (calls != [] ==>
          && Step(cfg, st, calls[0].epoch, calls[0].values) == Ok(outs[0])
          && Chain(cfg, outs[0].next, calls[1..], outs[1..]))
  }

  /** The converse of `RunChains`: outcomes that answer the calls step by
      step are what the run yields. */
  lemma {:induction false} ChainIsRun(cfg: Config, st: State, calls: seq<Call>, outs: seq<Outcome>)
    requires Chain(cfg, st, calls, outs)
    ensures Run(cfg, st, calls) == Ok(outs)
    decreases |calls|
  {
    if calls != [] {
      ChainIsRun(cfg, outs[0].next, calls[1..], outs[1..]);
      RunCons(cfg, st, calls, outs);
    }
  }

  /** And every accepted run answers its calls step by step, so a run
      yields `outs` exactly when `outs` chains. */
  lemma {:induction false} RunIsChain(cfg: Config, st: State, calls: seq<Call>)
    requires Run(cfg, st, calls).Ok?
    ensures Chain(cfg, st, calls, Run(cfg, st, calls).value)
    decreases |calls|
  {
    if calls != [] {
      var outs := Run(cfg, st, calls).value;
      RunUnfold(cfg, st, calls);
      RunIsChain(cfg, outs[0].next, calls[1..]);
    }
  }

  // ---------------------------------------------------------------------
  // Construction and the first call

  /** A freshly built monitor is consistent, and its first accepted call
      records the baseline whatever the values, requests a save, and
      returns nothing. */
  lemma FirstCallRecordsBaseline(path: string, patience: int, verbose: bool, delta: real,
                                 dirs: seq<(string, string)>, epoch: int, values: map<string, real>)
    requires Create(path, patience, verbose, delta, dirs).Ok?
    ensures var m := Create(path, patience, verbose, delta, dirs).value;
      Consistent(m.cfg, m.st)
      && (ValidCall(m.cfg, values) ==>
            var r := Step(m.cfg, m.st, epoch, values);
            r.Ok? && r.value.save && r.value.ret == None
            && Adopts(m.cfg, r.value.next.best, values) && r.value.next.bestEpoch == Some(epoch)
            && r.value.next.counter == 0 && !r.value.next.earlyStop)
  {
    var m := Create(path, patience, verbose, delta, dirs).value;
    assert m.st.best[0].None?;
  }

  // ---------------------------------------------------------------------
  // One step

  /** A save is requested exactly when the best tuple is reassigned: a step
      that saves records the call's values and epoch, and a step whose best
      tuple or best epoch differs from before has saved. */
  lemma SaveIffBestReassigned(cfg: Config, st: State, epoch: int, values: map<string, real>)
    requires Step(cfg, st, epoch, values).Ok?
    ensures var o := Step(cfg, st, epoch, values).value;
      (o.save <==> Adopts(cfg, o.next.best, values) && o.next.bestEpoch == Some(epoch)
                   && (HasUnset(st.best) || Improves(cfg, st.best, values)))
      && (o.next.best != st.best || o.next.bestEpoch != st.bestEpoch ==> o.save)
  {
  }

  /** The bookkeeping one accepted step does, stated without the metric
      comparison: a save records the call, anything else counts a stall. */
  predicate Bookkeeps(cfg: Config, st: State, call: Call, o: Outcome)
  {
    && (o.save ==>
          && Adopts(cfg, o.next.best, call.values)
          && o.next.bestEpoch == Some(call.epoch)
          && o.next.counter == st.counter
          && o.next.earlyStop == st.earlyStop)
    && (!o.save ==>
          && o.next.best == st.best
          && o.next.bestEpoch == st.bestEpoch
          && o.next.counter == st.counter + 1
          && (o.next.earlyStop <==> st.earlyStop || o.next.counter >= cfg.patience))
  }

  /** Every accepted step does that bookkeeping. */
  lemma StepBookkeeps(cfg: Config, st: State, call: Call)
    requires Step(cfg, st, call.epoch, call.values).Ok?
    ensures Bookkeeps(cfg, st, call, Step(cfg, st, call.epoch, call.values).value)
  {
  }

  // ---------------------------------------------------------------------
  // Traces: any sequence of outcomes in which each step bookkeeps

  /** `outs` answers `calls` one by one, each doing one step's bookkeeping. */
  predicate Trace(cfg: Config, st: State, calls: seq<Call>, outs: seq<Outcome>)
  {
    && |outs| == |calls|
    && forall i {:trigger calls[i]} | 0 <= i < |outs| :: Bookkeeps(cfg, Before(st, outs, i), calls[i], outs[i])
  }

  /** Every accepted run is a trace. */
  lemma RunIsTrace(cfg: Config, st: State, calls: seq<Call>)
    requires Run(cfg, st, calls).Ok?
    ensures Trace(cfg, st, calls, Run(cfg, st, calls).value)
  {
    var outs := Run(cfg, st, calls).value;
    RunChains(cfg, st, calls);
    forall i | 0 <= i < |outs|
      ensures Bookkeeps(cfg, Before(st, outs, i), calls[i], outs[i])
    {
      StepBookkeeps(cfg, Before(st, outs, i), calls[i]);
    }
  }

  /** Along a trace the flag stays set and the counter never decreases. */
  lemma {:induction false} TraceMonotone(cfg: Config, st: State, calls: seq<Call>, outs: seq<Outcome>, i: nat, j: nat)
    requires Trace(cfg, st, calls, outs)
    requires i <= j <= |outs|
    ensures Before(st, outs, i).earlyStop ==> Before(st, outs, j).earlyStop
    ensures Before(st, outs, i).counter <= Before(st, outs, j).counter
    decreases j
  {
    if i < j {
      TraceMonotone(cfg, st, calls, outs, i, j - 1);
      assert Bookkeeps(cfg, Before(st, outs, j - 1), calls[j - 1], outs[j - 1]);
    }
  }

  /** The counter after `j` steps counts the stalls among them. */
  lemma {:induction false} TraceCounter(cfg: Config, st: State, calls: seq<Call>, outs: seq<Outcome>, j: nat)
    requires Trace(cfg, st, calls, outs)
    requires j <= |outs|
    ensures Before(st, outs, j).counter == st.counter + Stalls(outs[..j])
    decreases j
  {
    if j > 0 {
      TraceCounter(cfg, st, calls, outs, j - 1);
      assert Bookkeeps(cfg, Before(st, outs, j - 1), calls[j - 1], outs[j - 1]);
      assert outs[..j][..j - 1] == outs[..j - 1];
    }
  }

  /** Consistency, and the flag mirroring the counter, are kept along a trace. */
  lemma {:induction false} TraceInvariants(cfg: Config, st: State, calls: seq<Call>, outs: seq<Outcome>, j: nat)
    requires Trace(cfg, st, calls, outs)
    requires Consistent(cfg, st)
    requires j <= |outs|
    ensures Consistent(cfg, Before(st, outs, j))
    ensures StopMatchesCounter(cfg, st) ==> StopMatchesCounter(cfg, Before(st, outs, j))
    decreases j
  {
    if j > 0 {
      TraceInvariants(cfg, st, calls, outs, j - 1);
      var s := Before(st, outs, j - 1);
      assert Bookkeeps(cfg, s, calls[j - 1], outs[j - 1]);
      var t := outs[j - 1].next;
      if outs[j - 1].save {
        assert forall k | 0 <= k < |t.best| :: t.best[k].Some?;
      }
    }
  }

  /** The invariants of `TraceInvariants`, after every step of a trace. */
  lemma TraceInvariantsEverywhere(cfg: Config, st: State, calls: seq<Call>, outs: seq<Outcome>)
    requires Trace(cfg, st, calls, outs)
    requires Consistent(cfg, st)
    ensures forall i | 0 <= i < |outs| ::
      && Consistent(cfg, outs[i].next)
      && (StopMatchesCounter(cfg, st) ==> StopMatchesCounter(cfg, outs[i].next))
  {
    forall i | 0 <= i < |outs|
      ensures Consistent(cfg, outs[i].next)
      ensures StopMatchesCounter(cfg, st) ==> StopMatchesCounter(cfg, outs[i].next)
    {
      TraceInvariants(cfg, st, calls, outs, i + 1);
    }
  }

  /** The best tuple after `j` steps is the one the last save among them recorded. */
  lemma {:induction false} TraceBest(cfg: Config, st: State, calls: seq<Call>, outs: seq<Outcome>, j: nat)
    requires Trace(cfg, st, calls, outs)
    requires j <= |outs|
    ensures match LastSave(outs[..j])
      case None => Before(st, outs, j).best == st.best && Before(st, outs, j).bestEpoch == st.bestEpoch
      case Some(k) =>
        Adopts(cfg, Before(st, outs, j).best, calls[k].values)
        && Before(st, outs, j).bestEpoch == Some(calls[k].epoch)
    decreases j
  {
    if j > 0 {
      TraceBest(cfg, st, calls, outs, j - 1);
      assert Bookkeeps(cfg, Before(st, outs, j - 1), calls[j - 1], outs[j - 1]);
      assert outs[..j][..j - 1] == outs[..j - 1];
    }
  }

  // ---------------------------------------------------------------------
  // Runs

  /** The stop flag never goes back from true to false, and the counter
      never decreases. */
  lemma EarlyStopNeverResets(cfg: Config, st: State, calls: seq<Call>, i: nat, j: nat)
    requires Run(cfg, st, calls).Ok?
    requires i <= j <= |calls|
    ensures var outs := Run(cfg, st, calls).value;
      && (Before(st, outs, i).earlyStop ==> Before(st, outs, j).earlyStop)
      && Before(st, outs, i).counter <= Before(st, outs, j).counter
  {
    RunIsTrace(cfg, st, calls);
    TraceMonotone(cfg, st, calls, Run(cfg, st, calls).value, i, j);
  }

  /** The counter equals its starting value plus the number of calls that
      did not improve. */
  lemma CounterCountsStalls(cfg: Config, st: State, calls: seq<Call>)
    requires Run(cfg, st, calls).Ok?
    ensures var outs := Run(cfg, st, calls).value;
      Final(st, outs).counter == st.counter + Stalls(outs)
  {
    var outs := Run(cfg, st, calls).value;
    RunIsTrace(cfg, st, calls);
    TraceCounter(cfg, st, calls, outs, |outs|);
    assert outs[..|outs|] == outs;
  }

  /** From a fresh monitor, the counter is exactly the number of calls that
      did not improve, not only the consecutive ones. */
  lemma FreshCounterIsStallCount(cfg: Config, calls: seq<Call>)
    requires Run(cfg, Initial(|cfg.metrics|), calls).Ok?
    ensures var outs := Run(cfg, Initial(|cfg.metrics|), calls).value;
      Final(Initial(|cfg.metrics|), outs).counter == Stalls(outs)
  {
    CounterCountsStalls(cfg, Initial(|cfg.metrics|), calls);
  }

  /** Every state of a run from a consistent state is consistent, and the
      flag keeps mirroring the counter once it did at the start. */
  lemma RunKeepsInvariants(cfg: Config, st: State, calls: seq<Call>)
    requires Run(cfg, st, calls).Ok?
    requires Consistent(cfg, st)
    ensures var outs := Run(cfg, st, calls).value;
      forall i | 0 <= i < |outs| ::
        && Consistent(cfg, outs[i].next)
        && (StopMatchesCounter(cfg, st) ==> StopMatchesCounter(cfg, outs[i].next))
  {
    RunIsTrace(cfg, st, calls);
    TraceInvariantsEverywhere(cfg, st, calls, Run(cfg, st, calls).value);
  }

  /** With patience of at least one, after every call of a run on a fresh
      monitor the stop flag is set exactly when the counter has reached
      patience. */
  lemma StopIffPatienceReached(cfg: Config, calls: seq<Call>)
    requires cfg.patience >= 1
    requires Run(cfg, Initial(|cfg.metrics|), calls).Ok?
    ensures var outs := Run(cfg, Initial(|cfg.metrics|), calls).value;
      forall i | 0 <= i < |outs| :: outs[i].next.earlyStop <==> outs[i].next.counter >= cfg.patience
  {
    var outs := Run(cfg, Initial(|cfg.metrics|), calls).value;
    RunKeepsInvariants(cfg, Initial(|cfg.metrics|), calls);
    forall i | 0 <= i < |outs|
      ensures outs[i].next.earlyStop <==> outs[i].next.counter >= cfg.patience
    {
      assert StopMatchesCounter(cfg, outs[i].next);
    }
  }

  /** After a run, the best tuple and best epoch are those of the last call
      that requested a save, or the starting ones when no call did. */
  lemma BestIsLastSaved(cfg: Config, st: State, calls: seq<Call>)
    requires Run(cfg, st, calls).Ok?
    ensures var outs := Run(cfg, st, calls).value;
      match LastSave(outs)
      case None => Final(st, outs).best == st.best && Final(st, outs).bestEpoch == st.bestEpoch
      case Some(k) =>
        Adopts(cfg, Final(st, outs).best, calls[k].values)
        && Final(st, outs).bestEpoch == Some(calls[k].epoch)
  {
    var outs := Run(cfg, st, calls).value;
    RunIsTrace(cfg, st, calls);
    TraceBest(cfg, st, calls, outs, |outs|);
    assert outs[..|outs|] == outs;
  }
}
