/** Worked runs of the monitor on concrete inputs. */
module StoppingScenarios {
  import opened Results
  import opened EarlyStopping
  import opened StoppingRuns

  /** One "low" metric `loss`, patience 3, no tolerance. */
  function LossConfig(): Config
  {
    Config([Metric("loss", Less, 0.0)], 3, "checkpoint.pt", false)
  }

  /** Any single `loss` value is an accepted call. */
  lemma LossCallValid(loss: real)
    ensures ValidCall(LossConfig(), map["loss" := loss])
  {
    var ms := LossConfig().metrics;
    assert ms[1..] == [];
    assert NameSet(ms) == {"loss"};
    assert map["loss" := loss].Keys == {"loss"};
  }

  /** The best value `b` recorded at epoch `e`, with the given counter and
      flag. */
  function Best(b: real, e: int, counter: nat, stop: bool): State
  {
    State([Some(b)], Some(e), counter, stop)
  }

  /** Epochs 0 and 1 of a five-epoch run: the first call records the
      baseline 1.0 and returns nothing; 0.8 then improves on it. */
  lemma SingleMetricBaselineThenImprovement()
    ensures Create("checkpoint.pt", 3, dirs := [("loss", "low")]) == Ok(Monitor(LossConfig(), Initial(1)))
    ensures Create("checkpoint.pt") == Err(NoMetricProvided)
    ensures Step(LossConfig(), Initial(1), 0, map["loss" := 1.0])
         == Ok(Outcome(Best(1.0, 0, 0, false), true, false, None))
    ensures Step(LossConfig(), Best(1.0, 0, 0, false), 1, map["loss" := 0.8])
         == Ok(Outcome(Best(0.8, 1, 0, false), true, false, Some(false)))
  {
    LossCallValid(1.0);
    LossCallValid(0.8);
    var cfg := LossConfig();
    var m := Create("checkpoint.pt", 3, dirs := [("loss", "low")]).value;
    assert m.cfg.metrics == cfg.metrics;
    assert Initial(1).best[0] == None;
    var o0 := Step(cfg, Initial(1), 0, map["loss" := 1.0]).value;
    assert o0.next.best == [Some(1.0)];
    assert Improves(cfg, [Some(1.0)], map["loss" := 0.8]);
    var o1 := Step(cfg, Best(1.0, 0, 0, false), 1, map["loss" := 0.8]).value;
    assert o1.next.best == [Some(0.8)];
  }

  /** Epochs 2 to 4 of the same run: 0.9, 0.95 and 0.99 do not beat 0.8.
      The counter climbs to patience 3 and the flag is raised on the third;
      the warning is printed once the counter reaches 0.8 * 3. */
  lemma SingleMetricStallsToStop()
    ensures Step(LossConfig(), Best(0.8, 1, 0, false), 2, map["loss" := 0.9])
         == Ok(Outcome(Best(0.8, 1, 1, false), false, false, Some(false)))
    ensures Step(LossConfig(), Best(0.8, 1, 1, false), 3, map["loss" := 0.95])
         == Ok(Outcome(Best(0.8, 1, 2, false), false, false, Some(false)))
    ensures Step(LossConfig(), Best(0.8, 1, 2, false), 4, map["loss" := 0.99])
         == Ok(Outcome(Best(0.8, 1, 3, true), false, true, Some(true)))
  {
    LossCallValid(0.9);
    LossCallValid(0.95);
    LossCallValid(0.99);
  }

  /** `loss` ("low") and `acc` ("high"), patience 2, tolerance 5%. With the
      best at (1.0, 0.80), the values (1.02, 0.90) improve through `acc`
      alone (0.90 > 0.84): the whole tuple is replaced, the worse loss
      included, and a stall counted earlier is kept. */
  lemma TwoMetricImprovementKeepsCounter()
    ensures var m := Create("checkpoint.pt", 2, false, 5.0, [("loss", "low"), ("acc", "high")]);
      && m.Ok?
      && var st := State([Some(1.0), Some(0.80)], Some(3), 1, false);
         var r := Step(m.value.cfg, st, 4, map["loss" := 1.02, "acc" := 0.90]);
         && r.Ok?
         && r.value.save
         && r.value.ret == Some(false)
         && r.value.next == State([Some(1.02), Some(0.90)], Some(4), 1, false)
  {
    var m := Create("checkpoint.pt", 2, false, 5.0, [("loss", "low"), ("acc", "high")]).value;
    var cfg := m.cfg;
    assert cfg.metrics == [Metric("loss", Less, -5.0), Metric("acc", Greater, 5.0)];
    assert cfg.metrics[0].name in NameSet(cfg.metrics);
    assert cfg.metrics[1].name in NameSet(cfg.metrics);
    assert NameSet(cfg.metrics) == {"loss", "acc"};
    var values := map["loss" := 1.02, "acc" := 0.90];
    var st := State([Some(1.0), Some(0.80)], Some(3), 1, false);
    assert Beats(cfg.metrics[1], 0.90, 0.80);
    assert Improves(cfg, st.best, values);
    var o := Step(cfg, st, 4, values).value;
    assert o.next.best == [Some(1.02), Some(0.90)];
  }

  /** Six epochs on `LossConfig`: 1.0, 0.9, 0.95, 0.85, 0.9, 0.95. Epochs 1
      and 3 improve and the other three after the baseline stall. */
  function NoResetCalls(): seq<Call>
  {
    [Call(0, map["loss" := 1.0]), Call(1, map["loss" := 0.9]), Call(2, map["loss" := 0.95]),
     Call(3, map["loss" := 0.85]), Call(4, map["loss" := 0.9]), Call(5, map["loss" := 0.95])]
  }

  /** The outcomes of `NoResetCalls`, in order. */
  function NoResetOutcomes(): seq<Outcome>
  {
    [Outcome(Best(1.0, 0, 0, false), true, false, None),
     Outcome(Best(0.9, 1, 0, false), true, false, Some(false)),
     Outcome(Best(0.9, 1, 1, false), false, false, Some(false)),
     Outcome(Best(0.85, 3, 1, false), true, false, Some(false)),
     Outcome(Best(0.85, 3, 2, false), false, false, Some(false)),
     Outcome(Best(0.85, 3, 3, true), false, true, Some(true))]
  }

  /** Epochs 0 and 1 of `NoResetCalls`: the baseline 1.0, then an
      improvement to 0.9. */
  lemma NoResetOpening(i: nat)
    requires i < 2
    ensures var cs, os := NoResetCalls(), NoResetOutcomes();
      Step(LossConfig(), Before(Initial(1), os, i), cs[i].epoch, cs[i].values) == Ok(os[i])
  {
    var cfg := LossConfig();
    if i == 0 {
      LossCallValid(1.0);
      assert Initial(1).best[0] == None;
      var o := Step(cfg, Initial(1), 0, map["loss" := 1.0]).value;
      assert o.next.best == [Some(1.0)];
    } else {
      LossCallValid(0.9);
      assert Improves(cfg, [Some(1.0)], map["loss" := 0.9]);
      var o := Step(cfg, Best(1.0, 0, 0, false), 1, map["loss" := 0.9]).value;
      assert o.next.best == [Some(0.9)];
    }
  }

  /** Epochs 2 and 3: 0.95 stalls, then 0.85 improves without resetting the
      counter. */
  lemma NoResetMiddle(i: nat)
    requires 2 <= i < 4
    ensures var cs, os := NoResetCalls(), NoResetOutcomes();
      Step(LossConfig(), Before(Initial(1), os, i), cs[i].epoch, cs[i].values) == Ok(os[i])
  {
    var cfg := LossConfig();
    if i == 2 {
      LossCallValid(0.95);
    } else {
      LossCallValid(0.85);
      assert Improves(cfg, [Some(0.9)], map["loss" := 0.85]);
      var o := Step(cfg, Best(0.9, 1, 1, false), 3, map["loss" := 0.85]).value;
      assert o.next.best == [Some(0.85)];
    }
  }

  /** Epochs 4 and 5: 0.9 and 0.95 stall, and the second of them takes the
      counter to patience 3, so the run stops. */
  lemma NoResetClosing(i: nat)
    requires 4 <= i < 6
    ensures var cs, os := NoResetCalls(), NoResetOutcomes();
      Step(LossConfig(), Before(Initial(1), os, i), cs[i].epoch, cs[i].values) == Ok(os[i])
  {
    if i == 4 {
      LossCallValid(0.9);
    } else {
      LossCallValid(0.95);
    }
  }

  /** The outcomes of `NoResetCalls` from call `k` on answer those calls
      step by step. */
  lemma {:induction false} NoResetChain(k: nat)
    requires k <= 6
    ensures var cs, os := NoResetCalls(), NoResetOutcomes();
      Chain(LossConfig(), Before(Initial(1), os, k), cs[k..], os[k..])
    decreases 6 - k
  {
    var cs, os := NoResetCalls(), NoResetOutcomes();
    if k < 6 {
      NoResetChain(k + 1);
      if k < 2 {
        NoResetOpening(k);
      } else if k < 4 {
        NoResetMiddle(k);
      } else {
        NoResetClosing(k);
      }
      assert cs[k..][0] == cs[k] && cs[k..][1..] == cs[k + 1..];
      assert os[k..][0] == os[k] && os[k..][1..] == os[k + 1..];
      assert os[k].next == Before(Initial(1), os, k + 1);
    }
  }

  /** The whole run of `NoResetCalls` from a fresh monitor is accepted and
      stops at epoch 5, after only two consecutive stalls: the stall at
      epoch 2 still counts after the improvement at epoch 3. */
  lemma NoResetStopsAfterTwoConsecutiveStalls()
    ensures var r := Run(LossConfig(), Initial(1), NoResetCalls());
      && r.Ok?
      && r.value[3].save && !r.value[4].save && !r.value[5].save
      && r.value[5].ret == Some(true)
      && Final(Initial(1), r.value) == Best(0.85, 3, 3, true)
  {
    var cs, os := NoResetCalls(), NoResetOutcomes();
    NoResetChain(0);
    assert cs[0..] == cs && os[0..] == os;
    ChainIsRun(LossConfig(), Initial(1), cs, os);
  }
}
