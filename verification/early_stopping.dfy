/** The `EarlyStopping` monitor of utils.py: an immutable configuration built
    once per training run, a small state record, and a pure step function that
    is applied once per epoch. */
module EarlyStopping {
  import opened Results

  /** The comparison chosen per metric (`np.less` or `np.greater`). */
  datatype Op = Less | Greater

  /** One monitored metric: its name, its comparison and its signed
      percentage tolerance. */
  datatype Metric = Metric(name: string, op: Op, delta: real)

  /** Everything fixed at construction. `path` and `verbose` only matter to
      checkpoint persistence and messages, which are outside this model. */
  datatype Config = Config(metrics: seq<Metric>, patience: int, path: string, verbose: bool)

  /** The mutable part of the monitor. `best` holds one optional score per
      metric; an unset entry means that no baseline has been recorded. */
  datatype State = State(best: seq<Option<real>>, bestEpoch: Option<int>, counter: nat, earlyStop: bool)

  datatype Monitor = Monitor(cfg: Config, st: State)

  /** The three `ValueError`s the monitor raises. */
  datatype Error = NoMetricProvided | MetricValueMissing | MetricNameMismatch

  /** What one call produces: the next state, whether a checkpoint save was
      requested, whether the "soon to stop" warning was printed, and the
      call's return value (`None` on the baseline call). */
  datatype Outcome = Outcome(next: State, save: bool, warn: bool, ret: Option<bool>)

  // ---------------------------------------------------------------------
  // Construction

  /** The operator and signed tolerance derived from one direction string. */
  function MetricFor(name: string, dir: string, delta: real): Metric
  {
    if dir == "low" then Metric(name, Less, -delta) else Metric(name, Greater, delta)
  }

  /** The state of a freshly built monitor with `n` metrics. */
  function Initial(n: nat): (st: State)
    ensures |st.best| == n
  {
    State(seq(n, _ => None), None, 0, false)
  }

  /** Builds the monitor from the ordered metric -> direction pairs, with
      the same defaults as the constructor; no pairs means no metric. */
  function Create(path: string, patience: int := 10, verbose: bool := false, delta: real := 0.0,
                  dirs: seq<(string, string)> := []): (r: Result<Monitor, Error>)
    ensures r.Err? <==> dirs == []
    ensures r.Err? ==> r.error == NoMetricProvided
    ensures r.Ok? ==>
      && |r.value.cfg.metrics| == |dirs|
      && r.value.cfg.patience == patience
      && forall i | 0 <= i < |dirs| ::
           && r.value.cfg.metrics[i].name == dirs[i].0
           && (dirs[i].1 == "low" ==> r.value.cfg.metrics[i].op == Less && r.value.cfg.metrics[i].delta == -delta)
           && (dirs[i].1 != "low" ==> r.value.cfg.metrics[i].op == Greater && r.value.cfg.metrics[i].delta == delta)
    ensures r.Ok? ==>
      && |r.value.st.best| == |dirs|
      && (forall i | 0 <= i < |dirs| :: r.value.st.best[i] == None)
      && r.value.st.bestEpoch == None
      && r.value.st.counter == 0
      && !r.value.st.earlyStop
  {
    if dirs == [] then Err(NoMetricProvided)
    else
      var metrics := seq(|dirs|, i requires 0 <= i < |dirs| => MetricFor(dirs[i].0, dirs[i].1, delta));
      Ok(Monitor(Config(metrics, patience, path, verbose), Initial(|dirs|)))
  }

  // ---------------------------------------------------------------------
  // Comparison of one metric

  /** The improvement threshold `best * (1 + delta / 100)`. */
  function Threshold(m: Metric, best: real): real
  {
    best * (1.0 + m.delta / 100.0)
  }

  /** Whether `score` beats `best` for metric `m` under its operator. */
  predicate Beats(m: Metric, score: real, best: real)
  {
    match m.op
    case Less => score < Threshold(m, best)
    case Greater => score > Threshold(m, best)
  }

  /** With no tolerance the test is a strict comparison against the best,
      so an equal value never counts as an improvement. */
  lemma ZeroDeltaIsStrict(m: Metric, score: real, best: real)
    requires m.delta == 0.0
    ensures Beats(m, score, best) <==> (if m.op == Less then score < best else score > best)
    ensures !Beats(m, best, best)
  {
  }

  /** For a non-negative best and a non-negative configured tolerance, a
      value that beats the threshold is strictly better than the best in
      the metric's own direction. */
  lemma ToleranceDemandsStrictGain(name: string, dir: string, delta: real, score: real, best: real)
    requires delta >= 0.0 && best >= 0.0
    requires Beats(MetricFor(name, dir, delta), score, best)
    ensures dir == "low" ==> score < best
    ensures dir != "low" ==> score > best
  {
    var m := MetricFor(name, dir, delta);
    assert best * (delta / 100.0) >= 0.0;
    if dir == "low" {
      assert Threshold(m, best) == best - best * (delta / 100.0);
    } else {
      assert Threshold(m, best) == best + best * (delta / 100.0);
    }
  }

  /** The relative threshold flips for a negative best: with a 10% tolerance
      on a "low" metric whose best is -1.0, the worse value -0.95 passes. */
  lemma NegativeBestInvertsTolerance()
    ensures var m := MetricFor("loss", "low", 10.0);
      Beats(m, -0.95, -1.0) && -0.95 > -1.0
  {
  }

  /** In general, for a "low" metric with a negative best and a positive
      tolerance, an unchanged value counts as an improvement. */
  lemma NegativeBestAcceptsUnchanged(name: string, delta: real, best: real)
    requires delta > 0.0 && best < 0.0
    ensures Beats(MetricFor(name, "low", delta), best, best)
  {
    assert best * (delta / 100.0) < 0.0;
  }

  // ---------------------------------------------------------------------
  // Helpers over the metric table and the best-score list

  function Names(ms: seq<Metric>): (names: seq<string>)
    ensures |names| == |ms|
    ensures forall i | 0 <= i < |ms| :: names[i] == ms[i].name
  {
    seq(|ms|, i requires 0 <= i < |ms| => ms[i].name)
  }

  /** The configured names as a set (`set(self.metric_name)`). */
  function NameSet(ms: seq<Metric>): (names: set<string>)
    ensures forall i | 0 <= i < |ms| :: ms[i].name in names
    ensures forall n | n in names :: exists i | 0 <= i < |ms| :: ms[i].name == n
  {
    if ms == [] then {}
    else
      var rest := NameSet(ms[1..]);
      assert forall n | n in rest :: exists i | 0 <= i < |ms| :: ms[i].name == n by {
        forall n | n in rest ensures exists i | 0 <= i < |ms| :: ms[i].name == n {
          var j :| 0 <= j < |ms| - 1 && ms[1..][j].name == n;
          assert ms[j + 1].name == n;
        }
      }
      assert forall i | 1 <= i < |ms| :: ms[i].name in rest by {
        forall i | 1 <= i < |ms| ensures ms[i].name in rest {
          assert ms[i] == ms[1..][i - 1];
        }
      }
      {ms[0].name} + rest
  }

  /** Some entry of the best-score list is unset. */
  predicate HasUnset(best: seq<Option<real>>)
  {
    exists i | 0 <= i < |best| :: best[i].None?
  }

  /** The current values in configured-name order, skipping names that are
      absent, as the list comprehension at utils.py:51 does. */
  function Align(names: seq<string>, values: map<string, real>): (score: seq<real>)
    ensures |score| <= |names|
    ensures (forall i | 0 <= i < |names| :: names[i] in values) ==>
              |score| == |names| && forall i | 0 <= i < |names| :: score[i] == values[names[i]]
  {
    if names == [] then []
    else (if names[0] in values then [values[names[0]]] else []) + Align(names[1..], values)
  }

  function Wrap(score: seq<real>): (best: seq<Option<real>>)
    ensures |best| == |score|
    ensures forall i | 0 <= i < |score| :: best[i] == Some(score[i])
  {
    seq(|score|, i requires 0 <= i < |score| => Some(score[i]))
  }

  function Unwrap(best: seq<Option<real>>): (vals: seq<real>)
    requires !HasUnset(best)
    ensures |vals| == |best|
    ensures forall i | 0 <= i < |best| :: best[i] == Some(vals[i])
  {
    seq(|best|, i requires 0 <= i < |best| => best[i].value)
  }

  /** The `any(map(...))` test of utils.py:63: some metric beats its best.
      Like Python's `map`, it stops at the shortest of the three lists. */
  function AnyBeats(ms: seq<Metric>, score: seq<real>, best: seq<real>): (b: bool)
    ensures b <==> exists i | 0 <= i < |ms| && i < |score| && i < |best| :: Beats(ms[i], score[i], best[i])
  {
    if ms == [] || score == [] || best == [] then false
    else if Beats(ms[0], score[0], best[0]) then true
    else
      var b := AnyBeats(ms[1..], score[1..], best[1..]);
      assert b ==> exists i | 0 <= i < |ms| && i < |score| && i < |best| :: Beats(ms[i], score[i], best[i]) by {
        if b {
          var j :| 0 <= j < |ms| - 1 && j < |score| - 1 && j < |best| - 1 && Beats(ms[1..][j], score[1..][j], best[1..][j]);
          assert Beats(ms[j + 1], score[j + 1], best[j + 1]);
        }
      }
      assert !b ==> forall i | 0 <= i < |ms| && i < |score| && i < |best| :: !Beats(ms[i], score[i], best[i]) by {
        if !b {
          forall i | 0 <= i < |ms| && i < |score| && i < |best|
            ensures !Beats(ms[i], score[i], best[i])
          {
            if i > 0 {
              assert ms[i] == ms[1..][i - 1] && score[i] == score[1..][i - 1] && best[i] == best[1..][i - 1];
            }
          }
        }
      }
      b
  }

  // ---------------------------------------------------------------------
  // Reference predicates the step is specified against

  /** The supplied names are exactly the configured ones. */
  predicate Covers(cfg: Config, values: map<string, real>)
  {
    values.Keys == NameSet(cfg.metrics)
  }

  /** The call is accepted: values are supplied and their names match. */
  predicate ValidCall(cfg: Config, values: map<string, real>)
  {
    values != map[] && Covers(cfg, values)
  }

  /** `best` holds exactly the supplied values, in configured-name order. */
  predicate Adopts(cfg: Config, best: seq<Option<real>>, values: map<string, real>)
  {
    && |best| == |cfg.metrics|
    && forall i | 0 <= i < |cfg.metrics| ::
         cfg.metrics[i].name in values && best[i] == Some(values[cfg.metrics[i].name])
  }

  /** Some metric's supplied value beats its recorded best. */
  predicate Improves(cfg: Config, best: seq<Option<real>>, values: map<string, real>)
  {
    exists i | 0 <= i < |cfg.metrics| && i < |best| ::
      best[i].Some? && cfg.metrics[i].name in values
      && Beats(cfg.metrics[i], values[cfg.metrics[i].name], best[i].value)
  }

  /** When the names match, the score list lines up with the metric table. */
  lemma AlignCovers(cfg: Config, values: map<string, real>)
    requires Covers(cfg, values)
    ensures var score := Align(Names(cfg.metrics), values);
      |score| == |cfg.metrics|
      && forall i | 0 <= i < |cfg.metrics| :: cfg.metrics[i].name in values && score[i] == values[cfg.metrics[i].name]
  {
    var names := Names(cfg.metrics);
    forall i | 0 <= i < |names| ensures names[i] in values {
      assert names[i] == cfg.metrics[i].name;
    }
  }

  // ---------------------------------------------------------------------
  // The per-epoch step

  /** One call `monitor(model, epoch, **values)`. */
  function Step(cfg: Config, st: State, epoch: int, values: map<string, real>): (r: Result<Outcome, Error>)
    ensures r.Err? <==> !ValidCall(cfg, values)
    ensures values == map[] ==> r == Err(MetricValueMissing)
    ensures values != map[] && !Covers(cfg, values) ==> r == Err(MetricNameMismatch)
    // baseline and improvement both request a save; only they do
    ensures r.Ok? ==> (r.value.save <==> HasUnset(st.best) || Improves(cfg, st.best, values))
    // the baseline call is the only one returning None
    ensures r.Ok? ==> (r.value.ret.None? <==> HasUnset(st.best))
    ensures r.Ok? && r.value.ret.Some? ==> r.value.ret.value == r.value.next.earlyStop
    // a save replaces the whole best tuple and keeps the counter and the flag
    ensures r.Ok? && r.value.save ==>
      && Adopts(cfg, r.value.next.best, values)
      && r.value.next.bestEpoch == Some(epoch)
      && r.value.next.counter == st.counter
      && r.value.next.earlyStop == st.earlyStop
      && !r.value.warn
    // otherwise only the counter, the flag and the warning move
    ensures r.Ok? && !r.value.save ==>
      && r.value.next.best == st.best
      && r.value.next.bestEpoch == st.bestEpoch
      && r.value.next.counter == st.counter + 1
      && (r.value.next.earlyStop <==> st.earlyStop || r.value.next.counter >= cfg.patience)
      && (r.value.warn <==> 5 * r.value.next.counter >= 4 * cfg.patience)
  {
    if values == map[] then Err(MetricValueMissing)
    else if NameSet(cfg.metrics) != values.Keys then Err(MetricNameMismatch)
    else
      AlignCovers(cfg, values);
      var score := Align(Names(cfg.metrics), values);
      if HasUnset(st.best) then
        Ok(Outcome(st.(best := Wrap(score), bestEpoch := Some(epoch)), true, false, None))
      else if AnyBeats(cfg.metrics, score, Unwrap(st.best)) then
        Ok(Outcome(st.(best := Wrap(score), bestEpoch := Some(epoch)), true, false, Some(st.earlyStop)))
      else
        var counter := st.counter + 1;
        var warn := counter as real >= 0.8 * cfg.patience as real;
        var stop := if counter >= cfg.patience then true else st.earlyStop;
        Ok(Outcome(st.(counter := counter, earlyStop := stop), false, warn, Some(stop)))
  }
}
