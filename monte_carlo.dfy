/** The Monte Carlo simulation: each trial draws a points, a rebounds and an assists value
    from normal distributions centred on the projected stats, rounds each to one decimal and
    clamps it at zero. The generator, reseeded to 42 on every call, is a fixed stream of
    standard-normal draws given as input; a draw of N(mean, std) is mean + std * z. */
module MonteCarlo {
  import opened Common
  import MatchupAnalyzer

  /** The three simulated columns. */
  datatype SimResults = SimResults(pts: seq<real>, reb: seq<real>, ast: seq<real>)

  /** One simulated value: the draw rounded to one decimal (halves to even), clamped at 0. */
  function SimValue(mean: real, std: real, z: real): (v: real)
    ensures v >= 0.0
  {
    Max(0.0, RoundHalfEven(mean + std * z, 10))
  }

  /** A value is the clamped draw up to the rounding, which moves it by at most 0.05. */
  lemma SimValueClose(mean: real, std: real, z: real)
    ensures -0.05 <= SimValue(mean, std, z) - Max(0.0, mean + std * z) <= 0.05
  {
    var x := mean + std * z;
    var lo := (x * 10.0).Floor;
    RoundHalfEvenBounds(x, 10, lo, lo + 1);
  }

  /** Sampling raises for a negative scale. */
  predicate Samplable(data: MatchupAnalyzer.Projection)
  {
    data.ptsStd >= 0.0 && data.rebStd >= 0.0 && data.astStd >= 0.0
  }

  /** Column `stat` of trial `t` reads draw 3t + stat. */
  function Column(mean: real, std: real, draws: seq<real>, stat: nat, n: nat): (c: seq<real>)
    requires 3 * n <= |draws| && stat < 3
    ensures |c| == n
  {
    if n == 0 then [] else Column(mean, std, draws, stat, n - 1) + [SimValue(mean, std, draws[3 * (n - 1) + stat])]
  }

  lemma {:induction false} ColumnAt(mean: real, std: real, draws: seq<real>, stat: nat, n: nat)
    requires 3 * n <= |draws| && stat < 3
    ensures forall t :: 0 <= t < n ==> Column(mean, std, draws, stat, n)[t] == SimValue(mean, std, draws[3 * t + stat])
  {
    if n != 0 {
      ColumnAt(mean, std, draws, stat, n - 1);
    }
  }

  /** The simulation as the source defines it: three columns of `n` values, or `None` when
      there is a trial and a negative standard deviation makes the first of them raise. */
  function Simulation(data: MatchupAnalyzer.Projection, n: nat, draws: seq<real>): Option<SimResults>
    requires 3 * n <= |draws|
  {
    if n > 0 && !Samplable(data) then None
    else Some(SimResults(Column(data.pts, data.ptsStd, draws, 0, n),
                         Column(data.reb, data.rebStd, draws, 1, n),
                         Column(data.ast, data.astStd, draws, 2, n)))
  }

  /** `run_monte_carlo_sim`: `draws` is the generator's stream after seeding, which the trial
      loop consumes three at a time in the order PTS, REB, AST. */
  method RunMonteCarloSim(data: MatchupAnalyzer.Projection, nSimulations: nat, draws: seq<real>)
    returns (r: Option<SimResults>)
    requires 3 * nSimulations <= |draws|
    ensures r == Simulation(data, nSimulations, draws)
  {
    var pts: seq<real> := [];
    var reb: seq<real> := [];
    var ast: seq<real> := [];
    var next := 0;
    for trial := 0 to nSimulations
      invariant next == 3 * trial
      invariant trial > 0 ==> Samplable(data)
      invariant pts == Column(data.pts, data.ptsStd, draws, 0, trial)
      invariant reb == Column(data.reb, data.rebStd, draws, 1, trial)
      invariant ast == Column(data.ast, data.astStd, draws, 2, trial)
    {
      if data.ptsStd < 0.0 {
        return None;
      }
      pts := pts + [SimValue(data.pts, data.ptsStd, draws[next])];
      if data.rebStd < 0.0 {
        return None;
      }
      reb := reb + [SimValue(data.reb, data.rebStd, draws[next + 1])];
      if data.astStd < 0.0 {
        return None;
      }
      ast := ast + [SimValue(data.ast, data.astStd, draws[next + 2])];
      next := next + 3;
    }
    r := Some(SimResults(pts, reb, ast));
  }

  /** Each column has one value per trial, every value is non-negative, and trial t's PTS,
      REB and AST come from draws 3t, 3t + 1 and 3t + 2 with the record's own mean and std. */
  lemma SimulationSpec(data: MatchupAnalyzer.Projection, n: nat, draws: seq<real>)
    requires 3 * n <= |draws|
    ensures Simulation(data, n, draws).None? <==> n > 0 && !Samplable(data)
    ensures Simulation(data, n, draws).Some? ==>
              var s := Simulation(data, n, draws).value;
              |s.pts| == n && |s.reb| == n && |s.ast| == n
              && (forall t :: 0 <= t < n ==>
                    s.pts[t] == SimValue(data.pts, data.ptsStd, draws[3 * t])
                    && s.reb[t] == SimValue(data.reb, data.rebStd, draws[3 * t + 1])
                    && s.ast[t] == SimValue(data.ast, data.astStd, draws[3 * t + 2]))
              && (forall t :: 0 <= t < n ==> s.pts[t] >= 0.0 && s.reb[t] >= 0.0 && s.ast[t] >= 0.0)
  {
    ColumnAt(data.pts, data.ptsStd, draws, 0, n);
    ColumnAt(data.reb, data.rebStd, draws, 1, n);
    ColumnAt(data.ast, data.astStd, draws, 2, n);
  }

  /** With no trials the columns are empty, whatever the record holds. */
  lemma NoTrials(data: MatchupAnalyzer.Projection, draws: seq<real>)
    ensures Simulation(data, 0, draws) == Some(SimResults([], [], []))
  {
  }

  /** Only the first 3n draws matter: a longer stream gives the same result. */
  lemma {:induction false} ColumnPrefix(mean: real, std: real, draws: seq<real>, more: seq<real>, stat: nat, n: nat)
    requires 3 * n <= |draws| && stat < 3
    ensures Column(mean, std, draws + more, stat, n) == Column(mean, std, draws, stat, n)
  {
    if n != 0 {
      ColumnPrefix(mean, std, draws, more, stat, n - 1);
      assert (draws + more)[3 * (n - 1) + stat] == draws[3 * (n - 1) + stat];
    }
  }
}
