/** The usage-rate model: a player's base usage (the recent per-game possession load over the
    team possession estimate), scaled by a step multiplier read off the average base usage of
    the player's on-court co-players. */
module UsageCalculator {
  import opened Common

  /** One row of a player's game log, most recent first. */
  datatype LogLine = LogLine(fga: real, fta: real, tov: real)

  function SumFga(g: seq<LogLine>): real
  {
    if g == [] then 0.0 else SumFga(g[..|g| - 1]) + g[|g| - 1].fga
  }

  function SumFta(g: seq<LogLine>): real
  {
    if g == [] then 0.0 else SumFta(g[..|g| - 1]) + g[|g| - 1].fta
  }

  function SumTov(g: seq<LogLine>): real
  {
    if g == [] then 0.0 else SumTov(g[..|g| - 1]) + g[|g| - 1].tov
  }

  /** The possessions one game's line uses: FGA + 0.44 * FTA + TOV. */
  function Load(l: LogLine): real
  {
    l.fga + 0.44 * l.fta + l.tov
  }

  function SumLoad(g: seq<LogLine>): real
  {
    if g == [] then 0.0 else SumLoad(g[..|g| - 1]) + Load(g[|g| - 1])
  }

  const DefaultUsage: real := 0.2

  /** `calculate_base_usage` once the log is fetched: the means of FGA, FTA and TOV over the ten
      most recent games combine into (FGA + 0.44 * FTA + TOV) / possessions; an empty log gives
      the default 0.2. */
  function BaseUsage(possessions: real, log: seq<LogLine>): real
    requires log != [] ==> possessions != 0.0
  {
    if log == [] then DefaultUsage
    else
      var n := |Recent(log)| as real;
      (SumFga(Recent(log)) / n + 0.44 * (SumFta(Recent(log)) / n) + SumTov(Recent(log)) / n) / possessions
  }

  lemma {:induction false} SumLoadColumns(g: seq<LogLine>)
    ensures SumLoad(g) == SumFga(g) + 0.44 * SumFta(g) + SumTov(g)
  {
    if g != [] {
      SumLoadColumns(g[..|g| - 1]);
    }
  }

  lemma MeansCombine(a: real, b: real, c: real, n: real)
    requires n > 0.0
    ensures a / n + 0.44 * (b / n) + c / n == (a + 0.44 * b + c) / n
  {
  }

  /** Base usage is the average per-game load of the recent games over the team's possessions;
      with no games it is the default. */
  lemma BaseUsageIsMeanLoad(possessions: real, log: seq<LogLine>)
    requires log != [] ==> possessions != 0.0
    ensures log == [] ==> BaseUsage(possessions, log) == DefaultUsage
    ensures log != [] ==>
              BaseUsage(possessions, log) == SumLoad(Recent(log)) / (|Recent(log)| as real) / possessions
  {
    if log != [] {
      SumLoadColumns(Recent(log));
      MeansCombine(SumFga(Recent(log)), SumFta(Recent(log)), SumTov(Recent(log)), |Recent(log)| as real);
    }
  }

  /** Only the ten most recent games matter. */
  lemma BaseUsageIgnoresOlderGames(possessions: real, log: seq<LogLine>, older: seq<LogLine>)
    requires possessions != 0.0 && |log| >= 10
    ensures BaseUsage(possessions, log + older) == BaseUsage(possessions, log)
  {
    assert Recent(log + older) == Recent(log);
  }

  /** The step table of `calculate_usage_multiplier`: the busier the co-players, the smaller the
      player's share. */
  function StepMultiplier(avg: real): (r: real)
    ensures avg >= 0.28 ==> r == 0.88
    ensures 0.24 <= avg < 0.28 ==> r == 0.93
    ensures 0.20 <= avg < 0.24 ==> r == 0.98
    ensures 0.16 <= avg < 0.20 ==> r == 1.02
    ensures 0.12 <= avg < 0.16 ==> r == 1.07
    ensures avg < 0.12 ==> r == 1.12
  {
    if avg >= 0.28 then 0.88
    else if avg >= 0.24 then 0.93
    else if avg >= 0.20 then 0.98
    else if avg >= 0.16 then 1.02
    else if avg >= 0.12 then 1.07
    else 1.12
  }

  /** The table never rises as the co-players' usage grows, and stays within [0.88, 1.12]. */
  lemma StepMultiplierMonotone(a: real, b: real)
    requires a <= b
    ensures StepMultiplier(b) <= StepMultiplier(a)
    ensures 0.88 <= StepMultiplier(a) <= 1.12
  {
  }

  /** The multiplier as the source defines it from the co-players' base usages: 1.0 when there
      are no co-players or none with positive usage, else the step table at the mean positive
      usage. */
  function MultiplierOf(usages: seq<real>): real
  {
    if usages == [] || CountPositive(usages) == 0 then 1.0
    else StepMultiplier(SumPositive(usages) / (CountPositive(usages) as real))
  }

  lemma {:induction false} SumPositivePositive(xs: seq<real>)
    ensures CountPositive(xs) > 0 ==> SumPositive(xs) > 0.0
    ensures SumPositive(xs) >= 0.0
  {
    if xs != [] {
      SumPositivePositive(xs[..|xs| - 1]);
    }
  }

  /** With at least one positive usage the mean is positive, so the result is one of the six
      table entries; otherwise it is 1.0. */
  lemma MultiplierOfRange(usages: seq<real>)
    ensures 0.88 <= MultiplierOf(usages) <= 1.12
    ensures MultiplierOf(usages) in {0.88, 0.93, 0.98, 1.02, 1.07, 1.12, 1.0}
    ensures (forall i :: 0 <= i < |usages| ==> usages[i] <= 0.0) ==> MultiplierOf(usages) == 1.0
  {
    CountPositiveZero(usages);
    if CountPositive(usages) > 0 {
      var mean := SumPositive(usages) / (CountPositive(usages) as real);
      StepMultiplierMonotone(mean, mean);
    }
  }

  /** `calculate_usage_multiplier` once the co-players are known: each co-player's base usage
      (from that co-player's log and the same possession estimate) counts when positive. */
  method UsageMultiplier(possessions: real, coLogs: seq<seq<LogLine>>) returns (m: real)
    requires possessions != 0.0
    ensures m == MultiplierOf(Usages(possessions, coLogs))
  {
    if coLogs == [] {
      return 1.0;
    }
    var total := 0.0;
    var valid := 0;
    var i := 0;
    while i < |coLogs|
      invariant 0 <= i <= |coLogs|
      invariant total == SumPositive(Usages(possessions, coLogs[..i]))
      invariant valid == CountPositive(Usages(possessions, coLogs[..i]))
    {
      UsagesSnoc(possessions, coLogs, i);
      var usage := BaseUsage(possessions, coLogs[i]);
      if usage > 0.0 {
        total := total + usage;
        valid := valid + 1;
      }
      i := i + 1;
    }
    assert coLogs[..i] == coLogs;
    if valid == 0 {
      return 1.0;
    }
    var avg := total / (valid as real);
    m := StepMultiplier(avg);
  }

  lemma UsagesSnoc(possessions: real, coLogs: seq<seq<LogLine>>, i: nat)
    requires possessions != 0.0 && i < |coLogs|
    ensures Usages(possessions, coLogs[..i + 1])
            == Usages(possessions, coLogs[..i]) + [BaseUsage(possessions, coLogs[i])]
  {
    assert coLogs[..i + 1][..i] == coLogs[..i];
  }

  /** The co-players' base usages, in co-player order. */
  function Usages(possessions: real, coLogs: seq<seq<LogLine>>): (u: seq<real>)
    requires possessions != 0.0
    ensures |u| == |coLogs|
  {
    if coLogs == [] then []
    else Usages(possessions, coLogs[..|coLogs| - 1]) + [BaseUsage(possessions, coLogs[|coLogs| - 1])]
  }

  /** `calculate_usage_rate`: base usage times the multiplier, or `None` where it raises.
      `possessions` is `None` where the possession estimate raises, `log` where the player's own
      game-log fetch raises, and `coLogs` where the teammate lookup or the game-log fetch of any
      one co-player raises. */
  method CalculateUsageRate(possessions: Option<real>, log: Option<seq<LogLine>>, coLogs: Option<seq<seq<LogLine>>>)
    returns (r: Option<real>)
    requires possessions.Some? ==> possessions.value != 0.0
    ensures r.Some? <==> possessions.Some? && log.Some? && coLogs.Some?
    ensures r.Some? ==>
              r.value == BaseUsage(possessions.value, log.value) * MultiplierOf(Usages(possessions.value, coLogs.value))
  {
    if possessions.None? || log.None? || coLogs.None? {
      return None;
    }
    var base := BaseUsage(possessions.value, log.value);
    var multiplier := UsageMultiplier(possessions.value, coLogs.value);
    r := Some(base * multiplier);
  }

  /** The multiplier moves the base usage by at most 12 percent either way. */
  lemma UsageRateBounds(possessions: real, log: seq<LogLine>, coLogs: seq<seq<LogLine>>)
    requires possessions != 0.0 && BaseUsage(possessions, log) >= 0.0
    ensures 0.88 * BaseUsage(possessions, log)
            <= BaseUsage(possessions, log) * MultiplierOf(Usages(possessions, coLogs))
            <= 1.12 * BaseUsage(possessions, log)
  {
    MultiplierOfRange(Usages(possessions, coLogs));
    ScaleBounds(BaseUsage(possessions, log), MultiplierOf(Usages(possessions, coLogs)));
  }

  lemma ScaleBounds(b: real, m: real)
    requires b >= 0.0 && 0.88 <= m <= 1.12
    ensures 0.88 * b <= b * m <= 1.12 * b
  {
  }

  /** A player with no log and no co-players gets the default usage, 0.2. */
  lemma DefaultUsageRate(possessions: real)
    requires possessions != 0.0
    ensures BaseUsage(possessions, []) * MultiplierOf(Usages(possessions, [])) == 0.2
  {
  }
}
