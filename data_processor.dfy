/** The teammate-affinity engine: from the players' game logs (one row per player and game
    date), the shared-minutes matrix, where every pair of rows on the same date adds the
    smaller of the two minute values to both of the pair's cells; and from that matrix, a
    player's four most frequent on-court teammates. Also the position normaliser. */
module DataProcessor {
  import opened Common
  import opened Numerals
  import ApiClient

  /** A `MIN` cell: a number, or "MM:SS" text. */
  datatype Minutes = Numeric(value: real) | Clock(text: string)

  /** One row of the concatenated game logs: the game date, the player's full name and the
      minutes played. */
  datatype GameRow = GameRow(date: string, name: string, minutes: Minutes)

  /** "MM:SS" to MM + SS/60; `None` where Python raises (no ':' at all, or a piece that is not a
      number). Pieces after the second are ignored, as `split(':')[1]` ignores them. */
  function ParseClock(text: string): Option<real>
  {
    var parts := Split(text, ':');
    if |parts| < 2 then None
    else
      match (ParseInt(parts[0]), ParseInt(parts[1]))
      case (Some(mm), Some(ss)) => Some(mm as real + ss as real / 60.0)
      case _ => None
  }

  /** Writing minutes and seconds as "MM:SS" and parsing them gives MM + SS/60. */
  lemma ParseClockRoundTrip(mm: nat, ss: nat)
    ensures ParseClock(NatToString(mm) + ":" + NatToString(ss)) == Some(mm as real + ss as real / 60.0)
  {
    var a, b := NatToString(mm), NatToString(ss);
    assert ':' !in a && ':' !in b by {
      assert forall i :: 0 <= i < |a| ==> IsDigit(a[i]);
      assert forall i :: 0 <= i < |b| ==> IsDigit(b[i]);
    }
    assert a + ":" + b == a + [':'] + b;
    SplitTwo(a, ':', b);
    ParseIntOfNatToString(mm);
    ParseIntOfNatToString(ss);
  }

  /** The numeric value of a `MIN` cell: numbers as they are, text through `ParseClock`. */
  function MinutesValue(m: Minutes): Option<real>
  {
    match m
    case Numeric(v) => Some(v)
    case Clock(t) => ParseClock(t)
  }

  /** pandas' `unique()` on the date column: each date once, in order of first appearance. */
  function UniqueDates(rows: seq<GameRow>): seq<string>
  {
    if rows == [] then []
    else
      var init := UniqueDates(rows[..|rows| - 1]);
      if rows[|rows| - 1].date in init then init else init + [rows[|rows| - 1].date]
  }

  /** Every date of the logs is listed exactly once, and nothing else is. */
  lemma {:induction false} UniqueDatesSpec(rows: seq<GameRow>)
    ensures NoDuplicates(UniqueDates(rows))
    ensures forall i :: 0 <= i < |rows| ==> rows[i].date in UniqueDates(rows)
    ensures forall d :: d in UniqueDates(rows) ==> exists i :: 0 <= i < |rows| && rows[i].date == d
  {
    if rows != [] {
      var init := rows[..|rows| - 1];
      UniqueDatesSpec(init);
      assert forall i :: 0 <= i < |init| ==> init[i] == rows[i];
    }
  }

  /** The rows of one game date, in log order. */
  function GameRows(rows: seq<GameRow>, date: string): seq<GameRow>
  {
    if rows == [] then []
    else
      var init := GameRows(rows[..|rows| - 1], date);
      if rows[|rows| - 1].date == date then init + [rows[|rows| - 1]] else init
  }

  /** A game's rows all have that date, come from the logs, and include every log row of that
      date; `GameRowsSingle` and `GameRowsAppend` give their order. */
  lemma {:induction false} GameRowsSpec(rows: seq<GameRow>, date: string)
    ensures forall i :: 0 <= i < |GameRows(rows, date)| ==> GameRows(rows, date)[i].date == date
    ensures multiset(GameRows(rows, date)) <= multiset(rows)
    ensures forall i :: 0 <= i < |rows| && rows[i].date == date ==> rows[i] in GameRows(rows, date)
  {
    if rows != [] {
      var init := rows[..|rows| - 1];
      GameRowsSpec(init, date);
      assert rows == init + [rows[|rows| - 1]];
      assert forall i :: 0 <= i < |init| ==> init[i] == rows[i];
    }
  }

  /** One row is kept exactly when it has the date. */
  lemma GameRowsSingle(r: GameRow, date: string)
    ensures GameRows([r], date) == if r.date == date then [r] else []
  {
    assert [r][..0] == [];
  }

  /** Filtering works row by row: the rows of a date in two logs joined are that date's rows of
      the first log followed by those of the second, so log order and repeats are kept. */
  lemma {:induction false} GameRowsAppend(a: seq<GameRow>, b: seq<GameRow>, date: string)
    ensures GameRows(a + b, date) == GameRows(a, date) + GameRows(b, date)
    decreases |b|
  {
    if b == [] {
      assert a + b == a;
    } else {
      var init, last := b[..|b| - 1], b[|b| - 1];
      assert (a + b)[..|a + b| - 1] == a + init;
      assert (a + b)[|a + b| - 1] == last;
      GameRowsAppend(a, init, date);
    }
  }

  /** `game_data[game_data['Full_Name'] == name]['MIN'].values[0]`, or `None` when that
      selection is empty. */
  function FirstMinutes(game: seq<GameRow>, name: string): Option<Minutes>
  {
    if game == [] then None
    else if game[0].name == name then Some(game[0].minutes)
    else FirstMinutes(game[1..], name)
  }

  /** A name present in the game has a minutes cell. */
  lemma {:induction false} FirstMinutesFound(game: seq<GameRow>, k: nat)
    requires k < |game|
    ensures FirstMinutes(game, game[k].name).Some?
  {
    if k > 0 && game[0].name != game[k].name {
      assert game[1..][k - 1] == game[k];
      FirstMinutesFound(game[1..], k - 1);
    }
  }

  /** What one pair of rows does to the matrix: nothing (a name with no minutes cell, which
      the source guards against), an error (a minute text that does not parse), or the
      smaller of the two minute values. */
  datatype Shared = Skipped | Malformed | Shared(value: real)

  datatype Contribution = Contribution(p1: string, p2: string, shared: Shared)

  /** The pair's effect, given the two names' minutes cells. */
  function SharedOf(a: Option<Minutes>, b: Option<Minutes>): Shared
  {
    if a.None? || b.None? then Skipped
    else match (MinutesValue(a.value), MinutesValue(b.value))
      case (Some(m1), Some(m2)) => Shared(Min(m1, m2))
      case _ => Malformed
  }

  function PairContribution(game: seq<GameRow>, i: nat, j: nat): Contribution
    requires i < |game| && j < |game|
  {
    var p1, p2 := game[i].name, game[j].name;
    Contribution(p1, p2, SharedOf(FirstMinutes(game, p1), FirstMinutes(game, p2)))
  }

  /** The pairs (i, i + 1), ..., (i, j - 1) that `itertools.combinations` yields for row i. */
  function RowPairs(game: seq<GameRow>, i: nat, j: nat): seq<Contribution>
  {
    if j <= i + 1 || |game| < j then [] else RowPairs(game, i, j - 1) + [PairContribution(game, i, j - 1)]
  }

  /** All pairs of one game whose first row is one of rows 0 .. n - 1, in `combinations` order. */
  function GamePairs(game: seq<GameRow>, n: nat): seq<Contribution>
  {
    if n == 0 || |game| < n then [] else GamePairs(game, n - 1) + RowPairs(game, n - 1, |game|)
  }

  function AllGamePairs(game: seq<GameRow>): seq<Contribution>
  {
    GamePairs(game, |game|)
  }

  /** The pairs of the first `n` game dates. */
  function DatePairs(rows: seq<GameRow>, dates: seq<string>, n: nat): seq<Contribution>
  {
    if n == 0 || |dates| < n then [] else DatePairs(rows, dates, n - 1) + AllGamePairs(GameRows(rows, dates[n - 1]))
  }

  /** Every pair the accumulation loop visits, in the order it visits them. */
  function Contributions(rows: seq<GameRow>): seq<Contribution>
  {
    DatePairs(rows, UniqueDates(rows), |UniqueDates(rows)|)
  }

  /** No visited pair has a minute text that does not parse. */
  predicate AllParsed(cs: seq<Contribution>)
  {
    cs == [] || (AllParsed(cs[..|cs| - 1]) && !cs[|cs| - 1].shared.Malformed?)
  }

  lemma {:induction false} AllParsedAppend(a: seq<Contribution>, b: seq<Contribution>)
    ensures AllParsed(a + b) <==> AllParsed(a) && AllParsed(b)
  {
    if b != [] {
      assert (a + b)[..|a + b| - 1] == a + b[..|b| - 1];
      AllParsedAppend(a, b[..|b| - 1]);
    } else {
      assert a + b == a;
    }
  }

  /** The shared-minutes frame: its labels (columns and index, which are the same names) in
      order of creation, and its non-missing cells. */
  datatype Matrix = Matrix(labels: seq<string>, cells: map<(string, string), real>)

  const EmptyFrame := Matrix([], map[])

  /** A cell after `fillna(0)`: missing cells read as 0. */
  function Cell(m: Matrix, a: string, b: string): real
  {
    if (a, b) in m.cells then m.cells[(a, b)] else 0.0
  }

  function AddLabel(labels: seq<string>, x: string): seq<string>
  {
    if x in labels then labels else labels + [x]
  }

  /** `shared_minutes[p1][p2] += s; shared_minutes[p2][p1] += s` on the nested defaultdict. */
  function AddShared(m: Matrix, p1: string, p2: string, s: real): Matrix
  {
    var c1 := m.cells[(p1, p2) := Cell(m, p1, p2) + s];
    var old21 := if (p2, p1) in c1 then c1[(p2, p1)] else 0.0;
    Matrix(AddLabel(AddLabel(m.labels, p1), p2), c1[(p2, p1) := old21 + s])
  }

  /** One pair's effect on the frame. */
  function Apply(m: Matrix, c: Contribution): Matrix
  {
    match c.shared
    case Shared(s) => AddShared(m, c.p1, c.p2, s)
    case _ => m
  }

  /** The frame `m` after the contributions `cs`, applied in order. */
  function FoldFrom(m: Matrix, cs: seq<Contribution>): Matrix
  {
    if cs == [] then m else Apply(FoldFrom(m, cs[..|cs| - 1]), cs[|cs| - 1])
  }

  function Fold(cs: seq<Contribution>): Matrix
  {
    FoldFrom(EmptyFrame, cs)
  }

  lemma {:induction false} FoldFromAppend(m: Matrix, a: seq<Contribution>, b: seq<Contribution>)
    ensures FoldFrom(m, a + b) == FoldFrom(FoldFrom(m, a), b)
  {
    if b != [] {
      assert (a + b)[..|a + b| - 1] == a + b[..|b| - 1];
      FoldFromAppend(m, a, b[..|b| - 1]);
    } else {
      assert a + b == a;
    }
  }

  lemma FoldFromSnoc(m: Matrix, cs: seq<Contribution>, c: Contribution)
    ensures FoldFrom(m, cs + [c]) == Apply(FoldFrom(m, cs), c)
  {
    assert (cs + [c])[..|cs|] == cs;
  }

  lemma AllParsedSnoc(cs: seq<Contribution>, c: Contribution)
    ensures AllParsed(cs + [c]) <==> AllParsed(cs) && !c.shared.Malformed?
  {
    assert (cs + [c])[..|cs|] == cs;
  }

  /** Once a pair is malformed, every later stage of the enumeration is too. */
  lemma {:induction false} GamePairsParsedShrinks(game: seq<GameRow>, n: nat, n': nat)
    requires n <= n' <= |game|
    ensures AllParsed(GamePairs(game, n')) ==> AllParsed(GamePairs(game, n))
    decreases n' - n
  {
    if n' > n {
      AllParsedAppend(GamePairs(game, n' - 1), RowPairs(game, n' - 1, |game|));
      GamePairsParsedShrinks(game, n, n' - 1);
    }
  }

  lemma {:induction false} DatePairsParsedShrinks(rows: seq<GameRow>, dates: seq<string>, n: nat, n': nat)
    requires n <= n' <= |dates|
    ensures AllParsed(DatePairs(rows, dates, n')) ==> AllParsed(DatePairs(rows, dates, n))
    decreases n' - n
  {
    if n' > n {
      AllParsedAppend(DatePairs(rows, dates, n' - 1), AllGamePairs(GameRows(rows, dates[n' - 1])));
      DatePairsParsedShrinks(rows, dates, n, n' - 1);
    }
  }

  /** The two `+=` updates of one pair on the nested defaultdict: a missing cell starts at 0,
      and a new name becomes a label. */
  method AddToFrame(frame: Matrix, p1: string, p2: string, s: real) returns (frame': Matrix)
    ensures frame' == AddShared(frame, p1, p2, s)
  {
    var cells := frame.cells;
    var old12 := if (p1, p2) in cells then cells[(p1, p2)] else 0.0;
    cells := cells[(p1, p2) := old12 + s];
    var old21 := if (p2, p1) in cells then cells[(p2, p1)] else 0.0;
    cells := cells[(p2, p1) := old21 + s];
    var labels := frame.labels;
    if p1 !in labels {
      labels := labels + [p1];
    }
    if p2 !in labels {
      labels := labels + [p2];
    }
    frame' := Matrix(labels, cells);
  }

  /** The body of the innermost loop: look both names' minutes up, skip the pair when one is
      missing, convert "MM:SS" text, and add the smaller value to the frame. `ok` is false where
      the source raises. */
  method AddPair(game: seq<GameRow>, i: nat, j: nat, frame: Matrix) returns (ok: bool, frame': Matrix)
    requires i < |game| && j < |game|
    ensures ok <==> !PairContribution(game, i, j).shared.Malformed?
    ensures ok ==> frame' == Apply(frame, PairContribution(game, i, j))
  {
    frame' := frame;
    var p1, p2 := game[i].name, game[j].name;
    var min1Data, min2Data := FirstMinutes(game, p1), FirstMinutes(game, p2);
    if min1Data.None? || min2Data.None? {
      return true, frame';
    }
    var min1, min2 := MinutesValue(min1Data.value), MinutesValue(min2Data.value);
    if min1.None? || min2.None? {
      return false, frame';
    }
    frame' := AddToFrame(frame, p1, p2, Min(min1.value, min2.value));
    ok := true;
  }

  /** The frame after the pairs (i, i + 1), ..., (i, j - 1), applied to `frame` one by one. */
  function FoldRow(frame: Matrix, game: seq<GameRow>, i: nat, j: nat): Matrix
  {
    if j <= i + 1 || |game| < j then frame
    else Apply(FoldRow(frame, game, i, j - 1), PairContribution(game, i, j - 1))
  }

  predicate RowParsed(game: seq<GameRow>, i: nat, j: nat)
  {
    j <= i + 1 || |game| < j ||
    (RowParsed(game, i, j - 1) && !PairContribution(game, i, j - 1).shared.Malformed?)
  }

  /** The step-by-step reading of one row agrees with the fold over its pairs. */
  lemma {:induction false} FoldRowIsFold(frame: Matrix, game: seq<GameRow>, i: nat, j: nat)
    ensures FoldRow(frame, game, i, j) == FoldFrom(frame, RowPairs(game, i, j))
  {
    if !(j <= i + 1 || |game| < j) {
      FoldRowIsFold(frame, game, i, j - 1);
      FoldFromSnoc(frame, RowPairs(game, i, j - 1), PairContribution(game, i, j - 1));
    }
  }

  lemma {:induction false} RowParsedIsAllParsed(game: seq<GameRow>, i: nat, j: nat)
    ensures RowParsed(game, i, j) <==> AllParsed(RowPairs(game, i, j))
  {
    if !(j <= i + 1 || |game| < j) {
      RowParsedIsAllParsed(game, i, j - 1);
      AllParsedSnoc(RowPairs(game, i, j - 1), PairContribution(game, i, j - 1));
    }
  }

  lemma {:induction false} RowParsedShrinks(game: seq<GameRow>, i: nat, j: nat, j': nat)
    requires j <= j' <= |game|
    ensures RowParsed(game, i, j') ==> RowParsed(game, i, j)
    decreases j' - j
  {
    if j' > j {
      RowParsedShrinks(game, i, j, j' - 1);
    }
  }

  /** The innermost loop of `get_shared_mins_df`: the pairs (i, j), j > i, of one game, added
      to the frame. `ok` is false where the source raises. */
  method AddRowPairs(game: seq<GameRow>, i: nat, frame: Matrix) returns (ok: bool, frame': Matrix)
    requires i < |game|
    ensures ok <==> RowParsed(game, i, |game|)
    ensures ok ==> frame' == FoldRow(frame, game, i, |game|)
  {
    frame' := frame;
    var j := i + 1;
    while j < |game|
      invariant i + 1 <= j <= |game|
      invariant RowParsed(game, i, j)
      invariant frame' == FoldRow(frame, game, i, j)
      decreases |game| - j
    {
      var pairOk;
      pairOk, frame' := AddPair(game, i, j, frame');
      if !pairOk {
        RowParsedShrinks(game, i, j + 1, |game|);
        return false, frame';
      }
      j := j + 1;
    }
    ok := true;
  }

  /** The middle loop of `get_shared_mins_df`: every row of one game date. */
  method AddGamePairs(game: seq<GameRow>, frame: Matrix) returns (ok: bool, frame': Matrix)
    ensures ok <==> AllParsed(AllGamePairs(game))
    ensures ok ==> frame' == FoldFrom(frame, AllGamePairs(game))
  {
    frame' := frame;
    var i := 0;
    while i < |game|
      invariant 0 <= i <= |game|
      invariant AllParsed(GamePairs(game, i))
      invariant frame' == FoldFrom(frame, GamePairs(game, i))
      decreases |game| - i
    {
      FoldFromAppend(frame, GamePairs(game, i), RowPairs(game, i, |game|));
      AllParsedAppend(GamePairs(game, i), RowPairs(game, i, |game|));
      FoldRowIsFold(frame', game, i, |game|);
      RowParsedIsAllParsed(game, i, |game|);
      var rowOk;
      rowOk, frame' := AddRowPairs(game, i, frame');
      if !rowOk {
        GamePairsParsedShrinks(game, i + 1, |game|);
        return false, frame';
      }
      i := i + 1;
    }
    ok := true;
  }

  /** `get_shared_mins_df` once the logs are fetched: for each game date, for each pair of the
      date's rows, the smaller minute value is added to both cells of the pair. `None` stands
      for the `ValueError` raised by a minute text that does not parse. No rows (no usable game
      log) give the empty frame. */
  method GetSharedMins(rows: seq<GameRow>) returns (r: Option<Matrix>)
    ensures r.None? <==> !AllParsed(Contributions(rows))
    ensures r.Some? ==> r.value == Fold(Contributions(rows))
    ensures rows == [] ==> r == Some(EmptyFrame)
  {
    if rows == [] {
      return Some(EmptyFrame);
    }
    var dates := UniqueDates(rows);
    var frame := EmptyFrame;
    var k := 0;
    while k < |dates|
      invariant 0 <= k <= |dates|
      invariant AllParsed(DatePairs(rows, dates, k))
      invariant frame == Fold(DatePairs(rows, dates, k))
      decreases |dates| - k
    {
      var game := GameRows(rows, dates[k]);
      FoldFromAppend(EmptyFrame, DatePairs(rows, dates, k), AllGamePairs(game));
      AllParsedAppend(DatePairs(rows, dates, k), AllGamePairs(game));
      var gameOk;
      gameOk, frame := AddGamePairs(game, frame);
      if !gameOk {
        DatePairsParsedShrinks(rows, dates, k + 1, |dates|);
        return None;
      }
      k := k + 1;
    }
    r := Some(frame);
  }

  /** How much one contribution adds to cell (a, b): its value once for each of the two
      updates that lands on (a, b). */
  function Part(c: Contribution, a: string, b: string): real
  {
    match c.shared
    case Shared(s) => (if c.p1 == a && c.p2 == b then s else 0.0) + (if c.p2 == a && c.p1 == b then s else 0.0)
    case _ => 0.0
  }

  /** The independent reading of a cell: the sum, over every pair of rows visited, of what the
      pair adds to (a, b). */
  function PairTotal(cs: seq<Contribution>, a: string, b: string): real
  {
    if cs == [] then 0.0 else PairTotal(cs[..|cs| - 1], a, b) + Part(cs[|cs| - 1], a, b)
  }

  lemma CellAddShared(m: Matrix, p1: string, p2: string, s: real, a: string, b: string)
    ensures Cell(AddShared(m, p1, p2, s), a, b)
            == Cell(m, a, b) + Part(Contribution(p1, p2, Shared(s)), a, b)
  {
  }

  /** Every cell of the folded matrix is the sum of the shared minutes of the row pairs with
      those two names: each pair counts exactly once, with the smaller of its two values. */
  lemma {:induction false} CellIsPairTotal(cs: seq<Contribution>, a: string, b: string)
    ensures Cell(Fold(cs), a, b) == PairTotal(cs, a, b)
  {
    if cs != [] {
      var c := cs[|cs| - 1];
      CellIsPairTotal(cs[..|cs| - 1], a, b);
      if c.shared.Shared? {
        CellAddShared(Fold(cs[..|cs| - 1]), c.p1, c.p2, c.shared.value, a, b);
      }
    }
  }

  lemma {:induction false} PairTotalSymmetric(cs: seq<Contribution>, a: string, b: string)
    ensures PairTotal(cs, a, b) == PairTotal(cs, b, a)
  {
    if cs != [] {
      PairTotalSymmetric(cs[..|cs| - 1], a, b);
    }
  }

  /** The shared-minutes matrix is symmetric. */
  lemma MatrixSymmetric(rows: seq<GameRow>, a: string, b: string)
    ensures Cell(Fold(Contributions(rows)), a, b) == Cell(Fold(Contributions(rows)), b, a)
  {
    CellIsPairTotal(Contributions(rows), a, b);
    CellIsPairTotal(Contributions(rows), b, a);
    PairTotalSymmetric(Contributions(rows), a, b);
  }

  /** A cell no visited pair with those two names reaches reads as 0. */
  lemma {:induction false} PairTotalUntouched(cs: seq<Contribution>, a: string, b: string)
    requires forall k :: 0 <= k < |cs| ==> !(cs[k].p1 == a && cs[k].p2 == b) && !(cs[k].p1 == b && cs[k].p2 == a)
    ensures PairTotal(cs, a, b) == 0.0
  {
    if cs != [] {
      PairTotalUntouched(cs[..|cs| - 1], a, b);
    }
  }

  /** With non-negative minutes every cell is non-negative. */
  lemma {:induction false} PairTotalNonNegative(cs: seq<Contribution>, a: string, b: string)
    requires forall k :: 0 <= k < |cs| && cs[k].shared.Shared? ==> cs[k].shared.value >= 0.0
    ensures PairTotal(cs, a, b) >= 0.0
  {
    if cs != [] {
      PairTotalNonNegative(cs[..|cs| - 1], a, b);
    }
  }

  predicate NoDuplicates<T(==)>(s: seq<T>)
  {
    forall i, j :: 0 <= i < j < |s| ==> s[i] != s[j]
  }

  /** A name is a label of the frame exactly when it belongs to some pair that added minutes;
      labels are distinct. */
  lemma {:induction false} FoldLabels(cs: seq<Contribution>, x: string)
    ensures NoDuplicates(Fold(cs).labels)
    ensures x in Fold(cs).labels <==>
              exists k :: 0 <= k < |cs| && cs[k].shared.Shared? && (cs[k].p1 == x || cs[k].p2 == x)
  {
    if cs != [] {
      var init := cs[..|cs| - 1];
      FoldLabels(init, x);
      assert forall k :: 0 <= k < |init| ==> init[k] == cs[k];
    }
  }

  /** First index of a greatest value of column `player` among `cands`. */
  function ArgMax(cands: seq<string>, m: Matrix, player: string): (i: nat)
    requires |cands| > 0
    ensures i < |cands|
  {
    if |cands| == 1 then 0
    else
      var i := ArgMax(cands[1..], m, player);
      if Cell(m, player, cands[0]) >= Cell(m, player, cands[i + 1]) then 0 else i + 1
  }

  lemma {:induction false} ArgMaxIsMax(cands: seq<string>, m: Matrix, player: string)
    requires |cands| > 0
    ensures forall j :: 0 <= j < |cands| ==>
              Cell(m, player, cands[j]) <= Cell(m, player, cands[ArgMax(cands, m, player)])
  {
    if |cands| > 1 {
      ArgMaxIsMax(cands[1..], m, player);
      assert forall j :: 1 <= j < |cands| ==> cands[j] == cands[1..][j - 1];
    }
  }

  /** `s` with its `i`-th entry taken out. */
  function Without(s: seq<string>, i: nat): seq<string>
    requires i < |s|
  {
    s[..i] + s[i + 1..]
  }

  lemma WithoutSpec(s: seq<string>, i: nat)
    requires i < |s|
    ensures forall y :: y in Without(s, i) ==> y in s
    ensures forall y :: y in s && y != s[i] ==> y in Without(s, i)
  {
    var rest := Without(s, i);
    forall y | y in s && y != s[i] ensures y in rest {
      var j :| 0 <= j < |s| && s[j] == y;
      assert rest[if j < i then j else j - 1] == y;
    }
  }

  lemma WithoutDistinct(s: seq<string>, i: nat)
    requires i < |s| && NoDuplicates(s)
    ensures s[i] !in Without(s, i) && NoDuplicates(Without(s, i))
  {
    var rest := Without(s, i);
    assert forall a :: 0 <= a < |rest| ==> rest[a] == s[if a < i then a else a + 1];
  }

  /** `shared_minutes_df[player].sort_values(ascending=False).head(k).index`: the labels with
      the k largest values of the player's column, largest first. pandas' default sort is not
      stable, so the order among equal values is not fixed by the source; this picks the first
      label, and the lemmas below hold whichever order ties take. */
  function TopShared(cands: seq<string>, m: Matrix, player: string, k: nat): (top: seq<string>)
    ensures |top| == if k < |cands| then k else |cands|
    decreases k
  {
    if k == 0 || cands == [] then []
    else
      var i := ArgMax(cands, m, player);
      [cands[i]] + TopShared(Without(cands, i), m, player, k - 1)
  }

  /** Only labels of the column are chosen. */
  lemma {:induction false} TopSharedMembers(cands: seq<string>, m: Matrix, player: string, k: nat)
    ensures forall x :: x in TopShared(cands, m, player, k) ==> x in cands
    decreases k
  {
    if k != 0 && cands != [] {
      var i := ArgMax(cands, m, player);
      TopSharedMembers(Without(cands, i), m, player, k - 1);
      WithoutSpec(cands, i);
    }
  }

  /** The chosen labels come largest first. */
  lemma {:induction false} TopSharedSorted(cands: seq<string>, m: Matrix, player: string, k: nat)
    ensures forall a, b :: 0 <= a < b < |TopShared(cands, m, player, k)| ==>
              Cell(m, player, TopShared(cands, m, player, k)[a]) >= Cell(m, player, TopShared(cands, m, player, k)[b])
    decreases k
  {
    if k != 0 && cands != [] {
      var i := ArgMax(cands, m, player);
      var tail := TopShared(Without(cands, i), m, player, k - 1);
      var top := [cands[i]] + tail;
      assert TopShared(cands, m, player, k) == top;
      TopSharedSorted(Without(cands, i), m, player, k - 1);
      TopSharedMembers(Without(cands, i), m, player, k - 1);
      WithoutSpec(cands, i);
      ArgMaxIsMax(cands, m, player);
      forall a, b | 0 <= a < b < |top| ensures Cell(m, player, top[a]) >= Cell(m, player, top[b]) {
        assert top[b] == tail[b - 1];
        if a > 0 {
          assert top[a] == tail[a - 1];
        } else {
          assert tail[b - 1] in cands;
        }
      }
    }
  }

  /** No label left out has a larger value than a chosen one. */
  lemma {:induction false} TopSharedDominates(cands: seq<string>, m: Matrix, player: string, k: nat, y: string)
    requires y in cands && y !in TopShared(cands, m, player, k)
    ensures forall x :: x in TopShared(cands, m, player, k) ==> Cell(m, player, y) <= Cell(m, player, x)
    decreases k
  {
    if k != 0 && cands != [] {
      var i := ArgMax(cands, m, player);
      var rest := Without(cands, i);
      var tail := TopShared(rest, m, player, k - 1);
      assert TopShared(cands, m, player, k) == [cands[i]] + tail;
      assert y in rest && y !in tail by {
        WithoutSpec(cands, i);
      }
      TopSharedDominates(rest, m, player, k - 1, y);
      assert Cell(m, player, y) <= Cell(m, player, cands[i]) by {
        var j :| 0 <= j < |cands| && cands[j] == y;
        ArgMaxIsMax(cands, m, player);
      }
      DominatesCons(cands[i], tail, m, player, y);
    }
  }

  lemma DominatesCons(head: string, tail: seq<string>, m: Matrix, player: string, y: string)
    requires Cell(m, player, y) <= Cell(m, player, head)
    requires forall x :: x in tail ==> Cell(m, player, y) <= Cell(m, player, x)
    ensures forall x :: x in [head] + tail ==> Cell(m, player, y) <= Cell(m, player, x)
  {
  }

  /** Distinct labels give distinct choices. */
  lemma {:induction false} TopSharedDistinct(cands: seq<string>, m: Matrix, player: string, k: nat)
    requires NoDuplicates(cands)
    ensures NoDuplicates(TopShared(cands, m, player, k))
    decreases k
  {
    if k != 0 && cands != [] {
      var i := ArgMax(cands, m, player);
      var tail := TopShared(Without(cands, i), m, player, k - 1);
      var top := [cands[i]] + tail;
      assert TopShared(cands, m, player, k) == top;
      WithoutDistinct(cands, i);
      TopSharedDistinct(Without(cands, i), m, player, k - 1);
      TopSharedMembers(Without(cands, i), m, player, k - 1);
      forall a, b | 0 <= a < b < |top| ensures top[a] != top[b] {
        assert top[b] == tail[b - 1];
        if a > 0 { assert top[a] == tail[a - 1]; }
      }
    }
  }

  /** The name-to-id conversion: names the directory does not know are dropped, the others
      keep their order. */
  function Resolve(names: seq<string>, directory: map<string, int>): (ids: seq<int>)
    ensures |ids| <= |names|
    ensures forall i :: 0 <= i < |ids| ==> ids[i] in directory.Values
    ensures (forall i :: 0 <= i < |names| ==> names[i] in directory) ==>
              |ids| == |names| && forall i :: 0 <= i < |ids| ==> ids[i] == directory[names[i]]
  {
    if names == [] then []
    else
      var n := names[|names| - 1];
      var init := Resolve(names[..|names| - 1], directory);
      assert forall i :: 0 <= i < |names| - 1 ==> names[..|names| - 1][i] == names[i];
      if n in directory then init + [directory[n]] else init
  }

  /** A single name resolves to its id when the directory knows it and to nothing otherwise. */
  lemma ResolveSingle(n: string, directory: map<string, int>)
    ensures Resolve([n], directory) == if n in directory then [directory[n]] else []
  {
    assert [n][..0] == [];
  }

  /** Resolution works name by name: resolving two lists one after the other is resolving
      them joined, so unknown names are dropped and the known ones keep their order. */
  lemma {:induction false} ResolveAppend(a: seq<string>, b: seq<string>, directory: map<string, int>)
    ensures Resolve(a + b, directory) == Resolve(a, directory) + Resolve(b, directory)
    decreases |b|
  {
    if b == [] {
      assert a + b == a;
    } else {
      var init, last := b[..|b| - 1], b[|b| - 1];
      assert (a + b)[..|a + b| - 1] == a + init;
      assert (a + b)[|a + b| - 1] == last;
      ResolveAppend(a, init, directory);
    }
  }

  /** The up to four co-players of `player` in a shared-minutes frame: none when the player is
      not a label of the frame. The column also holds the player's own cell (0), so with fewer
      than four other labels the player can be among the names. */
  function TeammatesOf(m: Matrix, player: string, directory: map<string, int>): (ids: seq<int>)
    ensures |ids| <= 4
  {
    if player !in m.labels then [] else Resolve(TopShared(m.labels, m, player, 4), directory)
  }

  /** The roster holds no one but the player (an id of 0 is never removed). */
  predicate NobodyElse(roster: seq<int>, playerId: int)
  {
    roster == [] || (playerId != 0 && |roster| == 1 && roster[0] == playerId)
  }

  /** `on_court_teammates`: remove the player from their roster; with no one left, no
      teammates; otherwise build the frame from the logs of the remaining ids and the player
      (`rows`), take the player's top-4 column labels, and turn them into ids through the
      directory. `None` stands for the error raised while building the frame. */
  method OnCourtTeammates(roster: seq<int>, playerId: int, playerName: string, rows: seq<GameRow>,
                          directory: map<string, int>) returns (r: Option<seq<int>>)
    ensures NobodyElse(roster, playerId) ==> r == Some([])
    ensures !NobodyElse(roster, playerId) ==>
              (r.None? <==> !AllParsed(Contributions(rows))) &&
              (r.Some? ==> r.value == TeammatesOf(Fold(Contributions(rows)), playerName, directory))
    ensures r.Some? ==> |r.value| <= 4
  {
    var teamIds := ApiClient.RemoveIgnored(roster, Some(playerId));
    if teamIds == [] {
      return Some([]);
    }
    var frame := GetSharedMins(rows);
    if frame.None? {
      return None;
    }
    var m := frame.value;
    if playerName !in m.labels {
      return Some([]);
    }
    var coPlayers := TopShared(m.labels, m, playerName, 4);
    var ids := ResolveNames(coPlayers, directory);
    r := Some(ids);
  }

  /** The loop of `on_court_teammates` that looks each co-player's id up by name. */
  method ResolveNames(names: seq<string>, directory: map<string, int>) returns (ids: seq<int>)
    ensures ids == Resolve(names, directory)
  {
    ids := [];
    var i := 0;
    while i < |names|
      invariant 0 <= i <= |names|
      invariant ids == Resolve(names[..i], directory)
    {
      assert names[..i + 1][..i] == names[..i];
      if names[i] in directory {
        ids := ids + [directory[names[i]]];
      }
      i := i + 1;
    }
    assert names[..i] == names;
  }

  /** `normalize_position`: "G" if the position mentions G, else "C" if it mentions C, else
      "F" (also for a missing or empty position). */
  function NormalizePosition(pos: Option<string>): (c: char)
    ensures c == 'G' || c == 'C' || c == 'F'
    ensures pos.Some? && 'G' in pos.value ==> c == 'G'
    ensures pos.Some? && 'G' !in pos.value && 'C' in pos.value ==> c == 'C'
    ensures (pos.None? || ('G' !in pos.value && 'C' !in pos.value)) ==> c == 'F'
  {
    if pos.None? || pos.value == "" then 'F'
    else if 'G' in pos.value then 'G'
    else if 'C' in pos.value then 'C'
    else 'F'
  }

  /** Normalising a normalised position changes nothing. */
  lemma NormalizePositionIdempotent(pos: Option<string>)
    ensures NormalizePosition(Some([NormalizePosition(pos)])) == NormalizePosition(pos)
  {
  }
}
