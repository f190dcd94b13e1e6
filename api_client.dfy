/** The pure parts of the data-source client: height parsing with its default, the
    height/position lookup fallback, the player-name default, the removal of the queried
    player from a roster, and the two-team possession estimate. The lookups themselves are
    passed in as values (`None` where the lookup fails or finds nothing). */
module ApiClient {
  import opened Common
  import opened Numerals

  /** Height assumed when none is known: six feet. */
  const DefaultHeight: int := 72

  /** `parse_height`: "feet-inches" to inches. `None` stands for the `ValueError` Python raises
      when there is more than one '-' or a piece is not an integer. */
  function ParseHeight(heightStr: Option<string>): (r: Option<int>)
    ensures (heightStr.None? || heightStr.value == "" || '-' !in heightStr.value) ==> r == Some(DefaultHeight)
  {
    if heightStr.None? || heightStr.value == "" || '-' !in heightStr.value then Some(DefaultHeight)
    else
      var parts := Split(heightStr.value, '-');
      if |parts| != 2 then None
      else
        match (ParseInt(parts[0]), ParseInt(parts[1]))
        case (Some(feet), Some(inches)) => Some(feet * 12 + inches)
        case _ => None
  }

  /** How a height is written by the data source: feet, a hyphen, inches. */
  function FormatHeight(feet: nat, inches: nat): string
  {
    NatToString(feet) + "-" + NatToString(inches)
  }

  /** Formatting feet and inches and parsing them back gives 12 * feet + inches. */
  lemma ParseHeightRoundTrip(feet: nat, inches: nat)
    ensures ParseHeight(Some(FormatHeight(feet, inches))) == Some(feet * 12 + inches)
  {
    var a, b := NatToString(feet), NatToString(inches);
    assert '-' !in a && '-' !in b by {
      assert forall i :: 0 <= i < |a| ==> IsDigit(a[i]);
      assert forall i :: 0 <= i < |b| ==> IsDigit(b[i]);
    }
    assert FormatHeight(feet, inches) == a + ['-'] + b;
    assert '-' in FormatHeight(feet, inches) by {
      assert FormatHeight(feet, inches)[|a|] == '-';
    }
    SplitTwo(a, '-', b);
    ParseIntOfNatToString(feet);
    ParseIntOfNatToString(inches);
  }

  /** A height with two hyphens or more ("6-1-0") is malformed. */
  lemma ParseHeightTooManyHyphens(a: string, b: string, c: string)
    requires '-' !in a && '-' !in b
    ensures ParseHeight(Some(a + "-" + b + "-" + c)) == None
  {
    var s := a + "-" + b + "-" + c;
    assert s == a + ['-'] + (b + ['-'] + c);
    assert s[|a|] == '-';
    SplitAtFirst(a, '-', b + ['-'] + c);
    SplitAtFirst(b, '-', c);
  }

  /** A height whose feet or inches piece is not an integer ("six-1") is malformed. */
  lemma ParseHeightNotInteger(a: string, b: string)
    requires '-' !in a && '-' !in b
    requires ParseInt(a).None? || ParseInt(b).None?
    ensures ParseHeight(Some(a + "-" + b)) == None
  {
    var s := a + "-" + b;
    assert s == a + ['-'] + b;
    assert s[|a|] == '-';
    SplitTwo(a, '-', b);
  }

  /** What the player-information lookup returns for one player. */
  datatype PlayerInfo = PlayerInfo(height: Option<string>, position: Option<string>)

  /** `get_player_height_and_position`: the parsed height and the position, or (72, "G") when
      the lookup fails or the height is malformed. */
  function HeightAndPosition(info: Option<PlayerInfo>): (r: (int, Option<string>))
    ensures info.None? ==> r == (DefaultHeight, Some("G"))
    ensures info.Some? && ParseHeight(info.value.height).None? ==> r == (DefaultHeight, Some("G"))
    ensures info.Some? && ParseHeight(info.value.height).Some? ==>
              r == (ParseHeight(info.value.height).value, info.value.position)
  {
    if info.None? then (DefaultHeight, Some("G"))
    else match ParseHeight(info.value.height)
      case None => (DefaultHeight, Some("G"))
      case Some(h) => (h, info.value.position)
  }

  /** `get_player_name`: the player's full name, or "Empty" when the lookup finds nobody. */
  function PlayerName(found: Option<string>): (name: string)
    ensures found.None? ==> name == "Empty"
    ensures found.Some? ==> name == found.value
  {
    match found
    case None => "Empty"
    case Some(n) => n
  }

  /** `get_team_ids_from_player_id`'s final step: when `ignoreId` is truthy (present and not
      0) and on the roster, its first occurrence is removed (Python's `list.remove`); every
      other id keeps its place. */
  method RemoveIgnored(ids: seq<int>, ignoreId: Option<int>) returns (r: seq<int>)
    ensures (ignoreId.None? || ignoreId.value == 0 || ignoreId.value !in ids) ==> r == ids
    ensures ignoreId.Some? && ignoreId.value != 0 && ignoreId.value in ids ==>
              |r| == |ids| - 1 &&
              exists k :: 0 <= k < |ids| && ids[k] == ignoreId.value &&
                (forall j :: 0 <= j < k ==> ids[j] != ignoreId.value) &&
                r == ids[..k] + ids[k + 1..]
    ensures multiset(r) == if ignoreId.Some? && ignoreId.value != 0 && ignoreId.value in ids
                           then multiset(ids) - multiset{ignoreId.value} else multiset(ids)
  {
    r := ids;
    if ignoreId.Some? && ignoreId.value != 0 && ignoreId.value in ids {
      var x := ignoreId.value;
      var i := 0;
      while ids[i] != x
        invariant 0 <= i < |ids|
        invariant forall j :: 0 <= j < i ==> ids[j] != x
        invariant x in ids[i..]
        decreases |ids| - i
      {
        assert ids[i..] == [ids[i]] + ids[i + 1..];
        i := i + 1;
      }
      r := ids[..i] + ids[i + 1..];
      assert ids == ids[..i] + [x] + ids[i + 1..];
      assert multiset(ids) == multiset(ids[..i]) + multiset{x} + multiset(ids[i + 1..]);
    }
  }

  /** One team's season aggregates against a given opponent. */
  datatype TeamBox = TeamBox(fga: real, fta: real, oreb: real, tov: real)

  /** The standard possession count for one side: FGA + 0.44 * FTA - OREB + TOV. */
  function SidePossessions(t: TeamBox): real
  {
    t.fga + 0.44 * t.fta - t.oreb + t.tov
  }

  /** `calculate_team_possessions`: the mean of the two sides' possession counts; `None` where the
      filtered frame has no row for a team (the source's `iloc[0]` raises). */
  function TeamPossessions(home: Option<TeamBox>, opp: Option<TeamBox>): (r: Option<real>)
    ensures r.Some? <==> home.Some? && opp.Some?
    ensures r.Some? ==> Min(SidePossessions(home.value), SidePossessions(opp.value)) <= r.value
                          <= Max(SidePossessions(home.value), SidePossessions(opp.value))
  {
    if home.None? || opp.None? then None
    else Some(0.5 * (SidePossessions(home.value) + SidePossessions(opp.value)))
  }

  /** Swapping the home and opponent aggregates leaves the estimate unchanged. */
  lemma TeamPossessionsSwap(home: Option<TeamBox>, opp: Option<TeamBox>)
    ensures TeamPossessions(home, opp) == TeamPossessions(opp, home)
  {
  }

  /** The worked example: (80, 20, 10, 15) against (75, 18, 8, 12) gives 90.36 possessions. */
  lemma TeamPossessionsExample()
    ensures TeamPossessions(Some(TeamBox(80.0, 20.0, 10.0, 15.0)), Some(TeamBox(75.0, 18.0, 8.0, 12.0)))
            == Some(90.36)
  {
  }
}
