/** The configured target players, grouped by team, the flat list built from them, and the
    lookup of a player's team. */
module Constants {
  import opened Common

  /** Which of the two configured teams a target player is on. */
  datatype TeamSlot = Team1 | Team2

  const Team1Players: seq<string> := ["Bridget Carleton", "Alanna Smith", "Napheesa Collier"]
  const Team2Players: seq<string> := ["Alyssa Thomas", "Kahleah Copper", "Satou Sabally"]

  /** The TEAM1 names followed by the TEAM2 names. */
  const TargetPlayersFlat: seq<string> := Team1Players + Team2Players

  /** `get_player_team_assignment`: the TEAM1 list is checked first, so a name on both lists
      is a TEAM1 player; a name on neither gets no team. */
  function TeamAssignment(name: string, team1: seq<string>, team2: seq<string>): (t: Option<TeamSlot>)
    ensures t == Some(Team1) <==> name in team1
    ensures t == Some(Team2) <==> name !in team1 && name in team2
    ensures t.None? <==> name !in team1 && name !in team2
  {
    if name in team1 then Some(Team1)
    else if name in team2 then Some(Team2)
    else None
  }

  /** The assignment over the configured lists. */
  function PlayerTeamAssignment(name: string): Option<TeamSlot>
  {
    TeamAssignment(name, Team1Players, Team2Players)
  }

  /** Every name of a flat list built as TEAM1 + TEAM2 gets a team, and the first part of the
      list is exactly the TEAM1 players. */
  lemma {:induction false} FlatListAssigned(team1: seq<string>, team2: seq<string>)
    ensures forall i :: 0 <= i < |team1 + team2| ==> TeamAssignment((team1 + team2)[i], team1, team2).Some?
    ensures forall i :: 0 <= i < |team1| ==> TeamAssignment((team1 + team2)[i], team1, team2) == Some(Team1)
  {
    forall i | 0 <= i < |team1 + team2| ensures TeamAssignment((team1 + team2)[i], team1, team2).Some? {
      if i < |team1| {
        assert (team1 + team2)[i] == team1[i];
      } else {
        assert (team1 + team2)[i] == team2[i - |team1|];
      }
    }
    forall i | 0 <= i < |team1| ensures TeamAssignment((team1 + team2)[i], team1, team2) == Some(Team1) {
      assert (team1 + team2)[i] == team1[i];
    }
  }

  /** The configured lists: six target players, three per team, with no player on both. */
  lemma ConfiguredTargets()
    ensures |TargetPlayersFlat| == 6
    ensures forall i :: 0 <= i < 3 ==> PlayerTeamAssignment(TargetPlayersFlat[i]) == Some(Team1)
    ensures forall i :: 3 <= i < 6 ==> PlayerTeamAssignment(TargetPlayersFlat[i]) == Some(Team2)
  {
    FlatListAssigned(Team1Players, Team2Players);
    assert forall i :: 3 <= i < 6 ==> TargetPlayersFlat[i] == Team2Players[i - 3];
    assert forall j :: 0 <= j < 3 ==> Team2Players[j] !in Team1Players;
  }
}
