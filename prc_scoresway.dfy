/**
 * Flattening of the Scoresway (Opta) documents into tables: the matches of a
 * season, the squads (teams, players, managers), the five standings tables
 * and, per match, the goals, the two team-statistics rows and the player
 * statistics of both lineups.
 */
module ScoreswayFlatten {
  import opened Wrappers
  import opened Dicts
  import opened Text
  import opened Json
  import opened Frames
  import opened Seqs

  // ---------------------------------------------------------------- names and slugs

  /** `f'{a} {b}'`: two values printed with a space between them. */
  function Spaced(a: Json, b: Json): (r: string)
    ensures |r| == |Display(a)| + 1 + |Display(b)| && r[|Display(a)|] == ' '
  {
    Display(a) + " " + Display(b)
  }

  /** A contestant's `code`; a value that is not a string reads as `''`. */
  function CodeOf(c: Json): string
  {
    StrOf(Get(c, "code", EmptyStr))
  }

  /** The match slug `code0-code1`, both codes lower-cased. */
  function Slug(c0: Json, c1: Json): (r: string)
    ensures forall i :: 0 <= i < |r| ==> !('A' <= r[i] <= 'Z')
  {
    Lower(CodeOf(c0)) + "-" + Lower(CodeOf(c1))
  }

  /** `contestant[0]` and `contestant[1]`: nothing when the list has fewer than two entries. */
  function Contestants(cs: Json): (r: Option<(Json, Json)>)
    ensures r.Some? <==> At(cs, 1).Some?
    ensures r.Some? ==> At(cs, 0) == Some(r.value.0) && At(cs, 1) == Some(r.value.1)
  {
    if cs.JArr? && |cs.items| >= 2 then Some((cs.items[0], cs.items[1])) else None
  }

  /** Lower-casing does not create a character that is not a capital letter. */
  lemma LowerAbsent(s: string, c: char)
    requires c !in s && !('A' <= c <= 'Z') && !('a' <= c <= 'z')
    ensures c !in Lower(s)
  {
    forall i | 0 <= i < |s| ensures Lower(s)[i] != c {
      assert Lower(s)[i] == LowerChar(s[i]);
    }
  }

  /**
   * The slug splits back into the two lower-cased codes when neither code
   * holds a `-`: `FCB` and `RMA` give `fcb-rma`, which splits into `fcb`, `rma`.
   */
  lemma SlugSplit(c0: Json, c1: Json)
    requires '-' !in CodeOf(c0) && '-' !in CodeOf(c1)
    ensures SplitOn(Slug(c0, c1), '-') == [Lower(CodeOf(c0)), Lower(CodeOf(c1))]
  {
    var a := Lower(CodeOf(c0));
    var b := Lower(CodeOf(c1));
    LowerAbsent(CodeOf(c0), '-');
    LowerAbsent(CodeOf(c1), '-');
    SplitOnJoin(a, '-', b);
    SplitOnNone(b, '-');
    assert Slug(c0, c1) == a + ['-'] + b;
  }

  // ---------------------------------------------------------------- matches

  /** The first official's name; `''` when the list is missing, empty or its first entry is not a dict. */
  function Referee(live: Json): string
  {
    match At(Get(GetObj(live, "matchDetailsExtra"), "matchOfficial", JNull), 0)
    case None => ""
    case Some(o) => if o.JObj? then Spaced(Get(o, "firstName", EmptyStr), Get(o, "lastName", EmptyStr)) else ""
  }

  /** The referee is `''` exactly when looking up the first official fails. */
  lemma RefereeEmpty(live: Json)
    ensures var o := At(Get(GetObj(live, "matchDetailsExtra"), "matchOfficial", JNull), 0);
      Referee(live) == "" <==> o.None? || !o.value.JObj?
  {
  }

  const MatchColumns: seq<string> :=
    ["id", "slug", "date", "time", "home_team", "away_team", "venue",
     "attendance", "match_min", "home_score_ht", "away_score_ht", "home_score_ft", "away_score_ft", "referee"]

  /** The fields of a match row read from `matchInfo` and the two contestants. */
  function MatchHead(info: Json, c0: Json, c1: Json): (r: Dict)
    ensures Keys(r) == MatchColumns[..7]
  {
    [("id", Get(info, "id", EmptyStr)),
     ("slug", JStr(Slug(c0, c1))),
     ("date", Get(info, "date", EmptyStr)),
     ("time", Get(info, "time", EmptyStr)),
     ("home_team", Get(c0, "officialName", EmptyStr)),
     ("away_team", Get(c1, "officialName", EmptyStr)),
     ("venue", Get(GetObj(info, "venue"), "longName", EmptyStr))]
  }

  /** `matchDetails.scores[half][side]`, 0 when absent. */
  function Score(live: Json, half: string, side: string): Json
  {
    Get(GetObj(GetObj(GetObj(live, "matchDetails"), "scores"), half), side, Zero)
  }

  /** The fields of a match row read from `liveData`. */
  function MatchTail(live: Json): (r: Dict)
    ensures Keys(r) == MatchColumns[7..]
  {
    [("attendance", Get(GetObj(live, "matchDetailsExtra"), "attendance", Zero)),
     ("match_min", Get(GetObj(live, "matchDetails"), "matchLengthMin", JInt(90))),
     ("home_score_ht", Score(live, "ht", "home")),
     ("away_score_ht", Score(live, "ht", "away")),
     ("home_score_ft", Score(live, "ft", "home")),
     ("away_score_ft", Score(live, "ft", "away")),
     ("referee", JStr(Referee(live)))]
  }

  /** The contestants of a match. */
  function MatchContestants(m: Json): Option<(Json, Json)>
  {
    Contestants(Get(GetObj(m, "matchInfo"), "contestant", JNull))
  }

  /** One match row; nothing when the match has fewer than two contestants (the source raises). */
  function MatchRecord(m: Json): (r: Option<Dict>)
    ensures r.Some? <==> MatchContestants(m).Some?
    ensures r.Some? ==> Keys(r.value) == MatchColumns
  {
    match MatchContestants(m)
    case None => None
    case Some((c0, c1)) =>
      var r := MatchHead(GetObj(m, "matchInfo"), c0, c1) + MatchTail(GetObj(m, "liveData"));
      KeysConcat(MatchHead(GetObj(m, "matchInfo"), c0, c1), MatchTail(GetObj(m, "liveData")));
      assert MatchColumns == MatchColumns[..7] + MatchColumns[7..];
      Some(r)
  }

  /** In a match row, a live-data column holds what the live-data part stores there. */
  lemma MatchTailLookup(head: Dict, tail: Dict, i: nat)
    requires Keys(head) == MatchColumns[..7] && Keys(tail) == MatchColumns[7..]
    requires 7 <= i < |MatchColumns|
    ensures Lookup(head + tail, MatchColumns[i]) == Some(tail[i - 7].1)
  {
    assert tail[i - 7].0 == MatchColumns[i];
    FieldAfter(head, tail, i - 7);
  }

  /** The live-data part of a match row when there is no live data. */
  lemma MatchTailEmpty()
    ensures MatchTail(EmptyObj) ==
      [("attendance", Zero), ("match_min", JInt(90)), ("home_score_ht", Zero), ("away_score_ht", Zero),
       ("home_score_ft", Zero), ("away_score_ft", Zero), ("referee", JStr(""))]
  {
  }

  /**
   * A match without `liveData` gets the documented defaults: attendance 0,
   * a 90-minute length, 0 for each half-time and full-time score, no referee.
   */
  lemma MatchDefaults(m: Json)
    requires MatchRecord(m).Some? && !Has(m, "liveData")
    ensures Lookup(MatchRecord(m).value, "match_min") == Some(JInt(90))
    ensures Lookup(MatchRecord(m).value, "attendance") == Some(Zero)
    ensures forall i :: 9 <= i < 13 ==> Lookup(MatchRecord(m).value, MatchColumns[i]) == Some(Zero)
    ensures Lookup(MatchRecord(m).value, "referee") == Some(JStr(""))
  {
    GetDefaultOnlyWhenAbsent(m, "liveData", EmptyObj, EmptyObj);
    var (c0, c1) := MatchContestants(m).value;
    var head := MatchHead(GetObj(m, "matchInfo"), c0, c1);
    assert MatchRecord(m).value == head + MatchTail(EmptyObj);
    MatchTailEmpty();
    MatchRowDefaults(head);
  }

  /** A match row whose live-data part is the one of an empty `liveData`. */
  lemma MatchRowDefaults(head: Dict)
    requires Keys(head) == MatchColumns[..7]
    ensures var tail := MatchTail(EmptyObj);
      && Lookup(head + tail, "match_min") == Some(JInt(90))
      && Lookup(head + tail, "attendance") == Some(Zero)
      && (forall i :: 9 <= i < 13 ==> Lookup(head + tail, MatchColumns[i]) == Some(Zero))
      && Lookup(head + tail, "referee") == Some(JStr(""))
  {
    var tail := MatchTail(EmptyObj);
    MatchTailEmpty();
    forall i | 7 <= i < 14 ensures Lookup(head + tail, MatchColumns[i]) == Some(tail[i - 7].1) {
      MatchTailLookup(head, tail, i);
    }
    assert MatchColumns[7] == "attendance" && MatchColumns[8] == "match_min" && MatchColumns[13] == "referee";
  }

  /** The matches of the season document: `match`, or nothing when absent. */
  function MatchList(doc: Json): seq<Json>
  {
    Items(Get(doc, "match", EmptyArr))
  }

  /** The matches table; nothing when some match has fewer than two contestants. */
  function MatchesTable(doc: Json): Option<Frame>
  {
    match AllSome(MatchList(doc), MatchRecord)
    case None => None
    case Some(recs) => Some(FromRecords(recs))
  }

  /** `matches_processing`: one row per match, in order. */
  method MatchesProcessing(doc: Json) returns (r: Option<Frame>)
    ensures r == MatchesTable(doc)
  {
    var matches := MatchList(doc);
    var rows: seq<Dict> := [];
    var i := 0;
    while i < |matches|
      invariant 0 <= i <= |matches|
      invariant AllSome(matches[..i], MatchRecord) == Some(rows)
    {
      AllSomePrefix(matches, i, MatchRecord);
      var rec := MatchRecord(matches[i]);
      if rec.None? {
        AllSomeFailed(matches, i + 1, MatchRecord);
        return None;
      }
      rows := rows + [rec.value];
      i := i + 1;
    }
    assert matches[..i] == matches;
    r := Some(FromRecords(rows));
  }

  lemma MatchColumnsDistinct()
    ensures Distinct(MatchColumns)
  {
  }

  /**
   * The matches table exists exactly when every match has two contestants;
   * it then has one row per match, in order, with the fourteen columns.
   */
  lemma MatchesTableRows(doc: Json)
    ensures MatchesTable(doc).Some? <==>
      forall i :: 0 <= i < |MatchList(doc)| ==> MatchContestants(MatchList(doc)[i]).Some?
    ensures MatchesTable(doc).Some? ==>
      && |MatchesTable(doc).value.rows| == |MatchList(doc)|
      && (forall i :: 0 <= i < |MatchList(doc)| ==>
            MatchesTable(doc).value.rows[i] == RowOf(MatchRecord(MatchList(doc)[i]).value))
      && (MatchList(doc) != [] ==> MatchesTable(doc).value.columns == MatchColumns)
  {
    var ms := MatchList(doc);
    AllSomeNone(ms, MatchRecord);
    var all := AllSome(ms, MatchRecord);
    if all.Some? {
      var recs := all.value;
      if ms != [] {
        AllSomeAt(ms, MatchRecord, 0);
      }
      forall i | 0 <= i < |ms| ensures MatchRecord(ms[i]) == Some(recs[i]) {
        AllSomeAt(ms, MatchRecord, i);
      }
      if ms != [] {
        MatchColumnsDistinct();
        ColumnsUniform(recs, MatchColumns);
      }
    }
  }

  // ---------------------------------------------------------------- squads

  const TeamColumns: seq<string> := ["id", "code", "slug", "name", "club_name", "short_name", "venue"]

  function SquadName(squad: Json): Json
  {
    Get(squad, "contestantName", EmptyStr)
  }

  /** The team row of a squad; its slug is the lower-cased contestant code. */
  function TeamRecord(squad: Json): (r: Dict)
    ensures Keys(r) == TeamColumns
  {
    [("id", Get(squad, "contestantId", EmptyStr)),
     ("code", Get(squad, "contestantCode", EmptyStr)),
     ("slug", JStr(Lower(StrOf(Get(squad, "contestantCode", EmptyStr))))),
     ("name", SquadName(squad)),
     ("club_name", Get(squad, "contestantClubName", EmptyStr)),
     ("short_name", Get(squad, "contestantShortName", EmptyStr)),
     ("venue", Get(squad, "venueName", EmptyStr))]
  }

  /** An active player: of type `player` and with a truthy shirt number. */
  predicate IsPlayer(p: Json)
  {
    Get(p, "type", EmptyStr) == JStr("player") && Truthy(Get(p, "shirtNumber", JNull))
  }

  /** A member of the staff: any type other than `player`. */
  predicate IsManager(p: Json)
  {
    Get(p, "type", EmptyStr) != JStr("player")
  }

  /** The fields players and managers share; `team` is the squad's name. */
  function PersonHead(p: Json, team: Json): (r: Dict)
    ensures Keys(r) == ["id", "name", "short_name", "match_name", "first_name", "last_name", "team", "nationality"]
  {
    var first := Get(p, "firstName", EmptyStr);
    var last := Get(p, "lastName", EmptyStr);
    [("id", Get(p, "id", EmptyStr)),
     ("name", JStr(Spaced(first, last))),
     ("short_name", JStr(Spaced(Get(p, "shortFirstName", EmptyStr), Get(p, "shortLastName", EmptyStr)))),
     ("match_name", Get(p, "matchName", EmptyStr)),
     ("first_name", first),
     ("last_name", last),
     ("team", team),
     ("nationality", Get(p, "nationality", EmptyStr))]
  }

  function PlayerRecord(p: Json, team: Json): Dict
  {
    PersonHead(p, team) + [("position", Get(p, "position", EmptyStr)), ("shirt_number", Get(p, "shirtNumber", EmptyStr))]
  }

  function ManagerRecord(p: Json, team: Json): Dict
  {
    PersonHead(p, team) + [("type", Get(p, "type", EmptyStr))]
  }

  /** The people of a squad: `person`, or nobody when absent. */
  function Persons(squad: Json): seq<Json>
  {
    Items(Get(squad, "person", EmptyArr))
  }

  function SquadPlayers(squad: Json): seq<Dict>
  {
    Keep(Persons(squad), IsPlayer, p => PlayerRecord(p, SquadName(squad)))
  }

  function SquadManagers(squad: Json): seq<Dict>
  {
    Keep(Persons(squad), IsManager, p => ManagerRecord(p, SquadName(squad)))
  }

  /** The squads of the document: `squad`, or none when absent. */
  function SquadList(doc: Json): seq<Json>
  {
    Items(Get(doc, "squad", JNull))
  }

  datatype Squads = Squads(teams: Frame, players: Frame, managers: Frame)

  /** The three tables: a team per squad, then the players and the managers of every squad in order. */
  function SquadsTables(doc: Json): Squads
  {
    var squads := SquadList(doc);
    Squads(FromRecords(Keep(squads, AcceptAll, TeamRecord)),
           FromRecords(FlatMap(squads, SquadPlayers)),
           FromRecords(FlatMap(squads, SquadManagers)))
  }

  /** The inner loop of `squads_processing`: the players and the managers of one squad. */
  method SquadPeople(squad: Json) returns (players: seq<Dict>, managers: seq<Dict>)
    ensures players == SquadPlayers(squad) && managers == SquadManagers(squad)
  {
    var people := Persons(squad);
    var name := SquadName(squad);
    players, managers := [], [];
    var j := 0;
    while j < |people|
      invariant 0 <= j <= |people|
      invariant players == Keep(people[..j], IsPlayer, p => PlayerRecord(p, name))
      invariant managers == Keep(people[..j], IsManager, p => ManagerRecord(p, name))
    {
      KeepPrefix(people, j, IsPlayer, p => PlayerRecord(p, name));
      KeepPrefix(people, j, IsManager, p => ManagerRecord(p, name));
      var p := people[j];
      if Get(p, "type", EmptyStr) == JStr("player") && Truthy(Get(p, "shirtNumber", JNull)) {
        players := players + [PlayerRecord(p, name)];
      } else if Get(p, "type", EmptyStr) != JStr("player") {
        managers := managers + [ManagerRecord(p, name)];
      }
      j := j + 1;
    }
    assert people[..j] == people;
  }

  /** `squads_processing`. */
  method SquadsProcessing(doc: Json) returns (r: Squads)
    ensures r == SquadsTables(doc)
  {
    var squads := SquadList(doc);
    var teams: seq<Dict> := [];
    var players: seq<Dict> := [];
    var managers: seq<Dict> := [];
    var i := 0;
    while i < |squads|
      invariant 0 <= i <= |squads|
      invariant teams == Keep(squads[..i], AcceptAll, TeamRecord)
      invariant players == FlatMap(squads[..i], SquadPlayers)
      invariant managers == FlatMap(squads[..i], SquadManagers)
    {
      KeepPrefix(squads, i, AcceptAll, TeamRecord);
      FlatMapPrefix(squads, i, SquadPlayers);
      FlatMapPrefix(squads, i, SquadManagers);
      teams := teams + [TeamRecord(squads[i])];
      var ps, ms := SquadPeople(squads[i]);
      players := players + ps;
      managers := managers + ms;
      i := i + 1;
    }
    assert squads[..i] == squads;
    r := Squads(FromRecords(teams), FromRecords(players), FromRecords(managers));
  }

  /** The teams table has one row per squad, in order, with the seven columns. */
  lemma TeamsTable(squads: seq<Json>)
    ensures var f := FromRecords(Keep(squads, AcceptAll, TeamRecord));
      && |f.rows| == |squads|
      && (squads != [] ==> f.columns == TeamColumns)
      && forall i :: 0 <= i < |squads| ==> f.rows[i] == RowOf(TeamRecord(squads[i]))
  {
    KeepEvery(squads, AcceptAll, TeamRecord);
    if squads != [] {
      ColumnsUniform(Keep(squads, AcceptAll, TeamRecord), TeamColumns);
    }
  }

  /** A team's slug is its contestant code lower-cased. */
  lemma TeamSlug(squad: Json)
    ensures Lookup(TeamRecord(squad), "slug") == Some(JStr(Lower(StrOf(Get(squad, "contestantCode", EmptyStr)))))
  {
    FieldAt(TeamRecord(squad), 2);
  }

  /**
   * The players table holds exactly the rows of the people of every squad
   * that are of type `player` with a truthy shirt number.
   */
  lemma PlayersPlacement(squads: seq<Json>)
    ensures forall r :: r in FromRecords(FlatMap(squads, SquadPlayers)).rows ==>
      exists s, p :: s in squads && p in Persons(s) && IsPlayer(p) && r == RowOf(PlayerRecord(p, SquadName(s)))
    ensures forall s, p :: s in squads && p in Persons(s) && IsPlayer(p) ==>
      RowOf(PlayerRecord(p, SquadName(s))) in FromRecords(FlatMap(squads, SquadPlayers)).rows
  {
    var recs := FlatMap(squads, SquadPlayers);
    var f := FromRecords(recs);
    forall r | r in f.rows
      ensures exists s, p :: s in squads && p in Persons(s) && IsPlayer(p) && r == RowOf(PlayerRecord(p, SquadName(s)))
    {
      var i :| 0 <= i < |f.rows| && f.rows[i] == r;
      assert recs[i] in recs;
      FlatMapSound(squads, SquadPlayers, recs[i]);
      var s :| s in squads && recs[i] in SquadPlayers(s);
      KeepSound(Persons(s), IsPlayer, p => PlayerRecord(p, SquadName(s)), recs[i]);
    }
    forall s, p | s in squads && p in Persons(s) && IsPlayer(p)
      ensures RowOf(PlayerRecord(p, SquadName(s))) in f.rows
    {
      KeepComplete(Persons(s), IsPlayer, q => PlayerRecord(q, SquadName(s)), p);
      FlatMapComplete(squads, SquadPlayers, s, PlayerRecord(p, SquadName(s)));
      var i :| 0 <= i < |recs| && recs[i] == PlayerRecord(p, SquadName(s));
      assert f.rows[i] == RowOf(PlayerRecord(p, SquadName(s)));
    }
  }

  /** The managers table holds exactly the rows of the people of every squad not of type `player`. */
  lemma ManagersPlacement(squads: seq<Json>)
    ensures forall r :: r in FromRecords(FlatMap(squads, SquadManagers)).rows ==>
      exists s, p :: s in squads && p in Persons(s) && IsManager(p) && r == RowOf(ManagerRecord(p, SquadName(s)))
    ensures forall s, p :: s in squads && p in Persons(s) && IsManager(p) ==>
      RowOf(ManagerRecord(p, SquadName(s))) in FromRecords(FlatMap(squads, SquadManagers)).rows
  {
    var recs := FlatMap(squads, SquadManagers);
    var f := FromRecords(recs);
    forall r | r in f.rows
      ensures exists s, p :: s in squads && p in Persons(s) && IsManager(p) && r == RowOf(ManagerRecord(p, SquadName(s)))
    {
      var i :| 0 <= i < |f.rows| && f.rows[i] == r;
      assert recs[i] in recs;
      FlatMapSound(squads, SquadManagers, recs[i]);
      var s :| s in squads && recs[i] in SquadManagers(s);
      KeepSound(Persons(s), IsManager, p => ManagerRecord(p, SquadName(s)), recs[i]);
    }
    forall s, p | s in squads && p in Persons(s) && IsManager(p)
      ensures RowOf(ManagerRecord(p, SquadName(s))) in f.rows
    {
      KeepComplete(Persons(s), IsManager, q => ManagerRecord(q, SquadName(s)), p);
      FlatMapComplete(squads, SquadManagers, s, ManagerRecord(p, SquadName(s)));
      var i :| 0 <= i < |recs| && recs[i] == ManagerRecord(p, SquadName(s));
      assert f.rows[i] == RowOf(ManagerRecord(p, SquadName(s)));
    }
  }

  /**
   * Nobody is both an active player and a manager, and a `player` without a
   * truthy shirt number is neither.
   */
  lemma PersonKinds(p: Json)
    ensures !(IsPlayer(p) && IsManager(p))
    ensures Get(p, "type", EmptyStr) == JStr("player") && !Truthy(Get(p, "shirtNumber", JNull)) ==>
      !IsPlayer(p) && !IsManager(p)
  {
  }

  /** Every player and manager row names its squad as `team`. */
  lemma PersonTeam(p: Json, team: Json)
    ensures Lookup(PlayerRecord(p, team), "team") == Some(team)
    ensures Lookup(ManagerRecord(p, team), "team") == Some(team)
  {
    var h := PersonHead(p, team);
    FieldAt(h, 6);
    LookupConcat(h, [("position", Get(p, "position", EmptyStr)), ("shirt_number", Get(p, "shirtNumber", EmptyStr))], "team");
    LookupConcat(h, [("type", Get(p, "type", EmptyStr))], "team");
    LookupHasKey(h, "team");
  }

  // ---------------------------------------------------------------- standings

  const TotalColumns: seq<string> :=
    ["rank", "status", "team", "points", "matches_played", "wins", "draws", "losses", "goals_for", "goals_against"]
  const SplitColumns: seq<string> :=
    ["rank", "team", "points", "matches_played", "wins", "draws", "losses", "goals_for", "goals_against"]
  const AttendanceColumns: seq<string> :=
    ["rank", "team", "venue_name", "min_attendance", "max_attendance", "total_attendance",
     "avg_attendance", "capacity", "percent_sold"]

  /** The partitions sharing the columns of the total table without `status`. */
  const SplitKinds: seq<string> := ["home", "away", "half"]

  /** The result columns shared by the total, home, away and half-time tables: `draws` and `losses` swapped. */
  function Results(t: Json): (r: Dict)
    ensures Keys(r) == TotalColumns[3..]
  {
    [("points", Get(t, "points", Zero)),
     ("matches_played", Get(t, "matchesPlayed", Zero)),
     ("wins", Get(t, "matchesWon", Zero)),
     ("draws", Get(t, "matchesLost", Zero)),
     ("losses", Get(t, "matchesDrawn", Zero)),
     ("goals_for", Get(t, "goalsFor", Zero)),
     ("goals_against", Get(t, "goalsAgainst", Zero))]
  }

  function TeamOf(t: Json): Json
  {
    Get(t, "contestantName", EmptyStr)
  }

  function AttendanceRecord(t: Json): (r: Dict)
    ensures Keys(r) == AttendanceColumns
  {
    [("rank", Get(t, "rank", Zero)),
     ("team", TeamOf(t)),
     ("venue_name", Get(t, "venueName", EmptyStr)),
     ("min_attendance", Get(t, "minimumAttendance", Zero)),
     ("max_attendance", Get(t, "maximumAttendance", Zero)),
     ("total_attendance", Get(t, "totalAttendance", Zero)),
     ("avg_attendance", Get(t, "averageAttendance", Zero)),
     ("capacity", Get(t, "capacity", Zero)),
     ("percent_sold", Get(t, "percentSold", Zero))]
  }

  /** A partition type that produces rows; any other type produces none. */
  predicate KnownKind(kind: string)
  {
    kind == "total" || kind in SplitKinds || kind == "attendance"
  }

  function TotalRecord(t: Json): (r: Dict)
    ensures Keys(r) == TotalColumns
  {
    var head := [("rank", Get(t, "rank", Zero)), ("status", Get(t, "rankStatus", EmptyStr)), ("team", TeamOf(t))];
    KeysConcat(head, Results(t));
    assert TotalColumns == TotalColumns[..3] + TotalColumns[3..];
    head + Results(t)
  }

  /** A row of the home, away or half-time table: the total row without `status`. */
  function SplitRecord(t: Json): (r: Dict)
    ensures Keys(r) == SplitColumns
  {
    var head := [("rank", Get(t, "rank", Zero)), ("team", TeamOf(t))];
    KeysConcat(head, Results(t));
    assert SplitColumns == SplitColumns[..2] + TotalColumns[3..];
    head + Results(t)
  }

  /** One team of a standings table of the given type. */
  function StandingRecord(t: Json, kind: string): Dict
  {
    if kind == "total" then TotalRecord(t)
    else if kind in SplitKinds then SplitRecord(t)
    else AttendanceRecord(t)
  }

  /** The columns of a table of the given type. */
  function KindColumns(kind: string): seq<string>
  {
    if kind == "total" then TotalColumns else if kind in SplitKinds then SplitColumns else AttendanceColumns
  }

  function PartRecords(teams: seq<Json>, kind: string): seq<Dict>
  {
    Keep(teams, t => KnownKind(kind), t => StandingRecord(t, kind))
  }

  /** `part_standings_table`. */
  method PartStandingsTable(teams: seq<Json>, kind: string) returns (f: Frame)
    ensures f == FromRecords(PartRecords(teams, kind))
  {
    var rows: seq<Dict> := [];
    var i := 0;
    while i < |teams|
      invariant 0 <= i <= |teams|
      invariant rows == PartRecords(teams[..i], kind)
    {
      KeepPrefix(teams, i, t => KnownKind(kind), t => StandingRecord(t, kind));
      var t := teams[i];
      if kind == "total" {
        rows := rows + [TotalRecord(t)];
      } else if kind in SplitKinds {
        rows := rows + [SplitRecord(t)];
      } else if kind == "attendance" {
        rows := rows + [AttendanceRecord(t)];
      }
      i := i + 1;
    }
    assert teams[..i] == teams;
    f := FromRecords(rows);
  }

  /**
   * Each type has its own column set: the home, away and half-time tables
   * are the total table without `status`.
   */
  lemma StandingKeys(t: Json, kind: string)
    requires KnownKind(kind)
    ensures Keys(StandingRecord(t, kind)) == KindColumns(kind)
    ensures SplitColumns == TotalColumns[..1] + TotalColumns[2..]
  {
  }

  /** The result columns, after any head without `draws` and `losses`, read the swapped counts. */
  lemma ResultsSwapped(head: Dict, t: Json)
    requires !HasKey(head, "draws") && !HasKey(head, "losses")
    ensures Lookup(head + Results(t), "draws") == Some(Get(t, "matchesLost", Zero))
    ensures Lookup(head + Results(t), "losses") == Some(Get(t, "matchesDrawn", Zero))
  {
    var res := Results(t);
    assert res[3].0 == "draws" && res[4].0 == "losses";
    FieldAfter(head, res, 3);
    FieldAfter(head, res, 4);
  }

  /**
   * In the total, home, away and half-time tables `draws` holds the
   * `matchesLost` count and `losses` the `matchesDrawn` count.
   */
  lemma DrawsLossesSwapped(t: Json, kind: string)
    requires kind == "total" || kind in SplitKinds
    ensures Lookup(StandingRecord(t, kind), "draws") == Some(Get(t, "matchesLost", Zero))
    ensures Lookup(StandingRecord(t, kind), "losses") == Some(Get(t, "matchesDrawn", Zero))
  {
    if kind == "total" {
      ResultsSwapped([("rank", Get(t, "rank", Zero)), ("status", Get(t, "rankStatus", EmptyStr)), ("team", TeamOf(t))], t);
    } else {
      ResultsSwapped([("rank", Get(t, "rank", Zero)), ("team", TeamOf(t))], t);
    }
  }

  lemma KindColumnsDistinct(kind: string)
    ensures Distinct(KindColumns(kind))
  {
  }

  /** A table of any other type than the five known ones is empty. */
  lemma PartUnknownEmpty(teams: seq<Json>, kind: string)
    requires !KnownKind(kind)
    ensures FromRecords(PartRecords(teams, kind)) == Empty
  {
    KeepNone(teams, t => KnownKind(kind), t => StandingRecord(t, kind));
  }

  /** A table of a known type has one row per team, in order, with that type's columns. */
  lemma PartShape(teams: seq<Json>, kind: string)
    requires KnownKind(kind)
    ensures |FromRecords(PartRecords(teams, kind)).rows| == |teams|
    ensures forall i :: 0 <= i < |teams| ==> FromRecords(PartRecords(teams, kind)).rows[i] == RowOf(StandingRecord(teams[i], kind))
    ensures teams != [] ==> FromRecords(PartRecords(teams, kind)).columns == KindColumns(kind)
  {
    var recs := PartRecords(teams, kind);
    KeepEvery(teams, t => KnownKind(kind), t => StandingRecord(t, kind));
    if teams != [] {
      forall i | 0 <= i < |teams| ensures Keys(recs[i]) == KindColumns(kind) {
        StandingKeys(teams[i], kind);
      }
      KindColumnsDistinct(kind);
      ColumnsUniform(recs, KindColumns(kind));
    }
  }

  datatype Standings = Standings(total: Frame, home: Frame, away: Frame, half: Frame, attendance: Frame)

  /** `stage[0].division`: nothing when there is no first stage. */
  function Divisions(doc: Json): Option<Json>
  {
    match At(Get(doc, "stage", EmptyArr), 0)
    case None => None
    case Some(st) => Some(Get(st, "division", EmptyArr))
  }

  /** `divisions[k].ranking`, nothing when there is no division `k`. */
  function Ranking(divisions: Json, k: nat): Option<seq<Json>>
  {
    match At(divisions, k)
    case None => None
    case Some(d) => Some(Items(Get(d, "ranking", EmptyArr)))
  }

  /** The five tables from divisions 0, 1, 2, 6 and 9; nothing when a division is missing. */
  function StandingsOf(doc: Json): Option<Standings>
  {
    match Divisions(doc)
    case None => None
    case Some(ds) =>
      if At(ds, 9).None? then None
      else Some(Standings(
        FromRecords(PartRecords(Ranking(ds, 0).value, "total")),
        FromRecords(PartRecords(Ranking(ds, 1).value, "home")),
        FromRecords(PartRecords(Ranking(ds, 2).value, "away")),
        FromRecords(PartRecords(Ranking(ds, 6).value, "half")),
        FromRecords(PartRecords(Ranking(ds, 9).value, "attendance"))))
  }

  /**
   * `standings_processing`: fails exactly when there is no first stage or
   * it has fewer than ten divisions; the tables are built from divisions 0,
   * 1, 2, 6 and 9 as the total, home, away, half-time and attendance tables.
   */
  method StandingsProcessing(doc: Json) returns (r: Option<Standings>)
    ensures r == StandingsOf(doc)
    ensures r.None? <==> Divisions(doc).None? || At(Divisions(doc).value, 9).None?
  {
    var ds := Divisions(doc);
    if ds.None? {
      return None;
    }
    var all := ds.value;
    var r0 := Ranking(all, 0);
    var r1 := Ranking(all, 1);
    var r2 := Ranking(all, 2);
    var r6 := Ranking(all, 6);
    var r9 := Ranking(all, 9);
    if r0.None? || r1.None? || r2.None? || r6.None? || r9.None? {
      return None;
    }
    var total := PartStandingsTable(r0.value, "total");
    var home := PartStandingsTable(r1.value, "home");
    var away := PartStandingsTable(r2.value, "away");
    var half := PartStandingsTable(r6.value, "half");
    var attendance := PartStandingsTable(r9.value, "attendance");
    r := Some(Standings(total, home, away, half, attendance));
  }

  // ---------------------------------------------------------------- lineups

  /** The column a statistic entry fills: its `type`; a value that is not a string reads as `''`. */
  function StatKey(stat: Json): string
  {
    StrOf(Get(stat, "type", EmptyStr))
  }

  /** The value a statistic entry stores: its `value`, 0 when absent. */
  function StatValue(stat: Json): Json
  {
    Get(stat, "value", Zero)
  }

  /** `d[stat['type']] = stat['value']` for each entry of `stats`, in order. */
  function WithStatList(d: Dict, stats: seq<Json>): Dict
  {
    if stats == [] then d
    else Set(WithStatList(d, stats[..|stats| - 1]), StatKey(stats[|stats| - 1]), StatValue(stats[|stats| - 1]))
  }

  /** The value of the last entry of `stats` whose type is `k`, if any. */
  function LastStat(stats: seq<Json>, k: string): (r: Option<Json>)
    ensures r.None? <==> forall i :: 0 <= i < |stats| ==> StatKey(stats[i]) != k
  {
    if stats == [] then None
    else if StatKey(stats[|stats| - 1]) == k then Some(StatValue(stats[|stats| - 1]))
    else LastStat(stats[..|stats| - 1], k)
  }

  /**
   * After the statistics are copied, a column holds the value of the last
   * entry of that type, and keeps its earlier value when no entry names it.
   */
  lemma {:induction false} WithStatListLookup(d: Dict, stats: seq<Json>, k: string)
    ensures Lookup(WithStatList(d, stats), k) == if LastStat(stats, k).Some? then LastStat(stats, k) else Lookup(d, k)
  {
    if stats != [] {
      var init := stats[..|stats| - 1];
      var last := stats[|stats| - 1];
      WithStatListLookup(d, init, k);
      SetLookup(WithStatList(d, init), StatKey(last), StatValue(last), k);
    }
  }

  /** The statistics loop of `obtain_team_lineup_df` and `obtain_match_data`. */
  method AddStatList(base: Dict, stats: seq<Json>) returns (d: Dict)
    ensures d == WithStatList(base, stats)
  {
    d := base;
    var j := 0;
    while j < |stats|
      invariant 0 <= j <= |stats|
      invariant d == WithStatList(base, stats[..j])
    {
      assert stats[..j + 1][..j] == stats[..j];
      d := Set(d, StatKey(stats[j]), StatValue(stats[j]));
      j := j + 1;
    }
    assert stats[..j] == stats;
  }

  /** `positionSide` when it is truthy, `subPosition` (or `''`) otherwise. */
  function PosSide(p: Json): (r: Json)
    ensures Truthy(Get(p, "positionSide", JNull)) ==> r == Get(p, "positionSide", JNull)
    ensures !Truthy(Get(p, "positionSide", JNull)) ==> r == Get(p, "subPosition", EmptyStr)
  {
    GetDefaultOnlyWhenAbsent(p, "positionSide", EmptyStr, JNull);
    if Truthy(Get(p, "positionSide", JNull)) then Get(p, "positionSide", EmptyStr) else Get(p, "subPosition", EmptyStr)
  }

  const LineupColumns: seq<string> :=
    ["player_id", "name", "short_name", "match_name", "shirt_number", "position", "pos_side", "formation_place"]

  /** The fields of a lineup row before the statistics. */
  function LineupBase(p: Json): (r: Dict)
    ensures Keys(r) == LineupColumns
  {
    [("player_id", Get(p, "playerId", EmptyStr)),
     ("name", JStr(Spaced(Get(p, "firstName", EmptyStr), Get(p, "lastName", EmptyStr)))),
     ("short_name", JStr(Spaced(Get(p, "shortFirstName", EmptyStr), Get(p, "shortLastName", EmptyStr)))),
     ("match_name", Get(p, "matchName", EmptyStr)),
     ("shirt_number", Get(p, "shirtNumber", Zero)),
     ("position", Get(p, "position", EmptyStr)),
     ("pos_side", PosSide(p)),
     ("formation_place", Get(p, "formationPlace", Zero))]
  }

  /** The statistic entries of a player: `stat`, or none when absent. */
  function PlayerStats(p: Json): seq<Json>
  {
    Items(Get(p, "stat", EmptyArr))
  }

  /** One player's lineup row: the fixed fields, then one column per statistic. */
  function LineupRecord(p: Json): Dict
  {
    WithStatList(LineupBase(p), PlayerStats(p))
  }

  /** A row counts as played when its `minsPlayed` cell is present and not None. */
  predicate Played(d: Dict)
  {
    Lookup(d, "minsPlayed").Some? && Lookup(d, "minsPlayed").value != JNull
  }

  /**
   * The table of a lineup's rows with `team` inserted in front, keeping the
   * rows that played. pandas raises when a statistic is already called
   * `team` (the insert) or no row has `minsPlayed` (the dropna).
   */
  function LineupTable(recs: seq<Dict>, teamId: Json): Option<Frame>
  {
    match Insert(FromRecords(recs), 0, "team", teamId)
    case None => None
    case Some(f) => DropMissing(f, "minsPlayed")
  }

  /** `obtain_team_lineup_df`: one row per player. */
  function TeamLineup(players: seq<Json>, teamId: Json): Option<Frame>
  {
    LineupTable(Keep(players, AcceptAll, LineupRecord), teamId)
  }

  /** `obtain_team_lineup_df` over the `player` list of a lineup. */
  method ObtainTeamLineupDf(lineup: Json, teamId: Json) returns (r: Option<Frame>)
    ensures r == TeamLineup(Items(lineup), teamId)
  {
    var players := Items(lineup);
    var recs: seq<Dict> := [];
    var i := 0;
    while i < |players|
      invariant 0 <= i <= |players|
      invariant recs == Keep(players[..i], AcceptAll, LineupRecord)
    {
      KeepPrefix(players, i, AcceptAll, LineupRecord);
      var d := AddStatList(LineupBase(players[i]), PlayerStats(players[i]));
      recs := recs + [d];
      i := i + 1;
    }
    assert players[..i] == players;
    var f := Insert(FromRecords(recs), 0, "team", teamId);
    if f.None? {
      return None;
    }
    r := DropMissing(f.value, "minsPlayed");
  }

  /** A player's row plays exactly when the last `minsPlayed` statistic is not None. */
  lemma PlayedStat(p: Json)
    ensures Played(LineupRecord(p)) <==> LastStat(PlayerStats(p), "minsPlayed").Some? && LastStat(PlayerStats(p), "minsPlayed").value != JNull
  {
    WithStatListLookup(LineupBase(p), PlayerStats(p), "minsPlayed");
    LookupHasKey(LineupBase(p), "minsPlayed");
  }

  /** Without a statistic of that name, `pos_side` is the position side or, when it is empty, the sub-position. */
  lemma LineupPosSide(p: Json)
    requires LastStat(PlayerStats(p), "pos_side").None?
    ensures Lookup(LineupRecord(p), "pos_side") == Some(PosSide(p))
  {
    WithStatListLookup(LineupBase(p), PlayerStats(p), "pos_side");
    FieldAt(LineupBase(p), 6);
  }

  /** A statistic's column in a player's row holds the value of the last entry of that type. */
  lemma LineupStat(p: Json, k: string)
    requires LastStat(PlayerStats(p), k).Some?
    ensures Lookup(LineupRecord(p), k) == LastStat(PlayerStats(p), k)
  {
    WithStatListLookup(LineupBase(p), PlayerStats(p), k);
  }

  /** The lineup table fails exactly when some row has a `team` key or no row has `minsPlayed`. */
  lemma LineupTableFails(recs: seq<Dict>, teamId: Json)
    ensures LineupTable(recs, teamId).Some? <==>
      (forall i :: 0 <= i < |recs| ==> !HasKey(recs[i], "team")) && exists i :: 0 <= i < |recs| && HasKey(recs[i], "minsPlayed")
  {
    InAllKeys(recs, "team");
    InAllKeys(recs, "minsPlayed");
  }

  /**
   * A lineup table leads with `team` and holds the row of each record that
   * played, `team` set to the team's id, and nothing else.
   */
  lemma LineupTableRows(recs: seq<Dict>, teamId: Json)
    ensures LineupTable(recs, teamId).Some? ==> LineupTable(recs, teamId).value.columns[0] == "team"
    ensures LineupTable(recs, teamId).Some? ==> forall x :: x in LineupTable(recs, teamId).value.rows <==>
      exists i :: 0 <= i < |recs| && Played(recs[i]) && x == RowOf(recs[i])["team" := teamId]
  {
    if LineupTable(recs, teamId).Some? {
      var h := InsertedTeam(recs, teamId);
      forall x ensures x in LineupTable(recs, teamId).value.rows <==> exists i :: 0 <= i < |recs| && Played(recs[i]) && x == RowOf(recs[i])["team" := teamId]
      {
        LineupRowMember(recs, teamId, h.rows, x);
      }
    }
  }

  /** The frame a lineup table is cut from: the records' rows with `team` set, `team` leading. */
  lemma InsertedTeam(recs: seq<Dict>, teamId: Json) returns (h: Frame)
    requires LineupTable(recs, teamId).Some?
    ensures LineupTable(recs, teamId) == Some(Frame(h.columns, RowsPresent(h.rows, "minsPlayed")))
    ensures h.columns[0] == "team"
    ensures |h.rows| == |recs|
    ensures forall i :: 0 <= i < |recs| ==> h.rows[i] == RowOf(recs[i])["team" := teamId]
  {
    h := Insert(FromRecords(recs), 0, "team", teamId).value;
  }

  /** The rows kept by the `dropna` are those of the records that played, `team` set. */
  lemma LineupRowMember(recs: seq<Dict>, teamId: Json, hrows: seq<Row>, x: Row)
    requires |hrows| == |recs|
    requires forall i :: 0 <= i < |recs| ==> hrows[i] == RowOf(recs[i])["team" := teamId]
    ensures x in RowsPresent(hrows, "minsPlayed") <==>
      exists i :: 0 <= i < |recs| && Played(recs[i]) && x == RowOf(recs[i])["team" := teamId]
  {
    if x in RowsPresent(hrows, "minsPlayed") {
      var i :| 0 <= i < |hrows| && hrows[i] == x;
      PlayedRow(recs[i], teamId);
    }
    if exists i :: 0 <= i < |recs| && Played(recs[i]) && x == RowOf(recs[i])["team" := teamId] {
      var i :| 0 <= i < |recs| && Played(recs[i]) && x == RowOf(recs[i])["team" := teamId];
      PlayedRow(recs[i], teamId);
      assert x == hrows[i];
    }
  }

  /** A team's lineup table holds the row of each player who played, with the team's id. */
  lemma TeamLineupRows(players: seq<Json>, teamId: Json)
    ensures TeamLineup(players, teamId).Some? ==> forall x :: x in TeamLineup(players, teamId).value.rows <==>
      exists i :: 0 <= i < |players| && Played(LineupRecord(players[i])) && x == RowOf(LineupRecord(players[i]))["team" := teamId]
  {
    var recs := Keep(players, AcceptAll, LineupRecord);
    KeepEvery(players, AcceptAll, LineupRecord);
    LineupTableRows(recs, teamId);
  }

  /** A record plays exactly when its row, with `team` set, has a `minsPlayed` cell. */
  lemma PlayedRow(d: Dict, teamId: Json)
    ensures Played(d) <==> !Missing(RowOf(d)["team" := teamId], "minsPlayed")
  {
    LookupHasKey(d, "minsPlayed");
  }

  // ---------------------------------------------------------------- one match

  const GoalColumns: seq<string> :=
    ["match", "match_slug", "type", "team_id", "minute", "scorer_id", "scorer", "assister_id", "assister"]

  /** One goal's row, tagged with the match id and slug. */
  function GoalRecord(goal: Json, id: Json, slug: string): (r: Dict)
    ensures Keys(r) == GoalColumns
    ensures r[0] == ("match", id) && r[1] == ("match_slug", JStr(slug))
  {
    [("match", id),
     ("match_slug", JStr(slug)),
     ("type", Get(goal, "type", EmptyStr)),
     ("team_id", Get(goal, "contestantId", EmptyStr)),
     ("minute", Get(goal, "timeMinSec", EmptyStr)),
     ("scorer_id", Get(goal, "scorerId", EmptyStr)),
     ("scorer", Get(goal, "scorerName", EmptyStr)),
     ("assister_id", Get(goal, "assistPlayerId", EmptyStr)),
     ("assister", Get(goal, "assistPlayerName", EmptyStr))]
  }

  function GoalRecords(goals: seq<Json>, id: Json, slug: string): seq<Dict>
  {
    Keep(goals, AcceptAll, g => GoalRecord(g, id, slug))
  }

  /** The official first in a lineup's `teamOfficial` list, if any. */
  function Manager(team: Json): Option<Json>
  {
    At(Get(team, "teamOfficial", EmptyArr), 0)
  }

  /** The fixed fields of a team-statistics row; the kit fields are None when absent. */
  function TeamStatBase(team: Json, official: Json, id: Json, slug: string): (r: Dict)
    ensures |r| == 9 && r[0] == ("match", id) && r[1] == ("match_slug", JStr(slug))
  {
    [("match", id),
     ("match_slug", JStr(slug)),
     ("team_id", Get(team, "contestantId", EmptyStr)),
     ("formation", Get(team, "formationUsed", EmptyStr)),
     ("manager_id", Get(official, "id", EmptyStr)),
     ("manager", JStr(Spaced(Get(official, "firstName", EmptyStr), Get(official, "lastName", EmptyStr)))),
     ("kit", Get(GetObj(team, "kit"), "type", JNull)),
     ("kit_col1", Get(GetObj(team, "kit"), "colour1", JNull)),
     ("kit_col2", Get(GetObj(team, "kit"), "colour2", JNull))]
  }

  /** The statistic entries of a lineup: `stat`, or none when absent. */
  function TeamStats(team: Json): seq<Json>
  {
    Items(Get(team, "stat", EmptyArr))
  }

  /** A team-statistics row; nothing when the lineup has no first official (the source raises). */
  function TeamStatRecord(team: Json, id: Json, slug: string): (r: Option<Dict>)
    ensures r.Some? <==> Manager(team).Some?
  {
    match Manager(team)
    case None => None
    case Some(o) => Some(WithStatList(TeamStatBase(team, o, id, slug), TeamStats(team)))
  }

  /** The lineup table of one side, from its `player` list and its `contestantId`. */
  function SideLineup(team: Json): Option<Frame>
  {
    TeamLineup(Items(Get(team, "player", EmptyArr)), Get(team, "contestantId", EmptyStr))
  }

  datatype MatchData = MatchData(goals: Frame, teamStats: Frame, playerStats: Frame)

  /** The contestants of a match document, from `matchInfo.contestant`. */
  function EventContestants(event: Json): Option<(Json, Json)>
  {
    Contestants(Get(GetObj(event, "matchInfo"), "contestant", EmptyArr))
  }

  function EventId(event: Json): Json
  {
    Get(GetObj(event, "matchInfo"), "id", EmptyStr)
  }

  /** The two lineups, `liveData.lineUp[0]` and `[1]`. */
  function Lineups(event: Json): Option<(Json, Json)>
  {
    var lu := Get(GetObj(event, "liveData"), "lineUp", EmptyArr);
    if At(lu, 1).None? then None else Some((At(lu, 0).value, At(lu, 1).value))
  }

  function EventGoals(event: Json): seq<Json>
  {
    Items(Get(GetObj(event, "liveData"), "goal", EmptyObj))
  }

  /**
   * `obtain_match_data`: the goals table, the two team-statistics rows and
   * the players of both lineups, `match` and `match_slug` in front, missing
   * cells filled with 0. Nothing when the source raises: fewer than two
   * contestants or lineups, a lineup without an official, a lineup table that
   * fails, or a player statistic already called `match` or `match_slug`.
   */
  function MatchDataOf(event: Json): Option<MatchData>
  {
    match EventContestants(event)
    case None => None
    case Some((c0, c1)) =>
      var id := EventId(event);
      var slug := Slug(c0, c1);
      match Lineups(event)
      case None => None
      case Some((home, away)) =>
        var th := TeamStatRecord(home, id, slug);
        var ta := TeamStatRecord(away, id, slug);
        var lh := SideLineup(home);
        var la := SideLineup(away);
        if th.None? || ta.None? || lh.None? || la.None? then None
        else
          match PrefixPair(FillNa(Concat(lh.value, la.value), Zero), "match", id, "match_slug", JStr(slug))
          case None => None
          case Some(players) =>
            Some(MatchData(FromRecords(GoalRecords(EventGoals(event), id, slug)),
                           FillNa(FromRecords([th.value, ta.value]), Zero),
                           players))
  }

  /** The goals loop of `obtain_match_data`. */
  method GoalsOf(goals: seq<Json>, id: Json, slug: string) returns (recs: seq<Dict>)
    ensures recs == GoalRecords(goals, id, slug)
  {
    recs := [];
    var i := 0;
    while i < |goals|
      invariant 0 <= i <= |goals|
      invariant recs == GoalRecords(goals[..i], id, slug)
    {
      KeepPrefix(goals, i, AcceptAll, g => GoalRecord(g, id, slug));
      recs := recs + [GoalRecord(goals[i], id, slug)];
      i := i + 1;
    }
    assert goals[..i] == goals;
  }

  /** One pass of the teams loop of `obtain_match_data`: the side's statistics row and lineup table. */
  method TeamData(team: Json, id: Json, slug: string) returns (row: Option<Dict>, lineup: Option<Frame>)
    ensures row == TeamStatRecord(team, id, slug)
    ensures row.Some? ==> lineup == SideLineup(team)
  {
    var o := Manager(team);
    if o.None? {
      return None, None;
    }
    var d := AddStatList(TeamStatBase(team, o.value, id, slug), TeamStats(team));
    row := Some(d);
    lineup := ObtainTeamLineupDf(Get(team, "player", EmptyArr), Get(team, "contestantId", EmptyStr));
  }

  /** `obtain_match_data` on a parsed match document. */
  method ObtainMatchData(event: Json) returns (r: Option<MatchData>)
    ensures r == MatchDataOf(event)
  {
    var cs := EventContestants(event);
    if cs.None? {
      return None;
    }
    var id := EventId(event);
    var slug := Slug(cs.value.0, cs.value.1);
    var goals := GoalsOf(EventGoals(event), id, slug);
    var sides := Lineups(event);
    if sides.None? {
      return None;
    }
    var th, lh := TeamData(sides.value.0, id, slug);
    if th.None? || lh.None? {
      return None;
    }
    var ta, la := TeamData(sides.value.1, id, slug);
    if ta.None? || la.None? {
      return None;
    }
    var teams := FillNa(FromRecords([th.value, ta.value]), Zero);
    var players := PrefixPair(FillNa(Concat(lh.value, la.value), Zero), "match", id, "match_slug", JStr(slug));
    if players.None? {
      return None;
    }
    r := Some(MatchData(FromRecords(goals), teams, players.value));
  }

  /** A match fails without two contestants, without two lineups, or when a lineup has no official. */
  lemma MatchDataNeeds(event: Json)
    ensures MatchDataOf(event).Some? ==> EventContestants(event).Some? && Lineups(event).Some?
    ensures MatchDataOf(event).Some? ==> Manager(Lineups(event).value.0).Some? && Manager(Lineups(event).value.1).Some?
  {
  }

  /** The goals table has one row per goal entry, in order, with the nine goal columns. */
  lemma GoalsTable(goals: seq<Json>, id: Json, slug: string)
    ensures var f := FromRecords(GoalRecords(goals, id, slug));
      && |f.rows| == |goals|
      && (goals != [] ==> f.columns == GoalColumns)
      && forall i :: 0 <= i < |goals| ==> f.rows[i] == RowOf(GoalRecord(goals[i], id, slug))
  {
    KeepEvery(goals, AcceptAll, g => GoalRecord(g, id, slug));
    if goals != [] {
      ColumnsUniform(GoalRecords(goals, id, slug), GoalColumns);
    }
  }

  /** Every goal row is tagged with the match id and slug. */
  lemma GoalTagged(goal: Json, id: Json, slug: string)
    ensures Lookup(GoalRecord(goal, id, slug), "match") == Some(id)
    ensures Lookup(GoalRecord(goal, id, slug), "match_slug") == Some(JStr(slug))
  {
    FieldAt(GoalRecord(goal, id, slug), 0);
    FieldAt(GoalRecord(goal, id, slug), 1);
  }

  /**
   * The player statistics of a match lead with `match` and `match_slug`,
   * followed by the columns of both lineups, and hold the rows of the home
   * lineup then those of the away lineup, each tagged with the match id and slug.
   */
  lemma PlayerStatsTable(lh: Frame, la: Frame, id: Json, slug: string)
    ensures var r := PrefixPair(FillNa(Concat(lh, la), Zero), "match", id, "match_slug", JStr(slug));
      r.Some? ==>
        && r.value.columns == ["match", "match_slug"] + AddNew(lh.columns, la.columns)
        && |r.value.rows| == |lh.rows| + |la.rows|
        && forall i :: 0 <= i < |r.value.rows| ==>
             && "match" in r.value.rows[i] && "match_slug" in r.value.rows[i]
             && r.value.rows[i]["match"] == id && r.value.rows[i]["match_slug"] == JStr(slug)
  {
  }

  /** After the prefix, every column that came from a lineup has a value other than None in every row. */
  lemma PlayerStatsFilled(lh: Frame, la: Frame, id: Json, slug: string)
    ensures var r := PrefixPair(FillNa(Concat(lh, la), Zero), "match", id, "match_slug", JStr(slug));
      r.Some? ==> forall i, c :: 0 <= i < |r.value.rows| && c in AddNew(lh.columns, la.columns) ==>
        c in r.value.rows[i] && r.value.rows[i][c] != JNull
  {
    var f := FillNa(Concat(lh, la), Zero);
    FillNaComplete(Concat(lh, la), Zero);
    var r := PrefixPair(f, "match", id, "match_slug", JStr(slug));
    if r.Some? {
      forall i, c | 0 <= i < |r.value.rows| && c in f.columns ensures c in r.value.rows[i] && r.value.rows[i][c] != JNull {
        assert r.value.rows[i] == f.rows[i]["match" := id]["match_slug" := JStr(slug)];
      }
    }
  }

  /** The team statistics of a match are two rows, home then away, with no missing cell. */
  lemma TeamStatsTable(th: Dict, ta: Dict)
    ensures var f := FillNa(FromRecords([th, ta]), Zero);
      && |f.rows| == 2
      && forall i, c :: 0 <= i < 2 && c in f.columns ==> c in f.rows[i] && f.rows[i][c] != JNull
  {
    FillNaComplete(FromRecords([th, ta]), Zero);
  }

  /** A team-statistics row carries the match id and slug unless a statistic is called `match` or `match_slug`. */
  lemma TeamStatTagged(team: Json, id: Json, slug: string)
    requires Manager(team).Some?
    requires LastStat(TeamStats(team), "match").None? && LastStat(TeamStats(team), "match_slug").None?
    ensures Lookup(TeamStatRecord(team, id, slug).value, "match") == Some(id)
    ensures Lookup(TeamStatRecord(team, id, slug).value, "match_slug") == Some(JStr(slug))
  {
    var base := TeamStatBase(team, Manager(team).value, id, slug);
    WithStatListLookup(base, TeamStats(team), "match");
    WithStatListLookup(base, TeamStats(team), "match_slug");
    FieldAt(base, 0);
    FieldAt(base, 1);
  }

  // ---------------------------------------------------------------- a season of a league

  /**
   * `process_season_info_dfs` on the three parsed info documents: the
   * matches, teams, players and managers tables, then the five standings
   * tables; nothing when the matches or the standings table fails.
   */
  function SeasonInfoTables(matchesDoc: Json, squadsDoc: Json, standingsDoc: Json): (r: Option<seq<Frame>>)
    ensures r.Some? ==> |r.value| == 9
    ensures r.Some? <==> MatchesTable(matchesDoc).Some? && StandingsOf(standingsDoc).Some?
  {
    match MatchesTable(matchesDoc)
    case None => None
    case Some(m) =>
      match StandingsOf(standingsDoc)
      case None => None
      case Some(st) =>
        var sq := SquadsTables(squadsDoc);
        Some([m, sq.teams, sq.players, sq.managers, st.total, st.home, st.away, st.half, st.attendance])
  }

  method ProcessSeasonInfoDfs(matchesDoc: Json, squadsDoc: Json, standingsDoc: Json) returns (r: Option<seq<Frame>>)
    ensures r == SeasonInfoTables(matchesDoc, squadsDoc, standingsDoc)
  {
    var m := MatchesProcessing(matchesDoc);
    var sq := SquadsProcessing(squadsDoc);
    var st := StandingsProcessing(standingsDoc);
    if m.None? || st.None? {
      return None;
    }
    var s := st.value;
    r := Some([m.value, sq.teams, sq.players, sq.managers, s.total, s.home, s.away, s.half, s.attendance]);
  }

  /** Every table of a list with `league` and `season` inserted in front; nothing when one of them already has either column. */
  function TaggedTables(fs: seq<Frame>, league: Json, season: Json): Option<seq<Frame>>
  {
    AllSome(fs, f => PrefixLeagueSeason(f, league, season))
  }

  /** The insertion loop `for df in [...]: df.insert(0, 'league', …); df.insert(1, 'season', …)`. */
  method TagTables(fs: seq<Frame>, league: Json, season: Json) returns (r: Option<seq<Frame>>)
    ensures r == TaggedTables(fs, league, season)
  {
    var out: seq<Frame> := [];
    var i := 0;
    while i < |fs|
      invariant 0 <= i <= |fs|
      invariant AllSome(fs[..i], f => PrefixLeagueSeason(f, league, season)) == Some(out)
    {
      AllSomePrefix(fs, i, f => PrefixLeagueSeason(f, league, season));
      var t := PrefixLeagueSeason(fs[i], league, season);
      if t.None? {
        AllSomeFailed(fs, i + 1, f => PrefixLeagueSeason(f, league, season));
        return None;
      }
      out := out + [t.value];
      i := i + 1;
    }
    assert fs[..i] == fs;
    r := Some(out);
  }

  /**
   * Tagging fails exactly when some table already has a `league` or
   * `season` column; otherwise each table, in order, gets `league` at
   * column 0 and `season` at column 1 and keeps its rows.
   */
  lemma TaggedTablesShape(fs: seq<Frame>, league: Json, season: Json)
    ensures TaggedTables(fs, league, season).None? <==>
      exists i :: 0 <= i < |fs| && ("league" in fs[i].columns || "season" in fs[i].columns)
    ensures TaggedTables(fs, league, season).Some? ==>
      && |TaggedTables(fs, league, season).value| == |fs|
      && forall i :: 0 <= i < |fs| ==>
           && TaggedTables(fs, league, season).value[i].columns == ["league", "season"] + fs[i].columns
           && |TaggedTables(fs, league, season).value[i].rows| == |fs[i].rows|
  {
    var p := f => PrefixLeagueSeason(f, league, season);
    AllSomeNone(fs, p);
    if TaggedTables(fs, league, season).Some? {
      forall i | 0 <= i < |fs|
        ensures && |TaggedTables(fs, league, season).value| == |fs|
                && TaggedTables(fs, league, season).value[i].columns == ["league", "season"] + fs[i].columns
                && |TaggedTables(fs, league, season).value[i].rows| == |fs[i].rows|
      {
        AllSomeAt(fs, p, i);
      }
      if fs == [] {
        assert TaggedTables(fs, league, season).value == [];
      }
    }
  }
}
