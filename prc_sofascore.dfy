/**
 * Flattening of the Sofascore documents into tables: seasons, the three
 * standings tables, players, teams, venues, managers and, per match, the
 * match row, the lineups, the team statistics, the shots and the momentum
 * points. A directory of detail documents is a map from file name to the
 * parsed document; a directory that is walked is the list of its documents.
 */
module SofascoreFlatten {
  import opened Wrappers
  import opened Dicts
  import opened Text
  import opened Json
  import opened Frames
  import opened Seqs

  // ---------------------------------------------------------------- seasons

  /** A season's `year` with every `/` removed: `"24/25"` becomes `"2425"`. */
  function YearKey(season: Json): (r: string)
    ensures '/' !in r
  {
    ReplaceCharGone(StrOf(Get(season, "year", EmptyStr)), '/', "");
    Replace(StrOf(Get(season, "year", EmptyStr)), "/", "")
  }

  /** A season is wanted when its key is in the allow-list of desired seasons. */
  predicate Desired(season: Json, allow: set<string>)
  {
    YearKey(season) in allow
  }

  function SeasonRecord(league: Json, season: Json): Dict
  {
    [("league", league), ("year", JStr(YearKey(season))), ("season_name", Get(season, "name", EmptyStr))]
  }

  /** The rows of the seasons table: the desired seasons, in input order. */
  function SeasonRecords(league: Json, seasons: seq<Json>, allow: set<string>): seq<Dict>
  {
    Keep(seasons, s => Desired(s, allow), s => SeasonRecord(league, s))
  }

  /**
   * Rows come only from desired seasons and each carries the key with `/`
   * removed; every desired season has its row; there is one row per desired season.
   */
  lemma SeasonRecordsExact(league: Json, seasons: seq<Json>, allow: set<string>)
    ensures forall r :: r in SeasonRecords(league, seasons, allow) ==>
      exists s :: s in seasons && YearKey(s) in allow && r == SeasonRecord(league, s)
    ensures forall s :: s in seasons && YearKey(s) in allow ==>
      SeasonRecord(league, s) in SeasonRecords(league, seasons, allow)
    ensures |SeasonRecords(league, seasons, allow)| == CountIf(seasons, s => Desired(s, allow))
  {
    var p := s => Desired(s, allow);
    var f := s => SeasonRecord(league, s);
    forall r | r in SeasonRecords(league, seasons, allow)
      ensures exists s :: s in seasons && YearKey(s) in allow && r == SeasonRecord(league, s)
    {
      KeepSound(seasons, p, f, r);
    }
    forall s | s in seasons && YearKey(s) in allow
      ensures SeasonRecord(league, s) in SeasonRecords(league, seasons, allow)
    {
      KeepComplete(seasons, p, f, s);
    }
    KeepCount(seasons, p, f);
  }

  /**
   * `get_seasons_df`: an empty table when `seasons` is absent or empty,
   * otherwise the table of the desired seasons.
   */
  method GetSeasonsDf(league: Json, doc: Json, allow: set<string>) returns (f: Frame)
    ensures !Truthy(Get(doc, "seasons", EmptyObj)) ==> f == Empty
    ensures Truthy(Get(doc, "seasons", EmptyObj)) ==>
      f == FromRecords(SeasonRecords(league, Items(Get(doc, "seasons", EmptyObj)), allow))
  {
    var all := Get(doc, "seasons", EmptyObj);
    if !Truthy(all) {
      return Empty;
    }
    var seasons := Items(all);
    var rows: seq<Dict> := [];
    var i := 0;
    while i < |seasons|
      invariant 0 <= i <= |seasons|
      invariant rows == SeasonRecords(league, seasons[..i], allow)
    {
      KeepPrefix(seasons, i, s => Desired(s, allow), s => SeasonRecord(league, s));
      var key := YearKey(seasons[i]);
      if key in allow {
        rows := rows + [SeasonRecord(league, seasons[i])];
      }
      i := i + 1;
    }
    assert seasons[..i] == seasons;
    f := FromRecords(rows);
  }

  // ---------------------------------------------------------------- standings

  const StandingColumns: seq<string> :=
    ["position", "team", "team_slug", "promotion", "points", "matches",
     "wins", "losses", "draws", "scores_for", "scores_against"]

  /** One team of a standings table, with 0 or `''` for every absent field. */
  function StandingRecord(t: Json): (r: Dict)
    ensures Keys(r) == StandingColumns
  {
    [("position", Get(t, "position", Zero)),
     ("team", Get(GetObj(t, "team"), "name", EmptyStr)),
     ("team_slug", Get(GetObj(t, "team"), "slug", EmptyStr)),
     ("promotion", Get(GetObj(t, "promotion"), "text", EmptyStr)),
     ("points", Get(t, "points", Zero)),
     ("matches", Get(t, "matches", Zero)),
     ("wins", Get(t, "wins", Zero)),
     ("losses", Get(t, "losses", Zero)),
     ("draws", Get(t, "draws", Zero)),
     ("scores_for", Get(t, "scoresFor", Zero)),
     ("scores_against", Get(t, "scoresAgainst", Zero))]
  }

  function StandingRecords(teams: seq<Json>): seq<Dict>
  {
    Keep(teams, AcceptAll, StandingRecord)
  }

  /**
   * A team with none of the fields gets the documented defaults: `''` for
   * the team name, slug and promotion text, 0 for every count.
   */
  lemma StandingDefaults()
    ensures forall i :: 0 <= i < |StandingColumns| ==>
      Lookup(StandingRecord(EmptyObj), StandingColumns[i]) == Some(if 1 <= i <= 3 then EmptyStr else Zero)
  {
    var r := StandingRecord(EmptyObj);
    StandingColumnsDistinct();
    forall i | 0 <= i < |StandingColumns|
      ensures Lookup(r, StandingColumns[i]) == Some(if 1 <= i <= 3 then EmptyStr else Zero)
    {
      assert Keys(r)[i] == r[i].0;
      assert forall j :: 0 <= j < i ==> Keys(r)[j] == r[j].0;
      FieldAt(r, i);
    }
  }

  lemma StandingColumnsDistinct()
    ensures Distinct(StandingColumns)
  {
  }

  /** `partial_standing`: one row per team of the list, in order. */
  method PartialStanding(teams: seq<Json>) returns (f: Frame)
    ensures f == FromRecords(StandingRecords(teams))
  {
    var rows: seq<Dict> := [];
    var i := 0;
    while i < |teams|
      invariant 0 <= i <= |teams|
      invariant rows == StandingRecords(teams[..i])
    {
      KeepPrefix(teams, i, AcceptAll, StandingRecord);
      rows := rows + [StandingRecord(teams[i])];
      i := i + 1;
    }
    assert teams[..i] == teams;
    f := FromRecords(rows);
  }

  /** The standings table has exactly one row per team, in order, with the fixed columns. */
  lemma StandingShape(teams: seq<Json>)
    ensures |FromRecords(StandingRecords(teams)).rows| == |teams|
    ensures forall i :: 0 <= i < |teams| ==>
      FromRecords(StandingRecords(teams)).rows[i] == RowOf(StandingRecord(teams[i]))
    ensures FromRecords(StandingRecords(teams)).columns == if teams == [] then [] else StandingColumns
  {
    KeepEvery(teams, AcceptAll, StandingRecord);
    StandingColumnsDistinct();
    if teams != [] {
      ColumnsUniform(StandingRecords(teams), StandingColumns);
    }
  }

  /** `standings_json[part]['standings'][0]['rows']`: nothing when there is no first standing. */
  function TableRows(doc: Json, part: string): Option<seq<Json>>
  {
    match At(Get(GetObj(doc, part), "standings", EmptyArr), 0)
    case None => None
    case Some(st) => Some(Items(Get(st, "rows", EmptyArr)))
  }

  datatype StandingTables = StandingTables(total: Frame, home: Frame, away: Frame)

  /** One part's table with `league` and `season` in front, or nothing when the part has no first standing. */
  function StandingPart(doc: Json, part: string, league: Json, season: Json): Option<Frame>
  {
    match TableRows(doc, part)
    case None => None
    case Some(teams) => PrefixLeagueSeason(FromRecords(StandingRecords(teams)), league, season)
  }

  /** One part of `obtain_standings_tables`: its rows, its table, the prefix columns. */
  method StandingTable(doc: Json, part: string, league: Json, season: Json) returns (r: Option<Frame>)
    ensures r == StandingPart(doc, part, league, season)
    ensures r.None? <==> TableRows(doc, part).None?
  {
    var teams := TableRows(doc, part);
    if teams.None? {
      return None;
    }
    var t := PartialStanding(teams.value);
    StandingTablesShape(league, season, teams.value);
    r := PrefixLeagueSeason(t, league, season);
  }

  /**
   * `obtain_standings_tables`: fails exactly when one of the three parts has
   * no first standing; otherwise each table is its part's standing with
   * `league` and `season` in front.
   */
  method ObtainStandingsTables(league: Json, season: Json, doc: Json) returns (r: Option<StandingTables>)
    ensures r.None? <==> TableRows(doc, "total").None? || TableRows(doc, "home").None? || TableRows(doc, "away").None?
    ensures r.Some? ==>
      && Some(r.value.total) == StandingPart(doc, "total", league, season)
      && Some(r.value.home) == StandingPart(doc, "home", league, season)
      && Some(r.value.away) == StandingPart(doc, "away", league, season)
  {
    var t := StandingTable(doc, "total", league, season);
    var h := StandingTable(doc, "home", league, season);
    var a := StandingTable(doc, "away", league, season);
    if t.None? || h.None? || a.None? {
      return None;
    }
    r := Some(StandingTables(t.value, h.value, a.value));
  }

  /** Each standings table leads with `league` and `season`, then the fixed columns, one row per team. */
  lemma StandingTablesShape(league: Json, season: Json, teams: seq<Json>)
    ensures PrefixLeagueSeason(FromRecords(StandingRecords(teams)), league, season).Some?
    ensures PrefixLeagueSeason(FromRecords(StandingRecords(teams)), league, season).value.columns ==
      ["league", "season"] + (if teams == [] then [] else StandingColumns)
    ensures |PrefixLeagueSeason(FromRecords(StandingRecords(teams)), league, season).value.rows| == |teams|
  {
    var f := FromRecords(StandingRecords(teams));
    StandingShape(teams);
    NotStandingColumns();
    assert "league" !in f.columns && "season" !in f.columns;
    var r := PrefixLeagueSeason(f, league, season);
    assert r.Some? && r.value.columns == ["league", "season"] + f.columns;
  }

  lemma NotStandingColumns()
    ensures "league" !in StandingColumns && "season" !in StandingColumns
  {
  }

  // ---------------------------------------------------------------- players, teams, venues

  /** The detail document of an entity: `{id}.json` in its directory. */
  function DetailName(id: Json): string
  {
    Display(id) + ".json"
  }

  /**
   * An entity row: `id` and `name` from the list entry, followed by the
   * enrichment fields when a detail document for that id exists.
   */
  function EntityRecord(e: Json, idKey: string, nameKey: string, dir: map<string, Json>, enrich: Json -> Dict): Dict
  {
    var id := Get(e, idKey, JNull);
    var base := [("id", id), ("name", Get(e, nameKey, EmptyStr))];
    if DetailName(id) in dir then base + enrich(dir[DetailName(id)]) else base
  }

  /** Entries with a truthy id are kept. */
  predicate HasId(e: Json, idKey: string)
  {
    Truthy(Get(e, idKey, JNull))
  }

  function EntityRecords(entries: seq<Json>, idKey: string, nameKey: string, dir: map<string, Json>, enrich: Json -> Dict): seq<Dict>
  {
    Keep(entries, e => HasId(e, idKey), e => EntityRecord(e, idKey, nameKey, dir, enrich))
  }

  /** The loop shared by `players_processing`, `teams_processing` and `venues_processing`. */
  method EntitiesProcessing(entries: seq<Json>, idKey: string, nameKey: string, dir: map<string, Json>, enrich: Json -> Dict)
    returns (rows: seq<Dict>)
    ensures rows == EntityRecords(entries, idKey, nameKey, dir, enrich)
  {
    rows := [];
    var i := 0;
    while i < |entries|
      invariant 0 <= i <= |entries|
      invariant rows == EntityRecords(entries[..i], idKey, nameKey, dir, enrich)
    {
      KeepPrefix(entries, i, e => HasId(e, idKey), e => EntityRecord(e, idKey, nameKey, dir, enrich));
      var id := Get(entries[i], idKey, JNull);
      if Truthy(id) {
        var d := [("id", id), ("name", Get(entries[i], nameKey, EmptyStr))];
        if DetailName(id) in dir {
          d := d + enrich(dir[DetailName(id)]);
        }
        rows := rows + [d];
      }
      i := i + 1;
    }
    assert entries[..i] == entries;
  }

  /**
   * An entry with a falsy id yields no row; every other entry yields one
   * row that starts with its id and name and that carries the enrichment
   * fields exactly when its detail document exists.
   */
  lemma EntityRows(entries: seq<Json>, idKey: string, nameKey: string, dir: map<string, Json>, enrich: Json -> Dict)
    ensures |EntityRecords(entries, idKey, nameKey, dir, enrich)| == CountIf(entries, e => HasId(e, idKey))
    ensures forall r :: r in EntityRecords(entries, idKey, nameKey, dir, enrich) ==>
      exists e :: e in entries && HasId(e, idKey) && r == EntityRecord(e, idKey, nameKey, dir, enrich)
    ensures forall e :: e in entries && HasId(e, idKey) ==>
      EntityRecord(e, idKey, nameKey, dir, enrich) in EntityRecords(entries, idKey, nameKey, dir, enrich)
  {
    var p := e => HasId(e, idKey);
    var f := e => EntityRecord(e, idKey, nameKey, dir, enrich);
    KeepCount(entries, p, f);
    forall r | r in EntityRecords(entries, idKey, nameKey, dir, enrich)
      ensures exists e :: e in entries && HasId(e, idKey) && r == EntityRecord(e, idKey, nameKey, dir, enrich)
    {
      KeepSound(entries, p, f, r);
    }
    forall e | e in entries && HasId(e, idKey)
      ensures EntityRecord(e, idKey, nameKey, dir, enrich) in EntityRecords(entries, idKey, nameKey, dir, enrich)
    {
      KeepComplete(entries, p, f, e);
    }
  }

  /** The keys of an entity row: `id`, `name`, then the enrichment when the detail exists. */
  lemma EntityRecordKeys(e: Json, idKey: string, nameKey: string, dir: map<string, Json>, enrich: Json -> Dict)
    ensures var id := Get(e, idKey, JNull);
      Keys(EntityRecord(e, idKey, nameKey, dir, enrich)) ==
        ["id", "name"] + if DetailName(id) in dir then Keys(enrich(dir[DetailName(id)])) else []
  {
    var id := Get(e, idKey, JNull);
    var base := [("id", id), ("name", Get(e, nameKey, EmptyStr))];
    if DetailName(id) in dir {
      var x := enrich(dir[DetailName(id)]);
      assert Keys(base + x) == Keys(base) + Keys(x);
    }
  }

  /** `positionsDetailed`: the single position, or the second and third when they exist. */
  function PositionFields(positions: Json): (r: Dict)
  {
    var ps := Items(positions);
    [("position", if |ps| == 1 then ps[0] else EmptyStr),
     ("second_position", if |ps| > 1 then ps[1] else EmptyStr),
     ("third_position", if |ps| > 2 then ps[2] else EmptyStr)]
  }

  /** The fields a player's detail document adds. */
  function PlayerEnrich(detail: Json): Dict
  {
    PlayerHead(detail) + PositionFields(Get(GetObj(detail, "player"), "positionsDetailed", EmptyArr)) + PlayerTail(detail)
  }

  function PlayerHead(detail: Json): (r: Dict)
    ensures Keys(r) == ["slug", "short_name", "team", "country"]
  {
    var p := GetObj(detail, "player");
    [("slug", Get(p, "slug", EmptyStr)),
     ("short_name", Get(p, "shortName", EmptyStr)),
     ("team", Get(GetObj(p, "team"), "name", EmptyStr)),
     ("country", Get(GetObj(p, "country"), "name", EmptyStr))]
  }

  function PlayerTail(detail: Json): Dict
  {
    var p := GetObj(detail, "player");
    [("weight", Get(p, "weight", Zero)),
     ("height", Get(p, "height", Zero)),
     ("shirt_number", Get(p, "shirtNumber", Zero)),
     ("pref_foot", Get(p, "preferredFoot", EmptyStr)),
     ("date_birth", Get(p, "dateOfBirthTimestamp", Zero)),
     ("contract_until", Get(p, "contractUntilTimestamp", Zero)),
     ("market_value", Get(p, "proposedMarketValue", Zero))]
  }

  /**
   * The position rule: `position` is the only detailed position when there
   * is exactly one and `''` otherwise (two or more positions leave it
   * empty); `second_position` and `third_position` hold the entries at
   * indices 1 and 2 when they exist.
   */
  lemma PlayerPositions(detail: Json)
    ensures var ps := Items(Get(GetObj(detail, "player"), "positionsDetailed", EmptyArr));
      && Lookup(PlayerEnrich(detail), "position") == Some(if |ps| == 1 then ps[0] else EmptyStr)
      && Lookup(PlayerEnrich(detail), "second_position") == Some(if |ps| > 1 then ps[1] else EmptyStr)
      && Lookup(PlayerEnrich(detail), "third_position") == Some(if |ps| > 2 then ps[2] else EmptyStr)
  {
    var head, tail := PlayerHead(detail), PlayerTail(detail);
    var pos := PositionFields(Get(GetObj(detail, "player"), "positionsDetailed", EmptyArr));
    assert PlayerEnrich(detail) == (head + pos) + tail;
    assert Keys(head + pos) == Keys(head) + Keys(pos);
    assert Keys(pos) == ["position", "second_position", "third_position"];
    FieldAt(pos, 0);
    FieldAt(pos, 1);
    FieldAt(pos, 2);
    forall k | k in Keys(pos) ensures Lookup(PlayerEnrich(detail), k) == Lookup(pos, k) {
      LookupConcat(head + pos, tail, k);
      LookupConcat(head, pos, k);
      LookupHasKey(head, k);
      LookupHasKey(head + pos, k);
    }
  }

  /** The fields a team's detail document adds. */
  function TeamEnrich(detail: Json): Dict
  {
    var t := GetObj(detail, "team");
    [("slug", Get(t, "slug", EmptyStr)),
     ("short_name", Get(t, "shortName", EmptyStr)),
     ("full_name", Get(t, "fullName", EmptyStr)),
     ("code", Get(t, "nameCode", EmptyStr)),
     ("manager", Get(GetObj(t, "manager"), "name", EmptyStr)),
     ("venue", Get(GetObj(t, "venue"), "name", EmptyStr)),
     ("country", Get(GetObj(t, "country"), "name", EmptyStr)),
     ("primary_colour", Get(GetObj(t, "teamColors"), "primary", EmptyStr)),
     ("secondary_colour", Get(GetObj(t, "teamColors"), "secondary", EmptyStr)),
     ("text_colour", Get(GetObj(t, "teamColors"), "text", EmptyStr)),
     ("foundation", Get(t, "foundationDateTimestamp", Zero))]
  }

  /** The fields a venue's detail document adds. */
  function VenueEnrich(detail: Json): Dict
  {
    var v := GetObj(detail, "venue");
    var st := GetObj(detail, "statistics");
    [("slug", Get(v, "slug", EmptyStr)),
     ("capacity", Get(v, "capacity", Zero)),
     ("city", Get(GetObj(v, "city"), "name", EmptyStr)),
     ("country", Get(GetObj(v, "country"), "name", EmptyStr)),
     ("latitude", Get(GetObj(v, "venueCoordinates"), "latitude", JFloat(0.0))),
     ("longitude", Get(GetObj(v, "venueCoordinates"), "longitude", JFloat(0.0))),
     ("matches", Get(st, "matches", Zero)),
     ("home_goals", Get(st, "homeTeamGoalsScored", Zero)),
     ("away_goals", Get(st, "awayTeamGoalsScored", Zero)),
     ("avg_red_cards_game", Get(st, "avgRedCardsPerGame", Zero)),
     ("avg_ck_game", Get(st, "avgCornerKicksPerGame", Zero)),
     ("home_wins_perc", Get(st, "homeTeamWinsPercentage", Zero)),
     ("away_wins_perc", Get(st, "awayTeamWinsPercentage", Zero)),
     ("draws_perc", Get(st, "drawsPercentage", Zero))]
  }

  /** `players_processing`. */
  method PlayersProcessing(doc: Json, dir: map<string, Json>) returns (f: Frame)
    ensures f == FromRecords(EntityRecords(Items(Get(doc, "players", EmptyArr)), "playerId", "playerName", dir, PlayerEnrich))
  {
    var rows := EntitiesProcessing(Items(Get(doc, "players", EmptyArr)), "playerId", "playerName", dir, PlayerEnrich);
    f := FromRecords(rows);
  }

  /** `teams_processing`. */
  method TeamsProcessing(doc: Json, dir: map<string, Json>) returns (f: Frame)
    ensures f == FromRecords(EntityRecords(Items(Get(doc, "teams", EmptyArr)), "id", "name", dir, TeamEnrich))
  {
    var rows := EntitiesProcessing(Items(Get(doc, "teams", EmptyArr)), "id", "name", dir, TeamEnrich);
    f := FromRecords(rows);
  }

  /** `venues_processing`. */
  method VenuesProcessing(doc: Json, dir: map<string, Json>) returns (f: Frame)
    ensures f == FromRecords(EntityRecords(Items(Get(doc, "venues", EmptyArr)), "id", "name", dir, VenueEnrich))
  {
    var rows := EntitiesProcessing(Items(Get(doc, "venues", EmptyArr)), "id", "name", dir, VenueEnrich);
    f := FromRecords(rows);
  }

  // ---------------------------------------------------------------- managers

  function ManagerRecord(m: Json): Dict
  {
    var perf := GetObj(m, "performance");
    [("id", Get(m, "id", Zero)),
     ("name", Get(m, "name", EmptyStr)),
     ("slug", Get(m, "slug", EmptyStr)),
     ("short_name", Get(m, "shortName", EmptyStr)),
     ("team", Get(GetObj(m, "team"), "name", EmptyStr)),
     ("pref_formation", Get(m, "preferredFormation", EmptyStr)),
     ("country", Get(GetObj(m, "country"), "name", EmptyStr)),
     ("date_birth", Get(m, "dateOfBirthTimestamp", Zero)),
     ("matches", Get(perf, "total", Zero)),
     ("wins", Get(perf, "wins", Zero)),
     ("draws", Get(perf, "draws", Zero)),
     ("losses", Get(perf, "losses", Zero)),
     ("goals_for", Get(perf, "goalsScored", Zero)),
     ("goals_against", Get(perf, "goalsConceded", Zero)),
     ("points", Get(perf, "totalPoints", Zero))]
  }

  /** A manager document counts when its `manager` entry is truthy. */
  predicate HasManager(doc: Json)
  {
    Truthy(Get(doc, "manager", JNull))
  }

  function ManagerRecords(docs: seq<Json>): seq<Dict>
  {
    Keep(docs, HasManager, d => ManagerRecord(Get(d, "manager", JNull)))
  }

  /** `managers_processing` over the documents of the managers directory, in listing order. */
  method ManagersProcessing(docs: seq<Json>) returns (f: Frame)
    ensures f == FromRecords(ManagerRecords(docs))
  {
    var rows: seq<Dict> := [];
    var i := 0;
    while i < |docs|
      invariant 0 <= i <= |docs|
      invariant rows == ManagerRecords(docs[..i])
    {
      KeepPrefix(docs, i, HasManager, d => ManagerRecord(Get(d, "manager", JNull)));
      var m := Get(docs[i], "manager", JNull);
      if Truthy(m) {
        rows := rows + [ManagerRecord(m)];
      }
      i := i + 1;
    }
    assert docs[..i] == docs;
    f := FromRecords(rows);
  }

  /** One manager row per document with a truthy `manager`, and none for the others. */
  lemma ManagerRows(docs: seq<Json>)
    ensures |ManagerRecords(docs)| == CountIf(docs, HasManager)
    ensures (forall i :: 0 <= i < |docs| ==> !HasManager(docs[i])) ==> FromRecords(ManagerRecords(docs)) == Empty
  {
    var f := d => ManagerRecord(Get(d, "manager", JNull));
    KeepCount(docs, HasManager, f);
    if forall i :: 0 <= i < |docs| ==> !HasManager(docs[i]) {
      KeepNone(docs, HasManager, f);
    }
  }

  // ---------------------------------------------------------------- lineups

  /** The statistics that do not become columns. */
  const ExcludedStats: seq<string> := ["ratingVersions", "statisticsType"]

  /**
   * The fixed part of a lineup row: the player's team and opponent are
   * (home, away) for the home side and (away, home) for the away side.
   */
  function LineupBase(player: Json, isHome: bool, home: Json, away: Json): Dict
  {
    [("player_id", Get(GetObj(player, "player"), "id", Zero)),
     ("team", if isHome then home else away),
     ("opponent", if isHome then away else home),
     ("player", Get(GetObj(player, "player"), "name", EmptyStr)),
     ("position", Get(player, "position", EmptyStr)),
     ("shirt_number", Get(player, "shirtNumber", Zero))]
  }

  /** `player_dict[st] = statistics[st]` for every statistic not excluded, in order. */
  function WithStats(d: Dict, stats: Dict): Dict
  {
    if stats == [] then d
    else
      var d' := WithStats(d, stats[..|stats| - 1]);
      var (k, v) := stats[|stats| - 1];
      if k in ExcludedStats then d' else Set(d', k, v)
  }

  /** A key that no copied statistic names keeps the value it had. */
  lemma {:induction false} WithStatsOther(d: Dict, stats: Dict, k: string)
    requires forall i :: 0 <= i < |stats| ==> stats[i].0 != k || stats[i].0 in ExcludedStats
    ensures Lookup(WithStats(d, stats), k) == Lookup(d, k)
  {
    if stats != [] {
      var init := stats[..|stats| - 1];
      WithStatsOther(d, init, k);
      var (k', v) := stats[|stats| - 1];
      if k' !in ExcludedStats {
        SetLookup(WithStats(d, init), k', v, k);
      }
    }
  }

  /** A statistic that is not excluded is copied with its value. */
  lemma {:induction false} WithStatsCopies(d: Dict, stats: Dict, k: string)
    requires UniqueKeys(stats) && HasKey(stats, k) && k !in ExcludedStats
    ensures Lookup(WithStats(d, stats), k) == Lookup(stats, k)
  {
    var n := |stats| - 1;
    var init := stats[..n];
    var (k', v) := stats[n];
    assert stats == init + [(k', v)];
    LookupSnoc(init, k', v, k);
    if k' == k {
      SetLookup(WithStats(d, init), k', v, k);
      assert !HasKey(init, k) by {
        forall i | 0 <= i < |init| ensures Keys(init)[i] != k {
          assert stats[i].0 != stats[n].0;
        }
      }
    } else {
      assert HasKey(init, k) by {
        var i :| 0 <= i < |stats| && Keys(stats)[i] == k;
        assert i < n && Keys(init)[i] == k;
      }
      WithStatsCopies(d, init, k);
      SetLookup(WithStats(d, init), k', v, k);
    }
  }

  function LineupRecord(player: Json, isHome: bool, home: Json, away: Json): Dict
  {
    WithStats(LineupBase(player, isHome, home, away), Fields(Get(player, "statistics", EmptyObj)))
  }

  function LineupRecords(players: seq<Json>, isHome: bool, home: Json, away: Json): seq<Dict>
  {
    Keep(players, AcceptAll, p => LineupRecord(p, isHome, home, away))
  }

  /** The players of one side. */
  function SidePlayers(side: Json): seq<Json>
  {
    Items(Get(side, "players", EmptyArr))
  }

  /**
   * The lineup table of one side: missing cells filled with 0, then the rows
   * with `minutesPlayed > 0`; nothing when no player has `minutesPlayed`
   * (pandas raises KeyError on the missing column).
   */
  function LineupFrame(side: Json, isHome: bool, home: Json, away: Json): Option<Frame>
  {
    LineupTableOf(LineupRecords(SidePlayers(side), isHome, home, away))
  }

  /** The lineup rows as a table, missing cells filled with 0, then the rows with `minutesPlayed > 0`. */
  function LineupTableOf(recs: seq<Dict>): Option<Frame>
  {
    KeepPositive(FillNa(FromRecords(recs), Zero), "minutesPlayed")
  }

  /** The inner loop of `get_single_team_lineups`: copies a player's statistics into the row. */
  method AddStats(base: Dict, stats: Dict) returns (d: Dict)
    ensures d == WithStats(base, stats)
  {
    d := base;
    var j := 0;
    while j < |stats|
      invariant 0 <= j <= |stats|
      invariant d == WithStats(base, stats[..j])
    {
      assert stats[..j + 1][..j] == stats[..j];
      var (k, v) := stats[j];
      if k !in ExcludedStats {
        d := Set(d, k, v);
      }
      j := j + 1;
    }
    assert stats[..j] == stats;
  }

  /** The body of the loop of `get_single_team_lineups` for one player. */
  method LineupRecordFor(player: Json, isHome: bool, home: Json, away: Json) returns (d: Dict)
    ensures d == LineupRecord(player, isHome, home, away)
  {
    d := AddStats(LineupBase(player, isHome, home, away), Fields(Get(player, "statistics", EmptyObj)));
  }

  /** `get_single_team_lineups`: the side's formation and its lineup table. */
  method SingleTeamLineup(side: Json, isHome: bool, home: Json, away: Json) returns (formation: Json, f: Option<Frame>)
    ensures formation == Get(side, "formation", EmptyStr)
    ensures f == LineupFrame(side, isHome, home, away)
  {
    formation := Get(side, "formation", EmptyStr);
    var players := SidePlayers(side);
    var lineup := LineupRecordsFor(players, isHome, home, away);
    f := LineupTableOf(lineup);
  }

  /** The loop of `get_single_team_lineups`: one row per player, in order. */
  method LineupRecordsFor(players: seq<Json>, isHome: bool, home: Json, away: Json) returns (lineup: seq<Dict>)
    ensures lineup == LineupRecords(players, isHome, home, away)
  {
    lineup := [];
    var i := 0;
    while i < |players|
      invariant 0 <= i <= |players|
      invariant lineup == LineupRecords(players[..i], isHome, home, away)
    {
      KeepPrefix(players, i, AcceptAll, p => LineupRecord(p, isHome, home, away));
      var d := LineupRecordFor(players[i], isHome, home, away);
      lineup := lineup + [d];
      i := i + 1;
    }
    assert players[..i] == players;
  }

  /**
   * A lineup row names the player's own team and the opponent, swapped
   * between the home and the away side, unless a statistic overrides them.
   */
  lemma LineupSides(player: Json, isHome: bool, home: Json, away: Json)
    requires forall k :: k in Keys(Fields(Get(player, "statistics", EmptyObj))) ==> k != "team" && k != "opponent"
    ensures Lookup(LineupRecord(player, isHome, home, away), "team") == Some(if isHome then home else away)
    ensures Lookup(LineupRecord(player, isHome, home, away), "opponent") == Some(if isHome then away else home)
  {
    var stats := Fields(Get(player, "statistics", EmptyObj));
    var base := LineupBase(player, isHome, home, away);
    forall i | 0 <= i < |stats| ensures stats[i].0 != "team" && stats[i].0 != "opponent" {
      assert Keys(stats)[i] == stats[i].0;
      assert stats[i].0 in Keys(stats);
    }
    WithStatsOther(base, stats, "team");
    WithStatsOther(base, stats, "opponent");
    FieldAt(base, 1);
    FieldAt(base, 2);
  }

  /**
   * Every statistic except `ratingVersions` and `statisticsType` becomes a
   * column holding its value; the two excluded ones never do.
   */
  lemma LineupStats(player: Json, isHome: bool, home: Json, away: Json, k: string)
    requires UniqueKeys(Fields(Get(player, "statistics", EmptyObj)))
    ensures HasKey(Fields(Get(player, "statistics", EmptyObj)), k) && k !in ExcludedStats ==>
      Lookup(LineupRecord(player, isHome, home, away), k) == Lookup(Fields(Get(player, "statistics", EmptyObj)), k)
    ensures k in ExcludedStats ==> Lookup(LineupRecord(player, isHome, home, away), k) == None
  {
    var stats := Fields(Get(player, "statistics", EmptyObj));
    var base := LineupBase(player, isHome, home, away);
    if HasKey(stats, k) && k !in ExcludedStats {
      WithStatsCopies(base, stats, k);
    }
    if k in ExcludedStats {
      WithStatsOther(base, stats, k);
      assert !HasKey(base, k);
      LookupHasKey(base, k);
    }
  }

  /**
   * The minutes filter: the table exists exactly when some player has a
   * `minutesPlayed` entry (pandas raises KeyError otherwise).
   */
  lemma LineupMinutesColumn(side: Json, isHome: bool, home: Json, away: Json)
    ensures var recs := LineupRecords(SidePlayers(side), isHome, home, away);
      LineupFrame(side, isHome, home, away).Some? <==>
        exists i :: 0 <= i < |recs| && "minutesPlayed" in Keys(recs[i])
  {
    KeepPositiveColumn(LineupRecords(SidePlayers(side), isHome, home, away), Zero, "minutesPlayed");
  }

  /**
   * When the table exists it holds a player's filled row exactly when that
   * player's `minutesPlayed`, with a missing or None value read as 0, is
   * positive; so a player with no `minutesPlayed` is dropped.
   */
  lemma LineupMinutesRows(side: Json, isHome: bool, home: Json, away: Json, i: nat)
    requires LineupFrame(side, isHome, home, away).Some?
    requires i < |LineupRecords(SidePlayers(side), isHome, home, away)|
    ensures var recs := LineupRecords(SidePlayers(side), isHome, home, away);
      var filled := FillNa(FromRecords(recs), Zero);
      filled.rows[i] in LineupFrame(side, isHome, home, away).value.rows <==>
        Positive(Filled(recs[i], "minutesPlayed", Zero))
    ensures var recs := LineupRecords(SidePlayers(side), isHome, home, away);
      var filled := FillNa(FromRecords(recs), Zero);
      !HasKey(recs[i], "minutesPlayed") ==> filled.rows[i] !in LineupFrame(side, isHome, home, away).value.rows
  {
    var recs := LineupRecords(SidePlayers(side), isHome, home, away);
    FilledCell(recs, Zero, i, "minutesPlayed");
    LookupHasKey(recs[i], "minutesPlayed");
  }

  // ---------------------------------------------------------------- team statistics

  /** The items of every statistics group, one group after the other. */
  function StatItems(groups: seq<Json>): seq<Json>
  {
    if groups == [] then []
    else StatItems(groups[..|groups| - 1]) + Items(Get(groups[|groups| - 1], "statisticsItems", EmptyArr))
  }

  /** The column a statistic item writes: its name as an f-string prints it. */
  function StatName(item: Json): string
  {
    Display(Get(item, "name", EmptyStr))
  }

  /** The two-row frame each match starts from: home then away, opponents swapped. */
  function StatsBase(id: Json, home: Json, away: Json): (f: Frame)
    ensures |f.rows| == 2
  {
    Frame(["match_id", "team", "opponent"],
          [map["match_id" := id, "team" := home, "opponent" := away],
           map["match_id" := id, "team" := away, "opponent" := home]])
  }

  /** `teams_stats_df[name] = [homeValue, awayValue]` for every item, in order. */
  function WithStatColumns(f: Frame, items: seq<Json>): (r: Frame)
    requires |f.rows| == 2
    ensures |r.rows| == 2
    ensures forall c :: c in f.columns ==> c in r.columns
    ensures forall i :: 0 <= i < |items| ==> StatName(items[i]) in r.columns
  {
    if items == [] then f
    else
      var init := WithStatColumns(f, items[..|items| - 1]);
      var last := items[|items| - 1];
      var r := SetColumn(init, StatName(last), [Get(last, "homeValue", Zero), Get(last, "awayValue", Zero)]);
      assert forall i :: 0 <= i < |items| - 1 ==> items[i] == items[..|items| - 1][i];
      r
  }

  /** The statistics groups of a match: nothing when `statistics` has no first entry. */
  function StatGroups(doc: Json): Option<seq<Json>>
  {
    match At(Get(GetObj(doc, "statistics"), "statistics", EmptyArr), 0)
    case None => None
    case Some(s0) => Some(Items(Get(s0, "groups", EmptyArr)))
  }

  /** Adding the columns of two lists of items is adding those of their concatenation. */
  lemma {:induction false} WithStatColumnsAppend(f: Frame, a: seq<Json>, b: seq<Json>)
    requires |f.rows| == 2
    ensures WithStatColumns(f, a + b) == WithStatColumns(WithStatColumns(f, a), b)
    decreases |b|
  {
    if b == [] {
      assert a + b == a;
    } else {
      var b' := b[..|b| - 1];
      assert (a + b)[..|a + b| - 1] == a + b';
      assert (a + b)[|a + b| - 1] == b[|b| - 1];
      WithStatColumnsAppend(f, a, b');
    }
  }

  /** The inner loop over one group's items. */
  method AddStatItems(f: Frame, items: seq<Json>) returns (tf: Frame)
    requires |f.rows| == 2
    ensures tf == WithStatColumns(f, items)
  {
    tf := f;
    var k := 0;
    while k < |items|
      invariant 0 <= k <= |items|
      invariant tf == WithStatColumns(f, items[..k])
    {
      assert items[..k + 1][..k] == items[..k];
      var it := items[k];
      tf := SetColumn(tf, StatName(it), [Get(it, "homeValue", Zero), Get(it, "awayValue", Zero)]);
      k := k + 1;
    }
    assert items[..k] == items;
  }

  /** The team-statistics table of one match, built group by group and item by item. */
  method TeamStats(id: Json, home: Json, away: Json, groups: seq<Json>) returns (tf: Frame)
    ensures tf == WithStatColumns(StatsBase(id, home, away), StatItems(groups))
  {
    var base := StatsBase(id, home, away);
    tf := base;
    var g := 0;
    while g < |groups|
      invariant 0 <= g <= |groups|
      invariant tf == WithStatColumns(base, StatItems(groups[..g]))
    {
      assert groups[..g + 1][..g] == groups[..g];
      var items := Items(Get(groups[g], "statisticsItems", EmptyArr));
      WithStatColumnsAppend(base, StatItems(groups[..g]), items);
      tf := AddStatItems(tf, items);
      g := g + 1;
    }
    assert groups[..g] == groups;
  }

  /**
   * The statistics table has exactly two rows, home then away, each naming
   * its team and the other as opponent, as long as no statistic is named
   * like one of the three leading columns.
   */
  lemma {:induction false} TeamStatsRows(id: Json, home: Json, away: Json, items: seq<Json>)
    requires forall i :: 0 <= i < |items| ==> StatName(items[i]) !in ["match_id", "team", "opponent"]
    ensures var r := WithStatColumns(StatsBase(id, home, away), items);
      && "team" in r.rows[0] && "opponent" in r.rows[0] && "match_id" in r.rows[0]
      && "team" in r.rows[1] && "opponent" in r.rows[1] && "match_id" in r.rows[1]
      && r.rows[0]["team"] == home && r.rows[0]["opponent"] == away && r.rows[0]["match_id"] == id
      && r.rows[1]["team"] == away && r.rows[1]["opponent"] == home && r.rows[1]["match_id"] == id
  {
    if items != [] {
      TeamStatsRows(id, home, away, items[..|items| - 1]);
    }
  }

  /**
   * A statistic whose name no later item reuses ends up as the column
   * `[homeValue, awayValue]`: the home row holds its home value and the
   * away row its away value.
   */
  lemma {:induction false} StatColumnValues(f: Frame, items: seq<Json>, i: nat)
    requires |f.rows| == 2 && i < |items|
    requires forall j :: i < j < |items| ==> StatName(items[j]) != StatName(items[i])
    ensures var r := WithStatColumns(f, items);
      && StatName(items[i]) in r.rows[0] && StatName(items[i]) in r.rows[1]
      && r.rows[0][StatName(items[i])] == Get(items[i], "homeValue", Zero)
      && r.rows[1][StatName(items[i])] == Get(items[i], "awayValue", Zero)
  {
    if i < |items| - 1 {
      var init := items[..|items| - 1];
      assert init[i] == items[i];
      StatColumnValues(f, init, i);
    }
  }

  // ---------------------------------------------------------------- shots

  /** A shot belongs to the home side when its `isHome` is truthy (absent means away). */
  function ShotRecord(id: Json, home: Json, away: Json, shot: Json): Dict
  {
    ShotHead(id, home, away, shot) + ShotPlaces(shot)
  }

  /** The first seven fields of a shot row: who, against whom, how. */
  function ShotHead(id: Json, home: Json, away: Json, shot: Json): (r: Dict)
    ensures Keys(r) == ["match_id", "team", "opponent", "player", "type", "situation", "body_part"]
  {
    var isHome := Truthy(Get(shot, "isHome", JBool(false)));
    [("match_id", id),
     ("team", if isHome then home else away),
     ("opponent", if isHome then away else home),
     ("player", Get(GetObj(shot, "player"), "name", EmptyStr)),
     ("type", Get(shot, "shotType", EmptyStr)),
     ("situation", Get(shot, "situation", EmptyStr)),
     ("body_part", Get(shot, "situation", EmptyStr))]
  }

  /** The remaining fields of a shot row: expected goals, time, goalkeeper and coordinates. */
  function ShotPlaces(shot: Json): Dict
  {
    [("xg", Get(shot, "xg", Zero)),
     ("xgot", Get(shot, "xgot", Zero)),
     ("time", Get(shot, "time", Zero)),
     ("goalkeeper", Get(GetObj(shot, "goalkeeper"), "name", EmptyStr)),
     ("player_x", Get(GetObj(shot, "playerCoordinates"), "x", Zero)),
     ("player_y", Get(GetObj(shot, "playerCoordinates"), "y", Zero)),
     ("block_x", Get(GetObj(shot, "blockCoordinates"), "x", Zero)),
     ("block_y", Get(GetObj(shot, "blockCoordinates"), "y", Zero)),
     ("goal_x", Get(GetObj(shot, "goalMouthCoordinates"), "x", Zero)),
     ("goal_y", Get(GetObj(shot, "goalMouthCoordinates"), "y", Zero)),
     ("goal_z", Get(GetObj(shot, "goalMouthCoordinates"), "z", Zero))]
  }

  /** A field of the first seven is looked up in the head of the row. */
  lemma ShotHeadLookup(id: Json, home: Json, away: Json, shot: Json, k: string)
    requires k in Keys(ShotHead(id, home, away, shot))
    ensures Lookup(ShotRecord(id, home, away, shot), k) == Lookup(ShotHead(id, home, away, shot), k)
  {
    LookupConcat(ShotHead(id, home, away, shot), ShotPlaces(shot), k);
  }

  /** A shot's team is the home team iff `isHome` is truthy, and the opponent is the other team. */
  lemma ShotSides(id: Json, home: Json, away: Json, shot: Json)
    ensures var r := ShotRecord(id, home, away, shot);
      && Lookup(r, "team") == Some(if Truthy(Get(shot, "isHome", JBool(false))) then home else away)
      && Lookup(r, "opponent") == Some(if Truthy(Get(shot, "isHome", JBool(false))) then away else home)
  {
    var h := ShotHead(id, home, away, shot);
    assert h[0].0 == "match_id" && h[1].0 == "team" && h[2].0 == "opponent";
    FieldAt(h, 1);
    FieldAt(h, 2);
    ShotHeadLookup(id, home, away, shot, "team");
    ShotHeadLookup(id, home, away, shot, "opponent");
  }

  /** A shot's `body_part` repeats its `situation`. */
  lemma ShotBodyPart(id: Json, home: Json, away: Json, shot: Json)
    ensures var r := ShotRecord(id, home, away, shot);
      Lookup(r, "body_part") == Lookup(r, "situation") == Some(Get(shot, "situation", EmptyStr))
  {
    var h := ShotHead(id, home, away, shot);
    assert h[0].0 == "match_id" && h[1].0 == "team" && h[2].0 == "opponent";
    assert h[3].0 == "player" && h[4].0 == "type" && h[5].0 == "situation" && h[6].0 == "body_part";
    FieldAt(h, 5);
    FieldAt(h, 6);
    ShotHeadLookup(id, home, away, shot, "situation");
    ShotHeadLookup(id, home, away, shot, "body_part");
  }

  function ShotRecords(id: Json, home: Json, away: Json, shots: seq<Json>): seq<Dict>
  {
    Keep(shots, AcceptAll, s => ShotRecord(id, home, away, s))
  }

  /** The shot rows of one match, one per entry of its shot map. */
  method ShotsOf(id: Json, home: Json, away: Json, shots: seq<Json>) returns (rows: seq<Dict>)
    ensures rows == ShotRecords(id, home, away, shots)
  {
    rows := [];
    var i := 0;
    while i < |shots|
      invariant 0 <= i <= |shots|
      invariant rows == ShotRecords(id, home, away, shots[..i])
    {
      KeepPrefix(shots, i, AcceptAll, s => ShotRecord(id, home, away, s));
      rows := rows + [ShotRecord(id, home, away, shots[i])];
      i := i + 1;
    }
    assert shots[..i] == shots;
  }

  // ---------------------------------------------------------------- momentum

  /** A momentum point favours the home side when its value is at least 0. */
  function MomentumRecord(id: Json, home: Json, away: Json, point: Json): Dict
  {
    [("match_id", id),
     ("team", if NonNegative(Get(point, "value", Zero)) then home else away),
     ("minute", Get(point, "minute", Zero)),
     ("value", Get(point, "value", Zero))]
  }

  /** A point's team is home iff its value is >= 0; a point without a value counts as 0, hence home. */
  lemma MomentumSide(id: Json, home: Json, away: Json, point: Json)
    ensures Lookup(MomentumRecord(id, home, away, point), "team") ==
      Some(if NonNegative(Get(point, "value", Zero)) then home else away)
    ensures !Has(point, "value") ==> Lookup(MomentumRecord(id, home, away, point), "team") == Some(home)
  {
    var r := MomentumRecord(id, home, away, point);
    FieldAt(r, 1);
  }

  function MomentumRecords(id: Json, home: Json, away: Json, points: seq<Json>): seq<Dict>
  {
    Keep(points, AcceptAll, p => MomentumRecord(id, home, away, p))
  }

  /** The momentum rows of one match, one per graph point. */
  method MomentumOf(id: Json, home: Json, away: Json, points: seq<Json>) returns (rows: seq<Dict>)
    ensures rows == MomentumRecords(id, home, away, points)
  {
    rows := [];
    var i := 0;
    while i < |points|
      invariant 0 <= i <= |points|
      invariant rows == MomentumRecords(id, home, away, points[..i])
    {
      KeepPrefix(points, i, AcceptAll, p => MomentumRecord(id, home, away, p));
      rows := rows + [MomentumRecord(id, home, away, points[i])];
      i := i + 1;
    }
    assert points[..i] == points;
  }

  // ---------------------------------------------------------------- matches

  /** `match.event` of a match document. */
  function EventOf(doc: Json): Json
  {
    GetObj(GetObj(doc, "match"), "event")
  }

  function MatchId(doc: Json): Json { Get(EventOf(doc), "id", Zero) }

  function HomeName(doc: Json): Json { Get(GetObj(EventOf(doc), "homeTeam"), "name", EmptyStr) }

  function AwayName(doc: Json): Json { Get(GetObj(EventOf(doc), "awayTeam"), "name", EmptyStr) }

  /** `lineups.home` or `lineups.away`. */
  function SideOf(doc: Json, side: string): Json
  {
    GetObj(GetObj(doc, "lineups"), side)
  }

  const MatchColumns: seq<string> :=
    ["id", "slug", "round", "venue", "attendance", "referee", "home_team", "away_team",
     "home_score", "away_score", "home_formation", "away_formation"]

  /**
   * The match row: ten fields of the event, then the two formations. The
   * attendance has no default, so an absent one is None.
   */
  function MatchRecord(doc: Json, homeFormation: Json, awayFormation: Json): (r: Dict)
    ensures Keys(r) == MatchColumns
  {
    var ev := EventOf(doc);
    [("id", MatchId(doc)),
     ("slug", Get(ev, "slug", EmptyStr)),
     ("round", Get(GetObj(ev, "roundInfo"), "round", Zero)),
     ("venue", Get(GetObj(ev, "venue"), "name", EmptyStr)),
     ("attendance", Get(ev, "attendance", JNull)),
     ("referee", Get(GetObj(ev, "referee"), "name", EmptyStr)),
     ("home_team", HomeName(doc)),
     ("away_team", AwayName(doc)),
     ("home_score", Get(GetObj(ev, "homeScore"), "display", Zero)),
     ("away_score", Get(GetObj(ev, "awayScore"), "display", Zero)),
     ("home_formation", homeFormation),
     ("away_formation", awayFormation)]
  }

  /** What one match contributes to each of the five lists. */
  datatype MatchTables = MatchTables(info: Dict, lineups: Frame, stats: Frame, shots: Frame, momentum: Frame)

  function ShotList(doc: Json): seq<Json> { Items(Get(GetObj(doc, "shotmap"), "shotmap", EmptyArr)) }

  function PointList(doc: Json): seq<Json> { Items(Get(GetObj(doc, "graph"), "graphPoints", EmptyArr)) }

  /**
   * The lineups of one match from those of its two sides: the home rows
   * followed by the away rows, each with `match_id` in front. It fails when
   * a side failed (no `minutesPlayed` column), or when a player statistic is
   * itself called `match_id`, so that the column cannot be inserted.
   */
  function StackLineups(hL: Option<Frame>, aL: Option<Frame>, id: Json): (r: Option<Frame>)
    ensures r.None? <==> (hL.None? || aL.None? || "match_id" in hL.value.columns || "match_id" in aL.value.columns)
    ensures r.Some? ==>
      && |r.value.columns| > 0 && r.value.columns[0] == "match_id"
      && |r.value.rows| == |hL.value.rows| + |aL.value.rows|
      && (forall i :: 0 <= i < |hL.value.rows| ==> r.value.rows[i] == hL.value.rows[i]["match_id" := id])
      && (forall i :: 0 <= i < |aL.value.rows| ==> r.value.rows[|hL.value.rows| + i] == aL.value.rows[i]["match_id" := id])
  {
    if hL.None? || aL.None? then None
    else StackWithKey(hL.value, aL.value, "match_id", id)
  }

  /** The lineups table of one match document. */
  function MatchLineups(doc: Json): Option<Frame>
  {
    StackLineups(LineupFrame(SideOf(doc, "home"), true, HomeName(doc), AwayName(doc)),
                 LineupFrame(SideOf(doc, "away"), false, HomeName(doc), AwayName(doc)),
                 MatchId(doc))
  }

  /**
   * What a match contributes once its lineups and statistics groups are
   * known: the match row with the two formations, the lineups, the
   * two-row statistics table, the shots and the momentum points.
   */
  function TablesFrom(doc: Json, homeFormation: Json, awayFormation: Json, lineups: Frame, groups: seq<Json>): (m: MatchTables)
    ensures m.lineups == lineups && |m.stats.rows| == 2
    ensures m.info == MatchRecord(doc, homeFormation, awayFormation)
  {
    var id, home, away := MatchId(doc), HomeName(doc), AwayName(doc);
    MatchTables(MatchRecord(doc, homeFormation, awayFormation), lineups,
      WithStatColumns(StatsBase(id, home, away), StatItems(groups)),
      FromRecords(ShotRecords(id, home, away, ShotList(doc))),
      FromRecords(MomentumRecords(id, home, away, PointList(doc))))
  }

  /** The tables of one match document; the statistics always have two rows. */
  function MatchTablesOf(doc: Json): (r: Option<MatchTables>)
    ensures r.Some? ==> |r.value.stats.rows| == 2
  {
    match MatchLineups(doc)
    case None => None
    case Some(lineups) =>
      match StatGroups(doc)
      case None => None
      case Some(groups) =>
        Some(TablesFrom(doc, Get(SideOf(doc, "home"), "formation", EmptyStr),
                        Get(SideOf(doc, "away"), "formation", EmptyStr), lineups, groups))
  }

  /**
   * A match document fails exactly when its lineups fail or when
   * `statistics` has no first entry; otherwise it contributes its stacked
   * lineups and its match row with the two formations.
   */
  lemma MatchTablesParts(doc: Json)
    ensures MatchTablesOf(doc).None? <==> MatchLineups(doc).None? || StatGroups(doc).None?
    ensures MatchTablesOf(doc).Some? ==> MatchTablesOf(doc).value.lineups == MatchLineups(doc).value
    ensures MatchTablesOf(doc).Some? ==>
      MatchTablesOf(doc).value.info ==
        MatchRecord(doc, Get(SideOf(doc, "home"), "formation", EmptyStr), Get(SideOf(doc, "away"), "formation", EmptyStr))
  {
    if MatchLineups(doc).Some? && StatGroups(doc).Some? {
      var m := TablesFrom(doc, Get(SideOf(doc, "home"), "formation", EmptyStr),
                          Get(SideOf(doc, "away"), "formation", EmptyStr), MatchLineups(doc).value, StatGroups(doc).value);
      assert MatchTablesOf(doc) == Some(m);
    }
  }

  /** The five result tables of `get_matches_info`. */
  datatype MatchesFrames = MatchesFrames(info: Frame, lineups: Frame, stats: Frame, shots: Frame, momentum: Frame)

  function Infos(ms: seq<MatchTables>): seq<Dict> { seq(|ms|, i requires 0 <= i < |ms| => ms[i].info) }
  function Lineups(ms: seq<MatchTables>): seq<Frame> { seq(|ms|, i requires 0 <= i < |ms| => ms[i].lineups) }
  function Stats(ms: seq<MatchTables>): seq<Frame> { seq(|ms|, i requires 0 <= i < |ms| => ms[i].stats) }
  function Shots(ms: seq<MatchTables>): seq<Frame> { seq(|ms|, i requires 0 <= i < |ms| => ms[i].shots) }
  function Momenta(ms: seq<MatchTables>): seq<Frame> { seq(|ms|, i requires 0 <= i < |ms| => ms[i].momentum) }

  /**
   * The lists stacked and filled with 0. With no match at all pandas has
   * nothing to concatenate and raises.
   */
  function CombineLists(infos: seq<Dict>, lineups: seq<Frame>, stats: seq<Frame>, shots: seq<Frame>, momenta: seq<Frame>): (r: Option<MatchesFrames>)
    requires |lineups| == |stats| == |shots| == |momenta| == |infos|
    ensures r.Some? <==> infos != []
    ensures r.Some? ==> |r.value.info.rows| == |infos|
    ensures r.Some? ==> |r.value.lineups.rows| == |AllRows(lineups)| && |r.value.stats.rows| == |AllRows(stats)|
  {
    if infos == [] then None
    else
      Some(MatchesFrames(
        FillNa(FromRecords(infos), Zero),
        FillNa(ConcatAll(lineups).value, Zero),
        FillNa(ConcatAll(stats).value, Zero),
        FillNa(ConcatAll(shots).value, Zero),
        FillNa(ConcatAll(momenta).value, Zero)))
  }

  function CombineMatches(ms: seq<MatchTables>): Option<MatchesFrames>
  {
    CombineLists(Infos(ms), Lineups(ms), Stats(ms), Shots(ms), Momenta(ms))
  }

  /** `get_matches_info` over the documents of a match directory, in listing order. */
  function MatchesInfo(docs: seq<Json>): Option<MatchesFrames>
  {
    match AllSome(docs, MatchTablesOf)
    case None => None
    case Some(ms) => CombineMatches(ms)
  }

  /** The body of the loop of `get_matches_info` for one document. */
  method MatchTablesFor(doc: Json) returns (r: Option<MatchTables>)
    ensures r == MatchTablesOf(doc)
  {
    var homeFormation, awayFormation, lineups := LineupsFor(doc);
    if lineups.None? {
      return None;
    }
    var groups := StatGroups(doc);
    if groups.None? {
      return None;
    }
    var m := AssembleTables(doc, homeFormation, awayFormation, lineups.value, groups.value);
    r := Some(m);
  }

  /** The two formations and the stacked lineups of a match. */
  method LineupsFor(doc: Json) returns (homeFormation: Json, awayFormation: Json, lineups: Option<Frame>)
    ensures homeFormation == Get(SideOf(doc, "home"), "formation", EmptyStr)
    ensures awayFormation == Get(SideOf(doc, "away"), "formation", EmptyStr)
    ensures lineups == MatchLineups(doc)
  {
    var home, away := HomeName(doc), AwayName(doc);
    var hL, aL;
    homeFormation, hL := SingleTeamLineup(SideOf(doc, "home"), true, home, away);
    awayFormation, aL := SingleTeamLineup(SideOf(doc, "away"), false, home, away);
    lineups := StackLineups(hL, aL, MatchId(doc));
  }

  /** The rest of the loop body once the lineups are stacked: the row, the statistics, the shots, the momentum. */
  method AssembleTables(doc: Json, homeFormation: Json, awayFormation: Json, lineups: Frame, groups: seq<Json>)
    returns (m: MatchTables)
    ensures m == TablesFrom(doc, homeFormation, awayFormation, lineups, groups)
  {
    var id, home, away := MatchId(doc), HomeName(doc), AwayName(doc);
    var info := MatchRecord(doc, homeFormation, awayFormation);
    var stats := TeamStats(id, home, away, groups);
    var shots := ShotsOf(id, home, away, ShotList(doc));
    var points := MomentumOf(id, home, away, PointList(doc));
    m := MatchTables(info, lineups, stats, FromRecords(shots), FromRecords(points));
  }

  /**
   * `get_matches_info`: the tables of each match gathered one match at a
   * time, then stacked. The five lists the source appends to in lockstep
   * are kept as one list holding the five contributions of each match.
   */
  method GetMatchesInfo(docs: seq<Json>) returns (r: Option<MatchesFrames>)
    ensures r == MatchesInfo(docs)
  {
    var ms := CollectMatchTables(docs);
    match ms
    case None => r := None;
    case Some(m) => r := CombineMatches(m);
  }

  /** The loop of `get_matches_info`: the contributions of each match, or the first failure. */
  method CollectMatchTables(docs: seq<Json>) returns (r: Option<seq<MatchTables>>)
    ensures r == AllSome(docs, MatchTablesOf)
  {
    var ms: seq<MatchTables> := [];
    for i := 0 to |docs|
      invariant AllSome(docs[..i], MatchTablesOf) == Some(ms)
    {
      var m := MatchTablesFor(docs[i]);
      AllSomePrefix(docs, i, MatchTablesOf);
      if m.None? {
        AllSomeFailed(docs, i + 1, MatchTablesOf);
        return None;
      }
      ms := ms + [m.value];
    }
    assert docs[..|docs|] == docs;
    r := Some(ms);
  }

  /**
   * The result is missing exactly when the directory is empty or some match
   * document fails.
   */
  lemma MatchesInfoNone(docs: seq<Json>)
    ensures MatchesInfo(docs).None? <==>
      docs == [] || exists i :: 0 <= i < |docs| && MatchTablesOf(docs[i]).None?
  {
    AllSomeNone(docs, MatchTablesOf);
    if AllSome(docs, MatchTablesOf).Some? && docs != [] {
      AllSomeAt(docs, MatchTablesOf, 0);
    }
  }

  /** The statistics table has two rows per match. */
  lemma MatchesStatsRows(docs: seq<Json>)
    requires MatchesInfo(docs).Some?
    ensures |MatchesInfo(docs).value.stats.rows| == 2 * |docs|
  {
    var ms := AllSome(docs, MatchTablesOf).value;
    AllSomeAt(docs, MatchTablesOf, 0);
    forall i | 0 <= i < |ms| ensures |Stats(ms)[i].rows| == 2 {
      AllSomeAt(docs, MatchTablesOf, i);
    }
    AllRowsUniform(Stats(ms), 2);
  }

  /** The attendance of a match row is the event's, None when absent. */
  lemma MatchRecordAttendance(doc: Json, homeFormation: Json, awayFormation: Json)
    ensures "attendance" in Keys(MatchRecord(doc, homeFormation, awayFormation))
    ensures Lookup(MatchRecord(doc, homeFormation, awayFormation), "attendance") == Some(Get(EventOf(doc), "attendance", JNull))
  {
    var r := MatchRecord(doc, homeFormation, awayFormation);
    assert r[0].0 == "id" && r[1].0 == "slug" && r[2].0 == "round" && r[3].0 == "venue" && r[4].0 == "attendance";
    FieldAt(r, 4);
    assert Keys(r)[4] == "attendance";
  }

  /**
   * The info table has one row per match, in directory order, and a match
   * whose event has no attendance (or a None one) shows 0.
   */
  lemma MatchesAttendance(docs: seq<Json>, i: nat)
    requires MatchesInfo(docs).Some? && i < |docs|
    ensures var info := MatchesInfo(docs).value.info;
      var a := Get(EventOf(docs[i]), "attendance", JNull);
      && |info.rows| == |docs|
      && "attendance" in info.rows[i]
      && info.rows[i]["attendance"] == if a == JNull then Zero else a
  {
    var ms := AllSome(docs, MatchTablesOf).value;
    AllSomeAt(docs, MatchTablesOf, i);
    MatchTablesParts(docs[i]);
    var recs := Infos(ms);
    MatchRecordAttendance(docs[i], Get(SideOf(docs[i], "home"), "formation", EmptyStr),
                                   Get(SideOf(docs[i], "away"), "formation", EmptyStr));
    assert recs[i] == ms[i].info;
    KeysInAllKeys(recs, i, "attendance");
    FilledCell(recs, Zero, i, "attendance");
  }

  // ---------------------------------------------------------------- league processing

  /** The text of a row's `year` cell. */
  function YearText(row: Row): string
  {
    if "year" in row then Display(row["year"]) else ""
  }

  /**
   * The seasons `league_processing` goes through: those of the seasons table
   * whose raw folder exists, in table order. A table without a `year`
   * column (no season at all) makes pandas raise.
   */
  function SeasonsProcessed(f: Frame, present: set<string>): Option<seq<string>>
  {
    if "year" !in f.columns then None
    else Some(Keep(f.rows, r => YearText(r) in present, YearText))
  }

  /**
   * The seasons gone through fail exactly when the table has no `year`
   * column; otherwise they are years that have a folder, each taken from a
   * row, and every row whose year has a folder is gone through.
   */
  lemma SeasonsProcessedExact(f: Frame, present: set<string>)
    ensures SeasonsProcessed(f, present).None? <==> "year" !in f.columns
    ensures SeasonsProcessed(f, present).Some? ==> forall y :: y in SeasonsProcessed(f, present).value ==>
      y in present && exists i :: 0 <= i < |f.rows| && YearText(f.rows[i]) == y
    ensures SeasonsProcessed(f, present).Some? ==> forall i :: 0 <= i < |f.rows| && YearText(f.rows[i]) in present ==>
      YearText(f.rows[i]) in SeasonsProcessed(f, present).value
  {
    if "year" in f.columns {
      var p := r => YearText(r) in present;
      var ys := SeasonsProcessed(f, present).value;
      forall y | y in ys ensures y in present && exists i :: 0 <= i < |f.rows| && YearText(f.rows[i]) == y {
        KeepSound(f.rows, p, YearText, y);
        var x :| x in f.rows && p(x) && y == YearText(x);
        var i :| 0 <= i < |f.rows| && f.rows[i] == x;
      }
      forall i | 0 <= i < |f.rows| && YearText(f.rows[i]) in present ensures YearText(f.rows[i]) in ys {
        KeepComplete(f.rows, p, YearText, f.rows[i]);
      }
    }
  }

  /** The row of a season holds its stripped key under `year`. */
  lemma SeasonRowYear(league: Json, s: Json)
    ensures "year" in Keys(SeasonRecord(league, s))
    ensures YearText(RowOf(SeasonRecord(league, s))) == YearKey(s)
  {
    var r := SeasonRecord(league, s);
    assert r[0].0 == "league" && r[1].0 == "year";
    FieldAt(r, 1);
    assert Keys(r)[1] == "year";
  }

  /**
   * The seasons table built by `get_seasons_df` has a `year` column exactly
   * when some season is desired, and each of its rows holds the stripped key
   * of a desired season.
   */
  lemma SeasonsTableYears(league: Json, seasons: seq<Json>, allow: set<string>)
    ensures var f := FromRecords(SeasonRecords(league, seasons, allow));
      && ("year" in f.columns <==> SeasonRecords(league, seasons, allow) != [])
      && forall i :: 0 <= i < |f.rows| ==>
           (YearText(f.rows[i]) in allow && exists s :: s in seasons && YearText(f.rows[i]) == YearKey(s))
  {
    var recs := SeasonRecords(league, seasons, allow);
    var f := FromRecords(recs);
    SeasonRecordsExact(league, seasons, allow);
    forall i | 0 <= i < |recs| ensures "year" in Keys(recs[i]) && YearText(f.rows[i]) in allow &&
      exists s :: s in seasons && YearText(f.rows[i]) == YearKey(s)
    {
      assert recs[i] in recs;
      var s :| s in seasons && YearKey(s) in allow && recs[i] == SeasonRecord(league, s);
      SeasonRowYear(league, s);
    }
    InAllKeys(recs, "year");
    if recs != [] {
      assert "year" in Keys(recs[0]);
    }
  }
}
