/**
 * Flattening of the FotMob documents into tables: the available seasons of
 * a league and, per season, the standings table joined from the overall,
 * home, away and expected-goals tables.
 */
module FotmobFlatten {
  import opened Wrappers
  import opened Dicts
  import opened Text
  import opened Json
  import opened Frames
  import opened Seqs

  // ---------------------------------------------------------------- seasons

  /** The key of a season entry: `key`, None when absent. */
  function SeasonKey(data: Json): Json
  {
    Get(data, "key", JNull)
  }

  /** A season is wanted when its key is a string of the allow-list. */
  predicate Desired(data: Json, allow: set<string>)
  {
    SeasonKey(data).JStr? && SeasonKey(data).s in allow
  }

  function SeasonRecord(league: Json, data: Json): (r: Dict)
    ensures Keys(r) == ["league", "season", "link"]
  {
    [("league", league), ("season", SeasonKey(data)), ("link", Get(data, "link", JNull))]
  }

  /** The rows of the seasons table: the desired entries of the season dict, in its order. */
  function SeasonRecords(league: Json, all: Json, allow: set<string>): seq<Dict>
  {
    Keep(Values(all), d => Desired(d, allow), d => SeasonRecord(league, d))
  }

  /** `get_seasons_df`: an empty table when `allAvailableSeasons` is absent or empty. */
  function SeasonsTable(league: Json, doc: Json, allow: set<string>): Frame
  {
    var all := Get(doc, "allAvailableSeasons", JNull);
    if !Truthy(all) then Empty else FromRecords(SeasonRecords(league, all, allow))
  }

  method GetSeasonsDf(league: Json, doc: Json, allow: set<string>) returns (f: Frame)
    ensures f == SeasonsTable(league, doc, allow)
  {
    var all := Get(doc, "allAvailableSeasons", JNull);
    if !Truthy(all) {
      return Empty;
    }
    var entries := Values(all);
    var rows: seq<Dict> := [];
    var i := 0;
    while i < |entries|
      invariant 0 <= i <= |entries|
      invariant rows == Keep(entries[..i], d => Desired(d, allow), d => SeasonRecord(league, d))
    {
      KeepPrefix(entries, i, d => Desired(d, allow), d => SeasonRecord(league, d));
      if SeasonKey(entries[i]).JStr? && SeasonKey(entries[i]).s in allow {
        rows := rows + [SeasonRecord(league, entries[i])];
      }
      i := i + 1;
    }
    assert entries[..i] == entries;
    f := FromRecords(rows);
  }

  /**
   * Rows come only from desired entries and carry their key and link; every
   * desired entry has its row; there is one row per desired entry.
   */
  lemma SeasonRecordsExact(league: Json, all: Json, allow: set<string>)
    ensures forall r :: r in SeasonRecords(league, all, allow) ==>
      exists d :: d in Values(all) && Desired(d, allow) && r == SeasonRecord(league, d)
    ensures forall d :: d in Values(all) && Desired(d, allow) ==> SeasonRecord(league, d) in SeasonRecords(league, all, allow)
    ensures |SeasonRecords(league, all, allow)| == CountIf(Values(all), d => Desired(d, allow))
  {
    var p := d => Desired(d, allow);
    var g := d => SeasonRecord(league, d);
    forall r | r in SeasonRecords(league, all, allow)
      ensures exists d :: d in Values(all) && Desired(d, allow) && r == SeasonRecord(league, d)
    {
      KeepSound(Values(all), p, g, r);
    }
    forall d | d in Values(all) && Desired(d, allow) ensures SeasonRecord(league, d) in SeasonRecords(league, all, allow) {
      KeepComplete(Values(all), p, g, d);
    }
    KeepCount(Values(all), p, g);
  }

  /**
   * The seasons table is empty exactly when the season dict is absent or
   * empty or none of its entries is desired; otherwise its columns are
   * league, season and link.
   */
  lemma SeasonsTableColumns(league: Json, doc: Json, allow: set<string>)
    ensures var all := Get(doc, "allAvailableSeasons", JNull);
      SeasonsTable(league, doc, allow) == Empty <==> !Truthy(all) || CountIf(Values(all), d => Desired(d, allow)) == 0
    ensures SeasonsTable(league, doc, allow) != Empty ==> SeasonsTable(league, doc, allow).columns == ["league", "season", "link"]
  {
    var all := Get(doc, "allAvailableSeasons", JNull);
    var recs := SeasonRecords(league, all, allow);
    SeasonRecordsExact(league, all, allow);
    FromNoRecords();
    if Truthy(all) && recs != [] {
      forall i | 0 <= i < |recs| ensures Keys(recs[i]) == ["league", "season", "link"] {
        assert recs[i] in recs;
      }
      ColumnsUniform(recs, ["league", "season", "link"]);
    }
  }

  // ---------------------------------------------------------------- partition tables

  /** The statistics of a partition table. */
  const StatNames: seq<string> :=
    ["pos", "pts", "played", "wins", "draws", "losses", "goalsScored", "goalsConceded", "goalDiff"]

  /** The columns of a partition table: `team`, then the statistics named with the partition's suffix. */
  function PartColumns(suffix: string): (r: seq<string>)
    ensures |r| == 1 + |StatNames| && r[0] == "team"
    ensures forall k :: 0 <= k < |StatNames| ==> r[k + 1] == suffix + StatNames[k]
  {
    ["team"] + seq(|StatNames|, k requires 0 <= k < |StatNames| => suffix + StatNames[k])
  }

  /** Every column but `team` starts with the partition's suffix. */
  lemma PartColumnsPrefixed(suffix: string)
    ensures PartColumns(suffix)[0] == "team"
    ensures forall i :: 1 <= i < |PartColumns(suffix)| ==>
      |suffix| <= |PartColumns(suffix)[i]| && PartColumns(suffix)[i][..|suffix|] == suffix
  {
    forall i | 1 <= i < |PartColumns(suffix)|
      ensures |suffix| <= |PartColumns(suffix)[i]| && PartColumns(suffix)[i][..|suffix|] == suffix
    {
      assert PartColumns(suffix)[i] == suffix + StatNames[i - 1];
    }
  }

  /** The first and last letters of the statistic names. */
  lemma StatNamesLetters()
    ensures forall k :: 0 <= k < |StatNames| ==> |StatNames[k]| > 0 && StatNames[k][0] in "pwdlg" && StatNames[k][|StatNames[k]| - 1] in "sdf"
  {
  }

  lemma StatNamesDistinct()
    ensures Distinct(StatNames)
  {
  }

  /** A statistic column of a partition table: the suffix, then a name starting with one of `pwdlg`. */
  lemma PartColumnLead(suffix: string, c: string)
    ensures c in PartColumns(suffix) && c != "team" ==>
      |c| > |suffix| && c[..|suffix|] == suffix && c[|suffix|] in "pwdlg"
  {
    var r := PartColumns(suffix);
    if c in r && c != "team" {
      var i :| 0 <= i < |r| && r[i] == c;
      StatNamesLetters();
      assert c == suffix + StatNames[i - 1];
    }
  }

  /** The columns of any partition table are distinct. */
  lemma PartColumnsDistinct(suffix: string)
    ensures Distinct(PartColumns(suffix))
  {
    var r := PartColumns(suffix);
    StatNamesLetters();
    StatNamesDistinct();
    forall i, j | 0 <= i < j < |r| ensures r[i] != r[j] {
      var y := StatNames[j - 1];
      assert r[j] == suffix + y;
      if i == 0 {
        assert r[j][|r[j]| - 1] == y[|y| - 1];
        assert "team"[3] == 'm';
      } else {
        var x := StatNames[i - 1];
        assert r[i] == suffix + x;
        assert (suffix + x)[|suffix|..] == x && (suffix + y)[|suffix|..] == y;
      }
    }
  }

  /** `int(scoresStr.split('-')[1])`: nothing when there is no `-` or the piece is not an integer. */
  function Conceded(team: Json): Option<int>
  {
    var parts := SplitOn(StrOf(Get(team, "scoresStr", EmptyStr)), '-');
    if |parts| < 2 then None else ParseInt(parts[1])
  }

  /** `"45-20"` concedes 20: the digits after the dash. */
  lemma ConcededScore(team: Json, scored: string, conceded: string)
    requires Get(team, "scoresStr", EmptyStr) == JStr(scored + "-" + conceded)
    requires '-' !in scored && |conceded| > 0 && AllDigits(conceded)
    ensures Conceded(team) == Some(DigitsValue(conceded) as int)
  {
    assert '-' !in conceded by {
      forall i | 0 <= i < |conceded| ensures conceded[i] != '-' {
        assert IsDigit(conceded[i]);
      }
    }
    SplitOnJoin(scored, '-', conceded);
    SplitOnNone(conceded, '-');
    assert scored + "-" + conceded == scored + ['-'] + conceded;
    ParseDigits(conceded);
  }

  /** A score without a dash, the default `''` included, is a failure. */
  lemma ConcededNeedsDash(team: Json)
    requires '-' !in StrOf(Get(team, "scoresStr", EmptyStr))
    ensures Conceded(team).None?
  {
    SplitOnNone(StrOf(Get(team, "scoresStr", EmptyStr)), '-');
  }

  /** One team's row of a partition; nothing when its goals conceded do not parse. */
  function PartRecord(team: Json, suffix: string): (r: Option<Dict>)
    ensures r.Some? <==> Conceded(team).Some?
    ensures r.Some? ==> Keys(r.value) == PartColumns(suffix)
  {
    match Conceded(team)
    case None => None
    case Some(g) =>
      Some([("team", Get(team, "name", EmptyStr)),
            (suffix + "pos", Get(team, "idx", Zero)),
            (suffix + "pts", Get(team, "pts", Zero)),
            (suffix + "played", Get(team, "played", Zero)),
            (suffix + "wins", Get(team, "wins", Zero)),
            (suffix + "draws", Get(team, "draws", Zero)),
            (suffix + "losses", Get(team, "losses", Zero)),
            (suffix + "goalsScored", Get(team, "goalsScored", Zero)),
            (suffix + "goalsConceded", JInt(g)),
            (suffix + "goalDiff", Get(team, "goalConDiff", Zero))])
  }

  /** `part_table`: an empty table for an absent or empty partition; nothing when a row fails. */
  function PartTable(part: Json, suffix: string): Option<Frame>
  {
    if !Truthy(part) then Some(Empty)
    else match AllSome(Items(part), t => PartRecord(t, suffix))
      case None => None
      case Some(recs) => Some(FromRecords(recs))
  }

  method PartTableLoop(part: Json, suffix: string) returns (r: Option<Frame>)
    ensures r == PartTable(part, suffix)
  {
    if !Truthy(part) {
      return Some(Empty);
    }
    var teams := Items(part);
    var rows: seq<Dict> := [];
    var i := 0;
    while i < |teams|
      invariant 0 <= i <= |teams|
      invariant AllSome(teams[..i], t => PartRecord(t, suffix)) == Some(rows)
    {
      AllSomePrefix(teams, i, t => PartRecord(t, suffix));
      var row := PartRecord(teams[i], suffix);
      if row.None? {
        AllSomeFailed(teams, i + 1, t => PartRecord(t, suffix));
        return None;
      }
      rows := rows + [row.value];
      i := i + 1;
    }
    assert teams[..i] == teams;
    r := Some(FromRecords(rows));
  }

  /** The rows built from a partition's teams: one per team, with the partition's columns when there is one. */
  lemma PartRowsShape(teams: seq<Json>, suffix: string)
    requires AllSome(teams, t => PartRecord(t, suffix)).Some?
    ensures var f := FromRecords(AllSome(teams, t => PartRecord(t, suffix)).value);
      && |f.rows| == |teams|
      && (teams != [] ==> f.columns == PartColumns(suffix))
      && (teams == [] ==> f == Empty)
  {
    PartColumnsDistinct(suffix);
    AllSomeTable(teams, t => PartRecord(t, suffix), PartColumns(suffix));
  }

  /**
   * A partition table has one row per team, in order, and either no columns
   * (no team) or exactly the partition's columns.
   */
  lemma PartTableShape(part: Json, suffix: string)
    requires PartTable(part, suffix).Some?
    ensures var f := PartTable(part, suffix).value;
      && (Truthy(part) ==> |f.rows| == |Items(part)|)
      && (f.columns == [] || f.columns == PartColumns(suffix))
      && (f.columns == [] <==> f.rows == [])
  {
    if Truthy(part) {
      PartRowsShape(Items(part), suffix);
    }
  }

  // ---------------------------------------------------------------- expected goals

  const XgColumns: seq<string> := ["team", "xG", "xGA", "xGDiff", "xGADiff", "xPos", "xPosDiff", "xPts", "xPtsDiff"]

  /** One team's expected-goals row; the expected values default to 0.0, the positions to 0. */
  function XgRecord(team: Json): (r: Dict)
    ensures Keys(r) == XgColumns
  {
    [("team", Get(team, "name", EmptyStr)),
     ("xG", Get(team, "xg", JFloat(0.0))),
     ("xGA", Get(team, "xgConceded", JFloat(0.0))),
     ("xGDiff", Get(team, "xgDiff", JFloat(0.0))),
     ("xGADiff", Get(team, "xgConcededDiff", JFloat(0.0))),
     ("xPos", Get(team, "xPosition", Zero)),
     ("xPosDiff", Get(team, "xPositionDiff", Zero)),
     ("xPts", Get(team, "xPoints", JFloat(0.0))),
     ("xPtsDiff", Get(team, "xPointsDiff", JFloat(0.0)))]
  }

  /** The teams of the `xg` list, or none when absent. */
  function XgTeams(tables: Json): seq<Json>
  {
    Items(Get(tables, "xg", EmptyObj))
  }

  function XgTable(tables: Json): Frame
  {
    FromRecords(Keep(XgTeams(tables), AcceptAll, XgRecord))
  }

  method XgRows(tables: Json) returns (f: Frame)
    ensures f == XgTable(tables)
  {
    var teams := XgTeams(tables);
    var rows: seq<Dict> := [];
    var i := 0;
    while i < |teams|
      invariant 0 <= i <= |teams|
      invariant rows == Keep(teams[..i], AcceptAll, XgRecord)
    {
      KeepPrefix(teams, i, AcceptAll, XgRecord);
      rows := rows + [XgRecord(teams[i])];
      i := i + 1;
    }
    assert teams[..i] == teams;
    f := FromRecords(rows);
  }

  /** The expected-goals table has one row per team, in order, and its columns when it has a row. */
  lemma XgTableShape(tables: Json)
    ensures var f := XgTable(tables);
      && |f.rows| == |XgTeams(tables)|
      && (f.columns == [] || f.columns == XgColumns)
      && (f.columns == [] <==> f.rows == [])
  {
    var recs := Keep(XgTeams(tables), AcceptAll, XgRecord);
    KeepEvery(XgTeams(tables), AcceptAll, XgRecord);
    if recs != [] {
      ColumnsUniform(recs, XgColumns);
    } else {
      FromNoRecords();
    }
  }

  // ---------------------------------------------------------------- standings

  /** A frame whose columns are among `cs`. */
  predicate ColumnsWithin(f: Frame, cs: seq<string>)
  {
    forall c :: c in f.columns ==> c in cs
  }

  /** An expected-goals column other than `team` starts with `x`. */
  lemma XgColumnLead(c: string)
    ensures c in XgColumns && c != "team" ==> |c| > 0 && c[0] == 'x'
  {
  }

  /** The overall and home tables share only `team`. */
  lemma SharedAllHome(c: string)
    ensures c in PartColumns("") && c in PartColumns("home_") ==> c == "team"
  {
    PartColumnLead("", c);
    PartColumnLead("home_", c);
  }

  /** The overall or home columns and the away columns share only `team`. */
  lemma SharedWithAway(c: string)
    ensures (c in PartColumns("") || c in PartColumns("home_")) && c in PartColumns("away_") ==> c == "team"
  {
    PartColumnLead("", c);
    PartColumnLead("home_", c);
    PartColumnLead("away_", c);
  }

  /** The partition columns and the expected-goals columns share only `team`. */
  lemma SharedWithXg(c: string)
    ensures (c in PartColumns("") || c in PartColumns("home_") || c in PartColumns("away_")) && c in XgColumns ==> c == "team"
  {
    PartColumnLead("", c);
    PartColumnLead("home_", c);
    PartColumnLead("away_", c);
    XgColumnLead(c);
  }

  /** The four tables share only the `team` column. */
  lemma PartsShareOnlyTeam()
    ensures forall c :: c in PartColumns("") && c in PartColumns("home_") ==> c == "team"
    ensures forall c :: c in PartColumns("") + PartColumns("home_") && c in PartColumns("away_") ==> c == "team"
    ensures forall c :: c in PartColumns("") + PartColumns("home_") + PartColumns("away_") && c in XgColumns ==> c == "team"
  {
    forall c ensures c in PartColumns("") && c in PartColumns("home_") ==> c == "team" {
      SharedAllHome(c);
    }
    forall c ensures c in PartColumns("") + PartColumns("home_") && c in PartColumns("away_") ==> c == "team" {
      SharedWithAway(c);
    }
    forall c ensures c in PartColumns("") + PartColumns("home_") + PartColumns("away_") && c in XgColumns ==> c == "team" {
      SharedWithXg(c);
    }
  }

  /**
   * The inner joins on `team`: all with home, then away, then expected
   * goals. pandas raises when a side has no `team` column (an empty table).
   */
  function JoinParts(all: Frame, home: Frame, away: Frame, xg: Frame): Option<Frame>
    requires ColumnsWithin(all, PartColumns("")) && ColumnsWithin(home, PartColumns("home_"))
    requires ColumnsWithin(away, PartColumns("away_")) && ColumnsWithin(xg, XgColumns)
  {
    PartsShareOnlyTeam();
    match Merge(all, home, "team")
    case None => None
    case Some(m1) =>
      assert ColumnsWithin(m1, PartColumns("") + PartColumns("home_")) by {
        forall c | c in m1.columns ensures c in PartColumns("") + PartColumns("home_") {
          MergeColumnsFrom(all, home, "team", c);
        }
      }
      match Merge(m1, away, "team")
      case None => None
      case Some(m2) =>
        assert ColumnsWithin(m2, PartColumns("") + PartColumns("home_") + PartColumns("away_")) by {
          forall c | c in m2.columns ensures c in PartColumns("") + PartColumns("home_") + PartColumns("away_") {
            MergeColumnsFrom(m1, away, "team", c);
          }
        }
        Merge(m2, xg, "team")
  }

  /** What `get_standings_table` returns: `{}` for an empty table list, or the standings table. */
  datatype Standing = NoTable | Table(f: Frame)

  /** `doc['table'][0]['data']['table']`: nothing when a step is missing. */
  function Tables(doc: Json): Option<Json>
  {
    match Index(doc, "table")
    case None => None
    case Some(t) =>
      match At(t, 0)
      case None => None
      case Some(t0) =>
        match Index(t0, "data")
        case None => None
        case Some(d) => Index(d, "table")
  }

  /** The three partition tables and the expected-goals table of a non-empty table list. */
  function PartsOf(tables: Json): Option<(Frame, Frame, Frame, Frame)>
  {
    var a := PartTable(Get(tables, "all", JNull), "");
    var h := PartTable(Get(tables, "home", JNull), "home_");
    var w := PartTable(Get(tables, "away", JNull), "away_");
    if a.None? || h.None? || w.None? then None else Some((a.value, h.value, w.value, XgTable(tables)))
  }

  /** The partition tables have the columns the joins expect. */
  lemma PartsColumns(tables: Json)
    requires PartsOf(tables).Some?
    ensures var (a, h, w, x) := PartsOf(tables).value;
      && ColumnsWithin(a, PartColumns("")) && ColumnsWithin(h, PartColumns("home_"))
      && ColumnsWithin(w, PartColumns("away_")) && ColumnsWithin(x, XgColumns)
  {
    PartTableShape(Get(tables, "all", JNull), "");
    PartTableShape(Get(tables, "home", JNull), "home_");
    PartTableShape(Get(tables, "away", JNull), "away_");
    XgTableShape(tables);
  }

  /**
   * `get_standings_table`: the joined table with `league` and `season` in
   * front, sorted on `pos`; `{}` when the table list is empty; nothing when
   * the source raises (a missing step to the table list, a failing row, a
   * join on an empty table).
   */
  function StandingsTable(league: Json, seasonKey: string, doc: Json): Option<Standing>
  {
    match Tables(doc)
    case None => None
    case Some(tables) =>
      if !Truthy(tables) then Some(NoTable)
      else match PartsOf(tables)
        case None => None
        case Some((a, h, w, x)) =>
          PartsColumns(tables);
          match JoinParts(a, h, w, x)
          case None => None
          case Some(m) =>
            match PrefixLeagueSeason(m, league, JStr(seasonKey))
            case None => None
            case Some(t) => Some(Table(SortBy(t, "pos")))
  }

  /** `get_standings_table` gives `{}` exactly when the table list it reaches is empty. */
  lemma StandingsNoTable(league: Json, seasonKey: string, doc: Json)
    ensures StandingsTable(league, seasonKey, doc) == Some(NoTable) <==> Tables(doc).Some? && !Truthy(Tables(doc).value)
  {
  }

  /**
   * The joined table holds a team exactly when it is in all four tables;
   * four keyed tables holding the same N teams, each once, give N rows.
   */
  lemma JoinPartsTeams(all: Frame, home: Frame, away: Frame, xg: Frame)
    requires ColumnsWithin(all, PartColumns("")) && ColumnsWithin(home, PartColumns("home_"))
    requires ColumnsWithin(away, PartColumns("away_")) && ColumnsWithin(xg, XgColumns)
    requires JoinParts(all, home, away, xg).Some?
    ensures KeyValues(JoinParts(all, home, away, xg).value.rows, "team") ==
      KeyValues(all.rows, "team") * KeyValues(home.rows, "team") * KeyValues(away.rows, "team") * KeyValues(xg.rows, "team")
    ensures KeyedUnique(all.rows, "team") && KeyedUnique(home.rows, "team") && KeyedUnique(away.rows, "team") && KeyedUnique(xg.rows, "team")
      && KeyValues(all.rows, "team") == KeyValues(home.rows, "team") == KeyValues(away.rows, "team") == KeyValues(xg.rows, "team")
      ==> |JoinParts(all, home, away, xg).value.rows| == |all.rows|
  {
    PartsShareOnlyTeam();
    var m1 := Merge(all, home, "team").value;
    assert ColumnsWithin(m1, PartColumns("") + PartColumns("home_")) by {
      forall c | c in m1.columns ensures c in PartColumns("") + PartColumns("home_") {
        MergeColumnsFrom(all, home, "team", c);
      }
    }
    var m2 := Merge(m1, away, "team").value;
    assert ColumnsWithin(m2, PartColumns("") + PartColumns("home_") + PartColumns("away_")) by {
      forall c | c in m2.columns ensures c in PartColumns("") + PartColumns("home_") + PartColumns("away_") {
        MergeColumnsFrom(m1, away, "team", c);
      }
    }
    var m3 := Merge(m2, xg, "team").value;
    assert JoinParts(all, home, away, xg).value == m3;
    JoinKeyValues(all.rows, home.rows, "team");
    JoinKeyValues(m1.rows, away.rows, "team");
    JoinKeyValues(m2.rows, xg.rows, "team");
    if && KeyedUnique(all.rows, "team") && KeyedUnique(home.rows, "team") && KeyedUnique(away.rows, "team") && KeyedUnique(xg.rows, "team")
       && KeyValues(all.rows, "team") == KeyValues(home.rows, "team") == KeyValues(away.rows, "team") == KeyValues(xg.rows, "team")
    {
      JoinKeepsLeft(all.rows, home.rows, "team");
      JoinKeepsLeft(m1.rows, away.rows, "team");
      JoinKeepsLeft(m2.rows, xg.rows, "team");
    }
  }

  /**
   * From the four tables: after the joins, the insertion of `league` and
   * `season` and the sort, the table leads with `league` and `season`, is
   * sorted on `pos`, and holds the teams present in all four tables.
   */
  lemma StandingsFromParts(a: Frame, h: Frame, w: Frame, x: Frame, league: Json, seasonKey: string)
    requires ColumnsWithin(a, PartColumns("")) && ColumnsWithin(h, PartColumns("home_"))
    requires ColumnsWithin(w, PartColumns("away_")) && ColumnsWithin(x, XgColumns)
    requires JoinParts(a, h, w, x).Some? && PrefixLeagueSeason(JoinParts(a, h, w, x).value, league, JStr(seasonKey)).Some?
    ensures var f := SortBy(PrefixLeagueSeason(JoinParts(a, h, w, x).value, league, JStr(seasonKey)).value, "pos");
      && f.columns[..2] == ["league", "season"]
      && SortedOn(f.rows, "pos")
      && KeyValues(f.rows, "team") ==
           KeyValues(a.rows, "team") * KeyValues(h.rows, "team") * KeyValues(w.rows, "team") * KeyValues(x.rows, "team")
  {
    var m := JoinParts(a, h, w, x).value;
    var t := PrefixLeagueSeason(m, league, JStr(seasonKey)).value;
    JoinPartsTeams(a, h, w, x);
    KeyValuesPrefix(m, league, JStr(seasonKey), "team");
    KeyValuesPermutation(SortBy(t, "pos").rows, t.rows, "team");
  }

  /**
   * A standings table leads with `league` and `season`, is sorted on `pos`,
   * and holds exactly the teams present in all four tables of the document.
   */
  lemma StandingsTableShape(league: Json, seasonKey: string, doc: Json)
    requires StandingsTable(league, seasonKey, doc).Some? && StandingsTable(league, seasonKey, doc).value.Table?
    ensures var (a, h, w, x) := PartsOf(Tables(doc).value).value;
      var f := StandingsTable(league, seasonKey, doc).value.f;
      && f.columns[..2] == ["league", "season"]
      && SortedOn(f.rows, "pos")
      && KeyValues(f.rows, "team") ==
           KeyValues(a.rows, "team") * KeyValues(h.rows, "team") * KeyValues(w.rows, "team") * KeyValues(x.rows, "team")
  {
    var tables := Tables(doc).value;
    var (a, h, w, x) := PartsOf(tables).value;
    PartsColumns(tables);
    var m := JoinParts(a, h, w, x).value;
    var t := PrefixLeagueSeason(m, league, JStr(seasonKey)).value;
    assert StandingsTable(league, seasonKey, doc).value.f == SortBy(t, "pos");
    StandingsFromParts(a, h, w, x, league, seasonKey);
  }
}
