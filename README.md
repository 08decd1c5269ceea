# A football data pipeline, modelled in Dafny

The system is a small extract-transform-load pipeline for football data. It
gathers data from three sources: SofaScore, Scoresway (Opta feeds) and
FotMob.

Each source has a **scraper** and a **flattener**:

- The **scraper** fetches JSON documents (seasons, standings, match
  details, player, team and venue information) and keeps them in a cache
  directory. For each document it decides whether the cached file can be
  reused, how old it is allowed to be, and whether what it just fetched
  looks complete enough to be persisted.
- The **flattener** reads the cached documents and turns the nested JSON
  into flat tables. Along the way it fills in defaults, filters entries,
  splits a document into home and away partitions, joins them, gives every
  table its `league` and `season` columns, and writes the tables as CSV.

The Dafny modules follow that structure.

| module | file | models |
|---|---|---|
| `SofascoreScrape`, `ScoreswayScrape`, `FotmobScrape` | `scr_*.dfy` | the scrapers |
| `SofascoreFlatten`, `ScoreswayFlatten`, `FotmobFlatten` | `prc_*.dfy` | the flatteners |
| `Json` | `json.dfy` | parsed documents as Python sees them: `dict.get` (the default applies only when the key is absent), truthiness, iteration, the comparisons with 0 the source makes, f-string display |
| `Dicts` | `dicts.dfy` | insertion-ordered dicts, as sequences of pairs |
| `Seqs` | `seqs.dfy` | the recurring loop shapes: filter-and-map, all-or-nothing mapping, and dict comprehensions where the last duplicate wins |
| `Text` | `text.dfy` | the string operations used: `lower`, `replace`, `strip`, `split`, `int()`, slices, two-digit padding |
| `Frames` | `frames.dfy` | the part of pandas the flatteners rely on: `DataFrame(records)`, `insert`, `fillna`, `dropna`, row filters, `concat`, the inner `merge` and `sort_values` |
| `Store` | `store.dfy` | the cache directory, as the class `FileStore`; its field `files` maps a path to the file stored there |
| `Paths` | `paths.dfy` | the league-folder slug and the file selection and renaming of the flattening driver |

The stored files work as follows:

- A file holds a document, nothing, or text that is not JSON.
- A file has an age in seconds.
- A file is stale when its age is strictly greater than the threshold in
  days times 86400.
- The network is a parameter: a function from a URL to the document
  served there. For Scoresway it is a function from a URL to a response
  (status and body), plus a `json.loads` function from text to an optional
  document.

Each scraper function is modelled twice:

- as a **method** that changes the store step by step, exactly where the
  source reads, writes or removes files;
- as a **function** from the old store to the result and the new store.

The method's postcondition says that it computes that function. Lemmas
then state what the source promises about it:

- a fresh or permanent cache entry is returned without a fetch;
- a fetched document is written exactly when its completeness test holds;
- once a document has been written, a second call on the store the first
  one left returns it again and writes nothing, whatever the network serves.
  For the caches with an age limit this rests on a write resetting the
  file's age, which is how `os.path.getctime` behaves on Unix; see
  "## Left out" for Windows.

The flattener functions are stated against their inputs: one row per
input element, in order; the defaults of absent fields; the columns and
their order; which entries a filter keeps, in both directions; the join
keys; sortedness together with being a permutation of the input.

## Model

| member | source | states |
|---|---|---|
| SofascoreFlatten.YearKey | code/prc/sofascore.py:36 | the season key is the `year` with every `/` removed, so it holds no `/` |
| SofascoreFlatten.SeasonRecordsExact | code/prc/sofascore.py:34-41 | every row comes from a desired season and carries its stripped key; every desired season has its row; one row per desired season |
| SofascoreFlatten.GetSeasonsDf | code/prc/sofascore.py:22-43 | an empty table when `seasons` is absent or empty, otherwise the table of the desired seasons' rows |
| SofascoreFlatten.StandingRecord | code/prc/sofascore.py:52-62 | a standings row has the eleven columns position through scores_against, in order |
| SofascoreFlatten.StandingDefaults | code/prc/sofascore.py:52-62 | a team with none of the fields gets `''` for team, team_slug and promotion and 0 for every count |
| SofascoreFlatten.StandingColumnsDistinct | code/prc/sofascore.py:52-62 | the eleven standings columns are pairwise distinct |
| SofascoreFlatten.PartialStanding | code/prc/sofascore.py:49-63 | the loop of `partial_standing` builds one row per team of the list |
| SofascoreFlatten.StandingShape | code/prc/sofascore.py:49-63 | a partial standing has exactly one row per team, in order, and the eleven columns unless the list is empty |
| SofascoreFlatten.StandingTable | code/prc/sofascore.py:66-78 | one of the three parts: it fails exactly when the part has no first standing, otherwise it is that part's table with league and season in front |
| SofascoreFlatten.ObtainStandingsTables | code/prc/sofascore.py:46-80 | fails exactly when one of total, home and away has no first standing; otherwise each of the three tables is its part's standing with league and season in front |
| SofascoreFlatten.StandingTablesShape | code/prc/sofascore.py:76-78 | inserting league and season always succeeds and gives `league`, `season`, then the standings columns, with one row per team |
| SofascoreFlatten.NotStandingColumns | code/prc/sofascore.py:52-62 | neither `league` nor `season` is a standings column, so the insertions cannot clash |
| SofascoreFlatten.EntitiesProcessing | code/prc/sofascore.py:88-119 | the loop shared by players, teams and venues builds one row per entry with a truthy id |
| SofascoreFlatten.EntityRows | code/prc/sofascore.py:128-154 | an entry with a falsy id gives no row; every other entry gives exactly one row, with its id, name and, when its detail file exists, the enrichment |
| SofascoreFlatten.EntityRecordKeys | code/prc/sofascore.py:134-152 | an entity row's columns are id and name, followed by the enrichment columns exactly when the detail document `{id}.json` exists |
| SofascoreFlatten.PlayerHead | code/prc/sofascore.py:104-107 | the first player detail columns are slug, short_name, team and country |
| SofascoreFlatten.PlayerPositions | code/prc/sofascore.py:101-110 | position is the single detailed position when there is exactly one and `''` otherwise; second and third positions are entries 1 and 2 when present |
| SofascoreFlatten.PlayersProcessing | code/prc/sofascore.py:83-121 | the players table is the table of the rows of the players with a truthy playerId, each enriched from its detail file |
| SofascoreFlatten.TeamsProcessing | code/prc/sofascore.py:124-156 | the teams table is the table of the rows of the teams with a truthy id, each enriched from its detail file |
| SofascoreFlatten.VenuesProcessing | code/prc/sofascore.py:159-194 | the venues table is the table of the rows of the venues with a truthy id, each enriched from its detail file |
| SofascoreFlatten.ManagersProcessing | code/prc/sofascore.py:197-225 | the loop over the manager documents builds one row per document with a truthy `manager` |
| SofascoreFlatten.ManagerRows | code/prc/sofascore.py:206-225 | there are as many rows as documents with a truthy `manager`, and an empty table when there are none |
| SofascoreFlatten.WithStatsOther | code/prc/sofascore.py:245-248 | a key that no copied statistic names keeps its earlier value |
| SofascoreFlatten.WithStatsCopies | code/prc/sofascore.py:245-248 | a statistic other than ratingVersions and statisticsType is copied with its value |
| SofascoreFlatten.AddStats | code/prc/sofascore.py:246-248 | the inner loop copies the player's statistics into the row |
| SofascoreFlatten.LineupRecordFor | code/prc/sofascore.py:237-248 | the loop body builds the player's row with its statistics |
| SofascoreFlatten.SingleTeamLineup | code/prc/sofascore.py:228-256 | returns the side's formation (`''` by default) and its lineup table, filled with 0 and cut to positive minutes |
| SofascoreFlatten.LineupRecordsFor | code/prc/sofascore.py:234-250 | the loop builds one row per player, in order |
| SofascoreFlatten.LineupSides | code/prc/sofascore.py:238-239 | a home player's row names the home team and the away opponent, an away player's row the reverse, unless a statistic overrides them |
| SofascoreFlatten.LineupStats | code/prc/sofascore.py:245-248 | every statistic except ratingVersions and statisticsType becomes a column holding its value; those two never do |
| SofascoreFlatten.LineupMinutesColumn | code/prc/sofascore.py:253-254 | the lineup table exists exactly when some player's row has `minutesPlayed` (pandas raises KeyError otherwise) |
| SofascoreFlatten.LineupMinutesRows | code/prc/sofascore.py:253-254 | a player's filled row is kept exactly when its minutesPlayed, missing or None read as 0, is positive; a player without minutes is dropped |
| SofascoreFlatten.StatsBase | code/prc/sofascore.py:309 | the statistics frame of a match starts with two rows |
| SofascoreFlatten.WithStatColumns | code/prc/sofascore.py:310-312 | assigning the statistic columns keeps two rows, keeps every earlier column and adds a column for every item's name |
| SofascoreFlatten.WithStatColumnsAppend | code/prc/sofascore.py:310-312 | adding the columns of two item lists one after the other is adding those of their concatenation |
| SofascoreFlatten.AddStatItems | code/prc/sofascore.py:311-312 | the inner loop adds the items' columns |
| SofascoreFlatten.TeamStats | code/prc/sofascore.py:309-313 | the statistics table of a match is its two-row frame with the columns of every item of every group, in order |
| SofascoreFlatten.TeamStatsRows | code/prc/sofascore.py:309-312 | the statistics table has a home row and an away row, each naming its team, the other as opponent and the match id, unless a statistic reuses those names |
| SofascoreFlatten.StatColumnValues | code/prc/sofascore.py:312 | a statistic that no later item renames holds the home value in the home row and the away value in the away row |
| SofascoreFlatten.ShotHead | code/prc/sofascore.py:318-324 | the first seven shot columns are match_id, team, opponent, player, type, situation, body_part |
| SofascoreFlatten.ShotSides | code/prc/sofascore.py:319-320 | a shot's team is the home team exactly when `isHome` is truthy, and the opponent is the other team |
| SofascoreFlatten.ShotBodyPart | code/prc/sofascore.py:323-324 | a shot's body_part repeats its situation, as written |
| SofascoreFlatten.ShotsOf | code/prc/sofascore.py:316-335 | one shot row per shot map entry, in order |
| SofascoreFlatten.MomentumSide | code/prc/sofascore.py:342 | a point's team is the home team exactly when its value is at least 0, so a point without a value counts for the home team |
| SofascoreFlatten.MomentumOf | code/prc/sofascore.py:339-344 | one momentum row per graph point, in order |
| SofascoreFlatten.MatchRecord | code/prc/sofascore.py:281-302 | a match row has the ten event columns then home_formation and away_formation |
| SofascoreFlatten.StackLineups | code/prc/sofascore.py:297-298 | the match lineups fail exactly when a side failed or already has `match_id`; otherwise `match_id` leads and the rows are the home rows then the away rows, each with the match id |
| SofascoreFlatten.TablesFrom | code/prc/sofascore.py:300-345 | a match contributes its stacked lineups, its match row with the formations and a two-row statistics table |
| SofascoreFlatten.MatchTablesOf | code/prc/sofascore.py:272-345 | a match's statistics table always has two rows |
| SofascoreFlatten.MatchTablesParts | code/prc/sofascore.py:272-345 | a match document fails exactly when its lineups fail or `statistics` has no first entry; otherwise it contributes its lineups and its row with both formations |
| SofascoreFlatten.CombineLists | code/prc/sofascore.py:348-352 | stacking fails exactly when there is no match at all; the info table then has one row per match, the lineups and statistics one per row of their parts |
| SofascoreFlatten.MatchTablesFor | code/prc/sofascore.py:272-345 | the loop body computes the match's contribution |
| SofascoreFlatten.LineupsFor | code/prc/sofascore.py:293-298 | returns the two formations and the stacked lineups |
| SofascoreFlatten.AssembleTables | code/prc/sofascore.py:300-345 | the rest of the loop body builds the row, statistics, shots and momentum |
| SofascoreFlatten.GetMatchesInfo | code/prc/sofascore.py:259-354 | gathers each match's tables and stacks them |
| SofascoreFlatten.CollectMatchTables | code/prc/sofascore.py:269-345 | the loop yields the contributions of every match, or fails at the first failing match |
| SofascoreFlatten.MatchesInfoNone | code/prc/sofascore.py:259-354 | the result is missing exactly when the directory is empty or some match document fails |
| SofascoreFlatten.MatchesStatsRows | code/prc/sofascore.py:309-350 | the statistics table has two rows per match |
| SofascoreFlatten.MatchRecordAttendance | code/prc/sofascore.py:285 | the attendance is the event's, None when absent (no default) |
| SofascoreFlatten.MatchesAttendance | code/prc/sofascore.py:285-348 | the info table has one row per match in directory order, and a missing or None attendance shows 0 after `fillna(0)` |
| SofascoreFlatten.SeasonsProcessedExact | code/prc/sofascore.py:375-378 | the season loop fails exactly when the table has no `year` column; otherwise it goes through exactly the table's years that have a raw folder |
| SofascoreFlatten.SeasonRowYear | code/prc/sofascore.py:39-41 | a season row holds its stripped key under `year` |
| SofascoreFlatten.SeasonsTableYears | code/prc/sofascore.py:32-43 | the seasons table has a `year` column exactly when some season is desired, and each row's year is the stripped key of a desired season |
| ScoreswayFlatten.Spaced | code/prc/scoresway.py:92-93 | `f'{a} {b}'` is the printed first value, one space, then the printed second value |
| ScoreswayFlatten.Slug | code/prc/scoresway.py:43 | the match slug holds no capital letter |
| ScoreswayFlatten.Contestants | code/prc/scoresway.py:43-47 | the two contestants are found exactly when the list has a second entry, and are entries 0 and 1 |
| ScoreswayFlatten.SlugSplit | code/prc/scoresway.py:43 | when neither code holds a dash, splitting the slug at `-` gives back the two lower-cased codes |
| ScoreswayFlatten.RefereeEmpty | code/prc/scoresway.py:36-39 | the referee is `''` exactly when the first match official cannot be read (the `except` branch) |
| ScoreswayFlatten.MatchHead | code/prc/scoresway.py:42-48 | the `matchInfo` part of a match row has the columns id, slug, date, time, home_team, away_team, venue |
| ScoreswayFlatten.MatchTail | code/prc/scoresway.py:49-55 | the `liveData` part of a match row has the columns attendance, match_min, the four scores and referee |
| ScoreswayFlatten.MatchRecord | code/prc/scoresway.py:42-55 | a match row exists exactly when the match has two contestants, and then has the fourteen columns in order |
| ScoreswayFlatten.MatchTailEmpty | code/prc/scoresway.py:49-55 | without live data the live part is attendance 0, match_min 90, all scores 0 and referee `''` |
| ScoreswayFlatten.MatchDefaults | code/prc/scoresway.py:34-55 | a match without `liveData` has match_min 90, attendance 0, four zero scores and an empty referee |
| ScoreswayFlatten.MatchesProcessing | code/prc/scoresway.py:22-57 | the loop over `match` builds the matches table, failing when a match lacks two contestants |
| ScoreswayFlatten.MatchColumnsDistinct | code/prc/scoresway.py:42-55 | the fourteen match columns are pairwise distinct |
| ScoreswayFlatten.MatchesTableRows | code/prc/scoresway.py:22-57 | the table exists if and only if every match has two contestants; it has one row per match in order, each that match's row, with the fourteen columns |
| ScoreswayFlatten.TeamRecord | code/prc/scoresway.py:74-80 | a team row has the columns id, code, slug, name, club_name, short_name, venue |
| ScoreswayFlatten.PersonHead | code/prc/scoresway.py:91-98 | the columns players and managers share, in order, `team` being the squad's name |
| ScoreswayFlatten.SquadPeople | code/prc/scoresway.py:85-110 | the inner loop yields exactly the squad's player rows and manager rows |
| ScoreswayFlatten.SquadsProcessing | code/prc/scoresway.py:60-112 | the loop over the squads builds the teams, players and managers tables |
| ScoreswayFlatten.TeamsTable | code/prc/scoresway.py:72-80 | the teams table has one row per squad, in order, with the seven team columns |
| ScoreswayFlatten.TeamSlug | code/prc/scoresway.py:76 | a team's slug is its contestant code lower-cased |
| ScoreswayFlatten.PlayersPlacement | code/prc/scoresway.py:85-100 | every players row is the row of a squad member of type `player` with a truthy shirt number, and every such member has a row |
| ScoreswayFlatten.ManagersPlacement | code/prc/scoresway.py:101-110 | every managers row is the row of a squad member not of type `player`, and every such member has a row |
| ScoreswayFlatten.PersonKinds | code/prc/scoresway.py:90-101 | no person is both an active player and a manager; a `player` without a truthy shirt number is neither |
| ScoreswayFlatten.PersonTeam | code/prc/scoresway.py:97-108 | every player and manager row names its squad in `team` |
| ScoreswayFlatten.Results | code/prc/scoresway.py:128-134 | the result columns points through goals_against, in order |
| ScoreswayFlatten.AttendanceRecord | code/prc/scoresway.py:146-154 | an attendance row has rank, team, venue_name and the six attendance columns |
| ScoreswayFlatten.TotalRecord | code/prc/scoresway.py:125-134 | a total row has rank, status, team and the seven result columns |
| ScoreswayFlatten.SplitRecord | code/prc/scoresway.py:136-144 | a home, away or half-time row has the total columns without status |
| ScoreswayFlatten.PartStandingsTable | code/prc/scoresway.py:118-156 | the loop builds the table of the rows of the given type |
| ScoreswayFlatten.StandingKeys | code/prc/scoresway.py:124-154 | each known type gets its own column list; the split columns are the total ones without status |
| ScoreswayFlatten.DrawsLossesSwapped | code/prc/scoresway.py:131-142 | in the total, home, away and half-time rows `draws` holds matchesLost and `losses` holds matchesDrawn, as written |
| ScoreswayFlatten.KindColumnsDistinct | code/prc/scoresway.py:124-154 | the columns of each type are pairwise distinct |
| ScoreswayFlatten.PartUnknownEmpty | code/prc/scoresway.py:123-156 | a type other than the five known ones gives an empty table |
| ScoreswayFlatten.PartShape | code/prc/scoresway.py:118-156 | a known type gives one row per team, in order, with that type's columns |
| ScoreswayFlatten.StandingsProcessing | code/prc/scoresway.py:115-171 | fails exactly when there is no first stage or fewer than ten divisions, and otherwise builds the five tables from divisions 0, 1, 2, 6 and 9 |
| ScoreswayFlatten.LastStat | code/prc/scoresway.py:205-206 | there is no value for a statistic type exactly when no entry has that type |
| ScoreswayFlatten.WithStatListLookup | code/prc/scoresway.py:205-206 | after the statistics loop a column holds the value of the last entry of its type, or its earlier value when no entry names it |
| ScoreswayFlatten.AddStatList | code/prc/scoresway.py:205-206 | the statistics loop writes each entry's value under its type |
| ScoreswayFlatten.PosSide | code/prc/scoresway.py:201 | pos_side is positionSide when truthy, otherwise subPosition or `''` |
| ScoreswayFlatten.LineupBase | code/prc/scoresway.py:195-202 | a lineup row before its statistics has the eight player columns |
| ScoreswayFlatten.ObtainTeamLineupDf | code/prc/scoresway.py:187-216 | the loop over the players builds the team's lineup table, failing as the `insert` or `dropna` fails |
| ScoreswayFlatten.PlayedStat | code/prc/scoresway.py:214 | a player's row survives the `dropna` exactly when its last minsPlayed statistic is present and not None |
| ScoreswayFlatten.LineupPosSide | code/prc/scoresway.py:201 | without a statistic named pos_side, the row's pos_side is the position side or the sub-position |
| ScoreswayFlatten.LineupStat | code/prc/scoresway.py:205-206 | a statistic's column holds the value of its last entry |
| ScoreswayFlatten.LineupTableFails | code/prc/scoresway.py:212-214 | the lineup table fails exactly when some row already has `team` or no row has a minsPlayed column |
| ScoreswayFlatten.LineupTableRows | code/prc/scoresway.py:212-216 | a lineup table leads with `team` and holds, with `team` set to the id, the row of each record that played and nothing else |
| ScoreswayFlatten.TeamLineupRows | code/prc/scoresway.py:187-216 | a team's lineup table holds the row of each player who played, with the team id, and nothing else |
| ScoreswayFlatten.GoalRecord | code/prc/scoresway.py:234-242 | a goal row has the nine goal columns and starts with the match id and slug |
| ScoreswayFlatten.TeamStatBase | code/prc/scoresway.py:253-261 | a team-statistics row has nine fixed fields starting with the match id and slug |
| ScoreswayFlatten.TeamStatRecord | code/prc/scoresway.py:253-265 | a team-statistics row exists exactly when the lineup has a first team official |
| ScoreswayFlatten.GoalsOf | code/prc/scoresway.py:232-242 | the goals loop builds one row per goal entry |
| ScoreswayFlatten.TeamData | code/prc/scoresway.py:252-271 | one pass of the teams loop gives the side's statistics row and, when it exists, its lineup table |
| ScoreswayFlatten.ObtainMatchData | code/prc/scoresway.py:219-279 | builds the goals, team-statistics and player-statistics tables of a match document |
| ScoreswayFlatten.MatchDataNeeds | code/prc/scoresway.py:226-257 | a match produces tables only with two contestants, two lineups and a first official in each lineup |
| ScoreswayFlatten.GoalsTable | code/prc/scoresway.py:232-243 | the goals table has one row per goal, in order, with the nine goal columns |
| ScoreswayFlatten.GoalTagged | code/prc/scoresway.py:234-235 | every goal row carries the match id and slug |
| ScoreswayFlatten.PlayerStatsTable | code/prc/scoresway.py:275-277 | the player statistics start with match and match_slug, then the columns of both lineups; they hold the home rows then the away rows, each tagged with the match |
| ScoreswayFlatten.PlayerStatsFilled | code/prc/scoresway.py:275 | after `fillna(0)` no lineup column of any row is None |
| ScoreswayFlatten.TeamStatsTable | code/prc/scoresway.py:274 | the team statistics are two rows with no missing cell |
| ScoreswayFlatten.TeamStatTagged | code/prc/scoresway.py:253-265 | a team-statistics row carries the match id and slug unless a statistic overwrites those columns |
| ScoreswayFlatten.SeasonInfoTables | code/prc/scoresway.py:174-184 | a season gives nine tables, and gives them exactly when the matches and standings tables succeed |
| ScoreswayFlatten.ProcessSeasonInfoDfs | code/prc/scoresway.py:174-184 | builds the nine season tables from the three info documents |
| ScoreswayFlatten.TagTables | code/prc/scoresway.py:321-323 | the loop inserts league and season into every table |
| ScoreswayFlatten.TaggedTablesShape | code/prc/scoresway.py:321-323 | tagging fails exactly when a table already has a league or season column; otherwise every table gets league and season in front and keeps its rows |
| FotmobFlatten.SeasonRecord | code/prc/fotmob.py:35-37 | a season row has exactly the columns league, season and link, in that order |
| FotmobFlatten.GetSeasonsDf | code/prc/fotmob.py:21-39 | the loop over the season dict builds exactly the table of the desired seasons' rows |
| FotmobFlatten.SeasonRecordsExact | code/prc/fotmob.py:33-37 | every row comes from a desired season entry, every desired entry gets its row, and there is one row per desired entry |
| FotmobFlatten.SeasonsTableColumns | code/prc/fotmob.py:24-39 | the seasons table is empty if and only if the season dict is missing, empty or holds no desired season; otherwise its columns are league, season, link |
| FotmobFlatten.PartColumns | code/prc/fotmob.py:56-65 | a partition table's columns are `team` followed by the ten statistic names, each prefixed with the partition's suffix |
| FotmobFlatten.PartColumnsPrefixed | code/prc/fotmob.py:57-65 | every partition column except `team` starts with the suffix |
| FotmobFlatten.StatNamesLetters | code/prc/fotmob.py:57-65 | each statistic name is non-empty, starts with one of p, w, d, l, g and ends with s, d or f |
| FotmobFlatten.StatNamesDistinct | code/prc/fotmob.py:57-65 | the ten statistic names are pairwise distinct |
| FotmobFlatten.PartColumnLead | code/prc/fotmob.py:57-65 | a statistic column is the suffix followed by a name starting with p, w, d, l or g |
| FotmobFlatten.PartColumnsDistinct | code/prc/fotmob.py:56-65 | the columns of a partition table are pairwise distinct, whatever the suffix |
| FotmobFlatten.ConcededScore | code/prc/fotmob.py:64 | for a score `"S-C"` with C a digit string and no dash in S, goals conceded is the value of C |
| FotmobFlatten.ConcededNeedsDash | code/prc/fotmob.py:64 | a score without a dash (the `''` default included) makes the indexing `[1]` fail |
| FotmobFlatten.PartRecord | code/prc/fotmob.py:56-65 | a team's partition row exists exactly when its goals conceded parse, and then has the partition's columns |
| FotmobFlatten.PartTableLoop | code/prc/fotmob.py:49-66 | the loop over a partition's teams builds the partition table, or fails when one team's score fails |
| FotmobFlatten.PartRowsShape | code/prc/fotmob.py:54-66 | the rows built from a team list number one per team and carry the partition's columns (no columns for no team) |
| FotmobFlatten.PartTableShape | code/prc/fotmob.py:49-66 | a partition table has one row per team and has either no columns and no rows, or the partition's columns |
| FotmobFlatten.XgRecord | code/prc/fotmob.py:76-84 | an expected-goals row has exactly the nine columns team, xG, xGA, xGDiff, xGADiff, xPos, xPosDiff, xPts, xPtsDiff |
| FotmobFlatten.XgRows | code/prc/fotmob.py:74-85 | the loop over the `xg` teams builds the expected-goals table |
| FotmobFlatten.XgTableShape | code/prc/fotmob.py:74-85 | the expected-goals table has one row per team and its nine columns exactly when it has a row |
| FotmobFlatten.XgColumnLead | code/prc/fotmob.py:76-84 | every expected-goals column other than `team` starts with `x` |
| FotmobFlatten.SharedAllHome | code/prc/fotmob.py:88 | the overall and home tables have only the `team` column in common |
| FotmobFlatten.SharedWithAway | code/prc/fotmob.py:89 | the overall or home columns share only `team` with the away columns |
| FotmobFlatten.SharedWithXg | code/prc/fotmob.py:90 | no partition column except `team` is an expected-goals column |
| FotmobFlatten.PartsShareOnlyTeam | code/prc/fotmob.py:88-90 | at each of the three merges the two sides share only the `team` column, so no column gets a pandas suffix |
| FotmobFlatten.PartsColumns | code/prc/fotmob.py:69-85 | the four tables built from a document have columns drawn from their own column lists |
| FotmobFlatten.StandingsNoTable | code/prc/fotmob.py:44-46 | the result is `{}` if and only if the `table[0].data.table` value exists and is falsy |
| FotmobFlatten.JoinPartsTeams | code/prc/fotmob.py:88-90 | the inner joins keep exactly the teams present in all four tables; four tables listing the same teams once each give one row per team |
| FotmobFlatten.StandingsFromParts | code/prc/fotmob.py:88-96 | after the joins, the two insertions and the sort, the table starts with league and season, is sorted on `pos` and holds the teams common to the four tables |
| FotmobFlatten.StandingsTableShape | code/prc/fotmob.py:42-96 | a standings table starts with league and season, is sorted on `pos` and holds exactly the teams present in all four partition tables of the document |
| SofascoreScrape.NeedToUploadBoundary | code/scr/sofascore.py:48-55 | a missing file must be fetched; a file exactly `total_days` days old is still fresh, and one second older is not |
| SofascoreScrape.NeedToUploadMonotone | code/scr/sofascore.py:48-55 | a longer threshold never asks for a refresh that a shorter one would not |
| SofascoreScrape.PagePathInjective | code/scr/sofascore.py:99 | two different page numbers never share a file |
| SofascoreScrape.LeagueAvailableSeasons | code/scr/sofascore.py:58-80 | returns the cached or fetched seasons document and leaves the store as the specification function says |
| SofascoreScrape.AvailableSeasonsCached | code/scr/sofascore.py:64-67 | an existing file is the result whatever its age and the network, and nothing is written |
| SofascoreScrape.AvailableSeasonsFetched | code/scr/sofascore.py:70-80 | without a file the fetched document is returned; the file is created, holding it, exactly when its `seasons` is non-empty; no other file changes |
| SofascoreScrape.AvailableSeasonsAgain | code/scr/sofascore.py:58-80 | once the file exists, a second call returns the same document and writes nothing, whatever the network |
| SofascoreScrape.GetSeasonData | code/scr/sofascore.py:83-123 | the paging loop returns the pages and leaves the store as the specification function says |
| SofascoreScrape.SeasonDataPages | code/scr/sofascore.py:96-123 | a known season reads the pages in order, each as its fresh file or as the fetched page, which is then written, up to the first fetched page without events; or it raises on a cached file that does not parse |
| SofascoreScrape.SeasonDataUnknown | code/scr/sofascore.py:88-89 | an unknown season gives an empty list and leaves the store alone |
| SofascoreScrape.GetSeasonStandings | code/scr/sofascore.py:126-160 | returns the standings and leaves the store as the specification function says |
| SofascoreScrape.FetchStandings | code/scr/sofascore.py:150-154 | the loop over the three tables fills the result dictionary |
| SofascoreScrape.StandingPairsLookup | code/scr/sofascore.py:152-154 | a part that no earlier part repeats holds its own fetched table |
| SofascoreScrape.SeasonStandingsFetched | code/scr/sofascore.py:144-160 | without a fresh file the result has exactly the keys total, home and away, each its fetched table when its `standings` is non-empty and `{}` otherwise, and the whole dictionary is written |
| SofascoreScrape.SeasonStandingsCached | code/scr/sofascore.py:140-142 | a fresh file is the result on its own: the network is not asked and nothing is written |
| SofascoreScrape.SeasonStandingsAgain | code/scr/sofascore.py:126-160 | a second call returns the same tables and writes nothing |
| SofascoreScrape.SeasonStandingsUnknown | code/scr/sofascore.py:129-130 | an unknown season gives `{}` and leaves the store alone |
| SofascoreScrape.GetSeasonInformation | code/scr/sofascore.py:163-198 | returns the three lists and leaves the store as the specification function says |
| SofascoreScrape.InfoPathInjective | code/scr/sofascore.py:181 | two kinds never share a file |
| SofascoreScrape.InfoFromFrame | code/scr/sofascore.py:178-196 | the loop touches no file but those of its kinds |
| SofascoreScrape.InfoFromValues | code/scr/sofascore.py:178-196 | the loop over distinct kinds raises exactly when one of them fails to read, and otherwise appends each kind with its list, in order |
| SofascoreScrape.InfoFromWrites | code/scr/sofascore.py:189-196 | when the loop succeeds, every kind without a fresh file holds its fetched page, just written |
| SofascoreScrape.SeasonInformationFails | code/scr/sofascore.py:178-196 | a known season raises exactly when the fresh cached file of one of the lists does not parse |
| SofascoreScrape.SeasonInformationKeys | code/scr/sofascore.py:174-198 | on success the result has the keys player, team and venue in order, each holding the fresh cached file or the fetched page |
| SofascoreScrape.SeasonInformationWrites | code/scr/sofascore.py:189-196 | on success every list without a fresh file holds its fetched page, just written |
| SofascoreScrape.SeasonInformationFrame | code/scr/sofascore.py:163-198 | no file but those of the three lists is touched |
| SofascoreScrape.ScrapeMatch | code/scr/sofascore.py:201-239 | returns the match document and leaves the store as the specification function says |
| SofascoreScrape.MatchScrapingFetched | code/scr/sofascore.py:216-239 | without a file the match is all or nothing: when all six pages pass their checks the result holds each under its own key and is written; otherwise the result is `{}` and nothing is written |
| SofascoreScrape.FullMatchFields | code/scr/sofascore.py:234 | the full match document holds the six pages under match, lineups, statistics, shotmap, graph and incidents |
| SofascoreScrape.MatchScrapingCached | code/scr/sofascore.py:211-214 | an existing file is the result whatever its age and the network, and nothing is written |
| SofascoreScrape.MatchScrapingAgain | code/scr/sofascore.py:201-239 | once a match is written, a second call returns it and writes nothing |
| SofascoreScrape.MatchScrapingUnknown | code/scr/sofascore.py:203-204 | an id the dictionary lacks gives `{}` and leaves the store alone |
| SofascoreScrape.GetInformation | code/scr/sofascore.py:281-314 | returns the entity document and leaves the store as the specification function says |
| SofascoreScrape.ObtainInformationFetched | code/scr/sofascore.py:309-314 | a known type without a usable file returns the fetched document and writes it, and only it, exactly when its entry under the type's name is non-empty |
| SofascoreScrape.ObtainInformationCached | code/scr/sofascore.py:306-308 | a file at most 30 days old is reused without asking the network, and nothing is written |
| SofascoreScrape.ObtainInformationUnknown | code/scr/sofascore.py:284-303 | a type other than player, team, manager and venue raises and touches nothing |
| SofascoreScrape.ObtainInformationAgain | code/scr/sofascore.py:306-314 | once the document is written, a second call returns it |
| SofascoreScrape.SeasonsDictFails | code/scr/sofascore.py:332-334 | the comprehensions raise exactly when some season lacks a year or an id, or has a year that is not a string |
| SofascoreScrape.SeasonsDictKeys | code/scr/sofascore.py:332-334 | the seasons to scrape are the desired slash-free keys of the available seasons, each once |
| SofascoreScrape.SeasonsDictValues | code/scr/sofascore.py:332-334 | a season key has no `/` and maps to the id of a season whose year gives that key |
| SofascoreScrape.EndedEventsIn | code/scr/sofascore.py:351 | an event is among the ended events exactly when some page lists it and its status is Ended |
| SofascoreScrape.EndedMatchesFails | code/scr/sofascore.py:351 | building the match dictionary raises exactly when an ended event lacks its id or its slug |
| SofascoreScrape.EndedMatchesKeys | code/scr/sofascore.py:351 | the matches to scrape are exactly the ids of the ended events, each once |
| SofascoreScrape.EndedMatchesValues | code/scr/sofascore.py:351 | each match id maps to the slug of an ended event with that id |
| SofascoreScrape.NameSlugShape | code/scr/sofascore.py:352 | a player's name slug is lower case and holds no blank |
| SofascoreScrape.PlayersKeys | code/scr/sofascore.py:352 | the season's players are listed under their ids, each once; building raises exactly when a listed player lacks an id or a string name |
| SofascoreScrape.PlayersValues | code/scr/sofascore.py:352 | each player id holds the lower-cased, dash-joined name of a listed player with that id |
| SofascoreScrape.TeamsKeys | code/scr/sofascore.py:353 | the season's teams are listed under their ids, each once, with a listed team's slug |
| SofascoreScrape.VenuesKeys | code/scr/sofascore.py:354 | the season's venues are listed under their ids, each once, with a listed venue's slug |
| SofascoreScrape.UnknownSeasonLists | code/scr/sofascore.py:352-354 | for a season whose lists are missing, the three lookups raise |
| SofascoreScrape.SidePlayersKeys | code/scr/sofascore.py:363-364 | a side's dictionary holds, each once, the ids of that side's players with positive minutesPlayed, each with its slug |
| SofascoreScrape.PlayerIdsKeys | code/scr/sofascore.py:365 | the players of a match are those of either side, each once; a player on both sides keeps the away side's slug |
| SofascoreScrape.ManagersKeys | code/scr/sofascore.py:368-370 | the managers of a match are home then away, merged into one entry with the away slug when both ids coincide |
| ScoreswayScrape.WordLen | code/scr/scoresway.py:48 | the length of the longest prefix of `[\w$]` characters: all before it are word characters and the next one is not |
| ScoreswayScrape.LastClose | code/scr/scoresway.py:48 | the greedy `(.*)` stops at the last `)` that is followed only by blanks and at most one `;`; there is none after it |
| ScoreswayScrape.TailChars | code/scr/scoresway.py:48 | what follows the closing `)` holds only blanks and `;` |
| ScoreswayScrape.UnwrapWrap | code/scr/scoresway.py:48-52 | wrapping any payload in a callback name, parentheses and an acceptable tail gives the payload back, whatever parentheses it holds |
| ScoreswayScrape.UnwrapSound | code/scr/scoresway.py:48-52 | whatever unwraps is a callback name, `(`, the payload, `)` and an acceptable tail |
| ScoreswayScrape.UnwrapNoCallback | code/scr/scoresway.py:48-50 | a body that does not start with a word character or holds no `(` does not match |
| ScoreswayScrape.ScrapeJsonCases | code/scr/scoresway.py:40-56 | a status other than 200 reads as `{}`; a 200 JSONP body reads as the decoding of the payload it wraps |
| ScoreswayScrape.NeedToUploadBoundary | code/scr/scoresway.py:59-63 | a file exactly `total_days` days old or just written is kept; one second older is fetched again |
| ScoreswayScrape.SeasonPathsDiffer | code/scr/scoresway.py:71-96 | the matches file and the standings file of a season are different files |
| ScoreswayScrape.FetchCachedFeed | code/scr/scoresway.py:73-88 | the shared shape of the two season fetchers, as the specification function says |
| ScoreswayScrape.GetSeasonMatches | code/scr/scoresway.py:66-88 | returns the matches feed and leaves the store as the specification function says |
| ScoreswayScrape.GetSeasonStandings | code/scr/scoresway.py:91-113 | returns the standings feed and leaves the store as the specification function says |
| ScoreswayScrape.CachedFeedFresh | code/scr/scoresway.py:74-77 | a file at most five days old is read back whatever the web serves |
| ScoreswayScrape.CachedFeedFetched | code/scr/scoresway.py:79-88 | without a fresh file the store changes only by writing the fetched document, exactly when its entry under the key is non-empty; any other document comes back as `{}` |
| ScoreswayScrape.CachedFeedResult | code/scr/scoresway.py:73-88 | the result is `{}`, a document with a non-empty entry under the key (then written), or what the cache holds |
| ScoreswayScrape.CachedFeedAgain | code/scr/scoresway.py:73-88 | once a document is written, a second call reads it back and writes nothing |
| ScoreswayScrape.UpdateMatch | code/scr/scoresway.py:124-145 | the cache check, removal and write of `match_data`, as the specification function says |
| ScoreswayScrape.ScrapeMatchData | code/scr/scoresway.py:116-145 | returns the match document and leaves the store as the specification function says |
| ScoreswayScrape.MatchStepCached | code/scr/scoresway.py:124-129 | a cached match with its matchInfo is returned whatever its age and whatever the fetch gives |
| ScoreswayScrape.MatchStepResult | code/scr/scoresway.py:124-145 | the result is `{}` or a document with matchInfo; the file left behind is such a document or what was there before; no other file changes |
| ScoreswayScrape.MatchStepGarbled | code/scr/scoresway.py:130-134 | a cached file that does not parse is removed or replaced by the fetched match |
| ScoreswayScrape.MatchStepAgain | code/scr/scoresway.py:116-145 | once a match is written, a second call returns it from the cache and writes nothing |
| ScoreswayScrape.PlayedMatchesFails | code/scr/scoresway.py:157-158 | building the played matches raises exactly when a played match has too short a contestant list |
| ScoreswayScrape.PlayedMatchesKeys | code/scr/scoresway.py:157-158 | the matches to fetch are exactly the played matches of the feed, each id once |
| ScoreswayScrape.IdAndTeamsId | code/scr/scoresway.py:157 | the key of a played match is its matchInfo id |
| ScoreswayScrape.SlugShape | code/scr/scoresway.py:157 | a match slug is lower case and holds no blank |
| ScoreswayScrape.SlugWithoutContestants | code/scr/scoresway.py:157 | a match without contestants gets the slug `-` from the `[{}]` and `[{},{}]` defaults |
| FotmobScrape.YearKey | code/scr/fotmob.py:60 | the key of a season starting in year y is four digits: y modulo 100, then y + 1 modulo 100, each in two digits |
| FotmobScrape.SeasonKeySlash | code/scr/fotmob.py:55-57 | a label of two years around one `/` keeps its label and joins the last two characters of each year |
| FotmobScrape.SeasonKeySlashes | code/scr/fotmob.py:56 | a label with a `/` unpacks into two years exactly when it holds one `/` (otherwise the unpacking raises) |
| FotmobScrape.SeasonKeyYear | code/scr/fotmob.py:58-60 | a label without `/` starting with four digits is filed under those four digits, with the key of that year |
| FotmobScrape.SeasonKeyTwoYears | code/scr/fotmob.py:55-57 | `2024/2025` is filed under itself with key `2425` |
| FotmobScrape.SeasonKeyOneYear | code/scr/fotmob.py:58-60 | `2024` gets the same key `2425` |
| FotmobScrape.SeasonKeyWraps | code/scr/fotmob.py:60 | `2099` gets the key `9900`: the next year wraps round to `00` |
| FotmobScrape.SeasonKeyThreeYears | code/scr/fotmob.py:56 | three years around two slashes do not unpack |
| FotmobScrape.BuildSeasons | code/scr/fotmob.py:49-65 | the loop builds the seasons dictionary, or fails when a label fails |
| FotmobScrape.GetAvailableSeasons | code/scr/fotmob.py:28-75 | returns the cached or fetched league page and leaves the store as the specification function says |
| FotmobScrape.WriteSeasons | code/scr/fotmob.py:68-75 | puts the dictionary into the page and writes the page exactly when the dictionary is non-empty |
| FotmobScrape.SeasonsMapFails | code/scr/fotmob.py:52-65 | building the dictionary raises exactly when some label is not a string or has no key |
| FotmobScrape.SeasonsMapEntries | code/scr/fotmob.py:62-65 | the dictionary is filed by label, each once, and each label holds the key and link (the league URL with `&season=` and the label) of the last season filed under it |
| FotmobScrape.SeasonsMapKeys | code/scr/fotmob.py:52-65 | the labels of the dictionary are exactly those the listed seasons are filed under |
| FotmobScrape.AvailableSeasonsCached | code/scr/fotmob.py:35-39 | an existing file is returned whatever its age and whatever the API serves, and nothing is written |
| FotmobScrape.AvailableSeasonsFetched | code/scr/fotmob.py:42-75 | a fetched page comes back with its season list replaced by the dictionary and every other field kept, and is written exactly when the dictionary is non-empty |
| FotmobScrape.AvailableSeasonsAgain | code/scr/fotmob.py:28-75 | once the page is written, a second call returns it and writes nothing |
| FotmobScrape.GetSeasonData | code/scr/fotmob.py:78-104 | returns the season document and leaves the store as the specification function says |
| FotmobScrape.SeasonDataFetched | code/scr/fotmob.py:91-104 | without a file, an unknown key gives `{}` and writes nothing; a known key's link is fetched, and the document is written exactly when its `fixtures` is non-empty |
| FotmobScrape.SeasonDataCached | code/scr/fotmob.py:85-89 | an existing file is returned whatever its age, the dictionary or the API |
| FotmobScrape.GetMatchData | code/scr/fotmob.py:107-132 | returns the match document and leaves the store as the specification function says |
| FotmobScrape.MatchDataFetched | code/scr/fotmob.py:120-132 | without a file, an unknown id gives `{}`; a known id's link is fetched and always written, and a second call reads it back |
| FotmobScrape.MatchDataCached | code/scr/fotmob.py:114-118 | an existing file is returned whatever its age, the dictionary or the API |
| FotmobScrape.SeasonLinksKeys | code/scr/fotmob.py:142-143 | the seasons to scrape are the desired keys among the entries, each once; building raises exactly when an entry lacks its key or link |
| FotmobScrape.SeasonLinksValues | code/scr/fotmob.py:142 | each season to scrape holds the link of an entry with its key |
| FotmobScrape.FinishedMatchesFails | code/scr/fotmob.py:150-152 | building the match dictionary raises exactly when a finished match has no id |
| FotmobScrape.FinishedMatchesKeys | code/scr/fotmob.py:150-152 | the matches are exactly the finished ones, each id once, each with the details link of its own id |
| Paths.LeagueSlug | code/prc/fotmob.py:103 | the league folder has the name's length and no space |
| Paths.LeagueSlugLower | code/prc/scoresway.py:286 | a league folder holds no upper-case letter |
| Paths.MatchFilesExact | code/prc/scoresway.py:338 | a file is processed exactly when it is listed, ends in `.json` and is a regular file |
| Paths.OutputCsv | code/prc/scoresway.py:353 | `<base>.json` is saved as `<base>.csv` when the base holds no `json` |
| Json.GetDefaultOnlyWhenAbsent | code/prc/scoresway.py:42 | `.get` returns the stored value (even a null) for a present key and the default exactly when the key is absent |
| Json.Items | code/prc/scoresway.py:31 | iterating a list yields its items; iterating a dict yields one item per key |
| Json.Put | code/scr/fotmob.py:68 | after `j[k] = v` the key is present and holds `v` |
| Json.Index | code/prc/fotmob.py:44 | `j[k]` succeeds exactly when the key is present and then gives the stored value |
| Json.At | code/prc/fotmob.py:44 | `xs[i]` succeeds exactly when `xs` is a list longer than `i` |
| Dicts.SetLookup | code/prc/scoresway.py:206 | after `d[k] = v`, `k` maps to `v` and every other key keeps its value |
| Dicts.SetUnique | code/prc/scoresway.py:206 | assigning a key keeps a dict's keys distinct |
| Seqs.KeyedLast | code/scr/fotmob.py:65 | in a dict built in a loop, a key holds the value of the last element giving it |
| Seqs.KeepSound | code/prc/sofascore.py:34-38 | a filtering loop keeps only elements meeting the condition |
| Seqs.KeepComplete | code/prc/sofascore.py:34-38 | a filtering loop keeps every element meeting the condition |
| Store.Load | code/scr/fotmob.py:38 | loading a file gives a document exactly when it holds well-formed JSON |
| Store.Written | code/scr/fotmob.py:72-73 | a dump adds or replaces one file, of age 0 holding the document, and leaves every other file as it was |
| Store.WrittenFresh | code/scr/sofascore.py:48-55 | a file just written is fresh at every threshold and loads back as the document written |
| Store.FileStore.Read | code/scr/fotmob.py:37-38 | reading an existing file gives what loading its content gives |
| Store.FileStore.Write | code/scr/fotmob.py:72-73 | the new store is the old one with the file written |
| Store.FileStore.Remove | code/scr/scoresway.py:132 | the new store is the old one without the file |
| Text.Lower | code/prc/scoresway.py:76 | `lower()` keeps the length, leaves no upper-case letter and keeps every other character |
| Text.ReplaceCharGone | code/prc/fotmob.py:103 | after replacing a character by a string without it, the character no longer occurs |
| Text.ReplaceCharRemoves | code/prc/sofascore.py:36 | `replace(c, '')` is the string with every `c` dropped |
| Text.TrimStartSuffix | code/scr/scoresway.py:45 | what `strip` drops in front is whitespace, and what it keeps is a suffix |
| Text.Strip | code/scr/scoresway.py:45 | `strip()` leaves neither leading nor trailing whitespace |
| Text.SplitOnPieces | code/scr/fotmob.py:56 | `split(c)` yields one more piece than there are separators, none holding a separator |
| Text.SplitOnJoin | code/prc/fotmob.py:64 | splitting `a + c + b`, `a` free of `c`, gives `a` then the pieces of `b` |
| Text.LastN | code/scr/fotmob.py:57 | `s[-n:]` has `n` characters or all of `s` |
| Text.FirstN | code/scr/fotmob.py:59 | `s[:n]` has `n` characters or all of `s` |
| Text.ParseSigned | code/prc/fotmob.py:64 | `int()` of a minus sign and digits gives the negated value |
| Text.ParseDigits | code/prc/fotmob.py:64 | `int()` of a string of digits gives its value |
| Text.ParseIntToString | code/scr/fotmob.py:60 | `int(str(i)) == i` for every integer |
| Text.Pad2 | code/scr/fotmob.py:60 | `f"{n:02d}"` is two digits spelling `n` |
| Frames.ColumnsOf | code/prc/fotmob.py:66 | the columns of a DataFrame built from dicts are distinct and are exactly the keys of the dicts |
| Frames.ColumnsUniform | code/prc/fotmob.py:66 | dicts that all carry the same keys give exactly those columns, in order |
| Frames.FromRecords | code/prc/fotmob.py:66 | one row per dict, holding that dict's cells |
| Frames.AllSomeTable | code/prc/fotmob.py:66 | a table built by a loop of uniform records has one row per input and the records' columns |
| Frames.Insert | code/prc/scoresway.py:213 | `insert` succeeds exactly when the column is new and the position in range; it places the column there and sets it in every row |
| Frames.PrefixLeagueSeason | code/prc/scoresway.py:321-323 | `league` and `season` become columns 0 and 1 of every row, and it fails exactly when either already is a column |
| Frames.KeyValuesPrefix | code/prc/fotmob.py:93-94 | inserting league and season keeps the values of every other column |
| Frames.FillNa | code/prc/scoresway.py:274 | `fillna(v)` keeps the columns and rows and puts `v` exactly in the missing cells |
| Frames.FillNaComplete | code/prc/scoresway.py:274 | with a non-null fill value no cell remains missing |
| Frames.KeepPositive | code/prc/sofascore.py:254 | `df[df[c] > 0]` fails exactly when `c` is not a column and otherwise keeps exactly the rows whose `c` is positive |
| Frames.KeepPositiveColumn | code/prc/sofascore.py:253-254 | the filter after `DataFrame(recs).fillna(0)` succeeds exactly when some record has the column |
| Frames.DropMissing | code/prc/scoresway.py:214 | `dropna(subset=[c])` fails exactly when `c` is not a column and otherwise keeps exactly the rows whose `c` is present |
| Frames.SetColumn | code/prc/sofascore.py:312 | `df[name] = vals` replaces or appends the column and sets row `i` to `vals[i]` |
| Frames.Concat | code/prc/sofascore.py:297 | concatenation stacks the rows and unites the columns in order of appearance |
| Frames.StackWithKey | code/prc/sofascore.py:297-298 | the stacked lineups carry the match id in front of every row of both sides |
| Frames.ConcatAll | code/prc/sofascore.py:349 | concatenating a list fails exactly when it is empty and otherwise stacks all rows |
| Frames.Merge | code/prc/fotmob.py:88 | an inner merge fails exactly when a side lacks the key column, and otherwise holds the joined rows and the columns of both sides |
| Frames.JoinMember | code/prc/fotmob.py:88 | an inner join holds exactly the combinations of a left and a right row with the same key |
| Frames.JoinKeyValues | code/prc/fotmob.py:88-90 | the keys of an inner join are the keys both sides have |
| Frames.JoinKeepsLeft | code/prc/fotmob.py:88-90 | joining uniquely keyed tables whose left keys occur on the right keeps one row per left row, in order |
| Frames.MergeColumnsFrom | code/prc/fotmob.py:88 | every merged column comes from one of the two sides |
| Frames.InsertSorted | code/prc/fotmob.py:96 | inserting into sorted rows keeps them sorted and adds exactly the new row |
| Frames.SortBy | code/prc/fotmob.py:96 | `sort_values(by=c)` gives rows sorted on `c` that are a permutation of the input |

## Left out

- Network transports are not modelled beyond a parameter: the Selenium driver of `page_scraper`, the `requests` calls of `url_to_json` and `scrape_json`, and the Scoresway referer warm-up request. Each becomes a function from a URL to what it serves. The model does not cover a response that raises while it is being read or decoded as JSON on the SofaScore and FotMob side.
- `time.sleep` delays and `print` progress messages have no observable logic and are left out.
- `image_downloader` starts an external R script and is not modelled.
- Filesystem mechanics are left out: `os.makedirs`, `os.path.join` (modelled as string concatenation with `/`), the order of `os.listdir`, and `getctime`/`datetime` arithmetic. A file's age is a natural number of seconds, and a timestamp finer than a second is not modelled.
- `Store.Written`: a write resets the file's age to 0. This is the Unix meaning of `os.path.getctime`, the time of the last change to the file's metadata, which the freshness tests use (code/scr/sofascore.py:53, code/scr/scoresway.py:62). On Windows, where the configured paths suggest the program is run, `getctime` is the creation time, and `open(path, "w")` on an existing file keeps it. There, a file that has gone stale stays stale after it is rewritten, so every later call fetches and rewrites it again. The model does not capture this Windows behaviour, so these lemmas hold only under the Unix reading: `ScoreswayScrape.CachedFeedAgain`, `SofascoreScrape.SeasonStandingsAgain`, `SofascoreScrape.ObtainInformationAgain`, and `Store.WrittenFresh` for the age part. The caches that never go stale are not affected.
- `Store.WrittenFresh`: a dumped document loads back unchanged only when its dicts have distinct keys. `json.load` keeps the last value of a repeated key, but `Load` returns a dict with repeated keys as it was written. The network functions place no such restriction on what they serve.
- `to_csv` is left out as file output. The driver's choice of which files to process and how to name the outputs is modelled (`Paths`).
- Configuration tables loaded at import time are not modelled. These are `comps.csv`, `sw_urls.csv` and the desired-seasons list. Each consumer takes the lookup or allow-list as a parameter: a set of season keys, or a map from (league, column) to URL.
- `code/prc/main.py` and `code/scr/main.py` contain only flag-driven dispatch and are left out.
- The `league_processing` and `scrape_league_data` drivers are not modelled as whole programs: their loops over seasons and matches, folder creation and file writing are left out. Their per-step rules are modelled:
  - the season dictionaries;
  - the `Ended` / `Played` / finished match filters;
  - the players who took the field;
  - the slug;
  - the skipping of seasons that have no raw folder;
  - the prefixing of every table with `league` and `season`;
  - `.json` file selection and the `json` → `csv` renaming.
- In the FotMob `scrape_league_data`, the match filter sits outside the season loop, so only the last season's matches are considered, and `dict_matches_urls` is never used. Only the filter itself is modelled.
- Floating-point values are not modelled. Expected goals, coordinates, percentages and ratings are carried as opaque JSON numbers, and no arithmetic is done on them.
- `Json.Display`: the f-string display of a float, a list or a dict is the empty string, where Python prints `1.5`, `[1, 2]` or `{'a': 1}`. Only the display of strings, integers, booleans and None is spelled out. As a result, identifiers that are floats, lists or dicts all give the same cache path and API URL. This affects `ScoreswayScrape.MatchPath` and `MatchUrl`, `FotmobScrape.MatchPath` and `MatchDetailsUrl`, and the SofaScore event, entity and season URLs and paths. It also affects the detail-file names of the SofaScore flattener. `ScoreswayFlatten.Spaced` prints such a name as nothing.
- `Json.Get`: `.get` on a value that is not a dict gives the default, where Python raises `AttributeError`. Iterating something that is not iterable yields nothing, where Python raises `TypeError`. Both cases only arise in malformed documents. An index that is out of range, a missing key read with `[]`, a failing `int()`, and a pandas `KeyError` or duplicate-column `ValueError` are each modelled as `None` (the call raises).
- `Text.ParseInt` models `int()` on an optional minus sign followed by ASCII digits, with surrounding whitespace stripped. A leading `+` is accepted, as in Python. Underscores between digits and non-ASCII digits are not modelled.
- `Text.Lower` lower-cases ASCII letters only, and the `\w` of the JSONP callback name is ASCII-only. Unicode case mapping and Unicode word characters are not modelled.
- `SofascoreScrape.GetSeasonData`: the source's `while True` loop stops only at the first fetched page without events. The model takes a ghost page number `n` at which the loop is known to stop. It requires that page `n` has no usable cached file and that its fetched page has no events. Inputs on which the source never stops are therefore excluded.
- `SofascoreScrape.GetInformation` takes no season and league code: `obtain_information` declares them but never uses them.
- An empty standings result `{}`, which pandas builds from an empty dict in place of a table, is modelled as the `NoTable` case of the result type.
- `FotmobScrape.BuildSeasons`: a season label that is not a string fails the whole build. In the source, such a label raises in the `in` test, in the slicing or in `int()`.
- `SofascoreFlatten.YearKey`: a `year` that is not a string is read as `''`, so its season is not desired and is skipped. The source's `.replace` raises `AttributeError` there instead (code/prc/sofascore.py:36).
- `ScoreswayFlatten.CodeOf`: a contestant `code` that is not a string is read as `''`, giving an empty half of the slug. The source's `.lower()` raises there (code/prc/scoresway.py:43).
- `ScoreswayFlatten.TeamRecord`: a `contestantCode` that is not a string gives the slug `''`. The source's `.lower()` raises there (code/prc/scoresway.py:76).
- `ScoreswayFlatten.StatKey`: a statistic `type` that is not a string, such as null or an integer, is filed under the column `''` together with untyped entries. In Python it becomes a column of its own, named `None` or `5` (code/prc/scoresway.py:206).
- `Json.Positive` and `Json.NonNegative` answer false for None, a string, a list or a dict, where Python's `>`/`>=` against 0 raises `TypeError`. This reaches three places. A momentum point whose `value` is such a value is counted for the away team by `SofascoreFlatten.MomentumOf` (code/prc/sofascore.py:342). A player with such a `minutesPlayed` counts as not having played in `SofascoreScrape.SidePlayersKeys` (code/scr/sofascore.py:363-364) and in `Frames.KeepPositive` (code/prc/sofascore.py:254).
- `Frames.SortBy`: rows are ordered on the integer value of the column, and any other cell (a float, a missing or null cell) sorts as 0. pandas orders floats by value and puts missing values last. The standings' `pos` is an integer.
- DataFrame rows are maps from column name to cell, so a row cannot hold the same column twice. The column order is kept separately.
