/**
 * The fotmob scraper. A league's page lists its seasons by label; the
 * scraper rewrites that list into a dictionary from label to the season's
 * short key (`2425` for 2024/25) and link, and keeps every file it writes
 * for good: an existing file is always reused, whatever its age.
 * The API is a function from a URL to the document it serves.
 */
module FotmobScrape {
  import opened Wrappers
  import opened Dicts
  import opened Text
  import opened Json
  import opened Seqs
  import opened Store

  /** `url_to_json`: the document the API serves at a URL. */
  type Net = string -> Json

  function LeagueUrl(leagueCode: int): string
  {
    "https://www.fotmob.com/api/leagues?id=" + IntToString(leagueCode)
  }

  /** `{out_path}/{league_code}`. */
  function LeagueDir(outPath: string, leagueCode: int): string
  {
    Join(outPath, IntToString(leagueCode))
  }

  // ---------------------------------------------------------------- season keys

  /**
   * The label a season is filed under and its short key: a label with a
   * `/` must split into exactly two years, and its key is the last two
   * characters of each; any other label is cut to its first four
   * characters, read as a year `y`, and keyed by `y % 100` and
   * `(y + 1) % 100` in two digits each. `None` where the source raises.
   */
  function SeasonKey(s: string): Option<(string, string)>
  {
    if '/' in s then
      var parts := SplitOn(s, '/');
      if |parts| != 2 then None else Some((s, LastN(parts[0], 2) + LastN(parts[1], 2)))
    else
      var t := FirstN(s, 4);
      match ParseInt(t)
      case None => None
      case Some(y) => Some((t, YearKey(y)))
  }

  /** The key of the season starting in year `y`: that year and the next, each modulo 100 in two digits. */
  function YearKey(y: int): (r: string)
    ensures |r| == 4 && AllDigits(r)
    ensures DigitsValue(r[..2]) == y % 100 && DigitsValue(r[2..]) == (y + 1) % 100
  {
    var r := Pad2(y % 100) + Pad2((y + 1) % 100);
    assert r[..2] == Pad2(y % 100) && r[2..] == Pad2((y + 1) % 100);
    r
  }

  /** A label made of two years around one `/` keeps its label and joins the last two characters of each year. */
  lemma SeasonKeySlash(a: string, b: string)
    requires '/' !in a && '/' !in b
    ensures SeasonKey(a + "/" + b) == Some((a + "/" + b, LastN(a, 2) + LastN(b, 2)))
  {
    var s := a + "/" + b;
    assert s[|a|] == '/';
    SplitOnJoin(a, '/', b);
    SplitOnNone(b, '/');
  }

  /** A label with a `/` unpacks into two years exactly when it holds one `/`. */
  lemma SeasonKeySlashes(s: string)
    requires '/' in s
    ensures SeasonKey(s).Some? <==> Count(s, '/') == 1
  {
    SplitOnPieces(s, '/');
  }

  /**
   * A label without `/` that starts with four digits is filed under those
   * four digits, and its key is that year and the next, each modulo 100 in
   * two digits.
   */
  lemma SeasonKeyYear(s: string)
    requires '/' !in s && |s| >= 4 && AllDigits(s[..4])
    ensures SeasonKey(s) == Some((s[..4], YearKey(DigitsValue(s[..4]))))
  {
    assert FirstN(s, 4) == s[..4];
    ParseDigits(s[..4]);
  }

  /** `2024/2025` is filed under itself with key `2425`. */
  lemma SeasonKeyTwoYears()
    ensures SeasonKey("2024/2025") == Some(("2024/2025", "2425"))
  {
    assert "2024" + "/" + "2025" == "2024/2025";
    SeasonKeySlash("2024", "2025");
    assert LastN("2024", 2) == "24" && LastN("2025", 2) == "25";
    assert LastN("2024", 2) + LastN("2025", 2) == "2425";
  }

  /** The value of four digits. */
  lemma Digits4(a: char, b: char, c: char, d: char)
    requires IsDigit(a) && IsDigit(b) && IsDigit(c) && IsDigit(d)
    ensures AllDigits([a, b, c, d])
    ensures DigitsValue([a, b, c, d]) == 1000 * (a as int - '0' as int) + 100 * (b as int - '0' as int) + 10 * (c as int - '0' as int) + (d as int - '0' as int)
  {
    assert [a, b, c, d][..3] == [a, b, c];
    assert [a, b, c][..2] == [a, b];
    assert [a, b][..1] == [a];
    assert [a][..0] == [];
    assert DigitsValue([a]) == a as int - '0' as int;
    assert DigitsValue([a, b]) == 10 * (a as int - '0' as int) + (b as int - '0' as int);
    assert DigitsValue([a, b, c]) == 100 * (a as int - '0' as int) + 10 * (b as int - '0' as int) + (c as int - '0' as int);
  }

  /** A single year `2024` gets the same key `2425`. */
  lemma SeasonKeyOneYear()
    ensures SeasonKey("2024") == Some(("2024", "2425"))
  {
    Digits4('2', '0', '2', '4');
    assert "2024" == ['2', '0', '2', '4'];
    assert YearKey(2024) == "2425";
    assert "2024"[..4] == "2024";
    SeasonKeyYear("2024");
  }

  /** The key of `2099` wraps the following year round to `00`. */
  lemma SeasonKeyWraps()
    ensures SeasonKey("2099") == Some(("2099", "9900"))
  {
    Digits4('2', '0', '9', '9');
    assert "2099" == ['2', '0', '9', '9'];
    assert YearKey(2099) == "9900";
    assert "2099"[..4] == "2099";
    SeasonKeyYear("2099");
  }

  /** Three years around two slashes do not unpack. */
  lemma SeasonKeyThreeYears()
    ensures SeasonKey("2024/2025/2026").None?
  {
    var t := "2024/2025/2026";
    assert t == "2024" + "/" + "2025/2026" && "2025/2026" == "2025" + "/" + "2026";
    assert t[4] == '/';
    SplitOnJoin("2024", '/', "2025/2026");
    SplitOnJoin("2025", '/', "2026");
    SplitOnNone("2026", '/');
  }

  // ---------------------------------------------------------------- league_available_seasons

  /** `{out_path}/{league_code}/AvailableSeasons.json`. */
  function SeasonsPath(outPath: string, leagueCode: int): string
  {
    Join(LeagueDir(outPath, leagueCode), "AvailableSeasons.json")
  }

  /** The entry `seasons_dict[s] = {"key": ..., "link": ...}` of one listed season; a label that is not a string raises. */
  function SeasonEntry(url: string, v: Json): Option<(string, Json)>
  {
    if !v.JStr? then None
    else
      match SeasonKey(v.s)
      case None => None
      case Some(lk) => Some((lk.0, JObj([("key", JStr(lk.1)), ("link", JStr(url + "&season=" + lk.0))])))
  }

  function EntryOf(url: string): Json -> Option<(string, Json)>
  {
    v => SeasonEntry(url, v)
  }

  /** The `seasons_dict` the loop builds: one entry per label, a later label overwriting an earlier equal one. */
  function SeasonsMap(url: string, labels: seq<Json>): Option<Dict>
  {
    Keyed(labels, EntryOf(url))
  }

  method BuildSeasons(url: string, labels: seq<Json>) returns (r: Option<Dict>)
    ensures r == SeasonsMap(url, labels)
  {
    var seasons: Dict := [];
    ghost var ps: seq<(string, Json)> := [];
    for i := 0 to |labels|
      invariant AllSome(labels[..i], EntryOf(url)) == Some(ps)
      invariant seasons == FromPairs(ps)
    {
      AllSomePrefix(labels, i, EntryOf(url));
      var e := SeasonEntry(url, labels[i]);
      if e.None? {
        AllSomeFailed(labels, i + 1, EntryOf(url));
        return None;
      }
      assert (ps + [e.value])[..|ps|] == ps;
      seasons := Set(seasons, e.value.0, e.value.1);
      ps := ps + [e.value];
    }
    assert labels[..|labels|] == labels;
    r := Some(seasons);
  }

  /**
   * `league_available_seasons`: an existing file is returned whatever its
   * age; otherwise the league page is fetched, its season list replaced by
   * the dictionary of entries, and the result written when that dictionary
   * is not empty. It is returned either way.
   */
  function AvailableSeasons(files: Files, net: Net, leagueCode: int, outPath: string): (Option<Json>, Files)
  {
    var path := SeasonsPath(outPath, leagueCode);
    if path in files then (Load(files[path].content), files)
    else
      var doc := net(LeagueUrl(leagueCode));
      WithSeasons(files, path, doc, SeasonsMap(LeagueUrl(leagueCode), Items(Get(doc, "allAvailableSeasons", EmptyArr))))
  }

  /** The fetched league page with its season list replaced, written when that list is not empty. */
  function WithSeasons(files: Files, path: string, doc: Json, seasons: Option<Dict>): (Option<Json>, Files)
  {
    match seasons
    case None => (None, files)
    case Some(m) =>
      var doc' := Put(doc, "allAvailableSeasons", JObj(m));
      (Some(doc'), if m != [] then Written(files, path, doc') else files)
  }

  method GetAvailableSeasons(store: FileStore, net: Net, leagueCode: int, outPath: string) returns (r: Option<Json>)
    modifies store
    ensures (r, store.files) == AvailableSeasons(old(store.files), net, leagueCode, outPath)
  {
    var path := SeasonsPath(outPath, leagueCode);
    if store.Exists(path) {
      r := store.Read(path);
      return;
    }
    var url := LeagueUrl(leagueCode);
    var doc := net(url);
    var seasons := BuildSeasons(url, Items(Get(doc, "allAvailableSeasons", EmptyArr)));
    r := WriteSeasons(store, path, doc, seasons);
  }

  method WriteSeasons(store: FileStore, path: string, doc: Json, seasons: Option<Dict>) returns (r: Option<Json>)
    modifies store
    ensures r == WithSeasons(old(store.files), path, doc, seasons).0
    ensures store.files == WithSeasons(old(store.files), path, doc, seasons).1
  {
    if seasons.None? {
      return None;
    }
    var m := seasons.value;
    var doc' := Put(doc, "allAvailableSeasons", JObj(m));
    assert Truthy(Get(doc', "allAvailableSeasons", JNull)) <==> m != [];
    if Truthy(Get(doc', "allAvailableSeasons", JNull)) {
      store.Write(path, doc');
    }
    r := Some(doc');
  }

  /** Building the dictionary raises exactly when some label is not a string or has no key. */
  lemma SeasonsMapFails(url: string, labels: seq<Json>)
    ensures SeasonsMap(url, labels).None? <==> exists i :: 0 <= i < |labels| && SeasonEntry(url, labels[i]).None?
  {
    KeyedFails(labels, EntryOf(url));
  }

  /**
   * The dictionary is filed by the labels (each once), and each label holds
   * the key and link of the last listed season filed under it, the link
   * being the league's with `&season=` and the label.
   */
  lemma SeasonsMapEntries(url: string, labels: seq<Json>, i: nat)
    requires SeasonsMap(url, labels).Some? && i < |labels| && SeasonEntry(url, labels[i]).Some?
    requires forall j :: i < j < |labels| ==> SeasonEntry(url, labels[j]).None? || SeasonEntry(url, labels[j]).value.0 != SeasonEntry(url, labels[i]).value.0
    ensures UniqueKeys(SeasonsMap(url, labels).value)
    ensures labels[i].JStr? && SeasonKey(labels[i].s).Some?
    ensures var lk := SeasonKey(labels[i].s).value;
      Lookup(SeasonsMap(url, labels).value, lk.0) == Some(JObj([("key", JStr(lk.1)), ("link", JStr(url + "&season=" + lk.0))]))
  {
    KeyedDistinct(labels, EntryOf(url));
    KeyedFails(labels, EntryOf(url));
    KeyedLast(labels, EntryOf(url), i);
  }

  /** The labels of the dictionary are exactly those of the listed seasons. */
  lemma SeasonsMapKeys(url: string, labels: seq<Json>, k: string)
    requires SeasonsMap(url, labels).Some?
    ensures HasKey(SeasonsMap(url, labels).value, k) <==>
      exists i :: 0 <= i < |labels| && labels[i].JStr? && SeasonKey(labels[i].s).Some? && SeasonKey(labels[i].s).value.0 == k
  {
    KeyedHas(labels, EntryOf(url), k);
  }

  /** An existing file is returned, whatever its age and whatever the API serves. */
  lemma AvailableSeasonsCached(files: Files, net: Net, net': Net, leagueCode: int, outPath: string)
    requires SeasonsPath(outPath, leagueCode) in files
    ensures var path := SeasonsPath(outPath, leagueCode);
      && AvailableSeasons(files, net, leagueCode, outPath) == (Load(files[path].content), files)
      && AvailableSeasons(files, net', leagueCode, outPath) == (Load(files[path].content), files)
  {
  }

  /**
   * A fetched league page comes back with its season list replaced by the
   * dictionary and every other field kept, and is written exactly when the
   * dictionary is not empty.
   */
  lemma AvailableSeasonsFetched(files: Files, net: Net, leagueCode: int, outPath: string, k: string)
    requires SeasonsPath(outPath, leagueCode) !in files
    requires SeasonsMap(LeagueUrl(leagueCode), Items(Get(net(LeagueUrl(leagueCode)), "allAvailableSeasons", EmptyArr))).Some?
    ensures var (r, files') := AvailableSeasons(files, net, leagueCode, outPath);
      var doc := net(LeagueUrl(leagueCode));
      var m := SeasonsMap(LeagueUrl(leagueCode), Items(Get(doc, "allAvailableSeasons", EmptyArr))).value;
      && r.Some? && Get(r.value, "allAvailableSeasons", JNull) == JObj(m)
      && (k != "allAvailableSeasons" ==> Get(r.value, k, JNull) == Get(doc, k, JNull))
      && (m != [] ==> files' == Written(files, SeasonsPath(outPath, leagueCode), r.value))
      && (m == [] ==> files' == files)
  {
    var doc := net(LeagueUrl(leagueCode));
    var f := if doc.JObj? then doc.fields else [];
    var m := SeasonsMap(LeagueUrl(leagueCode), Items(Get(doc, "allAvailableSeasons", EmptyArr))).value;
    SetLookup(f, "allAvailableSeasons", JObj(m), k);
  }

  /** Once the page is written, a second call returns it and writes nothing. */
  lemma AvailableSeasonsAgain(files: Files, net: Net, net': Net, leagueCode: int, outPath: string)
    requires AvailableSeasons(files, net, leagueCode, outPath).1 != files
    ensures var (r, files') := AvailableSeasons(files, net, leagueCode, outPath);
      AvailableSeasons(files', net', leagueCode, outPath) == (r, files')
  {
  }

  // ---------------------------------------------------------------- season_data

  /** `{out_path}/{league_code}/Season{season_key}.json`. */
  function SeasonPath(outPath: string, leagueCode: int, seasonKey: string): string
  {
    Join(LeagueDir(outPath, leagueCode), "Season" + seasonKey + ".json")
  }

  /**
   * `season_data`: an existing file is returned whatever its age; a key
   * missing from the dictionary gives `{}`; otherwise the season's link is
   * fetched and the document is written when its `fixtures` is non-empty,
   * and returned either way. A link that is not a string raises.
   */
  function SeasonData(files: Files, net: Net, seasons: seq<(Json, Json)>, seasonKey: string, leagueCode: int, outPath: string)
    : (Option<Json>, Files)
  {
    var path := SeasonPath(outPath, leagueCode, seasonKey);
    if path in files then (Load(files[path].content), files)
    else
      match Lookup(seasons, JStr(seasonKey))
      case None => (Some(EmptyObj), files)
      case Some(link) =>
        if !link.JStr? then (None, files)
        else
          var doc := net(link.s);
          (Some(doc), if Truthy(Get(doc, "fixtures", JNull)) then Written(files, path, doc) else files)
  }

  method GetSeasonData(store: FileStore, net: Net, seasons: seq<(Json, Json)>, seasonKey: string, leagueCode: int, outPath: string)
    returns (r: Option<Json>)
    modifies store
    ensures (r, store.files) == SeasonData(old(store.files), net, seasons, seasonKey, leagueCode, outPath)
  {
    var path := SeasonPath(outPath, leagueCode, seasonKey);
    if store.Exists(path) {
      r := store.Read(path);
      return;
    }
    var link := Lookup(seasons, JStr(seasonKey));
    if link.None? {
      return Some(EmptyObj);
    }
    if !link.value.JStr? {
      return None;
    }
    var doc := net(link.value.s);
    if Truthy(Get(doc, "fixtures", JNull)) {
      store.Write(path, doc);
    }
    r := Some(doc);
  }

  /**
   * Without a file, a key missing from the dictionary gives `{}` and writes
   * nothing; a known key with a string link gives the fetched document,
   * written exactly when its `fixtures` is non-empty.
   */
  lemma SeasonDataFetched(files: Files, net: Net, seasons: seq<(Json, Json)>, seasonKey: string, leagueCode: int, outPath: string, link: Json)
    requires SeasonPath(outPath, leagueCode, seasonKey) !in files
    ensures !HasKey(seasons, JStr(seasonKey)) ==> SeasonData(files, net, seasons, seasonKey, leagueCode, outPath) == (Some(EmptyObj), files)
    ensures Lookup(seasons, JStr(seasonKey)) == Some(link) && !link.JStr? ==> SeasonData(files, net, seasons, seasonKey, leagueCode, outPath) == (None, files)
    ensures Lookup(seasons, JStr(seasonKey)) == Some(link) && link.JStr? ==>
      var doc := net(link.s);
      var (r, files') := SeasonData(files, net, seasons, seasonKey, leagueCode, outPath);
      && r == Some(doc)
      && (Truthy(Get(doc, "fixtures", JNull)) ==> files' == Written(files, SeasonPath(outPath, leagueCode, seasonKey), doc))
      && (!Truthy(Get(doc, "fixtures", JNull)) ==> files' == files)
  {
    LookupHasKey(seasons, JStr(seasonKey));
  }

  /** An existing file is returned whatever its age, the dictionary or the API. */
  lemma SeasonDataCached(files: Files, net: Net, net': Net, seasons: seq<(Json, Json)>, seasons': seq<(Json, Json)>, seasonKey: string, leagueCode: int, outPath: string)
    requires SeasonPath(outPath, leagueCode, seasonKey) in files
    ensures var path := SeasonPath(outPath, leagueCode, seasonKey);
      && SeasonData(files, net, seasons, seasonKey, leagueCode, outPath) == (Load(files[path].content), files)
      && SeasonData(files, net', seasons', seasonKey, leagueCode, outPath) == (Load(files[path].content), files)
  {
  }

  // ---------------------------------------------------------------- match_data

  /** `{out_path}/{league_code}/matches/Match{match_id}.json`. */
  function MatchPath(outPath: string, leagueCode: int, matchId: Json): string
  {
    Join(Join(LeagueDir(outPath, leagueCode), "matches"), "Match" + Display(matchId) + ".json")
  }

  /**
   * `match_data`: an existing file is returned whatever its age; an id
   * missing from the dictionary gives `{}`; otherwise the match's link is
   * fetched and the document written, with no check of what it holds.
   */
  function MatchData(files: Files, net: Net, matches: seq<(Json, Json)>, matchId: Json, leagueCode: int, outPath: string)
    : (Option<Json>, Files)
  {
    var path := MatchPath(outPath, leagueCode, matchId);
    if path in files then (Load(files[path].content), files)
    else
      match Lookup(matches, matchId)
      case None => (Some(EmptyObj), files)
      case Some(link) =>
        if !link.JStr? then (None, files)
        else
          var doc := net(link.s);
          (Some(doc), Written(files, path, doc))
  }

  method GetMatchData(store: FileStore, net: Net, matches: seq<(Json, Json)>, matchId: Json, leagueCode: int, outPath: string)
    returns (r: Option<Json>)
    modifies store
    ensures (r, store.files) == MatchData(old(store.files), net, matches, matchId, leagueCode, outPath)
  {
    var path := MatchPath(outPath, leagueCode, matchId);
    if store.Exists(path) {
      r := store.Read(path);
      return;
    }
    var link := Lookup(matches, matchId);
    if link.None? {
      return Some(EmptyObj);
    }
    if !link.value.JStr? {
      return None;
    }
    var doc := net(link.value.s);
    store.Write(path, doc);
    r := Some(doc);
  }

  /**
   * Without a file, a known id with a string link is fetched and written,
   * whatever the document holds, and a second call reads it back; an
   * unknown id gives `{}` and writes nothing.
   */
  lemma MatchDataFetched(files: Files, net: Net, net': Net, matches: seq<(Json, Json)>, matchId: Json, leagueCode: int, outPath: string, link: Json)
    requires MatchPath(outPath, leagueCode, matchId) !in files
    ensures !HasKey(matches, matchId) ==> MatchData(files, net, matches, matchId, leagueCode, outPath) == (Some(EmptyObj), files)
    ensures Lookup(matches, matchId) == Some(link) && !link.JStr? ==> MatchData(files, net, matches, matchId, leagueCode, outPath) == (None, files)
    ensures Lookup(matches, matchId) == Some(link) && link.JStr? ==>
      var doc := net(link.s);
      var (r, files') := MatchData(files, net, matches, matchId, leagueCode, outPath);
      && r == Some(doc)
      && files' == Written(files, MatchPath(outPath, leagueCode, matchId), doc)
      && MatchData(files', net', matches, matchId, leagueCode, outPath) == (r, files')
  {
    LookupHasKey(matches, matchId);
  }

  /** An existing file is returned whatever its age, the dictionary or the API. */
  lemma MatchDataCached(files: Files, net: Net, net': Net, matches: seq<(Json, Json)>, matches': seq<(Json, Json)>, matchId: Json, leagueCode: int, outPath: string)
    requires MatchPath(outPath, leagueCode, matchId) in files
    ensures var path := MatchPath(outPath, leagueCode, matchId);
      && MatchData(files, net, matches, matchId, leagueCode, outPath) == (Load(files[path].content), files)
      && MatchData(files, net', matches', matchId, leagueCode, outPath) == (Load(files[path].content), files)
  {
  }

  // ---------------------------------------------------------------- scrape_league_data

  /** `(v['key'], v['link'])` of one entry of the season dictionary; a missing key raises. */
  function KeyLink(v: Json): Option<(Json, Json)>
  {
    match Index(v, "key")
    case None => None
    case Some(key) =>
      match Index(v, "link")
      case None => None
      case Some(link) => Some((key, link))
  }

  /** The allow-list, as the string values it compares equal to. */
  function Desired(desired: set<string>): set<Json>
  {
    set s | s in desired :: JStr(s)
  }

  /** The two comprehensions over the season dictionary: key to link, then only the desired keys. */
  function SeasonLinks(available: Json, desired: set<string>): Option<seq<(Json, Json)>>
  {
    match Keyed(Values(Get(available, "allAvailableSeasons", EmptyObj)), KeyLink)
    case None => None
    case Some(byKey) => Some(FilterKeys(byKey, Desired(desired)))
  }

  /**
   * The seasons to scrape are the desired keys among the entries, each
   * once, with the link of an entry carrying that key; the building raises
   * exactly when an entry lacks its key or link.
   */
  lemma SeasonLinksKeys(available: Json, desired: set<string>, k: Json)
    ensures var vs := Values(Get(available, "allAvailableSeasons", EmptyObj));
      SeasonLinks(available, desired).None? <==> exists i :: 0 <= i < |vs| && KeyLink(vs[i]).None?
    ensures var vs := Values(Get(available, "allAvailableSeasons", EmptyObj));
      SeasonLinks(available, desired).Some? ==>
        && UniqueKeys(SeasonLinks(available, desired).value)
        && (HasKey(SeasonLinks(available, desired).value, k) <==>
            k.JStr? && k.s in desired && exists i :: 0 <= i < |vs| && KeyLink(vs[i]).Some? && KeyLink(vs[i]).value.0 == k)
  {
    var vs := Values(Get(available, "allAvailableSeasons", EmptyObj));
    KeyedFails(vs, KeyLink);
    if Keyed(vs, KeyLink).Some? {
      var byKey := Keyed(vs, KeyLink).value;
      KeyedDistinct(vs, KeyLink);
      KeyedHas(vs, KeyLink, k);
      FilterKeysLookup(byKey, Desired(desired), k);
      assert k in Desired(desired) <==> k.JStr? && k.s in desired;
    }
  }

  /** Each season to scrape holds the link of an entry with its key. */
  lemma SeasonLinksValues(available: Json, desired: set<string>, k: Json)
    requires SeasonLinks(available, desired).Some? && HasKey(SeasonLinks(available, desired).value, k)
    ensures Lookup(SeasonLinks(available, desired).value, k).Some?
    ensures var vs := Values(Get(available, "allAvailableSeasons", EmptyObj));
      exists i :: 0 <= i < |vs| && KeyLink(vs[i]) == Some((k, Lookup(SeasonLinks(available, desired).value, k).value))
  {
    var vs := Values(Get(available, "allAvailableSeasons", EmptyObj));
    var byKey := Keyed(vs, KeyLink).value;
    KeyedDistinct(vs, KeyLink);
    FilterKeysLookup(byKey, Desired(desired), k);
    KeyedValue(vs, KeyLink, k);
  }

  /** `match.get('status', {}).get('finished', False)`, as a condition. */
  predicate Finished(m: Json)
  {
    Truthy(Get(GetObj(m, "status"), "finished", JBool(false)))
  }

  function MatchDetailsUrl(id: Json): string
  {
    "https://www.fotmob.com/api/matchDetails?matchId=" + Display(id)
  }

  /** `(match['id'], <its details link>)`; a missing id raises. */
  function IdUrl(m: Json): Option<(Json, Json)>
  {
    match Index(m, "id")
    case None => None
    case Some(id) => Some((id, JStr(MatchDetailsUrl(id))))
  }

  /** `season_json.get('fixtures', {}).get('allMatches', {})`, iterated. */
  function AllMatches(seasonJson: Json): seq<Json>
  {
    Items(Get(GetObj(seasonJson, "fixtures"), "allMatches", EmptyObj))
  }

  /** `dict_matches_urls`: the finished matches, by id, with their details link. */
  function FinishedMatches(seasonJson: Json): Option<seq<(Json, Json)>>
  {
    Keyed(Keep(AllMatches(seasonJson), Finished, Itself), IdUrl)
  }

  /** Building the dictionary raises exactly when a finished match has no id. */
  lemma FinishedMatchesFails(seasonJson: Json)
    ensures FinishedMatches(seasonJson).None? <==> exists m :: m in AllMatches(seasonJson) && Finished(m) && !Has(m, "id")
  {
    KeyedKeepFails(AllMatches(seasonJson), Finished, IdUrl);
  }

  /** The matches are exactly the finished ones, each id once, each with the details link of its own id. */
  lemma FinishedMatchesKeys(seasonJson: Json, k: Json)
    requires FinishedMatches(seasonJson).Some?
    ensures UniqueKeys(FinishedMatches(seasonJson).value)
    ensures HasKey(FinishedMatches(seasonJson).value, k) <==> exists m :: m in AllMatches(seasonJson) && Finished(m) && Index(m, "id") == Some(k)
    ensures HasKey(FinishedMatches(seasonJson).value, k) ==> Lookup(FinishedMatches(seasonJson).value, k) == Some(JStr(MatchDetailsUrl(k)))
  {
    var ys := Keep(AllMatches(seasonJson), Finished, Itself);
    KeyedKeepHas(AllMatches(seasonJson), Finished, IdUrl, k);
    if HasKey(FinishedMatches(seasonJson).value, k) {
      KeyedValue(ys, IdUrl, k);
    }
  }
}
