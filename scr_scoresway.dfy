/**
 * The scoresway scraper. The feeds answer in JSONP: a callback name, the
 * JSON document in parentheses and an optional `;`. The scraper unwraps the
 * document, keeps the season files in a cache directory for five days and a
 * match file for as long as it holds the match's `matchInfo`.
 * The web is a function from a URL to the response it gets, and `json.loads`
 * a function from text to the document it parses (`None` when it raises).
 */
module ScoreswayScrape {
  import opened Wrappers
  import opened Dicts
  import opened Text
  import opened Json
  import opened Seqs
  import opened Store

  /** A response: its status code and its text. */
  datatype Response = Response(status: int, body: string)

  /** `s.get(url, ...)`. */
  type Web = string -> Response

  /** `json.loads`: nothing when the text is not JSON. */
  type Decoder = string -> Option<Json>

  /** The age threshold of `need_to_upload`, in days. */
  const DefaultDays: nat := 5

  // ---------------------------------------------------------------- the JSONP wrapper

  /** A character of `[\w$]` (the ASCII letters, digits, `_` and `$`). */
  predicate WordChar(c: char)
  {
    'a' <= c <= 'z' || 'A' <= c <= 'Z' || '0' <= c <= '9' || c == '_' || c == '$'
  }

  /** The length of the longest prefix of `s` made of word characters. */
  function WordLen(s: string): (n: nat)
    ensures n <= |s|
    ensures forall i :: 0 <= i < n ==> WordChar(s[i])
    ensures n < |s| ==> !WordChar(s[n])
  {
    if s != [] && WordChar(s[0]) then 1 + WordLen(s[1..]) else 0
  }

  /** `\s*;?\s*$` matches the whole of `t`. */
  predicate TailOk(t: string)
  {
    var u := TrimStart(t);
    u == [] || (u[0] == ';' && forall i :: 1 <= i < |u| ==> IsSpace(u[i]))
  }

  /** The last `q` in `[lo, hi)` where a `)` is followed by an acceptable tail: where the greedy `(.*)` stops. */
  function LastClose(s: string, lo: nat, hi: nat): (q: Option<nat>)
    requires lo <= hi <= |s|
    ensures q.Some? ==> lo <= q.value < hi && s[q.value] == ')' && TailOk(s[q.value + 1..])
    ensures q.Some? ==> forall j :: q.value < j < hi ==> !(s[j] == ')' && TailOk(s[j + 1..]))
    ensures q.None? ==> forall j :: lo <= j < hi ==> !(s[j] == ')' && TailOk(s[j + 1..]))
    decreases hi - lo
  {
    if hi == lo then None
    else if s[hi - 1] == ')' && TailOk(s[hi..]) then Some(hi - 1)
    else LastClose(s, lo, hi - 1)
  }

  /**
   * `re.match(r"^[\w$]+\((.*)\)\s*;?\s*$", text, flags=re.DOTALL).group(1)`:
   * the callback name is the longest run of word characters (a shorter one
   * would be followed by a word character, not by `(`), and the payload runs
   * to the last `)` after which only the tail follows.
   */
  function Unwrap(text: string): Option<string>
  {
    var n := WordLen(text);
    if n == 0 || n == |text| || text[n] != '(' then None
    else
      match LastClose(text, n + 1, |text|)
      case None => None
      case Some(q) => Some(text[n + 1..q])
  }

  /** Blanks and `;` are all an acceptable tail can hold. */
  lemma TailChars(t: string, i: nat)
    requires TailOk(t) && i < |t|
    ensures IsSpace(t[i]) || t[i] == ';'
  {
    var u := TrimStart(t);
    TrimStartSuffix(t);
    var d := |t| - |u|;
    if i >= d {
      assert t[i] == u[i - d];
    }
  }

  /** The longest run of word characters ends where a character outside `[\w$]` starts. */
  lemma {:induction false} WordLenAt(s: string, n: nat)
    requires n < |s| && !WordChar(s[n])
    requires forall i :: 0 <= i < n ==> WordChar(s[i])
    ensures WordLen(s) == n
  {
    if n > 0 {
      WordLenAt(s[1..], n - 1);
    }
  }

  /** The greedy `(.*)` stops at a `)` with an acceptable tail and no `)` after it. */
  lemma LastCloseAt(s: string, lo: nat, q: nat)
    requires lo <= q < |s| && s[q] == ')' && TailOk(s[q + 1..])
    requires forall j :: q < j < |s| ==> s[j] != ')'
    ensures LastClose(s, lo, |s|) == Some(q)
  {
  }

  /** Where the callback name ends and the greedy `(.*)` stops determine the payload. */
  lemma UnwrapAt(text: string, n: nat, q: nat)
    requires 0 < n < q < |text| && WordLen(text) == n && text[n] == '('
    requires LastClose(text, n + 1, |text|) == Some(q)
    ensures Unwrap(text) == Some(text[n + 1..q])
  {
  }

  /** Where the parts of a wrapped payload sit in the text. */
  lemma WrappedParts(id: string, payload: string, tail: string)
    ensures var text := id + "(" + payload + ")" + tail;
      var q := |id| + 1 + |payload|;
      && |text| == q + 1 + |tail|
      && (forall i :: 0 <= i < |id| ==> text[i] == id[i])
      && text[|id|] == '(' && text[q] == ')'
      && text[|id| + 1..q] == payload && text[q + 1..] == tail
      && forall j :: q < j < |text| ==> text[j] == tail[j - q - 1]
  {
    var text := id + "(" + payload + ")" + tail;
    var q := |id| + 1 + |payload|;
    assert text == (id + "(" + payload) + (")" + tail);
    assert text[q + 1..] == tail;
    assert text[..q] == id + "(" + payload;
    assert text[|id| + 1..q] == text[..q][|id| + 1..];
  }

  /** A text cut around two positions is its pieces put back together. */
  lemma Reassembled(text: string, n: nat, q: nat)
    requires n < q < |text| && text[n] == '(' && text[q] == ')'
    ensures text == text[..n] + "(" + text[n + 1..q] + ")" + text[q + 1..]
  {
    assert text[..n] + "(" + text[n + 1..q] == text[..q];
    assert text[..q] + ")" == text[..q + 1];
  }

  /**
   * Wrapping any payload in a callback name, parentheses and an acceptable
   * tail gives it back, whatever parentheses the payload itself holds.
   */
  lemma UnwrapWrap(id: string, payload: string, tail: string)
    requires id != [] && forall i :: 0 <= i < |id| ==> WordChar(id[i])
    requires TailOk(tail)
    ensures Unwrap(id + "(" + payload + ")" + tail) == Some(payload)
  {
    var text := id + "(" + payload + ")" + tail;
    var q := |id| + 1 + |payload|;
    WrappedParts(id, payload, tail);
    WordLenAt(text, |id|);
    forall j | q < j < |text| ensures text[j] != ')' {
      TailChars(tail, j - q - 1);
    }
    LastCloseAt(text, |id| + 1, q);
    UnwrapAt(text, |id|, q);
  }

  /** Whatever unwraps had this shape: a callback name, `(`, the payload, `)` and an acceptable tail. */
  lemma UnwrapSound(text: string)
    requires Unwrap(text).Some?
    ensures exists id, tail ::
      && id != [] && (forall i :: 0 <= i < |id| ==> WordChar(id[i])) && TailOk(tail)
      && text == id + "(" + Unwrap(text).value + ")" + tail
  {
    var n, q := UnwrapCuts(text);
    Reassembled(text, n, q);
    var id, tail := text[..n], text[q + 1..];
    assert forall i :: 0 <= i < |id| ==> WordChar(id[i]) by {
      assert forall i :: 0 <= i < n ==> WordChar(text[i]);
    }
    assert text == id + "(" + Unwrap(text).value + ")" + tail;
  }

  /** Where the callback name of an unwrapped text ends and where its payload closes. */
  lemma UnwrapCuts(text: string) returns (n: nat, q: nat)
    requires Unwrap(text).Some?
    ensures 0 < n < q < |text| && text[n] == '(' && text[q] == ')'
    ensures forall i :: 0 <= i < n ==> WordChar(text[i])
    ensures TailOk(text[q + 1..]) && Unwrap(text) == Some(text[n + 1..q])
  {
    n := WordLen(text);
    q := LastClose(text, n + 1, |text|).value;
  }

  /** A body that does not start with a callback name followed by `(` gives nothing. */
  lemma UnwrapNoCallback(text: string)
    requires text == [] || !WordChar(text[0]) || '(' !in text
    ensures Unwrap(text).None?
  {
  }

  // ---------------------------------------------------------------- scrape_json

  /**
   * `scrape_json(url)`: `{}` for a status other than 200 or a body that is
   * not JSONP, else the unwrapped payload parsed (which raises when it is
   * not JSON).
   */
  function ScrapeJson(web: Web, decode: Decoder, url: string): Option<Json>
  {
    var r := web(url);
    if r.status != 200 then Some(EmptyObj)
    else
      match Unwrap(Strip(r.body))
      case None => Some(EmptyObj)
      case Some(payload) => decode(payload)
  }

  /** Every status but 200 reads as `{}`, and a JSONP body as the document it wraps. */
  lemma ScrapeJsonCases(web: Web, decode: Decoder, url: string, id: string, payload: string, tail: string)
    requires id != [] && forall i :: 0 <= i < |id| ==> WordChar(id[i])
    requires TailOk(tail)
    ensures web(url).status != 200 ==> ScrapeJson(web, decode, url) == Some(EmptyObj)
    ensures web(url).status == 200 && Strip(web(url).body) == id + "(" + payload + ")" + tail ==>
      ScrapeJson(web, decode, url) == decode(payload)
  {
    UnwrapWrap(id, payload, tail);
  }

  // ---------------------------------------------------------------- need_to_upload

  /** `need_to_upload(path)`: the file, which must exist, is strictly older than the threshold. */
  predicate NeedToUpload(files: Files, path: string, totalDays: nat)
    requires path in files
  {
    Stale(files[path].age, totalDays)
  }

  /** A file exactly `totalDays` days old is kept; one second more and it is fetched again. */
  lemma NeedToUploadBoundary(files: Files, path: string, totalDays: nat)
    requires path in files
    ensures files[path].age == totalDays * SecondsPerDay ==> !NeedToUpload(files, path, totalDays)
    ensures files[path].age == totalDays * SecondsPerDay + 1 ==> NeedToUpload(files, path, totalDays)
    ensures files[path].age == 0 ==> !NeedToUpload(files, path, totalDays)
  {
  }

  // ---------------------------------------------------------------- season_matches and season_standings

  /** `sw_links[sw_links['id'] == league_code][column].iloc[0]`: nothing when there is no such row or column. */
  function LinkOf(links: map<(int, string), string>, leagueCode: int, column: string): Option<string>
  {
    if (leagueCode, column) in links then Some(links[(leagueCode, column)]) else None
  }

  /** `{out_path}/{league_code}/{season}`. */
  function SeasonDir(outPath: string, leagueCode: int, season: string): string
  {
    Join(Join(outPath, IntToString(leagueCode)), season)
  }

  function MatchesPath(outPath: string, leagueCode: int, season: string): string
  {
    Join(SeasonDir(outPath, leagueCode, season), "Matches" + season + ".json")
  }

  function StandingsPath(outPath: string, leagueCode: int, season: string): string
  {
    Join(SeasonDir(outPath, leagueCode, season), "Standings" + season + ".json")
  }

  /** The matches and the standings of a season never share a file. */
  lemma SeasonPathsDiffer(outPath: string, leagueCode: int, season: string)
    ensures MatchesPath(outPath, leagueCode, season) != StandingsPath(outPath, leagueCode, season)
  {
    var dir := SeasonDir(outPath, leagueCode, season);
    assert MatchesPath(outPath, leagueCode, season)[|dir| + 1] == 'M';
    assert StandingsPath(outPath, leagueCode, season)[|dir| + 1] == 'S';
  }

  /** The fetch of a season feed: its link looked up, then scraped. */
  function Feed(web: Web, decode: Decoder, links: map<(int, string), string>, leagueCode: int, column: string): Option<Json>
  {
    match LinkOf(links, leagueCode, column)
    case None => None
    case Some(url) => ScrapeJson(web, decode, url)
  }

  /**
   * The shape both season fetchers share: a fresh file is read back;
   * otherwise the fetched document is written and returned when its entry
   * under `key` is non-empty, and `{}` is returned, with nothing written,
   * when it is not.
   */
  function CachedFeed(files: Files, path: string, fetched: Option<Json>, key: string): (Option<Json>, Files)
  {
    if path in files && !NeedToUpload(files, path, DefaultDays) then (Load(files[path].content), files)
    else
      match fetched
      case None => (None, files)
      case Some(doc) =>
        if Truthy(Get(doc, key, JNull)) then (Some(doc), Written(files, path, doc)) else (Some(EmptyObj), files)
  }

  /** `season_matches`: kept when `match` is non-empty. */
  function SeasonMatches(files: Files, web: Web, decode: Decoder, links: map<(int, string), string>, season: string, leagueCode: int, outPath: string)
    : (Option<Json>, Files)
  {
    CachedFeed(files, MatchesPath(outPath, leagueCode, season), Feed(web, decode, links, leagueCode, "match" + season), "match")
  }

  /** `season_standings`: kept when `stage` is non-empty. */
  function SeasonStandings(files: Files, web: Web, decode: Decoder, links: map<(int, string), string>, season: string, leagueCode: int, outPath: string)
    : (Option<Json>, Files)
  {
    CachedFeed(files, StandingsPath(outPath, leagueCode, season), Feed(web, decode, links, leagueCode, "standings" + season), "stage")
  }

  method FetchCachedFeed(store: FileStore, web: Web, decode: Decoder, links: map<(int, string), string>, leagueCode: int, column: string, path: string, key: string)
    returns (r: Option<Json>)
    modifies store
    ensures (r, store.files) == CachedFeed(old(store.files), path, Feed(web, decode, links, leagueCode, column), key)
  {
    if store.Exists(path) && !NeedToUpload(store.files, path, DefaultDays) {
      r := store.Read(path);
      return;
    }
    var url := LinkOf(links, leagueCode, column);
    if url.None? {
      return None;
    }
    r := ScrapeJson(web, decode, url.value);
    if r.Some? {
      if Truthy(Get(r.value, key, JNull)) {
        store.Write(path, r.value);
      } else {
        r := Some(EmptyObj);
      }
    }
  }

  method GetSeasonMatches(store: FileStore, web: Web, decode: Decoder, links: map<(int, string), string>, season: string, leagueCode: int, outPath: string)
    returns (r: Option<Json>)
    modifies store
    ensures (r, store.files) == SeasonMatches(old(store.files), web, decode, links, season, leagueCode, outPath)
  {
    r := FetchCachedFeed(store, web, decode, links, leagueCode, "match" + season, MatchesPath(outPath, leagueCode, season), "match");
  }

  method GetSeasonStandings(store: FileStore, web: Web, decode: Decoder, links: map<(int, string), string>, season: string, leagueCode: int, outPath: string)
    returns (r: Option<Json>)
    modifies store
    ensures (r, store.files) == SeasonStandings(old(store.files), web, decode, links, season, leagueCode, outPath)
  {
    r := FetchCachedFeed(store, web, decode, links, leagueCode, "standings" + season, StandingsPath(outPath, leagueCode, season), "stage");
  }

  /** A file at most five days old is read back whatever the web serves. */
  lemma CachedFeedFresh(files: Files, path: string, fetched: Option<Json>, fetched': Option<Json>, key: string)
    requires path in files && files[path].age <= DefaultDays * SecondsPerDay
    ensures CachedFeed(files, path, fetched, key) == (Load(files[path].content), files)
    ensures CachedFeed(files, path, fetched', key) == CachedFeed(files, path, fetched, key)
  {
  }

  /**
   * Without a fresh file, the store changes only by writing the fetched
   * document, exactly when its entry under `key` is non-empty; any other
   * document comes back as `{}`.
   */
  lemma CachedFeedFetched(files: Files, path: string, fetched: Option<Json>, key: string)
    requires !(path in files && !NeedToUpload(files, path, DefaultDays))
    ensures var (r, files') := CachedFeed(files, path, fetched, key);
      && (r.None? <==> fetched.None?)
      && (r.Some? && Truthy(Get(fetched.value, key, JNull)) ==> r == fetched && files' == Written(files, path, fetched.value))
      && (r.Some? && !Truthy(Get(fetched.value, key, JNull)) ==> r == Some(EmptyObj) && files' == files)
      && (r.None? ==> files' == files)
  {
  }

  /** What a season fetcher returns is `{}`, a document with a non-empty entry under `key`, or what the cache holds. */
  lemma CachedFeedResult(files: Files, path: string, fetched: Option<Json>, key: string)
    ensures var (r, files') := CachedFeed(files, path, fetched, key);
      || files' == files
      || (r.Some? && Truthy(Get(r.value, key, JNull)) && files' == Written(files, path, r.value))
    ensures var (r, files') := CachedFeed(files, path, fetched, key);
      r.Some? && r.value != EmptyObj && r.value != (if path in files then Load(files[path].content) else None).GetOr(EmptyObj) ==>
        Truthy(Get(r.value, key, JNull))
  {
  }

  /** Once a document is written, a second call reads it back and writes nothing. */
  lemma CachedFeedAgain(files: Files, path: string, fetched: Option<Json>, fetched': Option<Json>, key: string)
    requires CachedFeed(files, path, fetched, key).1 != files
    ensures var (r, files') := CachedFeed(files, path, fetched, key);
      CachedFeed(files', path, fetched', key) == (r, files')
  {
  }

  // ---------------------------------------------------------------- match_data

  /** The feed of one match, in JSONP. */
  function MatchUrl(matchId: Json): string
  {
    "https://api.performfeeds.com/soccerdata/match/ft1tiv1inq7v1sk3y9tv12yh5/" + Display(matchId)
      + "?_rt=c&live=yes&_lcl=en&_fmt=jsonp&sps=widgets&_clbk=cb"
  }

  /** `{out_path}/{league_code}/{season}/matches_info/{match_id}.json`. */
  function MatchPath(outPath: string, leagueCode: int, season: string, matchId: Json): string
  {
    Join(Join(SeasonDir(outPath, leagueCode, season), "matches_info"), Display(matchId) + ".json")
  }

  /** `isinstance(doc, dict) and doc.get('matchInfo')`. */
  predicate HasMatchInfo(doc: Json)
  {
    doc.JObj? && Truthy(Get(doc, "matchInfo", JNull))
  }

  /** The document a non-empty cached file holds, if it parses. */
  function CachedMatch(files: Files, path: string): Option<Json>
  {
    if path in files && !files[path].content.Blank? then Load(files[path].content) else None
  }

  /** The store once a file that does not parse has been removed. */
  function Cleaned(files: Files, path: string): Files
  {
    if path in files && files[path].content.Garbled? then files - {path} else files
  }

  /**
   * `match_data` once the path and the fetch are known: a cached match with
   * its `matchInfo` is reused whatever its age; a cached file that does not
   * parse is removed; otherwise the fetched match (an empty answer read as
   * `{}`) is written and returned only when it has its `matchInfo`.
   */
  function MatchStep(files: Files, path: string, fetched: Option<Json>): (Option<Json>, Files)
  {
    var cached := CachedMatch(files, path);
    if cached.Some? && HasMatchInfo(cached.value) then (cached, files)
    else
      var files1 := Cleaned(files, path);
      match fetched
      case None => (None, files1)
      case Some(got) =>
        var doc := if Truthy(got) then got else EmptyObj;
        if HasMatchInfo(doc) then (Some(doc), Written(files1, path, doc)) else (Some(EmptyObj), files1)
  }

  /** `match_data`. */
  function MatchData(files: Files, web: Web, decode: Decoder, season: string, leagueCode: int, matchId: Json, outPath: string)
    : (Option<Json>, Files)
  {
    MatchStep(files, MatchPath(outPath, leagueCode, season, matchId), ScrapeJson(web, decode, MatchUrl(matchId)))
  }

  method UpdateMatch(store: FileStore, path: string, fetched: Option<Json>) returns (r: Option<Json>)
    modifies store
    ensures (r, store.files) == MatchStep(old(store.files), path, fetched)
  {
    if store.Exists(path) && store.NonEmpty(path) {
      var cached := store.Read(path);
      if cached.Some? && HasMatchInfo(cached.value) {
        return cached;
      }
      if cached.None? {
        store.Remove(path);
      }
    }
    if fetched.None? {
      return None;
    }
    var doc := if Truthy(fetched.value) then fetched.value else EmptyObj;
    if HasMatchInfo(doc) {
      store.Write(path, doc);
      return Some(doc);
    }
    return Some(EmptyObj);
  }

  method ScrapeMatchData(store: FileStore, web: Web, decode: Decoder, season: string, leagueCode: int, matchId: Json, outPath: string)
    returns (r: Option<Json>)
    modifies store
    ensures (r, store.files) == MatchData(old(store.files), web, decode, season, leagueCode, matchId, outPath)
  {
    var got := ScrapeJson(web, decode, MatchUrl(matchId));
    r := UpdateMatch(store, MatchPath(outPath, leagueCode, season, matchId), got);
  }

  /** A cached match with its `matchInfo` is returned whatever its age and whatever the fetch gives. */
  lemma MatchStepCached(files: Files, path: string, fetched: Option<Json>, fetched': Option<Json>)
    requires path in files && files[path].content.Doc? && HasMatchInfo(files[path].content.doc)
    ensures MatchStep(files, path, fetched) == (Some(files[path].content.doc), files)
    ensures MatchStep(files, path, fetched') == (Some(files[path].content.doc), files)
  {
  }

  /**
   * The result is `{}` or a match document with its `matchInfo`, and the
   * file left behind, if any, is a match document with its `matchInfo` or
   * what was there before; no other file changes.
   */
  lemma MatchStepResult(files: Files, path: string, fetched: Option<Json>)
    ensures var (r, files') := MatchStep(files, path, fetched);
      r.Some? ==> r.value == EmptyObj || HasMatchInfo(r.value)
    ensures var (r, files') := MatchStep(files, path, fetched);
      && (forall p :: p != path ==> (p in files' <==> p in files))
      && (forall p :: p != path && p in files ==> files'[p] == files[p])
      && (path in files' ==> (path in files && files'[path] == files[path]) || (r.Some? && files'[path] == Entry(Doc(r.value), 0) && HasMatchInfo(r.value)))
  {
  }

  /** A cached file that does not parse does not survive the call: it is removed or replaced by the fetched match. */
  lemma MatchStepGarbled(files: Files, path: string, fetched: Option<Json>)
    requires path in files && files[path].content.Garbled?
    ensures var (r, files') := MatchStep(files, path, fetched);
      path !in files' || (r.Some? && files'[path] == Entry(Doc(r.value), 0))
  {
  }

  /** Once a match is written, a second call returns it from the cache and writes nothing. */
  lemma MatchStepAgain(files: Files, path: string, fetched: Option<Json>, fetched': Option<Json>)
    requires var (r, files') := MatchStep(files, path, fetched);
      r.Some? && HasMatchInfo(r.value)
    ensures var (r, files') := MatchStep(files, path, fetched);
      MatchStep(files', path, fetched') == (r, files')
  {
  }

  // ---------------------------------------------------------------- the played matches of a season

  /** `m.get('liveData', {}).get('matchDetails', {}).get('matchStatus') == 'Played'`. */
  predicate Played(m: Json)
  {
    Get(Get(GetObj(m, "liveData"), "matchDetails", EmptyObj), "matchStatus", JNull) == JStr("Played")
  }

  /** `m.get('matchInfo', {}).get('id')`. */
  function MatchKey(m: Json): Json
  {
    Get(GetObj(m, "matchInfo"), "id", JNull)
  }

  /** The name of a contestant, `contestant.get('name', '')`, as the f-string prints it. */
  function ContestantName(c: Json): string
  {
    Display(Get(c, "name", EmptyStr))
  }

  /**
   * `(id, f"{home name}-{away name}".lower().replace(' ', '-'))` of a match;
   * a contestant list too short for `[0]` or `[1]` raises.
   */
  function IdAndTeams(m: Json): Option<(Json, Json)>
  {
    var info := GetObj(m, "matchInfo");
    match At(Get(info, "contestant", JArr([EmptyObj])), 0)
    case None => None
    case Some(home) =>
      match At(Get(info, "contestant", JArr([EmptyObj, EmptyObj])), 1)
      case None => None
      case Some(away) =>
        Some((MatchKey(m), JStr(Replace(Lower(ContestantName(home) + "-" + ContestantName(away)), " ", "-"))))
  }

  /** The played matches of the season feed, in order. */
  function PlayedList(matchesJson: Json): seq<Json>
  {
    Keep(Items(Get(matchesJson, "match", EmptyArr)), Played, Itself)
  }

  /** `played_matches`. */
  function PlayedMatches(matchesJson: Json): Option<seq<(Json, Json)>>
  {
    Keyed(PlayedList(matchesJson), IdAndTeams)
  }

  /** Building the played matches raises exactly when a played match has a contestant list too short. */
  lemma PlayedMatchesFails(matchesJson: Json)
    ensures var ms := Items(Get(matchesJson, "match", EmptyArr));
      PlayedMatches(matchesJson).None? <==> exists m :: m in ms && Played(m) && IdAndTeams(m).None?
  {
    KeyedKeepFails(Items(Get(matchesJson, "match", EmptyArr)), Played, IdAndTeams);
  }

  /** The matches to fetch are exactly the played ones of the feed, each id once. */
  lemma PlayedMatchesKeys(matchesJson: Json, k: Json)
    requires PlayedMatches(matchesJson).Some?
    ensures UniqueKeys(PlayedMatches(matchesJson).value)
    ensures var ms := Items(Get(matchesJson, "match", EmptyArr));
      HasKey(PlayedMatches(matchesJson).value, k) <==> exists m :: m in ms && Played(m) && MatchKey(m) == k
  {
    var ms := Items(Get(matchesJson, "match", EmptyArr));
    KeyedKeepHas(ms, Played, IdAndTeams, k);
    KeyedKeepFails(ms, Played, IdAndTeams);
    if exists m :: m in ms && Played(m) && MatchKey(m) == k {
      var m :| m in ms && Played(m) && MatchKey(m) == k;
      IdAndTeamsId(m);
    }
  }

  /** The key of a match is `matchInfo.id`, whenever its slug can be built. */
  lemma IdAndTeamsId(m: Json)
    requires IdAndTeams(m).Some?
    ensures IdAndTeams(m).value.0 == MatchKey(m)
  {
  }

  /** A match's slug is lower case and has no blank: the blanks became dashes. */
  lemma SlugShape(m: Json)
    requires IdAndTeams(m).Some?
    ensures var slug := IdAndTeams(m).value.1.s;
      ' ' !in slug && forall i :: 0 <= i < |slug| ==> !('A' <= slug[i] <= 'Z')
  {
    var info := GetObj(m, "matchInfo");
    var home := At(Get(info, "contestant", JArr([EmptyObj])), 0).value;
    var away := At(Get(info, "contestant", JArr([EmptyObj, EmptyObj])), 1).value;
    var low := Lower(ContestantName(home) + "-" + ContestantName(away));
    var slug := IdAndTeams(m).value.1.s;
    ReplaceCharGone(low, ' ', "-");
    forall i | 0 <= i < |slug| ensures !('A' <= slug[i] <= 'Z') {
      ReplaceCharFrom(low, ' ', "-", slug[i]);
    }
  }

  /** A match feed without contestants gives the slug `-`. */
  lemma SlugWithoutContestants(m: Json)
    requires !Has(GetObj(m, "matchInfo"), "contestant")
    ensures IdAndTeams(m) == Some((MatchKey(m), JStr("-")))
  {
    var info := GetObj(m, "matchInfo");
    GetDefaultOnlyWhenAbsent(info, "contestant", JArr([EmptyObj]), JArr([EmptyObj, EmptyObj]));
    GetDefaultOnlyWhenAbsent(info, "contestant", JArr([EmptyObj, EmptyObj]), JArr([EmptyObj]));
    assert Get(info, "contestant", JArr([EmptyObj])) == JArr([EmptyObj]);
    assert Get(info, "contestant", JArr([EmptyObj, EmptyObj])) == JArr([EmptyObj, EmptyObj]);
    assert At(JArr([EmptyObj]), 0) == Some(EmptyObj);
    assert At(JArr([EmptyObj, EmptyObj]), 1) == Some(EmptyObj);
    assert ContestantName(EmptyObj) == "";
    assert ContestantName(EmptyObj) + "-" + ContestantName(EmptyObj) == "-";
    assert Lower("-") == "-";
    assert Replace("-", " ", "-") == "-";
  }
}
