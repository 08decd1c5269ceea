/**
 * The sofascore scraper's cache-or-fetch logic. Every fetcher first looks
 * for its file in the cache directory and reuses it when it is young enough
 * (or whatever its age, for the files that never go stale); otherwise it
 * asks the API and decides, from what came back, whether to write it.
 * The API is a function from a URL to the document it serves. A result of
 * `None` stands for a call that raises (a cached file that does not parse).
 */
module SofascoreScrape {
  import opened Wrappers
  import opened Dicts
  import opened Text
  import opened Json
  import opened Seqs
  import opened Store

  /** `page_scraper`: the document the API serves at a URL. */
  type Net = string -> Json

  /** The default age threshold of `need_to_upload`, in days. */
  const DefaultDays: nat := 5

  /** The age threshold of the player, team, manager and venue details, in days. */
  const InfoDays: nat := 30

  const Api: string := "https://api.sofascore.com/api/v1/"

  // ---------------------------------------------------------------- need_to_upload

  /** `need_to_upload(path, totalDays)`: the file is missing or strictly older than the threshold. */
  predicate NeedToUpload(files: Files, path: string, totalDays: nat)
  {
    path !in files || Stale(files[path].age, totalDays)
  }

  /** `os.path.exists(path) and not need_to_upload(path, totalDays)`. */
  predicate Fresh(files: Files, path: string, totalDays: nat)
  {
    path in files && !NeedToUpload(files, path, totalDays)
  }

  /**
   * A file exactly `totalDays` days old is still fresh; one second more and
   * it must be fetched again. A missing file always must.
   */
  lemma NeedToUploadBoundary(files: Files, path: string, totalDays: nat)
    ensures path !in files ==> NeedToUpload(files, path, totalDays)
    ensures path in files && files[path].age == totalDays * SecondsPerDay ==> !NeedToUpload(files, path, totalDays)
    ensures path in files && files[path].age == totalDays * SecondsPerDay + 1 ==> NeedToUpload(files, path, totalDays)
  {
  }

  /** A longer threshold never asks for a refresh that a shorter one would not. */
  lemma NeedToUploadMonotone(files: Files, path: string, d1: nat, d2: nat)
    requires d1 <= d2
    ensures NeedToUpload(files, path, d2) ==> NeedToUpload(files, path, d1)
  {
    assert d1 * SecondsPerDay <= d2 * SecondsPerDay;
  }

  // ---------------------------------------------------------------- URLs and paths

  function SeasonsUrl(leagueCode: int): string
  {
    Api + "unique-tournament/" + IntToString(leagueCode) + "/seasons/"
  }

  function SeasonUrl(leagueCode: int, seasonId: Json): string
  {
    Api + "unique-tournament/" + IntToString(leagueCode) + "/season/" + Display(seasonId)
  }

  /** The `i`-th page of finished events of a season. */
  function PageUrl(leagueCode: int, seasonId: Json, i: nat): string
  {
    SeasonUrl(leagueCode, seasonId) + "/events/last/" + NatToString(i)
  }

  /** `info/matches/{i}.json`. */
  function PagePath(outPath: string, i: nat): string
  {
    Join(Join(Join(outPath, "info"), "matches"), NatToString(i) + ".json")
  }

  /** Two pages never share a file. */
  lemma PagePathInjective(outPath: string, i: nat, j: nat)
    requires i != j
    ensures PagePath(outPath, i) != PagePath(outPath, j)
  {
    var dir := Join(Join(outPath, "info"), "matches") + "/";
    var a, b := NatToString(i) + ".json", NatToString(j) + ".json";
    if PagePath(outPath, i) == PagePath(outPath, j) {
      assert dir + a == dir + b;
      assert a == (dir + a)[|dir|..];
      assert a == b;
      assert NatToString(i) == a[..|a| - 5];
      DigitsOfNat(i);
      DigitsOfNat(j);
      assert false;
    }
  }

  // ---------------------------------------------------------------- league_available_seasons

  /**
   * `league_available_seasons`: an existing file is returned whatever its
   * age; otherwise the fetched document is returned, and written only when
   * its `seasons` is non-empty.
   */
  function AvailableSeasons(files: Files, net: Net, leagueCode: int, outPath: string): (Option<Json>, Files)
  {
    var path := Join(outPath, "available_seasons.json");
    if path in files then (Load(files[path].content), files)
    else
      var doc := net(SeasonsUrl(leagueCode));
      (Some(doc), if Truthy(Get(doc, "seasons", JNull)) then Written(files, path, doc) else files)
  }

  method LeagueAvailableSeasons(store: FileStore, net: Net, leagueCode: int, outPath: string) returns (r: Option<Json>)
    modifies store
    ensures (r, store.files) == AvailableSeasons(old(store.files), net, leagueCode, outPath)
  {
    var path := Join(outPath, "available_seasons.json");
    if store.Exists(path) {
      r := store.Read(path);
      return;
    }
    var doc := net(SeasonsUrl(leagueCode));
    if Truthy(Get(doc, "seasons", JNull)) {
      store.Write(path, doc);
    }
    r := Some(doc);
  }

  /**
   * An existing file decides the result on its own: neither its age nor the
   * network matters, and nothing is written.
   */
  lemma AvailableSeasonsCached(files: Files, net: Net, net': Net, leagueCode: int, outPath: string, age: nat)
    requires Join(outPath, "available_seasons.json") in files
    ensures var path := Join(outPath, "available_seasons.json");
      var aged := files[path := Entry(files[path].content, age)];
      && AvailableSeasons(files, net, leagueCode, outPath).1 == files
      && AvailableSeasons(files, net, leagueCode, outPath).0 == AvailableSeasons(aged, net', leagueCode, outPath).0
  {
  }

  /**
   * Without a file, the fetched document is the result, and the file is
   * created, holding it, exactly when its `seasons` is non-empty.
   */
  lemma AvailableSeasonsFetched(files: Files, net: Net, leagueCode: int, outPath: string)
    requires Join(outPath, "available_seasons.json") !in files
    ensures var path := Join(outPath, "available_seasons.json");
      var (r, files') := AvailableSeasons(files, net, leagueCode, outPath);
      var doc := net(SeasonsUrl(leagueCode));
      && r == Some(doc)
      && (path in files' <==> Truthy(Get(doc, "seasons", JNull)))
      && (path in files' ==> Load(files'[path].content) == r)
      && (forall p :: p != path ==> (p in files' <==> p in files) && (p in files ==> files'[p] == files[p]))
  {
  }

  /** Once the file exists, a second call returns the same document and writes nothing, whatever the network. */
  lemma AvailableSeasonsAgain(files: Files, net: Net, net': Net, leagueCode: int, outPath: string)
    requires Join(outPath, "available_seasons.json") in AvailableSeasons(files, net, leagueCode, outPath).1
    ensures var (r, files') := AvailableSeasons(files, net, leagueCode, outPath);
      AvailableSeasons(files', net', leagueCode, outPath) == (r, files')
  {
  }


  // ---------------------------------------------------------------- season_data

  /**
   * Page `n` ends the loop: it has no usable cached file and the fetched
   * page has no events.
   */
  predicate Ends(files: Files, net: Net, leagueCode: int, seasonId: Json, outPath: string, n: nat)
  {
    !Fresh(files, PagePath(outPath, n), DefaultDays)
    && !Truthy(Get(net(PageUrl(leagueCode, seasonId, n)), "events", EmptyArr))
  }

  /**
   * The `while True` loop of `season_data` from page `i` on, with the pages
   * gathered so far in `acc`. `n` is a page known to end the loop: the
   * source never stops when every page has events.
   */
  function PagesFrom(files: Files, net: Net, leagueCode: int, seasonId: Json, outPath: string,
                     acc: seq<Json>, i: nat, n: nat): (Option<seq<Json>>, Files)
    requires i <= n && Ends(files, net, leagueCode, seasonId, outPath, n)
    decreases n - i
  {
    var path := PagePath(outPath, i);
    if Fresh(files, path, DefaultDays) then
      match Load(files[path].content)
      case None => (None, files)
      case Some(doc) => PagesFrom(files, net, leagueCode, seasonId, outPath, acc + [doc], i + 1, n)
    else
      var doc := net(PageUrl(leagueCode, seasonId, i));
      if !Truthy(Get(doc, "events", EmptyArr)) then (Some(acc), files)
      else
        WrittenEnds(files, net, leagueCode, seasonId, outPath, i, n, doc);
        PagesFrom(Written(files, path, doc), net, leagueCode, seasonId, outPath, acc + [doc], i + 1, n)
  }

  /** Writing page `i` leaves the end of the loop at page `n` where it was. */
  lemma WrittenEnds(files: Files, net: Net, leagueCode: int, seasonId: Json, outPath: string, i: nat, n: nat, doc: Json)
    requires i != n && Ends(files, net, leagueCode, seasonId, outPath, n)
    ensures Ends(Written(files, PagePath(outPath, i), doc), net, leagueCode, seasonId, outPath, n)
  {
    PagePathInjective(outPath, i, n);
  }

  /** `season_data`: nothing for an unknown season; the pages of its finished events otherwise. */
  function SeasonData(files: Files, net: Net, seasons: Dict, seasonKey: string, leagueCode: int, outPath: string, n: nat)
    : (Option<seq<Json>>, Files)
    requires HasKey(seasons, seasonKey) ==> Ends(files, net, leagueCode, Lookup(seasons, seasonKey).GetOr(JNull), outPath, n)
  {
    if !HasKey(seasons, seasonKey) then (Some([]), files)
    else PagesFrom(files, net, leagueCode, Lookup(seasons, seasonKey).GetOr(JNull), outPath, [], 0, n)
  }

  method GetSeasonData(store: FileStore, net: Net, seasons: Dict, seasonKey: string, leagueCode: int, outPath: string, ghost n: nat)
    returns (r: Option<seq<Json>>)
    requires HasKey(seasons, seasonKey) ==> Ends(store.files, net, leagueCode, Lookup(seasons, seasonKey).GetOr(JNull), outPath, n)
    modifies store
    ensures (r, store.files) == SeasonData(old(store.files), net, seasons, seasonKey, leagueCode, outPath, n)
  {
    var pages: seq<Json> := [];
    if !HasKey(seasons, seasonKey) {
      return Some(pages);
    }
    LookupHasKey(seasons, seasonKey);
    var seasonId := Lookup(seasons, seasonKey).value;
    var i: nat := 0;
    while true
      invariant i <= n && Ends(store.files, net, leagueCode, seasonId, outPath, n)
      invariant PagesFrom(store.files, net, leagueCode, seasonId, outPath, pages, i, n) ==
                SeasonData(old(store.files), net, seasons, seasonKey, leagueCode, outPath, n)
      decreases n - i
    {
      var path := PagePath(outPath, i);
      if store.Exists(path) && !NeedToUpload(store.files, path, DefaultDays) {
        var doc := store.Read(path);
        if doc.None? {
          return None;
        }
        pages := pages + [doc.value];
        i := i + 1;
      } else {
        var doc := net(PageUrl(leagueCode, seasonId, i));
        if !Truthy(Get(doc, "events", EmptyArr)) {
          return Some(pages);
        }
        WrittenEnds(store.files, net, leagueCode, seasonId, outPath, i, n, doc);
        store.Write(path, doc);
        pages := pages + [doc];
        i := i + 1;
      }
    }
  }


  /** Page `k` as the loop sees it: the cached file when fresh, the fetched page otherwise. */
  function PageDoc(files: Files, net: Net, leagueCode: int, seasonId: Json, outPath: string, k: nat): Option<Json>
  {
    var path := PagePath(outPath, k);
    if Fresh(files, path, DefaultDays) then Load(files[path].content) else Some(net(PageUrl(leagueCode, seasonId, k)))
  }

  /** The store once pages `0 .. m - 1` have been read: each page without a fresh file written. */
  function WrittenPages(files: Files, net: Net, leagueCode: int, seasonId: Json, outPath: string, m: nat): Files
  {
    if m == 0 then files
    else
      var before := WrittenPages(files, net, leagueCode, seasonId, outPath, m - 1);
      var path := PagePath(outPath, m - 1);
      if Fresh(files, path, DefaultDays) then before else Written(before, path, net(PageUrl(leagueCode, seasonId, m - 1)))
  }

  /** A path that is none of the pages read is left as it was. */
  lemma {:induction false} WrittenPagesOutside(files: Files, net: Net, leagueCode: int, seasonId: Json, outPath: string, m: nat, p: string)
    requires forall j :: 0 <= j < m ==> p != PagePath(outPath, j)
    ensures var w := WrittenPages(files, net, leagueCode, seasonId, outPath, m);
      (p in w <==> p in files) && (p in files ==> w[p] == files[p])
  {
    if m > 0 {
      WrittenPagesOutside(files, net, leagueCode, seasonId, outPath, m - 1, p);
    }
  }

  /** Pages `i ..` are untouched by the writes of pages `0 .. i - 1`. */
  lemma PageUntouched(files: Files, net: Net, leagueCode: int, seasonId: Json, outPath: string, i: nat, k: nat)
    requires i <= k
    ensures var w := WrittenPages(files, net, leagueCode, seasonId, outPath, i);
      var path := PagePath(outPath, k);
      (path in w <==> path in files) && (path in files ==> w[path] == files[path])
  {
    forall j | 0 <= j < i ensures PagePath(outPath, k) != PagePath(outPath, j) {
      PagePathInjective(outPath, j, k);
    }
    WrittenPagesOutside(files, net, leagueCode, seasonId, outPath, i, PagePath(outPath, k));
  }

  /** The loop from page `i` on, once pages `0 .. i - 1` have been read as `acc` from the store `files`. */
  lemma {:induction false} PagesFromResult(files: Files, net: Net, leagueCode: int, seasonId: Json, outPath: string,
                                           acc: seq<Json>, i: nat, n: nat)
    requires i <= n && Ends(WrittenPages(files, net, leagueCode, seasonId, outPath, i), net, leagueCode, seasonId, outPath, n)
    requires |acc| == i
    requires forall k :: 0 <= k < i ==> ReadAs(files, net, leagueCode, seasonId, outPath, k, acc[k])
    ensures PagesOutcome(files, net, leagueCode, seasonId, outPath,
                         PagesFrom(WrittenPages(files, net, leagueCode, seasonId, outPath, i), net, leagueCode, seasonId, outPath, acc, i, n))
    decreases n - i
  {
    var path := PagePath(outPath, i);
    PageUntouched(files, net, leagueCode, seasonId, outPath, i, i);
    if PageDoc(files, net, leagueCode, seasonId, outPath, i).None? {
      PagesBroken(files, net, leagueCode, seasonId, outPath, acc, i, n);
    } else if Ends(files, net, leagueCode, seasonId, outPath, i) {
      PagesStop(files, net, leagueCode, seasonId, outPath, acc, i, n);
    } else {
      var doc := PageDoc(files, net, leagueCode, seasonId, outPath, i).value;
      PagesStep(files, net, leagueCode, seasonId, outPath, acc, i, n);
      ReadMore(files, net, leagueCode, seasonId, outPath, acc, doc);
      PagesFromResult(files, net, leagueCode, seasonId, outPath, acc + [doc], i + 1, n);
    }
  }

  /** Page `i` is read, as the cached file or the fetched page, and the loop goes on with page `i + 1`. */
  lemma PagesStep(files: Files, net: Net, leagueCode: int, seasonId: Json, outPath: string, acc: seq<Json>, i: nat, n: nat)
    requires i <= n && Ends(WrittenPages(files, net, leagueCode, seasonId, outPath, i), net, leagueCode, seasonId, outPath, n)
    requires var path := PagePath(outPath, i); var w := WrittenPages(files, net, leagueCode, seasonId, outPath, i);
      (path in w <==> path in files) && (path in files ==> w[path] == files[path])
    requires PageDoc(files, net, leagueCode, seasonId, outPath, i).Some? && !Ends(files, net, leagueCode, seasonId, outPath, i)
    ensures var doc := PageDoc(files, net, leagueCode, seasonId, outPath, i).value;
      && i + 1 <= n
      && Ends(WrittenPages(files, net, leagueCode, seasonId, outPath, i + 1), net, leagueCode, seasonId, outPath, n)
      && ReadAs(files, net, leagueCode, seasonId, outPath, i, doc)
      && PagesFrom(WrittenPages(files, net, leagueCode, seasonId, outPath, i), net, leagueCode, seasonId, outPath, acc, i, n) ==
         PagesFrom(WrittenPages(files, net, leagueCode, seasonId, outPath, i + 1), net, leagueCode, seasonId, outPath, acc + [doc], i + 1, n)
  {
    var w := WrittenPages(files, net, leagueCode, seasonId, outPath, i);
    var path := PagePath(outPath, i);
    if !Fresh(files, path, DefaultDays) {
      WrittenEnds(w, net, leagueCode, seasonId, outPath, i, n, net(PageUrl(leagueCode, seasonId, i)));
    }
  }

  /** Page `i` ends the loop: the pages read so far are the result. */
  lemma PagesStop(files: Files, net: Net, leagueCode: int, seasonId: Json, outPath: string, acc: seq<Json>, i: nat, n: nat)
    requires i <= n && Ends(WrittenPages(files, net, leagueCode, seasonId, outPath, i), net, leagueCode, seasonId, outPath, n)
    requires var path := PagePath(outPath, i); var w := WrittenPages(files, net, leagueCode, seasonId, outPath, i);
      (path in w <==> path in files) && (path in files ==> w[path] == files[path])
    requires |acc| == i && forall k :: 0 <= k < i ==> ReadAs(files, net, leagueCode, seasonId, outPath, k, acc[k])
    requires Ends(files, net, leagueCode, seasonId, outPath, i)
    ensures PagesOutcome(files, net, leagueCode, seasonId, outPath,
                         PagesFrom(WrittenPages(files, net, leagueCode, seasonId, outPath, i), net, leagueCode, seasonId, outPath, acc, i, n))
  {
    var w := WrittenPages(files, net, leagueCode, seasonId, outPath, i);
    assert PagesFrom(w, net, leagueCode, seasonId, outPath, acc, i, n) == (Some(acc), w);
    assert PagesRead(files, net, leagueCode, seasonId, outPath, acc, w);
  }

  /** Page `i` is a fresh cached file that does not parse: the loop raises. */
  lemma PagesBroken(files: Files, net: Net, leagueCode: int, seasonId: Json, outPath: string, acc: seq<Json>, i: nat, n: nat)
    requires i <= n && Ends(WrittenPages(files, net, leagueCode, seasonId, outPath, i), net, leagueCode, seasonId, outPath, n)
    requires var path := PagePath(outPath, i); var w := WrittenPages(files, net, leagueCode, seasonId, outPath, i);
      (path in w <==> path in files) && (path in files ==> w[path] == files[path])
    requires |acc| == i && forall k :: 0 <= k < i ==> ReadAs(files, net, leagueCode, seasonId, outPath, k, acc[k])
    requires PageDoc(files, net, leagueCode, seasonId, outPath, i).None?
    ensures PagesOutcome(files, net, leagueCode, seasonId, outPath,
                         PagesFrom(WrittenPages(files, net, leagueCode, seasonId, outPath, i), net, leagueCode, seasonId, outPath, acc, i, n))
  {
    var w := WrittenPages(files, net, leagueCode, seasonId, outPath, i);
    assert PagesFrom(w, net, leagueCode, seasonId, outPath, acc, i, n) == (None, w);
    forall j | 0 <= j < i
      ensures !Ends(files, net, leagueCode, seasonId, outPath, j) && PageDoc(files, net, leagueCode, seasonId, outPath, j).Some?
    {
      assert ReadAs(files, net, leagueCode, seasonId, outPath, j, acc[j]);
    }
    assert FailedAt(files, net, leagueCode, seasonId, outPath, i, w);
  }

  /** What the loop gives: the pages read, or the failure. */
  ghost predicate PagesOutcome(files: Files, net: Net, leagueCode: int, seasonId: Json, outPath: string, res: (Option<seq<Json>>, Files))
  {
    && (res.0.Some? ==> PagesRead(files, net, leagueCode, seasonId, outPath, res.0.value, res.1))
    && (res.0.None? ==> PagesFailed(files, net, leagueCode, seasonId, outPath, res.1))
  }

  /** Page `k` was read as `doc` and did not end the loop. */
  predicate ReadAs(files: Files, net: Net, leagueCode: int, seasonId: Json, outPath: string, k: nat, doc: Json)
  {
    !Ends(files, net, leagueCode, seasonId, outPath, k) && PageDoc(files, net, leagueCode, seasonId, outPath, k) == Some(doc)
  }

  /** One more page read. */
  lemma ReadMore(files: Files, net: Net, leagueCode: int, seasonId: Json, outPath: string, acc: seq<Json>, doc: Json)
    requires forall k :: 0 <= k < |acc| ==> ReadAs(files, net, leagueCode, seasonId, outPath, k, acc[k])
    requires ReadAs(files, net, leagueCode, seasonId, outPath, |acc|, doc)
    ensures forall k :: 0 <= k < |acc + [doc]| ==> ReadAs(files, net, leagueCode, seasonId, outPath, k, (acc + [doc])[k])
  {
  }

  /** Page `k` is a fresh cached file that does not parse, and every earlier page was read. */
  predicate FailedAt(files: Files, net: Net, leagueCode: int, seasonId: Json, outPath: string, k: nat, files': Files)
  {
    && PageDoc(files, net, leagueCode, seasonId, outPath, k).None?
    && (forall j :: 0 <= j < k ==>
          !Ends(files, net, leagueCode, seasonId, outPath, j) && PageDoc(files, net, leagueCode, seasonId, outPath, j).Some?)
    && files' == WrittenPages(files, net, leagueCode, seasonId, outPath, k)
  }

  /**
   * The loop returned `pages`: page `|pages|` is the first that ends it,
   * each earlier page is the fresh cached file or the fetched page, and the
   * store holds every fetched page but not the one that ended the loop.
   */
  predicate PagesRead(files: Files, net: Net, leagueCode: int, seasonId: Json, outPath: string, pages: seq<Json>, files': Files)
  {
    && Ends(files, net, leagueCode, seasonId, outPath, |pages|)
    && (forall k :: 0 <= k < |pages| ==> ReadAs(files, net, leagueCode, seasonId, outPath, k, pages[k]))
    && files' == WrittenPages(files, net, leagueCode, seasonId, outPath, |pages|)
  }

  /** The loop raised: a fresh cached page that does not parse came before any page ending the loop. */
  ghost predicate PagesFailed(files: Files, net: Net, leagueCode: int, seasonId: Json, outPath: string, files': Files)
  {
    exists k: nat :: FailedAt(files, net, leagueCode, seasonId, outPath, k, files')
  }

  /** `season_data` of a known season either reads its pages up to the first that ends the loop, or raises. */
  lemma SeasonDataPages(files: Files, net: Net, seasons: Dict, seasonKey: string, leagueCode: int, outPath: string, n: nat)
    requires HasKey(seasons, seasonKey)
    requires Ends(files, net, leagueCode, Lookup(seasons, seasonKey).GetOr(JNull), outPath, n)
    ensures var (r, f) := SeasonData(files, net, seasons, seasonKey, leagueCode, outPath, n);
      var seasonId := Lookup(seasons, seasonKey).GetOr(JNull);
      && (r.Some? ==> PagesRead(files, net, leagueCode, seasonId, outPath, r.value, f))
      && (r.None? ==> PagesFailed(files, net, leagueCode, seasonId, outPath, f))
  {
    PagesFromResult(files, net, leagueCode, Lookup(seasons, seasonKey).GetOr(JNull), outPath, [], 0, n);
  }

  /** An unknown season gives no pages and leaves the store alone. */
  lemma SeasonDataUnknown(files: Files, net: Net, seasons: Dict, seasonKey: string, leagueCode: int, outPath: string, n: nat)
    requires !HasKey(seasons, seasonKey)
    ensures SeasonData(files, net, seasons, seasonKey, leagueCode, outPath, n) == (Some([]), files)
  {
  }

  // ---------------------------------------------------------------- season_standings

  /** The three tables of a season, in the order they are fetched. */
  const StandingParts: seq<string> := ["total", "home", "away"]

  function StandingsUrl(leagueCode: int, seasonId: Json, part: string): string
  {
    SeasonUrl(leagueCode, seasonId) + "/standings/" + part
  }

  /** `info/standings.json`. */
  function StandingsPath(outPath: string): string
  {
    Join(Join(outPath, "info"), "standings.json")
  }

  /** A fetched table is kept when its `standings` is non-empty and replaced by `{}` otherwise. */
  function StandingOf(doc: Json): Json
  {
    if Truthy(Get(doc, "standings", JNull)) then doc else EmptyObj
  }

  /** The tables of `parts`, each under its own part. */
  function StandingPairs(net: Net, leagueCode: int, seasonId: Json, parts: seq<string>): Dict
  {
    seq(|parts|, i requires 0 <= i < |parts| => (parts[i], StandingOf(net(StandingsUrl(leagueCode, seasonId, parts[i])))))
  }

  /**
   * `season_standings`: `{}` for an unknown season, a fresh cached file as
   * it is, otherwise the three tables fetched, written together.
   */
  function SeasonStandings(files: Files, net: Net, seasons: Dict, seasonKey: string, leagueCode: int, outPath: string)
    : (Option<Json>, Files)
  {
    if !HasKey(seasons, seasonKey) then (Some(EmptyObj), files)
    else
      var path := StandingsPath(outPath);
      if Fresh(files, path, DefaultDays) then (Load(files[path].content), files)
      else
        var doc := JObj(StandingPairs(net, leagueCode, Lookup(seasons, seasonKey).GetOr(JNull), StandingParts));
        (Some(doc), Written(files, path, doc))
  }

  method GetSeasonStandings(store: FileStore, net: Net, seasons: Dict, seasonKey: string, leagueCode: int, outPath: string)
    returns (r: Option<Json>)
    modifies store
    ensures (r, store.files) == SeasonStandings(old(store.files), net, seasons, seasonKey, leagueCode, outPath)
  {
    if !HasKey(seasons, seasonKey) {
      return Some(EmptyObj);
    }
    var path := StandingsPath(outPath);
    if store.Exists(path) && !NeedToUpload(store.files, path, DefaultDays) {
      r := store.Read(path);
      return;
    }
    LookupHasKey(seasons, seasonKey);
    var standings := FetchStandings(net, leagueCode, Lookup(seasons, seasonKey).value);
    var doc := JObj(standings);
    store.Write(path, doc);
    r := Some(doc);
  }

  /** The loop over the three tables, filling the result dictionary. */
  method FetchStandings(net: Net, leagueCode: int, seasonId: Json) returns (standings: Dict)
    ensures standings == StandingPairs(net, leagueCode, seasonId, StandingParts)
  {
    standings := [];
    for k := 0 to |StandingParts|
      invariant standings == StandingPairs(net, leagueCode, seasonId, StandingParts[..k])
    {
      var part := StandingParts[k];
      var doc := net(StandingsUrl(leagueCode, seasonId, part));
      assert Keys(standings) == StandingParts[..k];
      SetAbsent(standings, part, StandingOf(doc));
      standings := Set(standings, part, if Truthy(Get(doc, "standings", JNull)) then doc else EmptyObj);
      assert StandingParts[..k + 1] == StandingParts[..k] + [part];
    }
    assert StandingParts[..3] == StandingParts;
  }

  /** A part that no earlier part repeats holds its own table. */
  lemma StandingPairsLookup(net: Net, leagueCode: int, seasonId: Json, parts: seq<string>, i: nat)
    requires i < |parts| && forall j :: 0 <= j < i ==> parts[j] != parts[i]
    ensures Lookup(StandingPairs(net, leagueCode, seasonId, parts), parts[i]) ==
            Some(StandingOf(net(StandingsUrl(leagueCode, seasonId, parts[i]))))
  {
    FieldAt(StandingPairs(net, leagueCode, seasonId, parts), i);
  }

  /**
   * Without a fresh file, the result has exactly the keys `total`, `home`
   * and `away`, each holding its fetched table when that table's
   * `standings` is non-empty and `{}` otherwise, and it is always written.
   */
  lemma SeasonStandingsFetched(files: Files, net: Net, seasons: Dict, seasonKey: string, leagueCode: int, outPath: string)
    requires HasKey(seasons, seasonKey) && !Fresh(files, StandingsPath(outPath), DefaultDays)
    ensures var (r, files') := SeasonStandings(files, net, seasons, seasonKey, leagueCode, outPath);
      var seasonId := Lookup(seasons, seasonKey).GetOr(JNull);
      && r.Some? && r.value.JObj?
      && Keys(r.value.fields) == ["total", "home", "away"]
      && (forall part :: part in StandingParts ==>
            var doc := net(StandingsUrl(leagueCode, seasonId, part));
            Lookup(r.value.fields, part) == Some(if Truthy(Get(doc, "standings", JNull)) then doc else EmptyObj))
      && files' == Written(files, StandingsPath(outPath), r.value)
  {
    var seasonId := Lookup(seasons, seasonKey).GetOr(JNull);
    var d := StandingPairs(net, leagueCode, seasonId, StandingParts);
    assert Keys(d) == ["total", "home", "away"];
    forall part | part in StandingParts
      ensures Lookup(d, part) == Some(StandingOf(net(StandingsUrl(leagueCode, seasonId, part))))
    {
      var i := if part == "total" then 0 else if part == "home" then 1 else 2;
      StandingPairsLookup(net, leagueCode, seasonId, StandingParts, i);
    }
  }

  /** A fresh file is the result on its own: the network is not asked and nothing is written. */
  lemma SeasonStandingsCached(files: Files, net: Net, net': Net, seasons: Dict, seasonKey: string, leagueCode: int, outPath: string)
    requires HasKey(seasons, seasonKey) && Fresh(files, StandingsPath(outPath), DefaultDays)
    ensures var (r, files') := SeasonStandings(files, net, seasons, seasonKey, leagueCode, outPath);
      && r == Load(files[StandingsPath(outPath)].content)
      && files' == files
      && SeasonStandings(files, net', seasons, seasonKey, leagueCode, outPath) == (r, files')
  {
  }

  /** Right after a fetch, a second call returns the same tables and writes nothing. */
  lemma SeasonStandingsAgain(files: Files, net: Net, net': Net, seasons: Dict, seasonKey: string, leagueCode: int, outPath: string)
    ensures var (r, files') := SeasonStandings(files, net, seasons, seasonKey, leagueCode, outPath);
      SeasonStandings(files', net', seasons, seasonKey, leagueCode, outPath) == (r, files')
  {
    var path := StandingsPath(outPath);
    if HasKey(seasons, seasonKey) && !Fresh(files, path, DefaultDays) {
      var (r, files') := SeasonStandings(files, net, seasons, seasonKey, leagueCode, outPath);
      WrittenFresh(files, path, r.value, DefaultDays);
    }
  }

  /** An unknown season gives `{}` and leaves the store alone. */
  lemma SeasonStandingsUnknown(files: Files, net: Net, seasons: Dict, seasonKey: string, leagueCode: int, outPath: string)
    requires !HasKey(seasons, seasonKey)
    ensures SeasonStandings(files, net, seasons, seasonKey, leagueCode, outPath) == (Some(EmptyObj), files)
  {
  }

  // ---------------------------------------------------------------- season_information

  /** The three lists of a season, in the order they are read. */
  const InfoKinds: seq<string> := ["player", "team", "venue"]

  /** `.../players`, `.../teams`, `.../venues`. */
  function InfoUrl(leagueCode: int, seasonId: Json, kind: string): string
  {
    SeasonUrl(leagueCode, seasonId) + "/" + kind + "s"
  }

  /** `info/{kind}.json`. */
  function InfoPath(outPath: string, kind: string): string
  {
    Join(Join(outPath, "info"), kind + ".json")
  }

  /** One list: the fresh cached file, or the fetched document, always written. */
  function InfoOf(files: Files, net: Net, leagueCode: int, seasonId: Json, outPath: string, kind: string): (Option<Json>, Files)
  {
    var path := InfoPath(outPath, kind);
    if Fresh(files, path, DefaultDays) then (Load(files[path].content), files)
    else
      var doc := net(InfoUrl(leagueCode, seasonId, kind));
      (Some(doc), Written(files, path, doc))
  }

  /** The loop over `kinds`, with the lists gathered so far in `info`; a read that raises ends it. */
  function InfoFrom(files: Files, net: Net, leagueCode: int, seasonId: Json, outPath: string, info: Dict, kinds: seq<string>)
    : (Option<Dict>, Files)
    decreases |kinds|
  {
    if kinds == [] then (Some(info), files)
    else
      var (v, files') := InfoOf(files, net, leagueCode, seasonId, outPath, kinds[0]);
      if v.None? then (None, files')
      else InfoFrom(files', net, leagueCode, seasonId, outPath, Set(info, kinds[0], v.value), kinds[1..])
  }

  /** `season_information`: nothing for an unknown season; the player, team and venue lists otherwise. */
  function SeasonInformation(files: Files, net: Net, seasons: Dict, seasonKey: string, leagueCode: int, outPath: string)
    : (Option<Dict>, Files)
  {
    if !HasKey(seasons, seasonKey) then (Some([]), files)
    else InfoFrom(files, net, leagueCode, Lookup(seasons, seasonKey).GetOr(JNull), outPath, [], InfoKinds)
  }

  method GetSeasonInformation(store: FileStore, net: Net, seasons: Dict, seasonKey: string, leagueCode: int, outPath: string)
    returns (r: Option<Dict>)
    modifies store
    ensures (r, store.files) == SeasonInformation(old(store.files), net, seasons, seasonKey, leagueCode, outPath)
  {
    var info: Dict := [];
    if !HasKey(seasons, seasonKey) {
      return Some(info);
    }
    LookupHasKey(seasons, seasonKey);
    var seasonId := Lookup(seasons, seasonKey).value;
    for k := 0 to |InfoKinds|
      invariant InfoFrom(store.files, net, leagueCode, seasonId, outPath, info, InfoKinds[k..]) ==
                SeasonInformation(old(store.files), net, seasons, seasonKey, leagueCode, outPath)
    {
      var kind := InfoKinds[k];
      var path := InfoPath(outPath, kind);
      var v: Option<Json>;
      if store.Exists(path) && !NeedToUpload(store.files, path, DefaultDays) {
        v := store.Read(path);
        if v.None? {
          return None;
        }
      } else {
        var doc := net(InfoUrl(leagueCode, seasonId, kind));
        store.Write(path, doc);
        v := Some(doc);
      }
      assert InfoKinds[k..][1..] == InfoKinds[k + 1..];
      info := Set(info, kind, v.value);
    }
    r := Some(info);
  }

  /** The list of one kind: the fresh cached file, or the fetched page. */
  function InfoDoc(files: Files, net: Net, leagueCode: int, seasonId: Json, outPath: string, kind: string): Option<Json>
  {
    InfoOf(files, net, leagueCode, seasonId, outPath, kind).0
  }

  /** The store once `kind` is read, when every earlier kind was: its page written unless its file was fresh. */
  function InfoWritten(files: Files, net: Net, leagueCode: int, seasonId: Json, outPath: string, kind: string): Files
  {
    InfoOf(files, net, leagueCode, seasonId, outPath, kind).1
  }

  /** Reading one kind leaves the files of the other kinds alone. */
  lemma InfoOfOther(files: Files, net: Net, leagueCode: int, seasonId: Json, outPath: string, kind: string, p: string)
    requires p != InfoPath(outPath, kind)
    ensures var files' := InfoWritten(files, net, leagueCode, seasonId, outPath, kind);
      (p in files' <==> p in files) && (p in files ==> files'[p] == files[p])
  {
  }

  /** Two stores that agree on the file of `kind` read it alike. */
  lemma InfoDocSame(a: Files, b: Files, net: Net, leagueCode: int, seasonId: Json, outPath: string, kind: string)
    requires var path := InfoPath(outPath, kind); (path in a <==> path in b) && (path in a ==> a[path] == b[path])
    ensures InfoDoc(a, net, leagueCode, seasonId, outPath, kind) == InfoDoc(b, net, leagueCode, seasonId, outPath, kind)
    ensures Fresh(a, InfoPath(outPath, kind), DefaultDays) <==> Fresh(b, InfoPath(outPath, kind), DefaultDays)
  {
  }

  /** The file of `kind` after it is read: unchanged when fresh, the fetched page otherwise. */
  lemma InfoWrittenAt(files: Files, net: Net, leagueCode: int, seasonId: Json, outPath: string, kind: string)
    ensures var path := InfoPath(outPath, kind);
      var files' := InfoWritten(files, net, leagueCode, seasonId, outPath, kind);
      && (Fresh(files, path, DefaultDays) ==> files' == files)
      && (!Fresh(files, path, DefaultDays) ==> path in files' && files'[path] == Entry(Doc(net(InfoUrl(leagueCode, seasonId, kind))), 0))
  {
  }

  /** Two kinds never share a file. */
  lemma InfoPathInjective(outPath: string, k1: string, k2: string)
    requires k1 != k2
    ensures InfoPath(outPath, k1) != InfoPath(outPath, k2)
  {
    var dir := Join(outPath, "info") + "/";
    var x, y := InfoPath(outPath, k1), InfoPath(outPath, k2);
    assert x == dir + k1 + ".json" && y == dir + k2 + ".json";
    if |k1| == |k2| {
      var i :| 0 <= i < |k1| && k1[i] != k2[i];
      assert x[|dir| + i] == k1[i] && y[|dir| + i] == k2[i];
    }
  }

  /** No kind is listed twice. */
  predicate DistinctKinds(kinds: seq<string>)
  {
    forall i, j :: 0 <= i < j < |kinds| ==> kinds[i] != kinds[j]
  }

  /** The list read for each kind, from the store as it was before the loop. */
  function InfoDocs(files: Files, net: Net, leagueCode: int, seasonId: Json, outPath: string, kinds: seq<string>)
    : (ds: seq<Option<Json>>)
    ensures |ds| == |kinds|
  {
    seq(|kinds|, i requires 0 <= i < |kinds| => InfoDoc(files, net, leagueCode, seasonId, outPath, kinds[i]))
  }

  /** Each kind with its list. */
  function Labelled(kinds: seq<string>, ds: seq<Option<Json>>): Dict
    requires |ds| == |kinds|
  {
    seq(|kinds|, i requires 0 <= i < |kinds| => (kinds[i], ds[i].GetOr(JNull)))
  }

  /** The loop touches no file but those of its kinds. */
  lemma {:induction false} InfoFromFrame(files: Files, net: Net, leagueCode: int, seasonId: Json, outPath: string,
                                         info: Dict, kinds: seq<string>, p: string)
    requires forall i :: 0 <= i < |kinds| ==> p != InfoPath(outPath, kinds[i])
    ensures var files' := InfoFrom(files, net, leagueCode, seasonId, outPath, info, kinds).1;
      (p in files' <==> p in files) && (p in files ==> files'[p] == files[p])
    decreases |kinds|
  {
    if kinds != [] {
      InfoOfOther(files, net, leagueCode, seasonId, outPath, kinds[0], p);
      var (v, f1) := InfoOf(files, net, leagueCode, seasonId, outPath, kinds[0]);
      if v.Some? {
        InfoFromFrame(f1, net, leagueCode, seasonId, outPath, Set(info, kinds[0], v.value), kinds[1..], p);
      }
    }
  }

  /** Reading the first kind leaves the lists of the other kinds as they were. */
  lemma InfoRest(files: Files, net: Net, leagueCode: int, seasonId: Json, outPath: string, kinds: seq<string>, j: nat)
    requires DistinctKinds(kinds) && 0 < j < |kinds|
    ensures var f1 := InfoWritten(files, net, leagueCode, seasonId, outPath, kinds[0]);
      && InfoDoc(f1, net, leagueCode, seasonId, outPath, kinds[j]) == InfoDoc(files, net, leagueCode, seasonId, outPath, kinds[j])
      && (Fresh(f1, InfoPath(outPath, kinds[j]), DefaultDays) <==> Fresh(files, InfoPath(outPath, kinds[j]), DefaultDays))
  {
    InfoPathInjective(outPath, kinds[0], kinds[j]);
    var f1 := InfoWritten(files, net, leagueCode, seasonId, outPath, kinds[0]);
    InfoOfOther(files, net, leagueCode, seasonId, outPath, kinds[0], InfoPath(outPath, kinds[j]));
    InfoDocSame(f1, files, net, leagueCode, seasonId, outPath, kinds[j]);
  }

  /** After the first kind is read, the other kinds read as they would have from the start. */
  lemma InfoDocsRest(files: Files, net: Net, leagueCode: int, seasonId: Json, outPath: string, kinds: seq<string>)
    requires DistinctKinds(kinds) && kinds != []
    ensures InfoDocs(InfoWritten(files, net, leagueCode, seasonId, outPath, kinds[0]), net, leagueCode, seasonId, outPath, kinds[1..]) ==
            InfoDocs(files, net, leagueCode, seasonId, outPath, kinds)[1..]
  {
    forall i | 0 <= i < |kinds| - 1
      ensures InfoDoc(InfoWritten(files, net, leagueCode, seasonId, outPath, kinds[0]), net, leagueCode, seasonId, outPath, kinds[1..][i]) ==
              InfoDoc(files, net, leagueCode, seasonId, outPath, kinds[i + 1])
    {
      InfoRest(files, net, leagueCode, seasonId, outPath, kinds, i + 1);
    }
  }

  /** The first list read and the rest of the loop as described: the whole loop as described. */
  lemma LabelledStep(kinds: seq<string>, ds: seq<Option<Json>>, info: Dict, r: Option<Dict>)
    requires |ds| == |kinds| && kinds != [] && ds[0].Some?
    requires r.None? <==> None in ds[1..]
    requires r.Some? ==> r.value == (info + [(kinds[0], ds[0].value)]) + Labelled(kinds[1..], ds[1..])
    ensures r.None? <==> None in ds
    ensures r.Some? ==> r.value == info + Labelled(kinds, ds)
  {
    assert ds == [ds[0]] + ds[1..];
    assert Labelled(kinds, ds) == [(kinds[0], ds[0].value)] + Labelled(kinds[1..], ds[1..]);
  }

  /**
   * The loop over distinct kinds raises exactly when one of them fails to
   * read, and otherwise appends each kind with its list, in order.
   */
  lemma {:induction false} InfoFromValues(files: Files, net: Net, leagueCode: int, seasonId: Json, outPath: string,
                                          info: Dict, kinds: seq<string>)
    requires DistinctKinds(kinds)
    requires forall i :: 0 <= i < |kinds| ==> !HasKey(info, kinds[i])
    ensures var r := InfoFrom(files, net, leagueCode, seasonId, outPath, info, kinds).0;
      var ds := InfoDocs(files, net, leagueCode, seasonId, outPath, kinds);
      && (r.None? <==> None in ds)
      && (r.Some? ==> r.value == info + Labelled(kinds, ds))
    decreases |kinds|
  {
    if kinds != [] {
      var ds := InfoDocs(files, net, leagueCode, seasonId, outPath, kinds);
      var (v, f1) := InfoOf(files, net, leagueCode, seasonId, outPath, kinds[0]);
      assert ds[0] == v;
      if v.Some? {
        var rest := kinds[1..];
        var info' := Set(info, kinds[0], v.value);
        SetAbsent(info, kinds[0], v.value);
        assert Keys(info') == Keys(info) + [kinds[0]];
        forall i | 0 <= i < |rest| ensures !HasKey(info', rest[i]) {
          assert rest[i] == kinds[i + 1];
        }
        InfoFromValues(f1, net, leagueCode, seasonId, outPath, info', rest);
        InfoDocsRest(files, net, leagueCode, seasonId, outPath, kinds);
        LabelledStep(kinds, ds, info, InfoFrom(f1, net, leagueCode, seasonId, outPath, info', rest).0);
      } else {
        assert None in ds;
      }
    }
  }

  /** When the loop succeeds, each kind without a fresh file ends up holding its fetched page. */
  lemma {:induction false} InfoFromWrites(files: Files, net: Net, leagueCode: int, seasonId: Json, outPath: string,
                                          info: Dict, kinds: seq<string>, i: nat)
    requires DistinctKinds(kinds) && i < |kinds|
    requires InfoFrom(files, net, leagueCode, seasonId, outPath, info, kinds).0.Some?
    requires !Fresh(files, InfoPath(outPath, kinds[i]), DefaultDays)
    ensures var files' := InfoFrom(files, net, leagueCode, seasonId, outPath, info, kinds).1;
      InfoPath(outPath, kinds[i]) in files' &&
      files'[InfoPath(outPath, kinds[i])] == Entry(Doc(net(InfoUrl(leagueCode, seasonId, kinds[i]))), 0)
    decreases |kinds|
  {
    var (v, f1) := InfoOf(files, net, leagueCode, seasonId, outPath, kinds[0]);
    var rest := kinds[1..];
    var info' := Set(info, kinds[0], v.value);
    if i == 0 {
      InfoWrittenAt(files, net, leagueCode, seasonId, outPath, kinds[0]);
      forall j | 0 <= j < |rest| ensures InfoPath(outPath, kinds[0]) != InfoPath(outPath, rest[j]) {
        InfoPathInjective(outPath, kinds[0], kinds[j + 1]);
      }
      InfoFromFrame(f1, net, leagueCode, seasonId, outPath, info', rest, InfoPath(outPath, kinds[0]));
    } else {
      InfoRest(files, net, leagueCode, seasonId, outPath, kinds, i);
      assert rest[i - 1] == kinds[i];
      InfoFromWrites(f1, net, leagueCode, seasonId, outPath, info', rest, i - 1);
    }
  }

  /** `season_information` of a known season raises exactly when the fresh cached file of one of the lists does not parse. */
  lemma SeasonInformationFails(files: Files, net: Net, seasons: Dict, seasonKey: string, leagueCode: int, outPath: string)
    requires HasKey(seasons, seasonKey)
    ensures var seasonId := Lookup(seasons, seasonKey).GetOr(JNull);
      SeasonInformation(files, net, seasons, seasonKey, leagueCode, outPath).0.None? <==>
      exists i :: 0 <= i < |InfoKinds| && InfoDoc(files, net, leagueCode, seasonId, outPath, InfoKinds[i]).None?
  {
    var seasonId := Lookup(seasons, seasonKey).GetOr(JNull);
    assert DistinctKinds(InfoKinds);
    InfoFromValues(files, net, leagueCode, seasonId, outPath, [], InfoKinds);
    var ds := InfoDocs(files, net, leagueCode, seasonId, outPath, InfoKinds);
    if None in ds {
      var i :| 0 <= i < |ds| && ds[i] == None;
      assert InfoDoc(files, net, leagueCode, seasonId, outPath, InfoKinds[i]).None?;
    } else {
      forall i | 0 <= i < |InfoKinds| ensures InfoDoc(files, net, leagueCode, seasonId, outPath, InfoKinds[i]).Some? {
        assert ds[i] in ds;
      }
    }
  }

  /**
   * When it succeeds, `season_information` holds the keys `player`, `team`
   * and `venue`, in that order, each with the fresh cached file or the
   * fetched page.
   */
  lemma SeasonInformationKeys(files: Files, net: Net, seasons: Dict, seasonKey: string, leagueCode: int, outPath: string)
    requires HasKey(seasons, seasonKey)
    ensures var r := SeasonInformation(files, net, seasons, seasonKey, leagueCode, outPath).0;
      var seasonId := Lookup(seasons, seasonKey).GetOr(JNull);
      && (r.Some? ==> Keys(r.value) == InfoKinds)
      && (r.Some? ==> forall i :: 0 <= i < |InfoKinds| ==>
            Some(r.value[i].1) == InfoDoc(files, net, leagueCode, seasonId, outPath, InfoKinds[i]))
  {
    var seasonId := Lookup(seasons, seasonKey).GetOr(JNull);
    assert DistinctKinds(InfoKinds);
    InfoFromValues(files, net, leagueCode, seasonId, outPath, [], InfoKinds);
  }

  /** When it succeeds, every list without a fresh file holds its fetched page, just written. */
  lemma SeasonInformationWrites(files: Files, net: Net, seasons: Dict, seasonKey: string, leagueCode: int, outPath: string, i: nat)
    requires HasKey(seasons, seasonKey) && SeasonInformation(files, net, seasons, seasonKey, leagueCode, outPath).0.Some?
    requires i < |InfoKinds| && !Fresh(files, InfoPath(outPath, InfoKinds[i]), DefaultDays)
    ensures var files' := SeasonInformation(files, net, seasons, seasonKey, leagueCode, outPath).1;
      var seasonId := Lookup(seasons, seasonKey).GetOr(JNull);
      InfoPath(outPath, InfoKinds[i]) in files' &&
      files'[InfoPath(outPath, InfoKinds[i])] == Entry(Doc(net(InfoUrl(leagueCode, seasonId, InfoKinds[i]))), 0)
  {
    assert DistinctKinds(InfoKinds);
    InfoFromWrites(files, net, leagueCode, Lookup(seasons, seasonKey).GetOr(JNull), outPath, [], InfoKinds, i);
  }

  /** `season_information` touches no file but those of the three lists. */
  lemma SeasonInformationFrame(files: Files, net: Net, seasons: Dict, seasonKey: string, leagueCode: int, outPath: string, p: string)
    requires forall i :: 0 <= i < |InfoKinds| ==> p != InfoPath(outPath, InfoKinds[i])
    ensures var files' := SeasonInformation(files, net, seasons, seasonKey, leagueCode, outPath).1;
      (p in files' <==> p in files) && (p in files ==> files'[p] == files[p])
  {
    if HasKey(seasons, seasonKey) {
      InfoFromFrame(files, net, leagueCode, Lookup(seasons, seasonKey).GetOr(JNull), outPath, [], InfoKinds, p);
    }
  }

  // ---------------------------------------------------------------- match_scraping

  /** `https://api.sofascore.com/api/v1/event/{id}` followed by one of the six endpoints. */
  function EventUrl(matchId: Json, endpoint: string): string
  {
    Api + "event/" + Display(matchId) + endpoint
  }

  /** `matches/match/{id}.json`. */
  function MatchPath(outPath: string, matchId: Json): string
  {
    Join(Join(Join(outPath, "matches"), "match"), Display(matchId) + ".json")
  }

  /** The six fetched documents of a match. */
  datatype MatchDocs = MatchDocs(info: Json, lineups: Json, stats: Json, shotmap: Json, graph: Json, incidents: Json)

  /** The six pages of a match, as the API serves them. */
  function FetchMatch(net: Net, matchId: Json): MatchDocs
  {
    MatchDocs(net(EventUrl(matchId, "")), net(EventUrl(matchId, "/lineups")), net(EventUrl(matchId, "/statistics")),
              net(EventUrl(matchId, "/shotmap")), net(EventUrl(matchId, "/graph")), net(EventUrl(matchId, "/incidents")))
  }

  /** The six completeness checks, one per page. */
  predicate Complete(m: MatchDocs)
  {
    && Truthy(Get(m.info, "event", JNull))
    && Truthy(Get(m.lineups, "confirmed", JNull))
    && Truthy(Get(m.stats, "statistics", JNull))
    && Truthy(Get(m.shotmap, "shotmap", JNull))
    && Truthy(Get(m.graph, "graphPoints", JNull))
    && Truthy(Get(m.incidents, "incidents", JNull))
  }

  /** The document written for a complete match. */
  function FullMatch(m: MatchDocs): Json
  {
    JObj([("match", m.info), ("lineups", m.lineups), ("statistics", m.stats),
          ("shotmap", m.shotmap), ("graph", m.graph), ("incidents", m.incidents)])
  }

  /**
   * `match_scraping`: `{}` for an id the dictionary lacks; an existing file
   * whatever its age; otherwise the six pages, written and returned together
   * only when all six are complete.
   */
  function MatchScraping(files: Files, net: Net, matches: seq<(Json, Json)>, matchId: Json, outPath: string): (Option<Json>, Files)
  {
    if !HasKey(matches, matchId) then (Some(EmptyObj), files)
    else
      var path := MatchPath(outPath, matchId);
      if path in files then (Load(files[path].content), files)
      else
        var m := FetchMatch(net, matchId);
        if Complete(m) then (Some(FullMatch(m)), Written(files, path, FullMatch(m))) else (Some(EmptyObj), files)
  }

  method ScrapeMatch(store: FileStore, net: Net, matches: seq<(Json, Json)>, matchId: Json, outPath: string) returns (r: Option<Json>)
    modifies store
    ensures (r, store.files) == MatchScraping(old(store.files), net, matches, matchId, outPath)
  {
    if !HasKey(matches, matchId) {
      return Some(EmptyObj);
    }
    var path := MatchPath(outPath, matchId);
    if store.Exists(path) {
      r := store.Read(path);
      return;
    }
    var info := net(EventUrl(matchId, ""));
    var lineups := net(EventUrl(matchId, "/lineups"));
    var stats := net(EventUrl(matchId, "/statistics"));
    var shotmap := net(EventUrl(matchId, "/shotmap"));
    var graph := net(EventUrl(matchId, "/graph"));
    var incidents := net(EventUrl(matchId, "/incidents"));
    if Truthy(Get(info, "event", JNull)) && Truthy(Get(lineups, "confirmed", JNull)) && Truthy(Get(stats, "statistics", JNull))
       && Truthy(Get(shotmap, "shotmap", JNull)) && Truthy(Get(graph, "graphPoints", JNull)) && Truthy(Get(incidents, "incidents", JNull))
    {
      var full := JObj([("match", info), ("lineups", lineups), ("statistics", stats),
                        ("shotmap", shotmap), ("graph", graph), ("incidents", incidents)]);
      store.Write(path, full);
      return Some(full);
    }
    return Some(EmptyObj);
  }

  /**
   * Without a file, the match is all or nothing: when all six pages are
   * complete the result holds each of them under its own key and is
   * written; when any one is not, the result is `{}` and nothing is written.
   */
  lemma MatchScrapingFetched(files: Files, net: Net, matches: seq<(Json, Json)>, matchId: Json, outPath: string)
    requires HasKey(matches, matchId) && MatchPath(outPath, matchId) !in files
    ensures var (r, files') := MatchScraping(files, net, matches, matchId, outPath);
      var m := FetchMatch(net, matchId);
      var path := MatchPath(outPath, matchId);
      && r.Some?
      && (path in files' <==> Complete(m))
      && (Complete(m) ==>
            && Keys(r.value.fields) == ["match", "lineups", "statistics", "shotmap", "graph", "incidents"]
            && Get(r.value, "match", JNull) == net(EventUrl(matchId, ""))
            && Get(r.value, "lineups", JNull) == net(EventUrl(matchId, "/lineups"))
            && Get(r.value, "statistics", JNull) == net(EventUrl(matchId, "/statistics"))
            && Get(r.value, "shotmap", JNull) == net(EventUrl(matchId, "/shotmap"))
            && Get(r.value, "graph", JNull) == net(EventUrl(matchId, "/graph"))
            && Get(r.value, "incidents", JNull) == net(EventUrl(matchId, "/incidents"))
            && files' == Written(files, path, r.value))
      && (!Complete(m) ==> r == Some(EmptyObj) && files' == files)
  {
    FullMatchFields(FetchMatch(net, matchId));
  }

  /** The document of a complete match holds each page under its own key. */
  lemma FullMatchFields(m: MatchDocs)
    ensures Keys(FullMatch(m).fields) == ["match", "lineups", "statistics", "shotmap", "graph", "incidents"]
    ensures Get(FullMatch(m), "match", JNull) == m.info && Get(FullMatch(m), "lineups", JNull) == m.lineups
    ensures Get(FullMatch(m), "statistics", JNull) == m.stats && Get(FullMatch(m), "shotmap", JNull) == m.shotmap
    ensures Get(FullMatch(m), "graph", JNull) == m.graph && Get(FullMatch(m), "incidents", JNull) == m.incidents
  {
    var d := FullMatch(m).fields;
    FieldAt(d, 0);
    FieldAt(d, 1);
    FieldAt(d, 2);
    FieldAt(d, 3);
    FieldAt(d, 4);
    FieldAt(d, 5);
  }

  /** An existing file is the result whatever its age and whatever the network, and nothing is written. */
  lemma MatchScrapingCached(files: Files, net: Net, net': Net, matches: seq<(Json, Json)>, matchId: Json, outPath: string, age: nat)
    requires HasKey(matches, matchId) && MatchPath(outPath, matchId) in files
    ensures var path := MatchPath(outPath, matchId);
      var aged := files[path := Entry(files[path].content, age)];
      && MatchScraping(files, net, matches, matchId, outPath) == (Load(files[path].content), files)
      && MatchScraping(aged, net', matches, matchId, outPath).0 == Load(files[path].content)
  {
  }

  /** Once a match is written, a second call returns it and writes nothing. */
  lemma MatchScrapingAgain(files: Files, net: Net, net': Net, matches: seq<(Json, Json)>, matchId: Json, outPath: string)
    requires MatchPath(outPath, matchId) in MatchScraping(files, net, matches, matchId, outPath).1
    ensures var (r, files') := MatchScraping(files, net, matches, matchId, outPath);
      MatchScraping(files', net', matches, matchId, outPath) == (r, files')
  {
  }

  /** An id the dictionary lacks gives `{}` and leaves the store alone. */
  lemma MatchScrapingUnknown(files: Files, net: Net, matches: seq<(Json, Json)>, matchId: Json, outPath: string)
    requires !HasKey(matches, matchId)
    ensures MatchScraping(files, net, matches, matchId, outPath) == (Some(EmptyObj), files)
  {
  }

  // ---------------------------------------------------------------- obtain_information

  /** The entity types `obtain_information` knows. */
  predicate KnownType(kind: string)
  {
    kind == "player" || kind == "team" || kind == "manager" || kind == "venue"
  }

  /** `https://api.sofascore.com/api/v1/{type}/{id}`. */
  function EntityUrl(kind: string, id: Json): string
  {
    Api + kind + "/" + Display(id)
  }

  /** `info/{type}/{id}.json`. */
  function EntityPath(outSeasonPath: string, kind: string, id: Json): string
  {
    Join(Join(Join(outSeasonPath, "info"), kind), Display(id) + ".json")
  }

  /**
   * `obtain_information`: an unknown type raises (its path is never bound);
   * a file at most 30 days old is reused; otherwise the fetched document is
   * returned, and written only when it holds a non-empty entry under the
   * type's own name.
   */
  function ObtainInformation(files: Files, net: Net, kind: string, id: Json, outSeasonPath: string): (Option<Json>, Files)
  {
    if !KnownType(kind) then (None, files)
    else
      var path := EntityPath(outSeasonPath, kind, id);
      if Fresh(files, path, InfoDays) then (Load(files[path].content), files)
      else
        var doc := net(EntityUrl(kind, id));
        (Some(doc), if Truthy(Get(doc, kind, JNull)) then Written(files, path, doc) else files)
  }

  method GetInformation(store: FileStore, net: Net, kind: string, id: Json, outSeasonPath: string) returns (r: Option<Json>)
    modifies store
    ensures (r, store.files) == ObtainInformation(old(store.files), net, kind, id, outSeasonPath)
  {
    if !KnownType(kind) {
      return None;
    }
    var path := EntityPath(outSeasonPath, kind, id);
    if store.Exists(path) && !NeedToUpload(store.files, path, InfoDays) {
      r := store.Read(path);
      return;
    }
    var doc := net(EntityUrl(kind, id));
    if Truthy(Get(doc, kind, JNull)) {
      store.Write(path, doc);
    }
    r := Some(doc);
  }

  /**
   * A known type without a usable file returns the fetched document, and
   * writes it, and only it, exactly when its entry under the type's name is
   * non-empty.
   */
  lemma ObtainInformationFetched(files: Files, net: Net, kind: string, id: Json, outSeasonPath: string)
    requires KnownType(kind) && !Fresh(files, EntityPath(outSeasonPath, kind, id), InfoDays)
    ensures var (r, files') := ObtainInformation(files, net, kind, id, outSeasonPath);
      var path := EntityPath(outSeasonPath, kind, id);
      var doc := net(EntityUrl(kind, id));
      && r == Some(doc)
      && (Truthy(Get(doc, kind, JNull)) ==> files' == Written(files, path, doc))
      && (!Truthy(Get(doc, kind, JNull)) ==> files' == files)
  {
  }

  /**
   * A file up to 30 days old is reused without asking the network, where
   * the season-level fetchers would already refresh one older than 5 days.
   */
  lemma ObtainInformationCached(files: Files, net: Net, net': Net, kind: string, id: Json, outSeasonPath: string)
    requires KnownType(kind) && EntityPath(outSeasonPath, kind, id) in files
    requires files[EntityPath(outSeasonPath, kind, id)].age <= InfoDays * SecondsPerDay
    ensures var path := EntityPath(outSeasonPath, kind, id);
      && ObtainInformation(files, net, kind, id, outSeasonPath) == (Load(files[path].content), files)
      && ObtainInformation(files, net', kind, id, outSeasonPath) == (Load(files[path].content), files)
  {
  }

  /** An unknown type raises and touches nothing. */
  lemma ObtainInformationUnknown(files: Files, net: Net, kind: string, id: Json, outSeasonPath: string)
    requires !KnownType(kind)
    ensures ObtainInformation(files, net, kind, id, outSeasonPath) == (None, files)
  {
  }

  /** Once the document is written, a second call returns it and writes nothing. */
  lemma ObtainInformationAgain(files: Files, net: Net, net': Net, kind: string, id: Json, outSeasonPath: string)
    requires KnownType(kind)
    requires Truthy(Get(ObtainInformation(files, net, kind, id, outSeasonPath).0.GetOr(JNull), kind, JNull))
    ensures var (r, files') := ObtainInformation(files, net, kind, id, outSeasonPath);
      ObtainInformation(files', net', kind, id, outSeasonPath).0 == r
  {
    var path := EntityPath(outSeasonPath, kind, id);
    if !Fresh(files, path, InfoDays) {
      WrittenFresh(files, path, net(EntityUrl(kind, id)), InfoDays);
    }
  }

  // ---------------------------------------------------------------- scrape_league_data

  /** `(v['year'], v['id'])` of one available season; a missing key raises. */
  function YearId(v: Json): Option<(Json, Json)>
  {
    match Index(v, "year")
    case None => None
    case Some(year) =>
      match Index(v, "id")
      case None => None
      case Some(id) => Some((year, id))
  }

  /** `(k.replace('/', ''), v)`: only a year that is a string has a `replace`. */
  function Unslashed(p: (Json, Json)): Option<(string, Json)>
  {
    if p.0.JStr? then Some((Replace(p.0.s, "/", ""), p.1)) else None
  }

  /** The key a season entry ends up under, when it has a string year and an id. */
  function SeasonKeyOf(v: Json): Option<string>
  {
    match YearId(v)
    case None => None
    case Some(p) => if p.0.JStr? then Some(Replace(p.0.s, "/", "")) else None
  }

  /**
   * The three comprehensions over the available seasons: year to id, the
   * year with its `/` removed, and only the desired seasons.
   */
  function SeasonsDict(available: Json, desired: set<string>): Option<Dict>
  {
    SeasonsFrom(Items(Get(available, "seasons", EmptyObj)), desired)
  }

  /** The comprehensions over the list of available seasons. */
  function SeasonsFrom(items: seq<Json>, desired: set<string>): Option<Dict>
  {
    match Keyed(items, YearId)
    case None => None
    case Some(byYear) =>
      match Keyed(byYear, Unslashed)
      case None => None
      case Some(byKey) => Some(FilterKeys(byKey, desired))
  }

  /** The years of the year-to-id dictionary are the years of the seasons. */
  lemma ByYearHas(items: seq<Json>, year: Json)
    requires Keyed(items, YearId).Some?
    ensures var byYear := Keyed(items, YearId).value;
      (exists j :: 0 <= j < |byYear| && byYear[j].0 == year) <==>
      (exists i :: 0 <= i < |items| && YearId(items[i]).Some? && YearId(items[i]).value.0 == year)
  {
    var byYear := Keyed(items, YearId).value;
    KeyedHas(items, YearId, year);
    if exists j :: 0 <= j < |byYear| && byYear[j].0 == year {
      var j :| 0 <= j < |byYear| && byYear[j].0 == year;
      assert Keys(byYear)[j] == year;
    }
    if HasKey(byYear, year) {
      var j :| 0 <= j < |byYear| && Keys(byYear)[j] == year;
      assert byYear[j].0 == year;
    }
  }

  /** The comprehensions raise exactly when some season has no year, no id, or a year that is not a string. */
  lemma SeasonsDictFails(available: Json, desired: set<string>)
    ensures var items := Items(Get(available, "seasons", EmptyObj));
      SeasonsDict(available, desired).None? <==> exists i :: 0 <= i < |items| && SeasonKeyOf(items[i]).None?
  {
    SeasonsFromFails(Items(Get(available, "seasons", EmptyObj)), desired);
  }

  lemma SeasonsFromFails(items: seq<Json>, desired: set<string>)
    ensures SeasonsFrom(items, desired).None? <==> exists i :: 0 <= i < |items| && SeasonKeyOf(items[i]).None?
  {
    KeyedFails(items, YearId);
    if Keyed(items, YearId).None? {
      var i :| 0 <= i < |items| && YearId(items[i]).None?;
      assert SeasonKeyOf(items[i]).None?;
    } else {
      var byYear := Keyed(items, YearId).value;
      KeyedFails(byYear, Unslashed);
      if exists j :: 0 <= j < |byYear| && Unslashed(byYear[j]).None? {
        var j :| 0 <= j < |byYear| && Unslashed(byYear[j]).None?;
        ByYearHas(items, byYear[j].0);
        var i :| 0 <= i < |items| && YearId(items[i]).Some? && YearId(items[i]).value.0 == byYear[j].0;
        assert SeasonKeyOf(items[i]).None?;
      }
      if exists i :: 0 <= i < |items| && SeasonKeyOf(items[i]).None? {
        var i :| 0 <= i < |items| && SeasonKeyOf(items[i]).None?;
        ByYearHas(items, YearId(items[i]).value.0);
        var j :| 0 <= j < |byYear| && byYear[j].0 == YearId(items[i]).value.0;
        assert Unslashed(byYear[j]).None?;
      }
    }
  }

  /** The seasons to scrape are the desired keys of the available seasons, each once. */
  lemma SeasonsDictKeys(available: Json, desired: set<string>, k: string)
    requires SeasonsDict(available, desired).Some?
    ensures var d := SeasonsDict(available, desired).value;
      var items := Items(Get(available, "seasons", EmptyObj));
      && UniqueKeys(d)
      && (HasKey(d, k) <==> k in desired && exists i :: 0 <= i < |items| && SeasonKeyOf(items[i]) == Some(k))
  {
    SeasonsFromKeys(Items(Get(available, "seasons", EmptyObj)), desired, k);
  }

  lemma SeasonsFromKeys(items: seq<Json>, desired: set<string>, k: string)
    requires SeasonsFrom(items, desired).Some?
    ensures var d := SeasonsFrom(items, desired).value;
      && UniqueKeys(d)
      && (HasKey(d, k) <==> k in desired && exists i :: 0 <= i < |items| && SeasonKeyOf(items[i]) == Some(k))
  {
    var byYear := Keyed(items, YearId).value;
    var byKey := Keyed(byYear, Unslashed).value;
    KeyedDistinct(byYear, Unslashed);
    FilterKeysLookup(byKey, desired, k);
    SeasonKeyHas(items, k);
  }

  /** Before the filter, the keys are those the seasons give. */
  lemma SeasonKeyHas(items: seq<Json>, k: string)
    requires Keyed(items, YearId).Some? && Keyed(Keyed(items, YearId).value, Unslashed).Some?
    ensures HasKey(Keyed(Keyed(items, YearId).value, Unslashed).value, k) <==>
            exists i :: 0 <= i < |items| && SeasonKeyOf(items[i]) == Some(k)
  {
    var byYear := Keyed(items, YearId).value;
    KeyedHas(byYear, Unslashed, k);
    if exists i :: 0 <= i < |items| && SeasonKeyOf(items[i]) == Some(k) {
      var i :| 0 <= i < |items| && SeasonKeyOf(items[i]) == Some(k);
      SeasonKeyKept(items, i);
    }
    if exists j :: 0 <= j < |byYear| && Unslashed(byYear[j]).Some? && Unslashed(byYear[j]).value.0 == k {
      var j :| 0 <= j < |byYear| && Unslashed(byYear[j]).Some? && Unslashed(byYear[j]).value.0 == k;
      SeasonKeyFrom(items, j);
    }
  }

  /** A season with a key gives a pair of the year-to-id dictionary that renames to that key. */
  lemma SeasonKeyKept(items: seq<Json>, i: nat)
    requires Keyed(items, YearId).Some? && i < |items| && SeasonKeyOf(items[i]).Some?
    ensures var byYear := Keyed(items, YearId).value;
      exists j :: 0 <= j < |byYear| && Unslashed(byYear[j]).Some? && Unslashed(byYear[j]).value.0 == SeasonKeyOf(items[i]).value
  {
    var byYear := Keyed(items, YearId).value;
    ByYearHas(items, YearId(items[i]).value.0);
    var j :| 0 <= j < |byYear| && byYear[j].0 == YearId(items[i]).value.0;
    assert Unslashed(byYear[j]).value.0 == SeasonKeyOf(items[i]).value;
  }

  /** A pair of the year-to-id dictionary that renames to a key comes from a season with that key. */
  lemma SeasonKeyFrom(items: seq<Json>, j: nat)
    requires Keyed(items, YearId).Some? && j < |Keyed(items, YearId).value|
    requires Unslashed(Keyed(items, YearId).value[j]).Some?
    ensures exists i :: 0 <= i < |items| && SeasonKeyOf(items[i]) == Some(Unslashed(Keyed(items, YearId).value[j]).value.0)
  {
    var byYear := Keyed(items, YearId).value;
    ByYearHas(items, byYear[j].0);
    var i :| 0 <= i < |items| && YearId(items[i]).Some? && YearId(items[i]).value.0 == byYear[j].0;
    assert SeasonKeyOf(items[i]) == Some(Unslashed(byYear[j]).value.0);
  }

  /** A season's key has no `/` left in it, and maps to the id of a season whose year gives that key. */
  lemma SeasonsDictValues(available: Json, desired: set<string>, k: string)
    requires SeasonsDict(available, desired).Some? && HasKey(SeasonsDict(available, desired).value, k)
    ensures var d := SeasonsDict(available, desired).value;
      var items := Items(Get(available, "seasons", EmptyObj));
      && '/' !in k
      && exists i :: 0 <= i < |items| && SeasonKeyOf(items[i]) == Some(k) && Index(items[i], "id") == Lookup(d, k)
  {
    SeasonsFromValues(Items(Get(available, "seasons", EmptyObj)), desired, k);
  }

  lemma SeasonsFromValues(items: seq<Json>, desired: set<string>, k: string)
    requires SeasonsFrom(items, desired).Some? && HasKey(SeasonsFrom(items, desired).value, k)
    ensures var d := SeasonsFrom(items, desired).value;
      && '/' !in k
      && exists i :: 0 <= i < |items| && SeasonKeyOf(items[i]) == Some(k) && Index(items[i], "id") == Lookup(d, k)
  {
    var byYear := Keyed(items, YearId).value;
    var byKey := Keyed(byYear, Unslashed).value;
    KeyedDistinct(items, YearId);
    KeyedDistinct(byYear, Unslashed);
    FilterKeysLookup(byKey, desired, k);
    KeyedValue(byYear, Unslashed, k);
    var j :| 0 <= j < |byYear| && Unslashed(byYear[j]) == Some((k, Lookup(byKey, k).value));
    var year := byYear[j].0;
    ReplaceCharGone(year.s, '/', "");
    assert Keys(byYear)[j] == year;
    KeyedValue(items, YearId, year);
    FirstValue(byYear, j);
    var i :| 0 <= i < |items| && YearId(items[i]) == Some((year, Lookup(byYear, year).value));
    assert SeasonKeyOf(items[i]) == Some(k);
  }

  // ---------------------------------------------------------------- the dictionaries of a season

  /** `match.get('status', {}).get('description') == 'Ended'`. */
  predicate Ended(m: Json)
  {
    Get(GetObj(m, "status"), "description", JNull) == JStr("Ended")
  }

  /** `events.get('events', [])` of one page, iterated. */
  function EventsOf(page: Json): seq<Json>
  {
    Items(Get(page, "events", EmptyArr))
  }

  /** `(x['id'], x['slug'])`; a missing key raises. */
  function IdSlug(x: Json): Option<(Json, Json)>
  {
    match Index(x, "id")
    case None => None
    case Some(id) =>
      match Index(x, "slug")
      case None => None
      case Some(slug) => Some((id, slug))
  }

  /** The ended events of all pages, in page order. */
  function EndedEvents(pages: seq<Json>): seq<Json>
  {
    Keep(FlatMap(pages, EventsOf), Ended, Itself)
  }

  /** `dict_matches`: the id and slug of every ended event of the season. */
  function EndedMatches(pages: seq<Json>): Option<seq<(Json, Json)>>
  {
    Keyed(EndedEvents(pages), IdSlug)
  }

  /** An event is among the ended events exactly when some page lists it and it has ended. */
  lemma EndedEventsIn(pages: seq<Json>, m: Json)
    ensures m in EndedEvents(pages) <==> Ended(m) && exists p :: p in pages && m in EventsOf(p)
  {
    KeepIn(FlatMap(pages, EventsOf), Ended, m);
    if m in FlatMap(pages, EventsOf) {
      FlatMapSound(pages, EventsOf, m);
    }
    if exists p :: p in pages && m in EventsOf(p) {
      var p :| p in pages && m in EventsOf(p);
      FlatMapComplete(pages, EventsOf, p, m);
    }
  }

  /** Building the match dictionary raises exactly when an ended event lacks its id or its slug. */
  lemma EndedMatchesFails(pages: seq<Json>)
    ensures EndedMatches(pages).None? <==>
      exists m :: m in EndedEvents(pages) && !(Has(m, "id") && Has(m, "slug"))
  {
    var es := EndedEvents(pages);
    KeyedFails(es, IdSlug);
    if exists m :: m in es && !(Has(m, "id") && Has(m, "slug")) {
      var m :| m in es && !(Has(m, "id") && Has(m, "slug"));
      var i :| 0 <= i < |es| && es[i] == m;
    }
  }

  /**
   * The matches to scrape are exactly the ids of the ended events, each once
   * (which events those are, `EndedEventsIn` says).
   */
  lemma EndedMatchesKeys(pages: seq<Json>, k: Json)
    requires EndedMatches(pages).Some?
    ensures UniqueKeys(EndedMatches(pages).value)
    ensures HasKey(EndedMatches(pages).value, k) <==> exists m :: m in EndedEvents(pages) && Index(m, "id") == Some(k)
  {
    var es := EndedEvents(pages);
    KeyedDistinct(es, IdSlug);
    KeyedHas(es, IdSlug, k);
    KeyedFails(es, IdSlug);
    if exists m :: m in es && Index(m, "id") == Some(k) {
      var m :| m in es && Index(m, "id") == Some(k);
      var i :| 0 <= i < |es| && es[i] == m;
    }
  }

  /** Each match id is mapped to the slug of an ended event with that id. */
  lemma EndedMatchesValues(pages: seq<Json>, k: Json)
    requires EndedMatches(pages).Some? && HasKey(EndedMatches(pages).value, k)
    ensures Lookup(EndedMatches(pages).value, k).Some?
    ensures exists m :: m in EndedEvents(pages) && Index(m, "id") == Some(k) && Index(m, "slug") == Lookup(EndedMatches(pages).value, k)
  {
    var es := EndedEvents(pages);
    KeyedValue(es, IdSlug, k);
    var i :| 0 <= i < |es| && IdSlug(es[i]) == Some((k, Lookup(EndedMatches(pages).value, k).value));
    assert es[i] in es;
  }

  /** `season_info[kind][field]`, iterated; a missing key raises. */
  function InfoItems(info: Dict, kind: string, field: string): Option<seq<Json>>
  {
    match Lookup(info, kind)
    case None => None
    case Some(doc) =>
      match Index(doc, field)
      case None => None
      case Some(list) => Some(Items(list))
  }

  /** `player['playerName'].lower().replace(' ', '-')`: a name that is not a string raises. */
  function NameSlug(name: Json): Option<string>
  {
    if name.JStr? then Some(Replace(Lower(name.s), " ", "-")) else None
  }

  /** `(player['playerId'], <its name slug>)`; a missing key raises. */
  function PlayerSlug(x: Json): Option<(Json, Json)>
  {
    match Index(x, "playerId")
    case None => None
    case Some(id) =>
      match Index(x, "playerName")
      case None => None
      case Some(name) =>
        match NameSlug(name)
        case None => None
        case Some(slug) => Some((id, JStr(slug)))
  }

  /** `dict_players`. */
  function Players(info: Dict): Option<seq<(Json, Json)>>
  {
    match InfoItems(info, "player", "players")
    case None => None
    case Some(xs) => Keyed(xs, PlayerSlug)
  }

  /** `dict_teams`. */
  function Teams(info: Dict): Option<seq<(Json, Json)>>
  {
    match InfoItems(info, "team", "teams")
    case None => None
    case Some(xs) => Keyed(xs, IdSlug)
  }

  /** `dict_venues`. */
  function Venues(info: Dict): Option<seq<(Json, Json)>>
  {
    match InfoItems(info, "venue", "venues")
    case None => None
    case Some(xs) => Keyed(xs, IdSlug)
  }

  /** A name slug is lower case and has no blank: the blanks became dashes. */
  lemma NameSlugShape(name: string)
    ensures var slug := NameSlug(JStr(name)).value;
      ' ' !in slug && forall i :: 0 <= i < |slug| ==> !('A' <= slug[i] <= 'Z')
  {
    var slug := NameSlug(JStr(name)).value;
    ReplaceCharGone(Lower(name), ' ', "-");
    forall i | 0 <= i < |slug| ensures !('A' <= slug[i] <= 'Z') {
      ReplaceCharFrom(Lower(name), ' ', "-", slug[i]);
    }
  }

  /**
   * The players of a season are listed under their ids, each once, with the
   * slug of a listed player's name; the building raises exactly when some
   * listed player lacks an id or a string name.
   */
  lemma PlayersKeys(info: Dict, k: Json)
    requires InfoItems(info, "player", "players").Some?
    ensures var xs := InfoItems(info, "player", "players").value;
      Players(info).None? <==> exists i :: 0 <= i < |xs| && PlayerSlug(xs[i]).None?
    ensures var xs := InfoItems(info, "player", "players").value;
      Players(info).Some? ==>
        && UniqueKeys(Players(info).value)
        && (HasKey(Players(info).value, k) <==> exists i :: 0 <= i < |xs| && PlayerSlug(xs[i]).Some? && Index(xs[i], "playerId") == Some(k))
  {
    var xs := InfoItems(info, "player", "players").value;
    KeyedFails(xs, PlayerSlug);
    if Players(info).Some? {
      KeyedDistinct(xs, PlayerSlug);
      KeyedHas(xs, PlayerSlug, k);
    }
  }

  /** Each player id holds the slug of a listed player with that id and a string name. */
  lemma PlayersValues(info: Dict, k: Json)
    requires Players(info).Some? && HasKey(Players(info).value, k)
    ensures Lookup(Players(info).value, k).Some?
    ensures var xs := InfoItems(info, "player", "players").value;
      exists i :: 0 <= i < |xs| && Index(xs[i], "playerId") == Some(k) &&
        Index(xs[i], "playerName").Some? && Index(xs[i], "playerName").value.JStr? &&
        Lookup(Players(info).value, k) == Some(JStr(Replace(Lower(Index(xs[i], "playerName").value.s), " ", "-")))
  {
    KeyedValue(InfoItems(info, "player", "players").value, PlayerSlug, k);
  }

  /** The teams of a season are listed under their ids, each once, with a listed team's slug. */
  lemma TeamsKeys(info: Dict, k: Json)
    requires Teams(info).Some?
    ensures var xs := InfoItems(info, "team", "teams").value;
      && UniqueKeys(Teams(info).value)
      && (HasKey(Teams(info).value, k) <==> exists i :: 0 <= i < |xs| && IdSlug(xs[i]).Some? && Index(xs[i], "id") == Some(k))
      && (HasKey(Teams(info).value, k) ==> exists i :: 0 <= i < |xs| && Index(xs[i], "id") == Some(k) && Index(xs[i], "slug") == Lookup(Teams(info).value, k))
  {
    var xs := InfoItems(info, "team", "teams").value;
    KeyedDistinct(xs, IdSlug);
    KeyedHas(xs, IdSlug, k);
    if HasKey(Teams(info).value, k) {
      KeyedValue(xs, IdSlug, k);
    }
  }

  /** The venues of a season are listed under their ids, each once, with a listed venue's slug. */
  lemma VenuesKeys(info: Dict, k: Json)
    requires Venues(info).Some?
    ensures var xs := InfoItems(info, "venue", "venues").value;
      && UniqueKeys(Venues(info).value)
      && (HasKey(Venues(info).value, k) <==> exists i :: 0 <= i < |xs| && IdSlug(xs[i]).Some? && Index(xs[i], "id") == Some(k))
      && (HasKey(Venues(info).value, k) ==> exists i :: 0 <= i < |xs| && Index(xs[i], "id") == Some(k) && Index(xs[i], "slug") == Lookup(Venues(info).value, k))
  {
    var xs := InfoItems(info, "venue", "venues").value;
    KeyedDistinct(xs, IdSlug);
    KeyedHas(xs, IdSlug, k);
    if HasKey(Venues(info).value, k) {
      KeyedValue(xs, IdSlug, k);
    }
  }

  /** A season whose key is not available has no player, team or venue list: the three lookups raise. */
  lemma UnknownSeasonLists()
    ensures Players([]).None? && Teams([]).None? && Venues([]).None?
  {
  }

  // ---------------------------------------------------------------- the people of a match

  /** `match_info.get('lineups', {}).get(side, {}).get('players', [])`, iterated. */
  function Lineup(matchInfo: Json, side: string): seq<Json>
  {
    Items(Get(Get(GetObj(matchInfo, "lineups"), side, EmptyObj), "players", EmptyArr))
  }

  /** `p.get('statistics', {}).get('minutesPlayed', 0) > 0`. */
  predicate PlayedSome(p: Json)
  {
    Positive(Get(GetObj(p, "statistics"), "minutesPlayed", Zero))
  }

  /** `(p.get('player', {}).get('id', 0), p.get('player', {}).get('slug', ''))`. */
  function PlayerRef(p: Json): (Json, Json)
  {
    (Get(GetObj(p, "player"), "id", Zero), Get(GetObj(p, "player"), "slug", EmptyStr))
  }

  /** `home_players_ids` / `away_players_ids`: the players of one side who played. */
  function SidePlayers(matchInfo: Json, side: string): seq<(Json, Json)>
  {
    FromPairs(Keep(Lineup(matchInfo, side), PlayedSome, PlayerRef))
  }

  /** `players_ids = home_players_ids | away_players_ids`. */
  function PlayerIds(matchInfo: Json): seq<(Json, Json)>
  {
    Union(SidePlayers(matchInfo, "home"), SidePlayers(matchInfo, "away"))
  }

  /** A side's dictionary holds the ids of the players of that side who played at least a minute. */
  lemma SidePlayersKeys(matchInfo: Json, side: string, k: Json)
    ensures UniqueKeys(SidePlayers(matchInfo, side))
    ensures HasKey(SidePlayers(matchInfo, side), k) <==>
      exists p :: p in Lineup(matchInfo, side) && PlayedSome(p) && PlayerRef(p).0 == k
    ensures HasKey(SidePlayers(matchInfo, side), k) ==>
      exists p :: p in Lineup(matchInfo, side) && PlayedSome(p) && Some(PlayerRef(p)) == (match Lookup(SidePlayers(matchInfo, side), k) case Some(v) => Some((k, v)) case None => None)
  {
    KeptPairsHas(Lineup(matchInfo, side), PlayedSome, PlayerRef, k);
    if HasKey(SidePlayers(matchInfo, side), k) {
      KeptPairsValue(Lineup(matchInfo, side), PlayedSome, PlayerRef, k);
    }
  }

  /**
   * The players of a match are those who played a minute on either side, each
   * once; a player listed on both sides keeps the away side's slug.
   */
  lemma PlayerIdsKeys(matchInfo: Json, k: Json)
    ensures UniqueKeys(PlayerIds(matchInfo))
    ensures HasKey(PlayerIds(matchInfo), k) <==>
      HasKey(SidePlayers(matchInfo, "home"), k) || HasKey(SidePlayers(matchInfo, "away"), k)
    ensures Lookup(PlayerIds(matchInfo), k) ==
      if HasKey(SidePlayers(matchInfo, "away"), k) then Lookup(SidePlayers(matchInfo, "away"), k)
      else Lookup(SidePlayers(matchInfo, "home"), k)
  {
    var home := SidePlayers(matchInfo, "home");
    var away := SidePlayers(matchInfo, "away");
    SidePlayersKeys(matchInfo, "home", k);
    SidePlayersKeys(matchInfo, "away", k);
    SetAllUnique(home, away);
    UnionLookup(home, away, k);
  }

  /** `match_info.get('match', {}).get('event', {}).get(team, {}).get('manager', {})`, as (id, slug). */
  function ManagerRef(matchInfo: Json, team: string): (Json, Json)
  {
    var m := GetObj(GetObj(GetObj(GetObj(matchInfo, "match"), "event"), team), "manager");
    (Get(m, "id", Zero), Get(m, "slug", EmptyStr))
  }

  /** `managers_ids = home_manager | away_manager`. */
  function Managers(matchInfo: Json): seq<(Json, Json)>
  {
    Union([ManagerRef(matchInfo, "homeTeam")], [ManagerRef(matchInfo, "awayTeam")])
  }

  /**
   * The two managers of a match, home first; when both have the same id
   * (both missing, say) there is one entry, with the away manager's slug.
   */
  lemma ManagersKeys(matchInfo: Json)
    ensures var (home, away) := (ManagerRef(matchInfo, "homeTeam"), ManagerRef(matchInfo, "awayTeam"));
      Managers(matchInfo) == if home.0 == away.0 then [away] else [home, away]
  {
    var home := ManagerRef(matchInfo, "homeTeam");
    var away := ManagerRef(matchInfo, "awayTeam");
    assert [away][..0] == [];
    assert SetAll([home], [away][..0]) == [home];
    assert Managers(matchInfo) == Set(SetAll([home], [away][..0]), away.0, away.1);
    if home.0 != away.0 {
      assert !HasKey([home], away.0) by { assert Keys([home]) == [home.0]; }
      SetAbsent([home], away.0, away.1);
    } else {
      FirstIndexUnique([home], away.0, 0);
    }
  }
}
