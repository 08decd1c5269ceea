/**
 * How the processing stages name what they write: the folder of a league,
 * the raw match files they pick up and the table each one turns into.
 */
module Paths {
  import opened Text
  import opened Seqs

  /** The folder of a league: its name lower-cased with spaces turned into dashes. */
  function LeagueSlug(name: string): (r: string)
    ensures |r| == |name|
    ensures ' ' !in r
  {
    ReplaceCharLength(Lower(name), ' ', '-');
    ReplaceCharGone(Lower(name), ' ', "-");
    Replace(Lower(name), " ", "-")
  }

  /** A league slug holds no upper-case letter: every character is a lower-cased one or a dash. */
  lemma LeagueSlugLower(name: string)
    ensures forall i :: 0 <= i < |LeagueSlug(name)| ==> !('A' <= LeagueSlug(name)[i] <= 'Z')
  {
    var r := LeagueSlug(name);
    forall i | 0 <= i < |r| ensures !('A' <= r[i] <= 'Z') {
      ReplaceCharFrom(Lower(name), ' ', "-", r[i]);
    }
  }

  /** A raw match file to process: a regular file whose name ends in `.json`. */
  predicate IsMatchFile(name: string, isFile: string -> bool)
  {
    EndsWith(name, ".json") && isFile(name)
  }

  /**
   * The match files of a season folder, in listing order; `isFile` stands
   * for the file-system test on each entry.
   */
  function MatchFiles(names: seq<string>, isFile: string -> bool): seq<string>
  {
    Keep(names, n => IsMatchFile(n, isFile), n => n)
  }

  /** Exactly the listed regular files ending in `.json` are processed. */
  lemma MatchFilesExact(names: seq<string>, isFile: string -> bool, n: string)
    ensures n in MatchFiles(names, isFile) <==> n in names && EndsWith(n, ".json") && isFile(n)
  {
    var p := m => IsMatchFile(m, isFile);
    var id := (m: string) => m;
    if n in MatchFiles(names, isFile) {
      KeepSound(names, p, id, n);
    }
    if n in names && IsMatchFile(n, isFile) {
      KeepComplete(names, p, id, n);
    }
  }

  /** The name of the table written for a match file: every `json` becomes `csv`. */
  function OutputName(name: string): string
  {
    Replace(name, "json", "csv")
  }

  /** A match file `<base>.json` whose base holds no `json` is written as `<base>.csv`. */
  lemma OutputCsv(base: string)
    requires forall i :: !OccursAt(base, "json", i)
    ensures OutputName(base + ".json") == base + ".csv"
  {
    var s := base + ".json";
    assert s[|base|] == '.';
    forall i | 0 <= i < |base| ensures !OccursAt(s, "json", i) {
      if i + 4 <= |base| {
        assert s[i..i + 4] == base[i..i + 4];
        assert !OccursAt(base, "json", i);
      } else {
        assert s[i..i + 4][|base| - i] == '.';
      }
    }
    ReplaceAfter(base, ".json", "json", "csv");
    assert ".json"[..4] != "json";
    assert ".json"[1..] == "json";
    assert "json"[..4] == "json" && "json"[4..] == "";
  }
}
