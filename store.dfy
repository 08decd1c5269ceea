/**
 * The cache directory the scrapers read and write: a map from a path to the
 * file stored there. A file holds a JSON document, nothing, or text that is
 * not JSON, and has an age: the seconds elapsed since it was created.
 */
module Store {
  import opened Wrappers
  import opened Json

  /** What a file holds: a document `json.load` reads back, nothing, or text that does not parse. */
  datatype Content = Doc(doc: Json) | Blank | Garbled

  /** A stored file and its age in seconds. */
  datatype Entry = Entry(content: Content, age: nat)

  type Files = map<string, Entry>

  const SecondsPerDay: nat := 86400

  /** `now - ctime > timedelta(days=totalDays)`: strictly older than the threshold. */
  predicate Stale(age: nat, totalDays: nat)
  {
    age > totalDays * SecondsPerDay
  }

  /** `json.load` of a file: nothing when it raises. */
  function Load(c: Content): (r: Option<Json>)
    ensures r.Some? <==> c.Doc?
  {
    if c.Doc? then Some(c.doc) else None
  }

  /** `os.path.join(a, b)`. */
  function Join(a: string, b: string): string
  {
    a + "/" + b
  }

  /** The store after `json.dump(doc, open(path, "w"))`: a new file, age 0. */
  function Written(files: Files, path: string, doc: Json): (r: Files)
    ensures r.Keys == files.Keys + {path}
    ensures path in r && r[path].content == Doc(doc) && r[path].age == 0
    ensures forall p :: p in files && p != path ==> r[p] == files[p]
  {
    files[path := Entry(Doc(doc), 0)]
  }

  /** A file just written is fresh for every threshold and loads back as the document written. */
  lemma WrittenFresh(files: Files, path: string, doc: Json, totalDays: nat)
    ensures !Stale(Written(files, path, doc)[path].age, totalDays)
    ensures Load(Written(files, path, doc)[path].content) == Some(doc)
  {
  }

  /** The cache directory, updated in place by the scrapers. */
  class FileStore {
    var files: Files

    constructor (init: Files)
      ensures files == init
    {
      files := init;
    }

    /** `os.path.exists(path)`. */
    predicate Exists(path: string)
      reads this
    {
      path in files
    }

    /** `os.path.getsize(path) > 0`. */
    predicate NonEmpty(path: string)
      requires path in files
      reads this
    {
      !files[path].content.Blank?
    }

    /** `json.load(open(path))`: nothing when it raises. */
    method Read(path: string) returns (r: Option<Json>)
      requires path in files
      ensures r == Load(files[path].content)
    {
      r := Load(files[path].content);
    }

    /** `json.dump(doc, open(path, "w"))`. */
    method Write(path: string, doc: Json)
      modifies this
      ensures files == Written(old(files), path, doc)
    {
      files := Written(files, path, doc);
    }

    /** `os.remove(path)`. */
    method Remove(path: string)
      modifies this
      ensures files == old(files) - {path}
    {
      files := files - {path};
    }
  }
}
