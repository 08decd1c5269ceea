/**
 * The part of pandas the flatteners rely on: a DataFrame built from a list of
 * dicts, `insert`, `fillna`, row filters, `concat`, an inner `merge` on one
 * column and `sort_values`. A cell that is absent from a row's map is NaN.
 */
module Frames {
  import opened Wrappers
  import opened Dicts
  import opened Json
  import opened Seqs

  type Row = map<string, Json>

  /** A table: its column names in order and its rows. */
  datatype Frame = Frame(columns: seq<string>, rows: seq<Row>)

  /** `pd.DataFrame()`: no columns, no rows. */
  const Empty: Frame := Frame([], [])

  predicate Distinct(s: seq<string>)
  {
    forall i, j :: 0 <= i < j < |s| ==> s[i] != s[j]
  }

  /** Column names are distinct and every cell belongs to a column. */
  predicate Wf(f: Frame)
  {
    && Distinct(f.columns)
    && forall i, c :: 0 <= i < |f.rows| && c in f.rows[i] ==> c in f.columns
  }

  // ---------------------------------------------------------------- construction

  /** The columns `cols` followed by each key of `ks` not seen before. */
  function AddNew(cols: seq<string>, ks: seq<string>): (r: seq<string>)
    ensures |r| >= |cols| && r[..|cols|] == cols
    ensures forall c :: c in r <==> c in cols || c in ks
    ensures Distinct(cols) ==> Distinct(r)
    ensures (forall k :: k in ks ==> k in cols) ==> r == cols
    decreases |ks|
  {
    if ks == [] then cols
    else
      var next := if ks[0] in cols then cols else cols + [ks[0]];
      var r := AddNew(next, ks[1..]);
      assert r[..|next|] == next;
      assert r[..|cols|] == next[..|cols|];
      r
  }

  /** Distinct keys added to no columns come out in their own order. */
  lemma {:induction false} AddNewFresh(cols: seq<string>, ks: seq<string>)
    requires Distinct(cols + ks)
    ensures AddNew(cols, ks) == cols + ks
    decreases |ks|
  {
    if ks != [] {
      assert (cols + ks)[|cols|] == ks[0];
      assert forall i :: 0 <= i < |cols| ==> (cols + ks)[i] == cols[i];
      assert cols + ks == (cols + [ks[0]]) + ks[1..];
      AddNewFresh(cols + [ks[0]], ks[1..]);
    }
  }

  /** The keys of every record, one record after the other. */
  function AllKeys(recs: seq<Dict>): seq<string>
  {
    if recs == [] then [] else AllKeys(recs[..|recs| - 1]) + Keys(recs[|recs| - 1])
  }

  lemma {:induction false} KeysInAllKeys(recs: seq<Dict>, i: nat, c: string)
    requires i < |recs| && c in Keys(recs[i])
    ensures c in AllKeys(recs)
  {
    if i < |recs| - 1 {
      KeysInAllKeys(recs[..|recs| - 1], i, c);
    }
  }

  /** A name is among the keys of the records exactly when some record holds it. */
  lemma {:induction false} InAllKeys(recs: seq<Dict>, c: string)
    ensures c in AllKeys(recs) <==> exists i :: 0 <= i < |recs| && c in Keys(recs[i])
  {
    if recs != [] {
      var init := recs[..|recs| - 1];
      InAllKeys(init, c);
      if c in AllKeys(init) {
        var i :| 0 <= i < |init| && c in Keys(init[i]);
        assert init[i] == recs[i];
      }
      if exists i :: 0 <= i < |recs| && c in Keys(recs[i]) {
        var i :| 0 <= i < |recs| && c in Keys(recs[i]);
        if i < |recs| - 1 {
          assert init[i] == recs[i];
        }
      }
    }
  }

  /** The columns pandas gives a list of dicts: every key, in order of first appearance. */
  function ColumnsOf(recs: seq<Dict>): (r: seq<string>)
    ensures Distinct(r)
    ensures forall c :: c in r <==> c in AllKeys(recs)
  {
    if recs == [] then []
    else AddNew(ColumnsOf(recs[..|recs| - 1]), Keys(recs[|recs| - 1]))
  }

  /** Records that all carry the same distinct keys give exactly those columns. */
  lemma {:induction false} ColumnsUniform(recs: seq<Dict>, ks: seq<string>)
    requires |recs| > 0 && Distinct(ks)
    requires forall i :: 0 <= i < |recs| ==> Keys(recs[i]) == ks
    ensures ColumnsOf(recs) == ks
  {
    if |recs| == 1 {
      AddNewFresh([], ks);
      assert [] + ks == ks;
    } else {
      ColumnsUniform(recs[..|recs| - 1], ks);
    }
  }

  /** The cells of one record. */
  function RowOf(d: Dict): (r: Row)
    ensures r.Keys == set k | k in Keys(d)
    ensures forall k :: k in r ==> Some(r[k]) == Lookup(d, k)
  {
    forall k | k in Keys(d) ensures Lookup(d, k).Some? {
      LookupHasKey(d, k);
    }
    map k | k in Keys(d) :: Lookup(d, k).value
  }

  /** `pd.DataFrame(records)`. */
  function FromRecords(recs: seq<Dict>): (f: Frame)
    ensures Wf(f)
    ensures |f.rows| == |recs|
    ensures forall i :: 0 <= i < |recs| ==> f.rows[i] == RowOf(recs[i])
  {
    var f := Frame(ColumnsOf(recs), seq(|recs|, i requires 0 <= i < |recs| => RowOf(recs[i])));
    forall i, c | 0 <= i < |recs| && c in f.rows[i] ensures c in f.columns {
      KeysInAllKeys(recs, i, c);
    }
    f
  }

  /** With no records the DataFrame is the empty one. */
  lemma FromNoRecords()
    ensures FromRecords([]) == Empty
  {
  }

  // ---------------------------------------------------------------- insert

  /**
   * A table built from a loop that fails as a whole or gives records all
   * keyed by `ks`: one row per input, and the columns `ks` when there is one.
   */
  lemma AllSomeTable<T>(xs: seq<T>, f: T -> Option<Dict>, ks: seq<string>)
    requires AllSome(xs, f).Some? && Distinct(ks)
    requires forall x :: f(x).Some? ==> Keys(f(x).value) == ks
    ensures |FromRecords(AllSome(xs, f).value).rows| == |xs|
    ensures xs != [] ==> FromRecords(AllSome(xs, f).value).columns == ks
    ensures xs == [] ==> FromRecords(AllSome(xs, f).value) == Empty
  {
    var recs := AllSome(xs, f).value;
    if xs != [] {
      forall i | 0 <= i < |recs| ensures Keys(recs[i]) == ks {
        AllSomeAt(xs, f, i);
      }
      ColumnsUniform(recs, ks);
    } else {
      FromNoRecords();
    }
  }

  /** Putting a name that is not a column anywhere among distinct columns keeps them distinct. */
  lemma InsertDistinct(cols: seq<string>, pos: nat, name: string)
    requires Distinct(cols) && name !in cols && pos <= |cols|
    ensures Distinct(cols[..pos] + [name] + cols[pos..])
  {
    var r := cols[..pos] + [name] + cols[pos..];
    forall i, j | 0 <= i < j < |r| ensures r[i] != r[j] {
      if j < pos {
        assert r[i] == cols[i] && r[j] == cols[j];
      } else if j == pos {
        assert r[i] == cols[i] && r[j] == name;
      } else if i < pos {
        assert r[i] == cols[i] && r[j] == cols[j - 1];
      } else if i == pos {
        assert r[j] == cols[j - 1];
      } else {
        assert r[i] == cols[i - 1] && r[j] == cols[j - 1];
      }
    }
  }

  /**
   * `df.insert(pos, name, v)`: a new column holding `v` in every row. pandas
   * raises when the column exists or the position is past the end.
   */
  function Insert(f: Frame, pos: nat, name: string, v: Json): (r: Option<Frame>)
    ensures r.Some? <==> name !in f.columns && pos <= |f.columns|
    ensures r.Some? ==> r.value.columns == f.columns[..pos] + [name] + f.columns[pos..]
    ensures r.Some? ==> |r.value.rows| == |f.rows|
    ensures r.Some? ==> forall i :: 0 <= i < |f.rows| ==> r.value.rows[i] == f.rows[i][name := v]
    ensures r.Some? && Wf(f) ==> Wf(r.value)
  {
    if name in f.columns || pos > |f.columns| then None
    else
      var cols := f.columns[..pos] + [name] + f.columns[pos..];
      var r := Frame(cols, seq(|f.rows|, i requires 0 <= i < |f.rows| => f.rows[i][name := v]));
      assert f.columns == f.columns[..pos] + f.columns[pos..];
      assert forall c :: c in f.columns ==> c in cols;
      assert Distinct(f.columns) ==> Distinct(cols) by {
        if Distinct(f.columns) {
          InsertDistinct(f.columns, pos, name);
        }
      }
      Some(r)
  }

  /**
   * `df.insert(0, k0, v0); df.insert(1, k1, v1)`: it succeeds exactly when
   * neither name is a column yet, and then `k0` and `k1` are columns 0 and 1,
   * followed by the old columns, and every row carries both values.
   */
  function PrefixPair(f: Frame, k0: string, v0: Json, k1: string, v1: Json): (r: Option<Frame>)
    requires k0 != k1
    ensures r.Some? <==> k0 !in f.columns && k1 !in f.columns
    ensures r.Some? ==> r.value.columns == [k0, k1] + f.columns
    ensures r.Some? ==> |r.value.rows| == |f.rows|
    ensures r.Some? ==> forall i :: 0 <= i < |f.rows| ==> r.value.rows[i] == f.rows[i][k0 := v0][k1 := v1]
    ensures r.Some? && Wf(f) ==> Wf(r.value)
  {
    match Insert(f, 0, k0, v0)
    case None => None
    case Some(g) =>
      assert g.columns == [k0] + f.columns;
      var r := Insert(g, 1, k1, v1);
      assert r.Some? ==> r.value.columns == g.columns[..1] + [k1] + g.columns[1..];
      assert g.columns[..1] == [k0] && g.columns[1..] == f.columns;
      r
  }

  /** `df.insert(0, 'league', l); df.insert(1, 'season', s)`, the prefix every output table receives. */
  function PrefixLeagueSeason(f: Frame, league: Json, season: Json): (r: Option<Frame>)
    ensures r.Some? <==> "league" !in f.columns && "season" !in f.columns
    ensures r.Some? ==> r.value.columns == ["league", "season"] + f.columns
    ensures r.Some? ==> |r.value.rows| == |f.rows|
    ensures r.Some? ==> forall i :: 0 <= i < |f.rows| ==>
      r.value.rows[i] == f.rows[i]["league" := league]["season" := season]
    ensures r.Some? && Wf(f) ==> Wf(r.value)
  {
    PrefixPair(f, "league", league, "season", season)
  }

  // ---------------------------------------------------------------- missing values

  /** A NaN cell: absent, or None. */
  predicate Missing(row: Row, c: string)
  {
    c !in row || row[c] == JNull
  }

  /** `df.fillna(v)`: every column of every row gets a value, `v` where it was missing. */
  function FillNa(f: Frame, v: Json): (r: Frame)
    ensures r.columns == f.columns && |r.rows| == |f.rows|
    ensures forall i :: 0 <= i < |f.rows| ==> r.rows[i].Keys == set c | c in f.columns
    ensures forall i, c :: 0 <= i < |f.rows| && c in f.columns ==>
      r.rows[i][c] == if Missing(f.rows[i], c) then v else f.rows[i][c]
    ensures Distinct(f.columns) ==> Wf(r)
  {
    Frame(f.columns, seq(|f.rows|, i requires 0 <= i < |f.rows| =>
      map c | c in f.columns :: if Missing(f.rows[i], c) then v else f.rows[i][c]))
  }

  /** With a fill value other than None, no cell of a column is missing after `fillna`. */
  lemma FillNaComplete(f: Frame, v: Json)
    requires v != JNull
    ensures forall i, c :: 0 <= i < |f.rows| && c in f.columns ==>
      c in FillNa(f, v).rows[i] && FillNa(f, v).rows[i][c] != JNull
  {
  }

  /** The cell `fillna(v)` leaves for a record's column `c`: its value, or `v` when absent or None. */
  function Filled(d: Dict, c: string, v: Json): Json
  {
    match Lookup(d, c)
    case Some(x) => if x == JNull then v else x
    case None => v
  }

  /** After `DataFrame(recs).fillna(v)`, every known column of row `i` holds the filled cell of record `i`. */
  lemma FilledCell(recs: seq<Dict>, v: Json, i: nat, c: string)
    requires i < |recs| && c in ColumnsOf(recs)
    ensures c in FillNa(FromRecords(recs), v).rows[i]
    ensures FillNa(FromRecords(recs), v).rows[i][c] == Filled(recs[i], c, v)
  {
    var f := FromRecords(recs);
    assert f.rows[i] == RowOf(recs[i]);
    assert c in f.columns;
    RowFilled(recs[i], c, v);
  }

  /** Filling the row of a record gives the record's filled cell. */
  lemma RowFilled(d: Dict, c: string, v: Json)
    ensures (if Missing(RowOf(d), c) then v else RowOf(d)[c]) == Filled(d, c, v)
  {
    var row := RowOf(d);
    LookupHasKey(d, c);
    if c in row {
      assert Some(row[c]) == Lookup(d, c);
    }
  }

  /** The rows whose cell `c` is greater than 0, in order. */
  function RowsPositive(rows: seq<Row>, c: string): (r: seq<Row>)
    ensures forall x :: x in r <==> x in rows && c in x && Positive(x[c])
    ensures |r| <= |rows|
  {
    if rows == [] then []
    else
      var rest := RowsPositive(rows[1..], c);
      assert forall x :: x in rows <==> x == rows[0] || x in rows[1..];
      if c in rows[0] && Positive(rows[0][c]) then [rows[0]] + rest else rest
  }

  /** `df[df[c] > 0]`: pandas raises KeyError when `c` is not a column. */
  function KeepPositive(f: Frame, c: string): (r: Option<Frame>)
    ensures r.Some? <==> c in f.columns
    ensures r.Some? ==> r.value == Frame(f.columns, RowsPositive(f.rows, c))
  {
    if c in f.columns then Some(Frame(f.columns, RowsPositive(f.rows, c))) else None
  }

  /** Filtering `DataFrame(recs).fillna(v)` on column `c` succeeds exactly when some record has `c`. */
  lemma KeepPositiveColumn(recs: seq<Dict>, v: Json, c: string)
    ensures KeepPositive(FillNa(FromRecords(recs), v), c).Some? <==>
      exists i :: 0 <= i < |recs| && c in Keys(recs[i])
  {
    var f := FillNa(FromRecords(recs), v);
    assert f.columns == ColumnsOf(recs);
    InAllKeys(recs, c);
  }

  /** The rows whose cell `c` is present and not None, in order. */
  function RowsPresent(rows: seq<Row>, c: string): (r: seq<Row>)
    ensures forall x :: x in r <==> x in rows && !Missing(x, c)
    ensures |r| <= |rows|
  {
    if rows == [] then []
    else
      var rest := RowsPresent(rows[1..], c);
      assert forall x :: x in rows <==> x == rows[0] || x in rows[1..];
      if !Missing(rows[0], c) then [rows[0]] + rest else rest
  }

  /** `df.dropna(subset=[c])`: pandas raises KeyError when `c` is not a column. */
  function DropMissing(f: Frame, c: string): (r: Option<Frame>)
    ensures r.Some? <==> c in f.columns
    ensures r.Some? ==> r.value == Frame(f.columns, RowsPresent(f.rows, c))
  {
    if c in f.columns then Some(Frame(f.columns, RowsPresent(f.rows, c))) else None
  }

  // ---------------------------------------------------------------- columns by assignment

  /** `df[name] = vals`: replaces the column in place when it exists, appends it otherwise. */
  function SetColumn(f: Frame, name: string, vals: seq<Json>): (r: Frame)
    requires |vals| == |f.rows|
    ensures r.columns == if name in f.columns then f.columns else f.columns + [name]
    ensures |r.rows| == |f.rows|
    ensures forall i :: 0 <= i < |f.rows| ==> r.rows[i] == f.rows[i][name := vals[i]]
  {
    Frame(if name in f.columns then f.columns else f.columns + [name],
          seq(|f.rows|, i requires 0 <= i < |f.rows| => f.rows[i][name := vals[i]]))
  }

  // ---------------------------------------------------------------- concat

  /** `pd.concat([a, b], ignore_index=True)`: rows stacked, columns united in order. */
  function Concat(a: Frame, b: Frame): (r: Frame)
    ensures r.rows == a.rows + b.rows
    ensures r.columns == AddNew(a.columns, b.columns)
  {
    Frame(AddNew(a.columns, b.columns), a.rows + b.rows)
  }

  /** `concat([a, b])` then `insert(0, key, v)`: the rows of `a`, then those of `b`, each with `key` in front. */
  function StackWithKey(a: Frame, b: Frame, key: string, v: Json): (r: Option<Frame>)
    ensures r.None? <==> key in a.columns || key in b.columns
    ensures r.Some? ==> |r.value.columns| > 0 && r.value.columns[0] == key && |r.value.rows| == |a.rows| + |b.rows|
    ensures r.Some? ==> forall i :: 0 <= i < |a.rows| ==> r.value.rows[i] == a.rows[i][key := v]
    ensures r.Some? ==> forall i :: 0 <= i < |b.rows| ==> r.value.rows[|a.rows| + i] == b.rows[i][key := v]
  {
    var c := Concat(a, b);
    assert forall i :: 0 <= i < |b.rows| ==> c.rows[|a.rows| + i] == b.rows[i];
    var r := Insert(c, 0, key, v);
    assert r.Some? ==> r.value.columns == [key] + c.columns;
    r
  }

  /** `pd.concat(frames, ignore_index=True)`: pandas raises on an empty list. */
  function ConcatAll(fs: seq<Frame>): (r: Option<Frame>)
    ensures r.Some? <==> fs != []
    ensures r.Some? ==> r.value.rows == AllRows(fs)
  {
    if fs == [] then None
    else if |fs| == 1 then Some(fs[0])
    else
      var init := ConcatAll(fs[..|fs| - 1]).value;
      assert AllRows(fs) == AllRows(fs[..|fs| - 1]) + fs[|fs| - 1].rows;
      Some(Concat(init, fs[|fs| - 1]))
  }

  /** The rows of every frame of `fs`, one frame after the other. */
  function AllRows(fs: seq<Frame>): seq<Row>
  {
    if fs == [] then [] else AllRows(fs[..|fs| - 1]) + fs[|fs| - 1].rows
  }

  /** Stacking frames of `n` rows each gives `n` rows per frame. */
  lemma {:induction false} AllRowsUniform(fs: seq<Frame>, n: nat)
    requires forall i :: 0 <= i < |fs| ==> |fs[i].rows| == n
    ensures |AllRows(fs)| == n * |fs|
  {
    if fs != [] {
      AllRowsUniform(fs[..|fs| - 1], n);
      assert n * |fs| == n * (|fs| - 1) + n;
    }
  }

  // ---------------------------------------------------------------- merge

  /** Two rows meet in an inner join on `key` when both hold the same key value. */
  predicate Joins(x: Row, y: Row, key: string)
  {
    key in x && key in y && x[key] == y[key]
  }

  /** Each row of `ra` combined with every row of `rb` it joins, in `ra`'s order. */
  function JoinRows(ra: seq<Row>, rb: seq<Row>, key: string): (r: seq<Row>)
    decreases |ra|
  {
    if ra == [] then [] else Partners(ra[0], rb, key) + JoinRows(ra[1..], rb, key)
  }

  function Partners(x: Row, rb: seq<Row>, key: string): (r: seq<Row>)
    ensures |r| <= |rb|
  {
    if rb == [] then []
    else (if Joins(x, rb[0], key) then [x + rb[0]] else []) + Partners(x, rb[1..], key)
  }

  /** The columns of `b` other than the join key that `a` lacks: what the merge adds. */
  function OtherColumns(a: seq<string>, b: seq<string>, key: string): (r: seq<string>)
    ensures forall c :: c in r <==> c in b && c != key && c !in a
  {
    if b == [] then []
    else (if b[0] != key && b[0] !in a then [b[0]] else []) + OtherColumns(a, b[1..], key)
  }

  /** Only `key` is shared between two column lists, so the merge needs no suffixes. */
  predicate OnlyKeyShared(a: seq<string>, b: seq<string>, key: string)
  {
    forall c :: c in a && c in b ==> c == key
  }

  /**
   * `pd.merge(a, b, how='inner', on=key)` for frames that share no column but
   * the key: pandas raises KeyError when either frame lacks the key column.
   */
  function Merge(a: Frame, b: Frame, key: string): (r: Option<Frame>)
    requires OnlyKeyShared(a.columns, b.columns, key)
    ensures r.Some? <==> key in a.columns && key in b.columns
    ensures r.Some? ==> r.value.columns == a.columns + OtherColumns(a.columns, b.columns, key)
    ensures r.Some? ==> r.value.rows == JoinRows(a.rows, b.rows, key)
  {
    if key in a.columns && key in b.columns then
      Some(Frame(a.columns + OtherColumns(a.columns, b.columns, key), JoinRows(a.rows, b.rows, key)))
    else None
  }

  /** The rows `x` meets in `rb` are `x` combined with each row of `rb` it joins. */
  lemma {:induction false} PartnersMember(x: Row, rb: seq<Row>, key: string, z: Row)
    ensures z in Partners(x, rb, key) <==> exists j :: 0 <= j < |rb| && Joins(x, rb[j], key) && z == x + rb[j]
    decreases |rb|
  {
    if rb != [] {
      PartnersMember(x, rb[1..], key, z);
      if exists j :: 0 <= j < |rb[1..]| && Joins(x, rb[1..][j], key) && z == x + rb[1..][j] {
        var j :| 0 <= j < |rb[1..]| && Joins(x, rb[1..][j], key) && z == x + rb[1..][j];
        assert rb[1..][j] == rb[j + 1];
      }
      if exists j :: 0 <= j < |rb| && Joins(x, rb[j], key) && z == x + rb[j] {
        var j :| 0 <= j < |rb| && Joins(x, rb[j], key) && z == x + rb[j];
        if j > 0 {
          assert rb[1..][j - 1] == rb[j];
        }
      }
    }
  }

  /** An inner join holds exactly the combinations of a row of `ra` with a row of `rb` it joins. */
  lemma {:induction false} JoinMember(ra: seq<Row>, rb: seq<Row>, key: string, z: Row)
    ensures z in JoinRows(ra, rb, key) <==>
      exists i, j :: 0 <= i < |ra| && 0 <= j < |rb| && Joins(ra[i], rb[j], key) && z == ra[i] + rb[j]
    decreases |ra|
  {
    if ra != [] {
      JoinMember(ra[1..], rb, key, z);
      PartnersMember(ra[0], rb, key, z);
      if exists i, j :: 0 <= i < |ra[1..]| && 0 <= j < |rb| && Joins(ra[1..][i], rb[j], key) && z == ra[1..][i] + rb[j] {
        var i, j :| 0 <= i < |ra[1..]| && 0 <= j < |rb| && Joins(ra[1..][i], rb[j], key) && z == ra[1..][i] + rb[j];
        assert ra[1..][i] == ra[i + 1];
      }
      if exists i, j :: 0 <= i < |ra| && 0 <= j < |rb| && Joins(ra[i], rb[j], key) && z == ra[i] + rb[j] {
        var i, j :| 0 <= i < |ra| && 0 <= j < |rb| && Joins(ra[i], rb[j], key) && z == ra[i] + rb[j];
        if i > 0 {
          assert ra[1..][i - 1] == ra[i];
        }
      }
    }
  }

  /** The values of column `key` over the rows that have it. */
  function KeyValues(rows: seq<Row>, key: string): set<Json>
  {
    set x | x in rows && key in x :: x[key]
  }

  /** The join keys of an inner join are the keys the two sides have in common. */
  lemma JoinKeyValues(ra: seq<Row>, rb: seq<Row>, key: string)
    ensures KeyValues(JoinRows(ra, rb, key), key) == KeyValues(ra, key) * KeyValues(rb, key)
  {
    var r := JoinRows(ra, rb, key);
    forall v | v in KeyValues(r, key) ensures v in KeyValues(ra, key) * KeyValues(rb, key) {
      var z :| z in r && key in z && z[key] == v;
      JoinMember(ra, rb, key, z);
      var i, j :| 0 <= i < |ra| && 0 <= j < |rb| && Joins(ra[i], rb[j], key) && z == ra[i] + rb[j];
      assert ra[i] in ra && rb[j] in rb;
    }
    forall v | v in KeyValues(ra, key) * KeyValues(rb, key) ensures v in KeyValues(r, key) {
      var x :| x in ra && key in x && x[key] == v;
      var y :| y in rb && key in y && y[key] == v;
      var i :| 0 <= i < |ra| && ra[i] == x;
      var j :| 0 <= j < |rb| && rb[j] == y;
      JoinMember(ra, rb, key, x + y);
    }
  }

  /** Every row has column `key`, and no two rows share its value. */
  predicate KeyedUnique(rows: seq<Row>, key: string)
  {
    && (forall i :: 0 <= i < |rows| ==> key in rows[i])
    && (forall i, j :: 0 <= i < j < |rows| ==> rows[i][key] != rows[j][key])
  }

  /** A row whose key occurs exactly once in `rb` meets exactly that row. */
  lemma {:induction false} PartnersUnique(x: Row, rb: seq<Row>, key: string)
    requires KeyedUnique(rb, key) && key in x && x[key] in KeyValues(rb, key)
    ensures |Partners(x, rb, key)| == 1 && key in Partners(x, rb, key)[0] && Partners(x, rb, key)[0][key] == x[key]
    decreases |rb|
  {
    var t := rb[1..];
    if rb[0][key] == x[key] {
      forall j | 0 <= j < |t| ensures !Joins(x, t[j], key) {
        assert t[j] == rb[j + 1];
      }
      PartnersNone(x, t, key);
    } else {
      var y :| y in rb && key in y && y[key] == x[key];
      assert y in t;
      PartnersUnique(x, t, key);
    }
  }

  lemma {:induction false} PartnersNone(x: Row, rb: seq<Row>, key: string)
    requires forall j :: 0 <= j < |rb| ==> !Joins(x, rb[j], key)
    ensures Partners(x, rb, key) == []
    decreases |rb|
  {
    if rb != [] {
      PartnersNone(x, rb[1..], key);
    }
  }

  /**
   * Joining keyed tables whose left keys all occur on the right keeps one
   * row per left row, in order, with the same key: N teams on both sides give N rows.
   */
  lemma {:induction false} JoinKeepsLeft(ra: seq<Row>, rb: seq<Row>, key: string)
    requires KeyedUnique(ra, key) && KeyedUnique(rb, key)
    requires KeyValues(ra, key) <= KeyValues(rb, key)
    ensures |JoinRows(ra, rb, key)| == |ra|
    ensures forall i :: 0 <= i < |ra| ==> key in JoinRows(ra, rb, key)[i] && JoinRows(ra, rb, key)[i][key] == ra[i][key]
    ensures KeyedUnique(JoinRows(ra, rb, key), key)
    decreases |ra|
  {
    if ra != [] {
      var t := ra[1..];
      assert ra[0] in ra;
      PartnersUnique(ra[0], rb, key);
      assert KeyValues(t, key) <= KeyValues(ra, key) by {
        forall v | v in KeyValues(t, key) ensures v in KeyValues(ra, key) {
          var x :| x in t && key in x && x[key] == v;
          assert x in ra;
        }
      }
      assert KeyedUnique(t, key) by {
        forall i | 0 <= i < |t| ensures key in t[i] { assert t[i] == ra[i + 1]; }
        forall i, j | 0 <= i < j < |t| ensures t[i][key] != t[j][key] { assert t[i] == ra[i + 1] && t[j] == ra[j + 1]; }
      }
      JoinKeepsLeft(t, rb, key);
      var r := JoinRows(ra, rb, key);
      assert r == Partners(ra[0], rb, key) + JoinRows(t, rb, key);
      forall i | 0 <= i < |ra| ensures key in r[i] && r[i][key] == ra[i][key] {
        if i > 0 {
          assert r[i] == JoinRows(t, rb, key)[i - 1] && t[i - 1] == ra[i];
        }
      }
    }
  }

  /** Every column of a merge comes from one of its two sides. */
  lemma MergeColumnsFrom(a: Frame, b: Frame, key: string, c: string)
    requires OnlyKeyShared(a.columns, b.columns, key)
    requires Merge(a, b, key).Some? && c in Merge(a, b, key).value.columns
    ensures c in a.columns || c in b.columns
  {
  }

  /** Inserting `league` and `season` keeps the values of every other column. */
  lemma KeyValuesPrefix(f: Frame, league: Json, season: Json, key: string)
    requires key != "league" && key != "season"
    requires PrefixLeagueSeason(f, league, season).Some?
    ensures KeyValues(PrefixLeagueSeason(f, league, season).value.rows, key) == KeyValues(f.rows, key)
  {
    var r := PrefixLeagueSeason(f, league, season).value;
    forall v | v in KeyValues(r.rows, key) ensures v in KeyValues(f.rows, key) {
      var x :| x in r.rows && key in x && x[key] == v;
      var i :| 0 <= i < |r.rows| && r.rows[i] == x;
      assert f.rows[i] in f.rows;
    }
    forall v | v in KeyValues(f.rows, key) ensures v in KeyValues(r.rows, key) {
      var x :| x in f.rows && key in x && x[key] == v;
      var i :| 0 <= i < |f.rows| && f.rows[i] == x;
      assert r.rows[i] in r.rows;
    }
  }

  /** Rows that are a permutation of each other have the same column values. */
  lemma KeyValuesPermutation(a: seq<Row>, b: seq<Row>, key: string)
    requires multiset(a) == multiset(b)
    ensures KeyValues(a, key) == KeyValues(b, key)
  {
    forall x ensures x in a <==> x in b {
      assert x in a <==> x in multiset(a);
      assert x in b <==> x in multiset(b);
    }
  }

  // ---------------------------------------------------------------- sort

  /** The order `sort_values` uses on an integer cell; other cells count as 0. */
  function SortKey(row: Row, c: string): int
  {
    if c in row && row[c].JInt? then row[c].i else 0
  }

  predicate SortedOn(rows: seq<Row>, c: string)
  {
    forall i, j :: 0 <= i < j < |rows| ==> SortKey(rows[i], c) <= SortKey(rows[j], c)
  }

  /** A row no greater than the head of a sorted sequence can go in front of it. */
  lemma SortedCons(h: Row, t: seq<Row>, c: string)
    requires SortedOn(t, c)
    requires t == [] || SortKey(h, c) <= SortKey(t[0], c)
    ensures SortedOn([h] + t, c)
  {
    var r := [h] + t;
    forall i, j | 0 <= i < j < |r| ensures SortKey(r[i], c) <= SortKey(r[j], c) {
      if i == 0 {
        assert r[j] == t[j - 1];
        if j > 1 { assert SortKey(t[0], c) <= SortKey(t[j - 1], c); }
      } else {
        assert r[i] == t[i - 1] && r[j] == t[j - 1];
      }
    }
  }

  /** Places `x` into rows already sorted on `c`, after every row with a key no greater. */
  function InsertSorted(x: Row, rows: seq<Row>, c: string): (r: seq<Row>)
    requires SortedOn(rows, c)
    ensures SortedOn(r, c)
    ensures multiset(r) == multiset(rows) + multiset{x}
    ensures r[0] == x || (rows != [] && r[0] == rows[0])
  {
    if rows == [] then [x]
    else if SortKey(x, c) < SortKey(rows[0], c) then
      SortedCons(x, rows, c);
      [x] + rows
    else
      SortedTail(rows, c);
      var rest := InsertSorted(x, rows[1..], c);
      SortedConsRest(x, rows, rest, c);
      [rows[0]] + rest
  }

  /** Dropping the head of a sorted sequence leaves it sorted. */
  lemma SortedTail(rows: seq<Row>, c: string)
    requires rows != [] && SortedOn(rows, c)
    ensures SortedOn(rows[1..], c)
  {
    var tail := rows[1..];
    forall i, j | 0 <= i < j < |tail| ensures SortKey(tail[i], c) <= SortKey(tail[j], c) {
      assert tail[i] == rows[i + 1] && tail[j] == rows[j + 1];
    }
  }

  /**
   * The head of a sorted sequence, put back in front of the tail with `x`
   * inserted, keeps the result sorted and holding every row once.
   */
  lemma SortedConsRest(x: Row, rows: seq<Row>, rest: seq<Row>, c: string)
    requires rows != [] && SortedOn(rows, c) && SortKey(rows[0], c) <= SortKey(x, c)
    requires SortedOn(rest, c) && multiset(rest) == multiset(rows[1..]) + multiset{x}
    requires rest[0] == x || (|rows| > 1 && rest[0] == rows[1])
    ensures SortedOn([rows[0]] + rest, c)
    ensures multiset([rows[0]] + rest) == multiset(rows) + multiset{x}
  {
    assert rest == [] || SortKey(rows[0], c) <= SortKey(rest[0], c);
    SortedCons(rows[0], rest, c);
    assert rows == [rows[0]] + rows[1..];
  }

  /** Insertion sort of the rows on column `c`, keeping equal keys in their input order. */
  function SortRows(rows: seq<Row>, c: string): (r: seq<Row>)
    ensures SortedOn(r, c)
    ensures multiset(r) == multiset(rows)
  {
    if rows == [] then []
    else
      var init := rows[..|rows| - 1];
      var r := InsertSorted(rows[|rows| - 1], SortRows(init, c), c);
      assert rows == init + [rows[|rows| - 1]];
      assert multiset(rows) == multiset(init) + multiset{rows[|rows| - 1]};
      r
  }

  /** `df.sort_values(by=c)`: the same columns, the rows reordered by `c` ascending. */
  function SortBy(f: Frame, c: string): (r: Frame)
    ensures r.columns == f.columns
    ensures SortedOn(r.rows, c) && multiset(r.rows) == multiset(f.rows)
  {
    Frame(f.columns, SortRows(f.rows, c))
  }
}
