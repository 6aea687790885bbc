/**
 * The CSV side of the tag scripts: `check_tags`, which reads a `;`-separated
 * table with one row per image and one column per DICOM tag and reports the
 * columns that do not name a tag, and `update_tags`, which writes each row's
 * tags into the DICOM file whose base name is the row's `Label`.
 *
 * The CSV parser (pandas), the DICOM reader and writer (pydicom) and the
 * file system are outside the model: the table is an input, the files are a
 * `Disk` value threaded through the run, and pydicom's own functions are
 * the `Externals` of the `Dicom` module.
 */
module TagsCsv {
  import opened Wrappers
  import opened Dicom

  /** `FILE_NAME`: the column holding each row's image label. */
  const Label: string := "Label"

  /** A parsed CSV: column names in file order, and the rows' cells in the same order. */
  datatype Table = Table(columns: seq<string>, rows: seq<seq<Value>>)

  /** What a pandas DataFrame guarantees: distinct column names and one cell per column in every row. */
  predicate WellFormed(t: Table)
  {
    && (forall i, j :: 0 <= i < j < |t.columns| ==> t.columns[i] != t.columns[j])
    && (forall i :: 0 <= i < |t.rows| ==> |t.rows[i]| == |t.columns|)
  }

  /** Where the column called `name` is, searching from column `i` on. */
  function ColumnFrom(cols: seq<string>, name: string, i: nat): (r: Option<nat>)
    requires i <= |cols|
    ensures r.None? <==> forall k :: i <= k < |cols| ==> cols[k] != name
    ensures r.Some? ==> i <= r.value < |cols| && cols[r.value] == name
    decreases |cols| - i
  {
    if i == |cols| then None
    else if cols[i] == name then Some(i)
    else ColumnFrom(cols, name, i + 1)
  }

  /** The position of the `Label` column, if there is one. */
  function LabelColumn(cols: seq<string>): (r: Option<nat>)
    ensures r.None? <==> Label !in cols
    ensures r.Some? ==> r.value < |cols| && cols[r.value] == Label
  {
    ColumnFrom(cols, Label, 0)
  }

  // ---------------------------------------------------------------------
  // The column check both scripts start with
  // ---------------------------------------------------------------------

  /** A column that is not `Label` and whose name `Tag()` rejects. */
  predicate IsBad(x: Externals, name: string)
  {
    name != Label && !Resolves(x, name)
  }

  /** The bad columns among the first `n`, in column order. */
  function BadColumns(x: Externals, cols: seq<string>, n: nat): seq<string>
    requires n <= |cols|
  {
    if n == 0 then []
    else BadColumns(x, cols, n - 1) + (if IsBad(x, cols[n - 1]) then [cols[n - 1]] else [])
  }

  /**
   * `check_tags` reports exactly the non-`Label` columns that fail tag
   * resolution; in particular `Label` is never reported.
   */
  lemma {:induction false} BadColumnsExact(x: Externals, cols: seq<string>, n: nat)
    requires n <= |cols|
    ensures |BadColumns(x, cols, n)| <= n
    ensures forall c :: c in BadColumns(x, cols, n) <==> (exists k :: 0 <= k < n && cols[k] == c) && IsBad(x, c)
    ensures Label !in BadColumns(x, cols, n)
  {
    if n > 0 {
      BadColumnsExact(x, cols, n - 1);
      var prev := BadColumns(x, cols, n - 1);
      var last := if IsBad(x, cols[n - 1]) then [cols[n - 1]] else [];
      forall c ensures c in prev + last <==> (exists k :: 0 <= k < n && cols[k] == c) && IsBad(x, c) {
        if (exists k :: 0 <= k < n && cols[k] == c) && IsBad(x, c) {
          var k :| 0 <= k < n && cols[k] == c;
          if k < n - 1 {
            assert c in prev;
          }
        }
      }
    }
  }

  /** The bad columns of a shorter prefix come first among those of a longer one. */
  lemma {:induction false} BadColumnsPrefix(x: Externals, cols: seq<string>, n: nat, m: nat)
    requires n <= m <= |cols|
    ensures BadColumns(x, cols, n) <= BadColumns(x, cols, m)
    decreases m
  {
    if n < m {
      BadColumnsPrefix(x, cols, n, m - 1);
    }
  }

  // ---------------------------------------------------------------------
  // check_tags
  // ---------------------------------------------------------------------

  /** Why a script stopped with an exception. */
  datatype CsvError =
    | LabelMissing          // KeyError from `row[FILE_NAME]`
    | ReadFailed(path: string)  // `read_file` raised

  /** A row without its `Label` cell (`row.drop(FILE_NAME)`), first `n` columns, in column order. */
  function RowTags(cols: seq<string>, row: seq<Value>, n: nat): seq<(string, Value)>
    requires n <= |cols| == |row|
  {
    if n == 0 then []
    else RowTags(cols, row, n - 1) + (if cols[n - 1] == Label then [] else [(cols[n - 1], row[n - 1])])
  }

  /**
   * A row's tags are its other columns with their cells, bad columns
   * included: they are reported, not dropped.
   */
  lemma {:induction false} RowTagsExact(cols: seq<string>, row: seq<Value>, n: nat)
    requires n <= |cols| == |row|
    ensures forall p :: p in RowTags(cols, row, n) <==>
              exists k :: 0 <= k < n && cols[k] != Label && p == (cols[k], row[k])
  {
    if n > 0 {
      RowTagsExact(cols, row, n - 1);
      forall p | exists k :: 0 <= k < n && cols[k] != Label && p == (cols[k], row[k])
        ensures p in RowTags(cols, row, n)
      {
        var k :| 0 <= k < n && cols[k] != Label && p == (cols[k], row[k]);
        if k < n - 1 {
          assert p in RowTags(cols, row, n - 1);
        }
      }
    }
  }

  /** The label of a row, read from the `Label` column at `li`. */
  function LabelOf(t: Table, li: nat, i: nat): Value
    requires WellFormed(t) && li < |t.columns| && i < |t.rows|
  {
    t.rows[i][li]
  }

  /** `dict_tags` after the first `n` rows: each label to its row's tags, a later row replacing an earlier one. */
  function LabelMap(t: Table, li: nat, n: nat): map<Value, seq<(string, Value)>>
    requires WellFormed(t) && li < |t.columns| && n <= |t.rows|
  {
    if n == 0 then map[]
    else LabelMap(t, li, n - 1)[LabelOf(t, li, n - 1) := RowTags(t.columns, t.rows[n - 1], |t.columns|)]
  }

  /** The labels of `dict_tags` are exactly the rows' labels. */
  lemma {:induction false} LabelMapKeys(t: Table, li: nat, n: nat)
    requires WellFormed(t) && li < |t.columns| && n <= |t.rows|
    ensures forall v :: v in LabelMap(t, li, n) <==> exists i :: 0 <= i < n && LabelOf(t, li, i) == v
  {
    if n > 0 {
      LabelMapKeys(t, li, n - 1);
      forall v | exists i :: 0 <= i < n && LabelOf(t, li, i) == v
        ensures v in LabelMap(t, li, n)
      {
        var i :| 0 <= i < n && LabelOf(t, li, i) == v;
        if i < n - 1 {
          assert v in LabelMap(t, li, n - 1);
        }
      }
    }
  }

  /** Each label maps to the tags of the last row carrying it. */
  lemma {:induction false} LabelMapLastWins(t: Table, li: nat, n: nat, i: nat)
    requires WellFormed(t) && li < |t.columns| && i < n <= |t.rows|
    requires forall j :: i < j < n ==> LabelOf(t, li, j) != LabelOf(t, li, i)
    ensures LabelOf(t, li, i) in LabelMap(t, li, n)
    ensures LabelMap(t, li, n)[LabelOf(t, li, i)] == RowTags(t.columns, t.rows[i], |t.columns|)
  {
    if i < n - 1 {
      LabelMapLastWins(t, li, n - 1, i);
    }
  }

  /**
   * `check_tags(tags)` on the parsed table: the bad-column list and
   * `dict_tags`, or the KeyError a missing `Label` column raises once there
   * is a row to read.
   */
  method CheckTags(x: Externals, t: Table) returns (r: Result<(map<Value, seq<(string, Value)>>, seq<string>), CsvError>)
    requires WellFormed(t)
    ensures r.Failure? <==> LabelColumn(t.columns).None? && |t.rows| > 0
    ensures r.Failure? ==> r.error == LabelMissing
    ensures r.Success? ==> r.value.1 == BadColumns(x, t.columns, |t.columns|)
    ensures r.Success? && |t.rows| > 0 ==> r.value.0 == LabelMap(t, LabelColumn(t.columns).value, |t.rows|)
    ensures r.Success? && |t.rows| == 0 ==> r.value.0 == map[]
  {
    var bad := CollectBadColumns(x, t.columns);
    var li := LabelColumn(t.columns);
    var dict: map<Value, seq<(string, Value)>> := map[];
    for i := 0 to |t.rows|
      invariant li.None? ==> i == 0
      invariant dict == if li.Some? then LabelMap(t, li.value, i) else map[]
    {
      if li.None? {
        return Failure(LabelMissing);
      }
      var rowLabel := t.rows[i][li.value];
      var tags := DropLabel(t.columns, t.rows[i]);
      dict := dict[rowLabel := tags];
    }
    return Success((dict, bad));
  }

  /** The first loop of `check_tags`: `potential_bad_tags`, column by column. */
  method CollectBadColumns(x: Externals, cols: seq<string>) returns (bad: seq<string>)
    ensures bad == BadColumns(x, cols, |cols|)
  {
    bad := [];
    for i := 0 to |cols|
      invariant bad == BadColumns(x, cols, i)
    {
      if cols[i] != Label && !Resolves(x, cols[i]) {
        bad := bad + [cols[i]];
      }
    }
  }

  /** `row.drop(FILE_NAME).to_dict()`: the row's cells under their column names, `Label` left out. */
  method DropLabel(cols: seq<string>, row: seq<Value>) returns (tags: seq<(string, Value)>)
    requires |row| == |cols|
    ensures tags == RowTags(cols, row, |cols|)
  {
    tags := [];
    for k := 0 to |cols|
      invariant tags == RowTags(cols, row, k)
    {
      if cols[k] != Label {
        tags := tags + [(cols[k], row[k])];
      }
    }
  }

  // ---------------------------------------------------------------------
  // update_tags
  // ---------------------------------------------------------------------

  /** A selected file, as `QFileInfo` gives it. */
  datatype FileInfo = FileInfo(baseName: string, path: string)

  /** `{file.baseName(): file for file in files}` over the first `n` files. */
  function Selected(files: seq<FileInfo>, n: nat): map<string, string>
    requires n <= |files|
  {
    if n == 0 then map[] else Selected(files, n - 1)[files[n - 1].baseName := files[n - 1].path]
  }

  /** Files are keyed by base name, and of two files with the same base name the later one wins. */
  lemma {:induction false} SelectedKeys(files: seq<FileInfo>, n: nat)
    requires n <= |files|
    ensures forall name :: name in Selected(files, n) <==> exists i :: 0 <= i < n && files[i].baseName == name
  {
    if n > 0 {
      SelectedKeys(files, n - 1);
      forall name | exists i :: 0 <= i < n && files[i].baseName == name
        ensures name in Selected(files, n)
      {
        var i :| 0 <= i < n && files[i].baseName == name;
        if i < n - 1 {
          assert name in Selected(files, n - 1);
        }
      }
    }
  }

  /** Of two files with the same base name, the later one is the one updated. */
  lemma {:induction false} SelectedLaterWins(files: seq<FileInfo>, n: nat, i: nat)
    requires i < n <= |files|
    requires forall j :: i < j < n ==> files[j].baseName != files[i].baseName
    ensures files[i].baseName in Selected(files, n)
    ensures Selected(files, n)[files[i].baseName] == files[i].path
  {
    if i < n - 1 {
      SelectedLaterWins(files, n - 1, i);
    }
  }

  /** A data element: the VR it was created with and its value. */
  datatype Element = Element(vr: VR, value: Value)

  /** A DICOM dataset, by tag. */
  type Dataset = map<TagCode, Element>

  /**
   * The DICOM files: their datasets by path, and the trace of `read_file`
   * and `save_as` calls, oldest first.
   */
  datatype Disk = Disk(files: map<string, Dataset>, loaded: seq<string>, saves: seq<string>)

  /** How `update_tags` ended. */
  datatype Outcome = Returned(code: int) | Raised(error: CsvError)

  /**
   * The element `ds.add(DataElement(tag, VR, check_cast(VR, val)))` stores
   * for one cell, or None when `dictionary_VR`, the cast, or the element
   * construction raises (warnings are errors here).
   */
  function ElementFor(x: Externals, col: string, val: Value): (r: Option<(TagCode, Element)>)
    // an element is the column's tag, with the dictionary VR of that tag and the cell cast to it
    ensures r.Some? ==> TagOf(x, Text(col)) == Some(r.value.0)
                        && x.dictionaryVR(r.value.0) == Some(r.value.1.vr)
                        && CheckCast(x, r.value.1.vr, val) == Success(r.value.1.value)
                        && x.accepts(r.value.0, r.value.1.vr, r.value.1.value)
    // and there is none exactly when one of those steps raises
    ensures r.None? <==> TagOf(x, Text(col)).None?
                         || x.dictionaryVR(TagOf(x, Text(col)).value).None?
                         || CheckCast(x, x.dictionaryVR(TagOf(x, Text(col)).value).value, val).Failure?
                         || !x.accepts(TagOf(x, Text(col)).value, x.dictionaryVR(TagOf(x, Text(col)).value).value,
                                       CheckCast(x, x.dictionaryVR(TagOf(x, Text(col)).value).value, val).value)
  {
    match TagOf(x, Text(col))
    // not reached: `update_tags` has already returned -1 for such a column
    case None => None
    case Some(tag) =>
      match x.dictionaryVR(tag)
      case None => None
      case Some(vr) =>
        match CheckCast(x, vr, val)
        case Failure(_) => None
        case Success(v) => if x.accepts(tag, vr, v) then Some((tag, Element(vr, v))) else None
  }

  /** One cell of the inner loop: a failing tag is skipped, leaving the dataset as it was. */
  function AddCell(x: Externals, ds: Dataset, col: string, val: Value): (r: Dataset)
    ensures ElementFor(x, col, val).None? ==> r == ds
    // `Dataset.add` stores the element under its tag, replacing one already there, and touches nothing else
    ensures ElementFor(x, col, val).Some? ==>
              && r.Keys == ds.Keys + {ElementFor(x, col, val).value.0}
              && r[ElementFor(x, col, val).value.0] == ElementFor(x, col, val).value.1
              && forall tag :: tag in ds && tag != ElementFor(x, col, val).value.0 ==> r[tag] == ds[tag]
  {
    match ElementFor(x, col, val)
    case None => ds
    case Some((tag, e)) => ds[tag := e]
  }

  /** The dataset after the inner loop has seen the first `n` columns of a row (skipping `Label`). */
  function ApplyRow(x: Externals, ds: Dataset, cols: seq<string>, row: seq<Value>, n: nat): Dataset
    requires n <= |cols| == |row|
  {
    if n == 0 then ds
    else
      var prev := ApplyRow(x, ds, cols, row, n - 1);
      if cols[n - 1] == Label then prev else AddCell(x, prev, cols[n - 1], row[n - 1])
  }

  /** The tags the first `n` cells of a row store: those whose element is created and accepted. */
  function AddedTags(x: Externals, cols: seq<string>, row: seq<Value>, n: nat): set<TagCode>
    requires n <= |cols| == |row|
  {
    if n == 0 then {}
    else
      var prev := AddedTags(x, cols, row, n - 1);
      if cols[n - 1] != Label && ElementFor(x, cols[n - 1], row[n - 1]).Some?
      then prev + {ElementFor(x, cols[n - 1], row[n - 1]).value.0}
      else prev
  }

  /** A tag is added by a row exactly when some non-`Label` cell of the row yields an element for it. */
  lemma {:induction false} AddedTagsExact(x: Externals, cols: seq<string>, row: seq<Value>, n: nat)
    requires n <= |cols| == |row|
    ensures forall tag :: tag in AddedTags(x, cols, row, n) <==>
              exists k :: 0 <= k < n && cols[k] != Label && ElementFor(x, cols[k], row[k]) .Some? &&
                          ElementFor(x, cols[k], row[k]).value.0 == tag
  {
    if n > 0 {
      AddedTagsExact(x, cols, row, n - 1);
      forall tag | exists k :: 0 <= k < n && cols[k] != Label && ElementFor(x, cols[k], row[k]).Some? &&
                               ElementFor(x, cols[k], row[k]).value.0 == tag
        ensures tag in AddedTags(x, cols, row, n)
      {
        var k :| 0 <= k < n && cols[k] != Label && ElementFor(x, cols[k], row[k]).Some? &&
                 ElementFor(x, cols[k], row[k]).value.0 == tag;
        if k < n - 1 {
          assert tag in AddedTags(x, cols, row, n - 1);
        }
      }
    }
  }

  /**
   * A row's dataset holds the tags it had plus the added ones; a failing
   * cell is skipped, and every element no cell adds is left as it was.
   */
  lemma {:induction false} ApplyRowAdds(x: Externals, ds: Dataset, cols: seq<string>, row: seq<Value>, n: nat)
    requires n <= |cols| == |row|
    ensures ApplyRow(x, ds, cols, row, n).Keys == ds.Keys + AddedTags(x, cols, row, n)
    ensures forall tag :: tag in ds && tag !in AddedTags(x, cols, row, n) ==>
              ApplyRow(x, ds, cols, row, n)[tag] == ds[tag]
  {
    if n > 0 {
      ApplyRowAdds(x, ds, cols, row, n - 1);
    }
  }

  /**
   * Cell `k` is the last of the first `n` non-`Label` cells of the row that
   * yields an element for `tag`.
   */
  predicate LastCellFor(x: Externals, cols: seq<string>, row: seq<Value>, n: nat, k: nat, tag: TagCode)
    requires n <= |cols| == |row|
  {
    && k < n && cols[k] != Label && ElementFor(x, cols[k], row[k]).Some? && ElementFor(x, cols[k], row[k]).value.0 == tag
    && forall j :: k < j < n && cols[j] != Label && ElementFor(x, cols[j], row[j]).Some? ==>
         ElementFor(x, cols[j], row[j]).value.0 != tag
  }

  /**
   * The element a row stores for each added tag is the one built from the
   * last cell naming that tag: its dictionary VR and the cell cast to it.
   */
  lemma {:induction false} ApplyRowStores(x: Externals, ds: Dataset, cols: seq<string>, row: seq<Value>, n: nat)
    requires n <= |cols| == |row|
    ensures forall tag :: tag in AddedTags(x, cols, row, n) ==>
              tag in ApplyRow(x, ds, cols, row, n)
              && exists k: nat :: LastCellFor(x, cols, row, n, k, tag)
                             && ApplyRow(x, ds, cols, row, n)[tag] == ElementFor(x, cols[k], row[k]).value.1
  {
    if n > 0 {
      ApplyRowStores(x, ds, cols, row, n - 1);
      var cur := ApplyRow(x, ds, cols, row, n);
      var prev := ApplyRow(x, ds, cols, row, n - 1);
      forall tag | tag in AddedTags(x, cols, row, n)
        ensures tag in cur
        ensures exists k: nat :: LastCellFor(x, cols, row, n, k, tag) && cur[tag] == ElementFor(x, cols[k], row[k]).value.1
      {
        var adds := cols[n - 1] != Label && ElementFor(x, cols[n - 1], row[n - 1]).Some?;
        if adds && ElementFor(x, cols[n - 1], row[n - 1]).value.0 == tag {
          assert LastCellFor(x, cols, row, n, n - 1, tag);
        } else {
          assert tag in AddedTags(x, cols, row, n - 1);
          var k: nat :| LastCellFor(x, cols, row, n - 1, k, tag) && prev[tag] == ElementFor(x, cols[k], row[k]).value.1;
          assert LastCellFor(x, cols, row, n, k, tag);
        }
      }
    }
  }

  /** How the inner loop of `update_tags` turns a file's dataset and a row into the dataset it saves. */
  type RowUpdate = (Dataset, seq<Value>) -> Dataset

  /** The inner loop: every non-`Label` cell of the row, in column order. */
  function SetRow(x: Externals, cols: seq<string>): RowUpdate
  {
    (ds: Dataset, row: seq<Value>) => if |row| == |cols| then ApplyRow(x, ds, cols, row, |cols|) else ds
  }

  /**
   * The row loop of `update_tags` from row `i` on, given the selected files
   * and the disk as the earlier rows left it.
   */
  function UpdateRows(apply: RowUpdate, sel: map<string, string>, t: Table, i: nat, d: Disk): (r: (Outcome, Disk))
    requires WellFormed(t) && i <= |t.rows|
    // files are rewritten, never created or removed
    ensures r.1.files.Keys == d.files.Keys
    // the `KeyError` comes from the first remaining row, and only without a `Label` column
    ensures r.0 == Raised(LabelMissing) <==> LabelColumn(t.columns).None? && i < |t.rows|
    // a failed read is of a selected file that is not on disk
    ensures r.0.Raised? && r.0.error.ReadFailed? ==> r.0.error.path in sel.Values && r.0.error.path !in d.files
    // reads and saves are only ever appended
    ensures |d.saves| <= |r.1.saves| && r.1.saves[..|d.saves|] == d.saves
    ensures |d.loaded| <= |r.1.loaded| && r.1.loaded[..|d.loaded|] == d.loaded
    decreases |t.rows| - i
  {
    if i == |t.rows| then (Returned(0), d)
    else
      match LabelColumn(t.columns)
      case None => (Raised(LabelMissing), d)
      case Some(li) =>
        var rowLabel := t.rows[i][li];
        if !(rowLabel.Text? && rowLabel.s in sel) then UpdateRows(apply, sel, t, i + 1, d)
        else
          var path := sel[rowLabel.s];
          var read := d.(loaded := d.loaded + [path]);
          if path !in d.files then (Raised(ReadFailed(path)), read)
          else
            var ds := apply(d.files[path], t.rows[i]);
            UpdateRows(apply, sel, t, i + 1, read.(files := d.files[path := ds], saves := d.saves + [path]))
  }

  /** `update_tags(files, tags)`: the column check, then the row loop. */
  function UpdateOutcome(x: Externals, files: seq<FileInfo>, t: Table, d: Disk): (r: (Outcome, Disk))
    requires WellFormed(t)
    // -1 exactly when some column is not a known tag, and then nothing is read or written
    ensures r.0 == Returned(-1) <==> BadColumns(x, t.columns, |t.columns|) != []
    ensures r.0 == Returned(-1) ==> r.1 == d
    ensures r.1.files.Keys == d.files.Keys
  {
    if BadColumns(x, t.columns, |t.columns|) != [] then (Returned(-1), d)
    else
      RowsNeverReject(SetRow(x, t.columns), Selected(files, |files|), t, 0, d);
      UpdateRows(SetRow(x, t.columns), Selected(files, |files|), t, 0, d)
  }

  /** The files rows `i..` write, in row order: the selected file of each row whose label is selected. */
  function Matching(sel: map<string, string>, t: Table, li: nat, i: nat): seq<string>
    requires WellFormed(t) && li < |t.columns| && i <= |t.rows|
    decreases |t.rows| - i
  {
    if i == |t.rows| then []
    else
      var rowLabel := t.rows[i][li];
      (if rowLabel.Text? && rowLabel.s in sel then [sel[rowLabel.s]] else []) + Matching(sel, t, li, i + 1)
  }

  /** The row loop returns 0 or raises; it never returns -1. */
  lemma {:induction false} RowsNeverReject(apply: RowUpdate, sel: map<string, string>, t: Table, i: nat, d: Disk)
    requires WellFormed(t) && i <= |t.rows|
    ensures UpdateRows(apply, sel, t, i, d).0 == Returned(0) || UpdateRows(apply, sel, t, i, d).0.Raised?
    decreases |t.rows| - i
  {
    if i < |t.rows| && LabelColumn(t.columns).Some? {
      var li := LabelColumn(t.columns).value;
      var rowLabel := t.rows[i][li];
      if !(rowLabel.Text? && rowLabel.s in sel) {
        RowsNeverReject(apply, sel, t, i + 1, d);
      } else if sel[rowLabel.s] in d.files {
        var path := sel[rowLabel.s];
        var ds := apply(d.files[path], t.rows[i]);
        RowsNeverReject(apply, sel, t, i + 1,
                        Disk(d.files[path := ds], d.loaded + [path], d.saves + [path]));
      }
    }
  }

  /**
   * A run that completes reads and then saves, once each, exactly the
   * selected file of every row whose label is selected, in row order.
   */
  lemma {:induction false} CompletedRunSaves(apply: RowUpdate, sel: map<string, string>, t: Table, i: nat, d: Disk)
    requires WellFormed(t) && i <= |t.rows| && LabelColumn(t.columns).Some?
    requires UpdateRows(apply, sel, t, i, d).0 == Returned(0)
    ensures UpdateRows(apply, sel, t, i, d).1.saves == d.saves + Matching(sel, t, LabelColumn(t.columns).value, i)
    ensures UpdateRows(apply, sel, t, i, d).1.loaded == d.loaded + Matching(sel, t, LabelColumn(t.columns).value, i)
    decreases |t.rows| - i
  {
    if i < |t.rows| {
      var li := LabelColumn(t.columns).value;
      var rowLabel := t.rows[i][li];
      if !(rowLabel.Text? && rowLabel.s in sel) {
        CompletedRunSaves(apply, sel, t, i + 1, d);
      } else {
        var path := sel[rowLabel.s];
        var ds := apply(d.files[path], t.rows[i]);
        var next := Disk(d.files[path := ds], d.loaded + [path], d.saves + [path]);
        CompletedRunSaves(apply, sel, t, i + 1, next);
        assert Matching(sel, t, li, i) == [path] + Matching(sel, t, li, i + 1);
        AppendOne(d.saves, path, Matching(sel, t, li, i + 1));
        AppendOne(d.loaded, path, Matching(sel, t, li, i + 1));
      }
    }
  }

  lemma AppendOne(a: seq<string>, p: string, rest: seq<string>)
    ensures a + [p] + rest == a + ([p] + rest)
  {
  }

  /** `b` is `a` followed by entries none of which is `p`. */
  predicate ExtendsWithout(a: seq<string>, b: seq<string>, p: string)
  {
    |a| <= |b| && b[..|a|] == a && p !in b[|a|..]
  }

  /** A file that no selected base name maps to is never read, written or saved. */
  lemma {:induction false} UnselectedUntouched(apply: RowUpdate, sel: map<string, string>, t: Table, i: nat, d: Disk, p: string)
    requires WellFormed(t) && i <= |t.rows| && p !in sel.Values
    ensures var after := UpdateRows(apply, sel, t, i, d).1;
            && (p in d.files <==> p in after.files)
            && (p in d.files ==> after.files[p] == d.files[p])
            && ExtendsWithout(d.saves, after.saves, p)
            && ExtendsWithout(d.loaded, after.loaded, p)
    decreases |t.rows| - i
  {
    if i < |t.rows| && LabelColumn(t.columns).Some? {
      var li := LabelColumn(t.columns).value;
      var rowLabel := t.rows[i][li];
      if !(rowLabel.Text? && rowLabel.s in sel) {
        UnselectedUntouched(apply, sel, t, i + 1, d, p);
      } else {
        var path := sel[rowLabel.s];
        assert path in sel.Values;
        if path in d.files {
          var ds := apply(d.files[path], t.rows[i]);
          var next := Disk(d.files[path := ds], d.loaded + [path], d.saves + [path]);
          UnselectedUntouched(apply, sel, t, i + 1, next, p);
          ExtendsStep(d.saves, path, UpdateRows(apply, sel, t, i, d).1.saves, p);
          ExtendsStep(d.loaded, path, UpdateRows(apply, sel, t, i, d).1.loaded, p);
        }
      }
    }
  }

  /** One entry other than `p`, then more such entries. */
  lemma ExtendsStep(a: seq<string>, q: string, b: seq<string>, p: string)
    requires q != p && ExtendsWithout(a + [q], b, p)
    ensures ExtendsWithout(a, b, p)
  {
    assert b[..|a|] == (a + [q])[..|a|];
    assert b[|a|..] == [q] + b[|a| + 1..];
  }

  /**
   * `update_tags(files, tags)` on the parsed table and the disk. Answers the
   * outcome and the disk afterwards.
   */
  method UpdateTags(x: Externals, files: seq<FileInfo>, t: Table, disk: Disk) returns (out: Outcome, after: Disk)
    requires WellFormed(t)
    ensures (out, after) == UpdateOutcome(x, files, t, disk)
    // -1 exactly when some non-Label column fails resolution, and then no file is read or written
    ensures out == Returned(-1) <==> BadColumns(x, t.columns, |t.columns|) != []
    ensures out == Returned(-1) ==> after == disk
  {
    var sel := SelectFiles(files);
    var valid := ColumnsResolve(x, t.columns);
    if !valid {
      return Returned(-1), disk;
    }
    var li := LabelColumn(t.columns);
    ghost var apply := SetRow(x, t.columns);
    var d := disk;
    var i := 0;
    while i < |t.rows|
      invariant i <= |t.rows|
      invariant UpdateRows(apply, sel, t, i, d) == UpdateRows(apply, sel, t, 0, disk)
    {
      if li.None? {
        return Raised(LabelMissing), d;
      }
      var rowLabel := t.rows[i][li.value];
      if !(rowLabel.Text? && rowLabel.s in sel) {
        i := i + 1;
        continue;
      }
      var path := sel[rowLabel.s];
      d := d.(loaded := d.loaded + [path]);
      if path !in d.files {
        return Raised(ReadFailed(path)), d;
      }
      var ds := UpdateRow(x, d.files[path], t.columns, t.rows[i]);
      assert ds == apply(d.files[path], t.rows[i]);
      d := d.(files := d.files[path := ds], saves := d.saves + [path]);
      i := i + 1;
    }
    RowsNeverReject(apply, sel, t, 0, disk);
    return Returned(0), d;
  }

  /** The inner loop of `update_tags`: each non-`Label` cell of the row, tried in column order. */
  method UpdateRow(x: Externals, ds0: Dataset, cols: seq<string>, row: seq<Value>) returns (ds: Dataset)
    requires |row| == |cols|
    ensures ds == ApplyRow(x, ds0, cols, row, |cols|)
  {
    ds := ds0;
    for k := 0 to |cols|
      invariant ds == ApplyRow(x, ds0, cols, row, k)
    {
      if cols[k] != Label {
        ds := AddCell(x, ds, cols[k], row[k]);
      }
    }
  }

  /** The files dictionary of `update_tags`, built file by file. */
  method SelectFiles(files: seq<FileInfo>) returns (sel: map<string, string>)
    ensures sel == Selected(files, |files|)
  {
    sel := map[];
    for i := 0 to |files|
      invariant sel == Selected(files, i)
    {
      sel := sel[files[i].baseName := files[i].path];
    }
  }

  /**
   * The column check of `update_tags`: stops at the first column that is
   * neither `Label` nor a tag name, and answers whether there was none.
   */
  method ColumnsResolve(x: Externals, cols: seq<string>) returns (valid: bool)
    ensures valid <==> BadColumns(x, cols, |cols|) == []
  {
    for i := 0 to |cols|
      invariant BadColumns(x, cols, i) == []
    {
      if cols[i] != Label && !Resolves(x, cols[i]) {
        BadColumnsPrefix(x, cols, i + 1, |cols|);
        return false;
      }
    }
    return true;
  }
}
