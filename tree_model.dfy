/**
 * `TreeModel`: the study / series / file tree built from a DICOM directory,
 * each node labelled with how it corresponds to the JSON tag specification.
 *
 * The directory walk and the JSON load are not modelled: a `Folder` holds
 * their results, the `*.json` names, the study → series → files listing and
 * the parsed specification. The nested loops of `setupModelData` are split
 * into one method per level (`AppendStudy`, `AppendSeries`, `AppendFile`),
 * each proved to produce an exact arena layout (`StudyNodes`, `SeriesNodes`,
 * `FileNode`). The layout's statuses come from the declarative
 * `StudyStatus`, `SeriesStatus` and `FileStatus`, and `BuiltTreeCorresponds`
 * restates them on the finished arena, node by node, through child links.
 */
module TreeModels {
  import opened Wrappers
  import opened Dicom
  import opened TreeItems

  /** A series directory: its name and the entries it lists. */
  datatype SeriesDir = SeriesDir(name: string, files: seq<string>)

  /** A study directory: its name and its series, in listing order. */
  datatype StudyDir = StudyDir(name: string, series: seq<SeriesDir>)

  /**
   * A series of the JSON specification: its `"files"` object, each file name
   * to the entries of that file's JSON object. In the documented layout a
   * file's object has the single entry `"tags"`, whose value is an `Object`
   * of tag names to values; `setupModelData` hands the entries to `set_tags`
   * as they are (see `DocumentedEntryTags`).
   */
  datatype SeriesSpec = SeriesSpec(files: map<string, JsonObject>)

  /** The JSON specification: study name to series name to series. */
  type Spec = map<string, map<string, SeriesSpec>>

  /**
   * What `setModel` finds in a directory: the names matching `*.json`, the
   * study → series → files listing, and the content of the JSON file.
   */
  datatype Folder = Folder(jsonFiles: seq<string>, studies: seq<StudyDir>, spec: Spec)

  /** What every step of the build reads: the specification, the root's column count and `check_tag`. */
  datatype Ctx = Ctx(spec: Spec, columns: nat, checkTag: (string, Value) -> (bool, Value))

  // ---------------------------------------------------------------------
  // Correspondence of one node with the specification
  // ---------------------------------------------------------------------

  /** `series_present`: false when the study is absent, else whether the series is a key. */
  predicate SeriesPresent(spec: Spec, study: string, series: string)
  {
    if study !in spec then false else series in spec[study]
  }

  /**
   * A file is CORRECT when its series is present and it is a key of the
   * series' files, and NOT_PRESENT otherwise.
   */
  function FileStatus(spec: Spec, study: string, series: string, file: string): (r: Correspondence)
    ensures r != NotCorrect
    ensures r == Correct <==> study in spec && series in spec[study] && file in spec[study][series].files
  {
    if SeriesPresent(spec, study, series) && file in spec[study][series].files then Correct else NotPresent
  }

  /** A series is NOT_PRESENT when absent, CORRECT when present and all its files are. */
  function SeriesStatus(spec: Spec, study: string, s: SeriesDir): (r: Correspondence)
    ensures r == NotPresent <==> study !in spec || s.name !in spec[study]
    // CORRECT exactly when every listed file is a key of the series' `"files"`
    ensures r == Correct <==> study in spec && s.name in spec[study]
                              && forall k :: 0 <= k < |s.files| ==> s.files[k] in spec[study][s.name].files
    ensures r == NotCorrect <==> study in spec && s.name in spec[study]
                                 && exists k :: 0 <= k < |s.files| && s.files[k] !in spec[study][s.name].files
  {
    if !SeriesPresent(spec, study, s.name) then NotPresent
    else if forall k :: 0 <= k < |s.files| ==> FileStatus(spec, study, s.name, s.files[k]) == Correct then Correct
    else NotCorrect
  }

  /** A study is NOT_PRESENT when absent, CORRECT when present and all its series are. */
  function StudyStatus(spec: Spec, st: StudyDir): (r: Correspondence)
    ensures r == NotPresent <==> st.name !in spec
    // CORRECT exactly when every listed series is in the study and lists only files the specification has
    ensures r == Correct <==> st.name in spec
                              && forall j :: 0 <= j < |st.series| ==> SeriesListed(spec, st.name, st.series[j])
  {
    if st.name !in spec then NotPresent
    else if forall j :: 0 <= j < |st.series| ==> SeriesStatus(spec, st.name, st.series[j]) == Correct then Correct
    else NotCorrect
  }

  /** The series is a key of the study, and each of its files is a key of the series' `"files"`. */
  predicate SeriesListed(spec: Spec, study: string, s: SeriesDir)
    requires study in spec
  {
    s.name in spec[study] && forall k :: 0 <= k < |s.files| ==> s.files[k] in spec[study][s.name].files
  }

  /** The tags `set_tags` is given for a file: its entry when the file is CORRECT, none otherwise. */
  function FileEntries(spec: Spec, study: string, series: string, file: string): JsonObject
  {
    if FileStatus(spec, study, series, file) == Correct then spec[study][series].files[file] else []
  }

  // ---------------------------------------------------------------------
  // The arena layout the build produces
  // ---------------------------------------------------------------------

  /** A fresh node's columns after `set_data(0, name)`. */
  function NameRow(columns: int, name: string): (r: seq<Value>)
    ensures |r| == if columns > 0 then columns else 0
    ensures columns > 0 ==> CellAt(r, 0) == Text(name)
    ensures forall c :: c != 0 ==> CellAt(r, c) == Null
  {
    WithCell(Nulls(columns), 0, Text(name))
  }

  /** `start, start + 1, ..., start + len - 1`. */
  function Range(start: nat, len: nat): (r: seq<nat>)
    ensures |r| == len && forall k :: 0 <= k < len ==> r[k] == start + k
  {
    seq(len, k requires 0 <= k < len => start + k)
  }

  /** A node just appended by `insert_children(child_count(), 1, columns)` and named by `set_data(0, name)`. */
  function NamedNode(parent: nat, columns: nat, name: string): Item
  {
    Item(NameRow(columns, name), NotCorrect, Some(parent), [], map[], [])
  }

  /** The node a file becomes. */
  function FileNode(ctx: Ctx, study: string, series: string, file: string, parent: nat): Item
  {
    var entries := FileEntries(ctx.spec, study, series, file);
    Item(NameRow(ctx.columns, file), FileStatus(ctx.spec, study, series, file), Some(parent), [],
         CheckedTags(entries, ctx.checkTag), RejectedNames(entries, ctx.checkTag))
  }

  /** The nodes of the first `n` files of a series. */
  function FileNodes(ctx: Ctx, study: string, series: string, files: seq<string>, n: nat, parent: nat): (r: seq<Item>)
    requires n <= |files|
    ensures |r| == n
    ensures forall k :: 0 <= k < n ==> r[k] == FileNode(ctx, study, series, files[k], parent)
  {
    seq(n, k requires 0 <= k < n => FileNode(ctx, study, series, files[k], parent))
  }

  function SeriesSize(s: SeriesDir): nat
  {
    1 + |s.files|
  }

  /** A series node at `base`, followed by its file nodes. */
  function SeriesNodes(ctx: Ctx, study: string, s: SeriesDir, parent: nat, base: nat): (r: seq<Item>)
    ensures |r| == SeriesSize(s)
  {
    [Item(NameRow(ctx.columns, s.name), SeriesStatus(ctx.spec, study, s), Some(parent),
          Range(base + 1, |s.files|), map[], [])]
    + FileNodes(ctx, study, s.name, s.files, |s.files|, base)
  }

  /** How many nodes the first `n` series take. */
  function SeriesListSize(ss: seq<SeriesDir>, n: nat): nat
    requires n <= |ss|
  {
    if n == 0 then 0 else SeriesListSize(ss, n - 1) + SeriesSize(ss[n - 1])
  }

  /** The first `n` series of a study, one after the other from `start`. */
  function SeriesListNodes(ctx: Ctx, study: string, ss: seq<SeriesDir>, n: nat, parent: nat, start: nat): (r: seq<Item>)
    requires n <= |ss|
    ensures |r| == SeriesListSize(ss, n)
  {
    if n == 0 then []
    else SeriesListNodes(ctx, study, ss, n - 1, parent, start)
         + SeriesNodes(ctx, study, ss[n - 1], parent, start + SeriesListSize(ss, n - 1))
  }

  /** Where each series node of `SeriesListNodes(..., n, _, start)` sits. */
  function SeriesIdxs(ss: seq<SeriesDir>, n: nat, start: nat): (r: seq<nat>)
    requires n <= |ss|
    ensures |r| == n
  {
    if n == 0 then [] else SeriesIdxs(ss, n - 1, start) + [start + SeriesListSize(ss, n - 1)]
  }

  function StudySize(st: StudyDir): nat
  {
    1 + SeriesListSize(st.series, |st.series|)
  }

  /** A study node at `base`, followed by its series. */
  function StudyNodes(ctx: Ctx, st: StudyDir, parent: nat, base: nat): (r: seq<Item>)
    ensures |r| == StudySize(st)
  {
    [Item(NameRow(ctx.columns, st.name), StudyStatus(ctx.spec, st), Some(parent),
          SeriesIdxs(st.series, |st.series|, base + 1), map[], [])]
    + SeriesListNodes(ctx, st.name, st.series, |st.series|, base, base + 1)
  }

  /** How many nodes the first `n` studies take. */
  function StudyListSize(sts: seq<StudyDir>, n: nat): nat
    requires n <= |sts|
  {
    if n == 0 then 0 else StudyListSize(sts, n - 1) + StudySize(sts[n - 1])
  }

  /** The first `n` studies, one after the other from `start`. */
  function StudyListNodes(ctx: Ctx, sts: seq<StudyDir>, n: nat, parent: nat, start: nat): (r: seq<Item>)
    requires n <= |sts|
    ensures |r| == StudyListSize(sts, n)
  {
    if n == 0 then []
    else StudyListNodes(ctx, sts, n - 1, parent, start)
         + StudyNodes(ctx, sts[n - 1], parent, start + StudyListSize(sts, n - 1))
  }

  /** Where each study node of `StudyListNodes(..., n, _, start)` sits. */
  function StudyIdxs(sts: seq<StudyDir>, n: nat, start: nat): (r: seq<nat>)
    requires n <= |sts|
    ensures |r| == n
  {
    if n == 0 then [] else StudyIdxs(sts, n - 1, start) + [start + StudyListSize(sts, n - 1)]
  }

  /** The arena after `setupModelData` has appended the first `n` studies under `root`. */
  function BuiltUpTo(a: seq<Item>, ctx: Ctx, studies: seq<StudyDir>, n: nat, root: nat): seq<Item>
    requires root < |a| && n <= |studies|
  {
    a[root := a[root].(children := a[root].children + StudyIdxs(studies, n, |a|))]
    + StudyListNodes(ctx, studies, n, root, |a|)
  }

  /** The arena after `setupModelData(studies, spec, root)` on `a`. */
  function Built(a: seq<Item>, ctx: Ctx, studies: seq<StudyDir>, root: nat): seq<Item>
    requires root < |a|
  {
    BuiltUpTo(a, ctx, studies, |studies|, root)
  }

  /** A study node `n0` just appended after `prefix`, with its first `n` series appended. */
  function StudyUpTo(prefix: seq<Item>, n0: Item, ctx: Ctx, st: StudyDir, n: nat): seq<Item>
    requires n <= |st.series|
  {
    prefix + [n0.(children := SeriesIdxs(st.series, n, |prefix| + 1))]
    + SeriesListNodes(ctx, st.name, st.series, n, |prefix|, |prefix| + 1)
  }

  /** A series node `n0` just appended after `prefix`, with its first `n` files appended. */
  function SeriesUpTo(prefix: seq<Item>, n0: Item, ctx: Ctx, study: string, s: SeriesDir, n: nat): seq<Item>
    requires n <= |s.files|
  {
    prefix + [n0.(children := Range(|prefix| + 1, n))]
    + FileNodes(ctx, study, s.name, s.files, n, |prefix|)
  }

  // ---------------------------------------------------------------------
  // The build, one loop level per method
  // ---------------------------------------------------------------------

  /**
   * The step each loop of `setupModelData` begins with: append one child
   * with the root's column count, take it as `last_child()` and write the
   * name into column 0. Answers the new child's index.
   */
  method AppendNamedChild(tree: ItemTree, parent: nat, name: string) returns (c: nat)
    requires tree.Valid() && parent < |tree.items|
    modifies tree
    ensures tree.Valid() && c == |old(tree.items)|
    ensures tree.items == old(tree.items)[parent := old(tree.items)[parent].(
              children := old(tree.items)[parent].children + [c])]
              + [NamedNode(parent, |old(tree.items)[0].data|, name)]
  {
    ghost var a := tree.items;
    var cols := tree.ColumnCount(0);
    var ok := tree.InsertChildren(parent, tree.ChildCount(parent), 1, cols);
    assert a[parent].children[..|a[parent].children|] + FreshRun(|a|, 1)
           + a[parent].children[|a[parent].children|..] == a[parent].children + [|a|];
    c := tree.LastChild(parent).value;
    ok := tree.SetData(c, 0, Text(name));
  }

  /**
   * The innermost loop body of `setupModelData`: append a file node under
   * the series, label it, and give a CORRECT file its tags.
   * Answers whether the file came out CORRECT.
   */
  method AppendFile(tree: ItemTree, series: nat, ctx: Ctx, studyName: string, seriesName: string,
                    seriesPresent: bool, file: string) returns (correct: bool)
    requires tree.Valid() && series < |tree.items| && ctx.columns == |tree.items[0].data|
    requires seriesPresent == SeriesPresent(ctx.spec, studyName, seriesName)
    modifies tree
    ensures tree.Valid()
    ensures tree.items == old(tree.items)[series := old(tree.items)[series].(
              children := old(tree.items)[series].children + [|old(tree.items)|])]
              + [FileNode(ctx, studyName, seriesName, file, series)]
    ensures correct == (FileStatus(ctx.spec, studyName, seriesName, file) == Correct)
  {
    var f := AppendNamedChild(tree, series, file);
    tree.SetInTags(f, if seriesPresent && file in ctx.spec[studyName][seriesName].files then Correct else NotPresent);
    correct := tree.IsCorrect(f);
    if correct {
      tree.SetTags(f, ctx.spec[studyName][seriesName].files[file], ctx.checkTag);
    }
    assert tree.items[f] == FileNode(ctx, studyName, seriesName, file, series);
  }

  /**
   * The middle loop body: append a series node under the study, append its
   * files, then label it from `series_all_correct`.
   * Answers whether the series came out CORRECT.
   */
  method AppendSeries(tree: ItemTree, study: nat, ctx: Ctx, studyName: string, studyPresent: bool,
                      s: SeriesDir) returns (correct: bool)
    requires tree.Valid() && study < |tree.items| && ctx.columns == |tree.items[0].data|
    requires studyPresent == (studyName in ctx.spec)
    modifies tree
    ensures tree.Valid()
    ensures tree.items == old(tree.items)[study := old(tree.items)[study].(
              children := old(tree.items)[study].children + [|old(tree.items)|])]
              + SeriesNodes(ctx, studyName, s, study, |old(tree.items)|)
    ensures correct == (SeriesStatus(ctx.spec, studyName, s) == Correct)
  {
    ghost var a := tree.items;
    var si := AppendNamedChild(tree, study, s.name);
    ghost var prefix := a[study := a[study].(children := a[study].children + [si])];
    var seriesPresent := if !studyPresent then false else s.name in ctx.spec[studyName];
    assert tree.items == SeriesUpTo(prefix, NamedNode(study, ctx.columns, s.name), ctx, studyName, s, 0);
    var allCorrect := AppendFiles(tree, si, ctx, studyName, seriesPresent, s, prefix, NamedNode(study, ctx.columns, s.name));
    ghost var before := tree.items;
    tree.SetInTags(si, if allCorrect then Correct else if seriesPresent then NotCorrect else NotPresent);
    correct := tree.IsCorrect(si);
    SeriesClose(before, tree.items, prefix, ctx, studyName, s, study);
  }

  /**
   * The innermost loop of `setupModelData`, over the files of one series,
   * keeping `series_all_correct`.
   */
  method AppendFiles(tree: ItemTree, si: nat, ctx: Ctx, studyName: string, seriesPresent: bool, s: SeriesDir,
                     ghost prefix: seq<Item>, ghost n0: Item) returns (allCorrect: bool)
    requires tree.Valid() && ctx.columns == |tree.items[0].data| && si == |prefix|
    requires seriesPresent == SeriesPresent(ctx.spec, studyName, s.name)
    requires tree.items == SeriesUpTo(prefix, n0, ctx, studyName, s, 0)
    modifies tree
    ensures tree.Valid() && tree.items == SeriesUpTo(prefix, n0, ctx, studyName, s, |s.files|)
    ensures allCorrect == (seriesPresent && forall k :: 0 <= k < |s.files| ==>
                             FileStatus(ctx.spec, studyName, s.name, s.files[k]) == Correct)
  {
    allCorrect := seriesPresent;
    var i := 0;
    while i < |s.files|
      invariant 0 <= i <= |s.files|
      invariant tree.Valid() && ctx.columns == |tree.items[0].data|
      invariant tree.items == SeriesUpTo(prefix, n0, ctx, studyName, s, i)
      invariant allCorrect == (seriesPresent && forall k :: 0 <= k < i ==>
                                 FileStatus(ctx.spec, studyName, s.name, s.files[k]) == Correct)
    {
      ghost var before := tree.items;
      var fileCorrect := AppendFile(tree, si, ctx, studyName, s.name, seriesPresent, s.files[i]);
      FileStep(before, tree.items, prefix, n0, ctx, studyName, s, i);
      if !fileCorrect {
        allCorrect := false;
      }
      i := i + 1;
    }
  }

  /**
   * The outer loop body: append a study node under the root, append its
   * series, then label it from `study_all_correct`.
   */
  method AppendStudy(tree: ItemTree, root: nat, ctx: Ctx, st: StudyDir)
    requires tree.Valid() && root < |tree.items| && ctx.columns == |tree.items[0].data|
    modifies tree
    ensures tree.Valid()
    ensures tree.items == old(tree.items)[root := old(tree.items)[root].(
              children := old(tree.items)[root].children + [|old(tree.items)|])]
              + StudyNodes(ctx, st, root, |old(tree.items)|)
  {
    ghost var a := tree.items;
    var x := AppendNamedChild(tree, root, st.name);
    ghost var prefix := a[root := a[root].(children := a[root].children + [x])];
    var studyPresent := st.name in ctx.spec;
    assert tree.items == StudyUpTo(prefix, NamedNode(root, ctx.columns, st.name), ctx, st, 0);
    var allCorrect := AppendSeriesList(tree, x, ctx, studyPresent, st, prefix, NamedNode(root, ctx.columns, st.name));
    ghost var before := tree.items;
    tree.SetInTags(x, if allCorrect then Correct else if studyPresent then NotCorrect else NotPresent);
    StudyClose(before, tree.items, prefix, ctx, st, root);
  }

  /**
   * The middle loop of `setupModelData`, over the series of one study,
   * keeping `study_all_correct`.
   */
  method AppendSeriesList(tree: ItemTree, x: nat, ctx: Ctx, studyPresent: bool, st: StudyDir,
                          ghost prefix: seq<Item>, ghost n0: Item) returns (allCorrect: bool)
    requires tree.Valid() && ctx.columns == |tree.items[0].data| && x == |prefix|
    requires studyPresent == (st.name in ctx.spec)
    requires tree.items == StudyUpTo(prefix, n0, ctx, st, 0)
    modifies tree
    ensures tree.Valid() && tree.items == StudyUpTo(prefix, n0, ctx, st, |st.series|)
    ensures allCorrect == (studyPresent && forall k :: 0 <= k < |st.series| ==>
                             SeriesStatus(ctx.spec, st.name, st.series[k]) == Correct)
  {
    allCorrect := studyPresent;
    var j := 0;
    while j < |st.series|
      invariant 0 <= j <= |st.series|
      invariant tree.Valid() && ctx.columns == |tree.items[0].data|
      invariant tree.items == StudyUpTo(prefix, n0, ctx, st, j)
      invariant allCorrect == (studyPresent && forall k :: 0 <= k < j ==>
                                 SeriesStatus(ctx.spec, st.name, st.series[k]) == Correct)
    {
      var seriesCorrect := AppendSeriesAt(tree, x, ctx, studyPresent, st, j, prefix, n0);
      if !seriesCorrect {
        allCorrect := false;
      }
      j := j + 1;
    }
  }

  /** One turn of the series loop: the `j`-th series subtree goes under the study node `x`. */
  method AppendSeriesAt(tree: ItemTree, x: nat, ctx: Ctx, studyPresent: bool, st: StudyDir, j: nat,
                        ghost prefix: seq<Item>, ghost n0: Item) returns (correct: bool)
    requires tree.Valid() && ctx.columns == |tree.items[0].data| && x == |prefix| && j < |st.series|
    requires studyPresent == (st.name in ctx.spec)
    requires tree.items == StudyUpTo(prefix, n0, ctx, st, j)
    modifies tree
    ensures tree.Valid() && ctx.columns == |tree.items[0].data|
    ensures tree.items == StudyUpTo(prefix, n0, ctx, st, j + 1)
    ensures correct == (SeriesStatus(ctx.spec, st.name, st.series[j]) == Correct)
  {
    ghost var before := tree.items;
    correct := AppendSeries(tree, x, ctx, st.name, studyPresent, st.series[j]);
    SeriesStep(before, tree.items, prefix, n0, ctx, st, j);
  }

  /** One more child subtree `more` appended under the node `n0` that follows `prefix`. */
  lemma OpenStep(before: seq<Item>, after: seq<Item>, prefix: seq<Item>, n0: Item,
                 kids: seq<nat>, made: seq<Item>, more: seq<Item>)
    requires before == prefix + [n0.(children := kids)] + made
    requires after == before[|prefix| := before[|prefix|].(children := before[|prefix|].children + [|before|])] + more
    ensures after == prefix + [n0.(children := kids + [|prefix| + 1 + |made|])] + (made + more)
  {
    assert before[|prefix| := before[|prefix|].(children := before[|prefix|].children + [|before|])]
           == prefix + [n0.(children := kids + [|prefix| + 1 + |made|])] + made;
  }

  /** The loop step of `AppendSeries`. */
  lemma FileStep(before: seq<Item>, after: seq<Item>, prefix: seq<Item>, n0: Item, ctx: Ctx,
                 study: string, s: SeriesDir, i: nat)
    requires i < |s.files| && before == SeriesUpTo(prefix, n0, ctx, study, s, i)
    requires after == before[|prefix| := before[|prefix|].(children := before[|prefix|].children + [|before|])]
                      + [FileNode(ctx, study, s.name, s.files[i], |prefix|)]
    ensures after == SeriesUpTo(prefix, n0, ctx, study, s, i + 1)
  {
    OpenStep(before, after, prefix, n0, Range(|prefix| + 1, i), FileNodes(ctx, study, s.name, s.files, i, |prefix|),
             [FileNode(ctx, study, s.name, s.files[i], |prefix|)]);
    FileListGrows(ctx, study, s.name, s.files, i, |prefix|);
  }

  /** The loop step of `AppendStudy`. */
  lemma SeriesStep(before: seq<Item>, after: seq<Item>, prefix: seq<Item>, n0: Item, ctx: Ctx, st: StudyDir, j: nat)
    requires j < |st.series| && before == StudyUpTo(prefix, n0, ctx, st, j)
    requires after == before[|prefix| := before[|prefix|].(children := before[|prefix|].children + [|before|])]
                      + SeriesNodes(ctx, st.name, st.series[j], |prefix|, |before|)
    ensures after == StudyUpTo(prefix, n0, ctx, st, j + 1)
  {
    OpenStep(before, after, prefix, n0, SeriesIdxs(st.series, j, |prefix| + 1),
             SeriesListNodes(ctx, st.name, st.series, j, |prefix|, |prefix| + 1),
             SeriesNodes(ctx, st.name, st.series[j], |prefix|, |before|));
    SeriesListGrows(ctx, st.name, st.series, j, |prefix|, |prefix| + 1);
  }

  /** The loop step of `SetupModelData`. */
  lemma StudyStep(before: seq<Item>, after: seq<Item>, a: seq<Item>, ctx: Ctx, studies: seq<StudyDir>, i: nat, root: nat)
    requires root < |a| && i < |studies| && before == BuiltUpTo(a, ctx, studies, i, root)
    requires after == before[root := before[root].(children := before[root].children + [|before|])]
                      + StudyNodes(ctx, studies[i], root, |before|)
    ensures after == BuiltUpTo(a, ctx, studies, i + 1, root)
  {
    var kids := a[root].children + StudyIdxs(studies, i, |a|);
    var made := StudyListNodes(ctx, studies, i, root, |a|);
    ChildAppended(before, after, a, root, kids, made, StudyNodes(ctx, studies[i], root, |before|));
    StudyListGrows(ctx, studies, i, root, |a|);
    assert kids + [|a| + |made|] == a[root].children + StudyIdxs(studies, i + 1, |a|);
  }

  /** One child subtree appended under `p`, after the ones already there. */
  lemma ChildAppended(before: seq<Item>, after: seq<Item>, base: seq<Item>, p: nat,
                      kids: seq<nat>, made: seq<Item>, more: seq<Item>)
    requires p < |base|
    requires before == base[p := base[p].(children := kids)] + made
    requires after == before[p := before[p].(children := before[p].children + [|before|])] + more
    ensures after == base[p := base[p].(children := kids + [|base| + |made|])] + (made + more)
  {
    UpdateAppend(base[p := base[p].(children := kids)], made, p,
                 before[p].(children := before[p].children + [|before|]));
    assert base[p := base[p].(children := kids)][p := before[p].(children := before[p].children + [|before|])]
           == base[p := base[p].(children := kids + [|base| + |made|])];
  }

  lemma FileListGrows(ctx: Ctx, study: string, series: string, files: seq<string>, n: nat, parent: nat)
    requires n < |files|
    ensures Range(parent + 1, n) + [parent + 1 + n] == Range(parent + 1, n + 1)
    ensures FileNodes(ctx, study, series, files, n, parent) + [FileNode(ctx, study, series, files[n], parent)]
            == FileNodes(ctx, study, series, files, n + 1, parent)
  {
  }

  lemma SeriesListGrows(ctx: Ctx, study: string, ss: seq<SeriesDir>, n: nat, parent: nat, start: nat)
    requires n < |ss|
    ensures SeriesIdxs(ss, n, start) + [start + |SeriesListNodes(ctx, study, ss, n, parent, start)|]
            == SeriesIdxs(ss, n + 1, start)
    ensures SeriesListNodes(ctx, study, ss, n, parent, start)
            + SeriesNodes(ctx, study, ss[n], parent, start + |SeriesListNodes(ctx, study, ss, n, parent, start)|)
            == SeriesListNodes(ctx, study, ss, n + 1, parent, start)
  {
  }

  lemma StudyListGrows(ctx: Ctx, sts: seq<StudyDir>, n: nat, parent: nat, start: nat)
    requires n < |sts|
    ensures StudyIdxs(sts, n, start) + [start + |StudyListNodes(ctx, sts, n, parent, start)|]
            == StudyIdxs(sts, n + 1, start)
    ensures StudyListNodes(ctx, sts, n, parent, start)
            + StudyNodes(ctx, sts[n], parent, start + |StudyListNodes(ctx, sts, n, parent, start)|)
            == StudyListNodes(ctx, sts, n + 1, parent, start)
  {
  }

  /** A series node gets its status once all its files are appended. */
  lemma SeriesClose(before: seq<Item>, after: seq<Item>, prefix: seq<Item>, ctx: Ctx, study: string,
                    s: SeriesDir, parent: nat)
    requires before == SeriesUpTo(prefix, NamedNode(parent, ctx.columns, s.name), ctx, study, s, |s.files|)
    requires after == before[|prefix| := before[|prefix|].(status := SeriesStatus(ctx.spec, study, s))]
    ensures after == prefix + SeriesNodes(ctx, study, s, parent, |prefix|)
  {
    var files := FileNodes(ctx, study, s.name, s.files, |s.files|, |prefix|);
    var node := NamedNode(parent, ctx.columns, s.name).(children := Range(|prefix| + 1, |s.files|));
    assert before == prefix + [node] + files;
    assert after == prefix + [node.(status := SeriesStatus(ctx.spec, study, s))] + files;
  }

  /** A study node gets its status once all its series are appended. */
  lemma StudyClose(before: seq<Item>, after: seq<Item>, prefix: seq<Item>, ctx: Ctx, st: StudyDir, parent: nat)
    requires before == StudyUpTo(prefix, NamedNode(parent, ctx.columns, st.name), ctx, st, |st.series|)
    requires after == before[|prefix| := before[|prefix|].(status := StudyStatus(ctx.spec, st))]
    ensures after == prefix + StudyNodes(ctx, st, parent, |prefix|)
  {
    var list := SeriesListNodes(ctx, st.name, st.series, |st.series|, |prefix|, |prefix| + 1);
    var node := NamedNode(parent, ctx.columns, st.name).(children := SeriesIdxs(st.series, |st.series|, |prefix| + 1));
    assert before == prefix + [node] + list;
    assert after == prefix + [node.(status := StudyStatus(ctx.spec, st))] + list;
  }

  // Sequence-slicing facts. These, together with the `*IdxsAt`, `*ListAt`,
  // `*Slice`, `SeriesNodesAt`, `SeriesChildrenAt`, `FileChildren*`, `RangeChildrenCorrect`,
  // `BlockOf` and `BlockWithin` lemmas below, are proof scaffolding that keeps
  // each verification condition small; they model nothing in `treemodel.py`
  // and have no counterpart there.

  lemma SliceInto<T>(r: seq<T>, list: seq<T>, o: nat, sz: nat)
    requires o + sz <= |list|
    ensures (r + list)[|r| + o..|r| + o + sz] == list[o..o + sz]
  {
    var s := (r + list)[|r| + o..|r| + o + sz];
    forall k | 0 <= k < sz
      ensures s[k] == list[o + k]
    {
    }
  }

  lemma SliceInLeft<T>(whole: seq<T>, left: seq<T>, right: seq<T>, lo: nat, hi: nat, block: seq<T>)
    requires whole == left + right && lo <= hi <= |left| && left[lo..hi] == block
    ensures whole[lo..hi] == block
  {
    SliceOfLeft(left, right, lo, hi);
  }

  lemma SliceIsRight<T>(whole: seq<T>, left: seq<T>, right: seq<T>, lo: nat, hi: nat)
    requires whole == left + right && lo == |left| && hi == |left| + |right|
    ensures whole[lo..hi] == right
  {
    SliceOfRight(left, right);
  }

  lemma SliceOfLeft<T>(l: seq<T>, r: seq<T>, lo: nat, hi: nat)
    requires lo <= hi <= |l|
    ensures (l + r)[lo..hi] == l[lo..hi]
  {
  }

  lemma SliceOfSlice<T>(a: seq<T>, lo: nat, hi: nat, i: nat, j: nat)
    requires lo <= hi <= |a| && i <= j <= hi - lo
    ensures a[lo..hi][i..j] == a[lo + i..lo + j]
  {
    var s := a[lo..hi];
    assert |s[i..j]| == |a[lo + i..lo + j]|;
    forall k | 0 <= k < j - i
      ensures s[i..j][k] == a[lo + i..lo + j][k]
    {
      assert s[i..j][k] == s[i + k] == a[lo + i + k];
    }
  }

  lemma SliceOfRight<T>(l: seq<T>, r: seq<T>)
    ensures (l + r)[|l|..|l| + |r|] == r
  {
  }

  // ---------------------------------------------------------------------
  // What the finished arena says, node by node
  // ---------------------------------------------------------------------

  ghost predicate AllChildrenCorrect(a: seq<Item>, x: nat)
    requires x < |a|
  {
    forall c :: c in a[x].children ==> c < |a| && a[c].status == Correct
  }

  /**
   * The status roll-up of `setupModelData`: NOT_PRESENT exactly when absent
   * from the specification, CORRECT exactly when present with every child
   * CORRECT, NOT_CORRECT otherwise.
   */
  ghost predicate RollsUp(a: seq<Item>, x: nat, present: bool)
    requires x < |a|
  {
    && (a[x].status == NotPresent <==> !present)
    && (a[x].status == Correct <==> present && AllChildrenCorrect(a, x))
  }

  ghost predicate Named(it: Item, columns: nat, name: string)
  {
    CellAt(it.data, 0) == (if columns > 0 then Text(name) else Null)
  }

  /**
   * A file node: a leaf named after the file, CORRECT exactly when the
   * specification lists it (never NOT_CORRECT), with tags set from its entry
   * when CORRECT and none otherwise.
   */
  ghost predicate FileCorresponds(a: seq<Item>, z: nat, ctx: Ctx, study: string, series: string, file: string, parent: nat)
  {
    && z < |a| && a[z].parent == Some(parent) && a[z].children == [] && Named(a[z], ctx.columns, file)
    && a[z].status != NotCorrect
    && (a[z].status == Correct <==> study in ctx.spec && series in ctx.spec[study]
                                     && file in ctx.spec[study][series].files)
    && a[z].tags == (if a[z].status == Correct
                     then CheckedTags(ctx.spec[study][series].files[file], ctx.checkTag) else map[])
  }

  /** A series node: named, rolled up from its files, one file node per listed file. */
  ghost predicate SeriesCorresponds(a: seq<Item>, y: nat, ctx: Ctx, study: string, s: SeriesDir, parent: nat)
  {
    && y < |a| && a[y].parent == Some(parent) && Named(a[y], ctx.columns, s.name) && a[y].tags == map[]
    && |a[y].children| == |s.files|
    && RollsUp(a, y, SeriesPresent(ctx.spec, study, s.name))
    && forall k :: 0 <= k < |s.files| ==> FileCorresponds(a, a[y].children[k], ctx, study, s.name, s.files[k], y)
  }

  /** A study node: named, rolled up from its series, one series node per listed series. */
  ghost predicate StudyCorresponds(a: seq<Item>, x: nat, ctx: Ctx, st: StudyDir, parent: nat)
  {
    && x < |a| && a[x].parent == Some(parent) && Named(a[x], ctx.columns, st.name) && a[x].tags == map[]
    && |a[x].children| == |st.series|
    && RollsUp(a, x, st.name in ctx.spec)
    && forall j :: 0 <= j < |st.series| ==> SeriesCorresponds(a, a[x].children[j], ctx, st.name, st.series[j], x)
  }

  lemma SeriesCorrespondsAt(a: seq<Item>, y: nat, ctx: Ctx, study: string, s: SeriesDir, parent: nat)
    requires y + SeriesSize(s) <= |a| && a[y..y + SeriesSize(s)] == SeriesNodes(ctx, study, s, parent, y)
    ensures SeriesCorresponds(a, y, ctx, study, s, parent)
    ensures a[y].status == SeriesStatus(ctx.spec, study, s)
  {
    SeriesNodesAt(a, y, ctx, study, s, parent);
    SeriesChildrenAt(a, y, ctx, study, s, parent);
  }

  lemma SeriesChildrenAt(a: seq<Item>, y: nat, ctx: Ctx, study: string, s: SeriesDir, parent: nat)
    requires y + SeriesSize(s) <= |a| && a[y..y + SeriesSize(s)] == SeriesNodes(ctx, study, s, parent, y)
    ensures |a[y].children| == |s.files|
    ensures forall k :: 0 <= k < |s.files| ==> FileCorresponds(a, a[y].children[k], ctx, study, s.name, s.files[k], y)
    ensures AllChildrenCorrect(a, y) <==> forall k :: 0 <= k < |s.files| ==> FileStatus(ctx.spec, study, s.name, s.files[k]) == Correct
  {
    SeriesNodesAt(a, y, ctx, study, s, parent);
    FileChildrenCorrespond(a, y, ctx, study, s);
    FileChildrenCorrect(a, y, ctx, study, s);
  }

  lemma FileChildrenCorrespond(a: seq<Item>, y: nat, ctx: Ctx, study: string, s: SeriesDir)
    requires y + |s.files| < |a| && a[y].children == Range(y + 1, |s.files|)
    requires forall k :: 0 <= k < |s.files| ==> a[y + 1 + k] == FileNode(ctx, study, s.name, s.files[k], y)
    ensures forall k :: 0 <= k < |s.files| ==> FileCorresponds(a, a[y].children[k], ctx, study, s.name, s.files[k], y)
  {
    forall k | 0 <= k < |s.files|
      ensures FileCorresponds(a, a[y].children[k], ctx, study, s.name, s.files[k], y)
    {
      assert a[y].children[k] == y + 1 + k;
    }
  }

  lemma FileChildrenCorrect(a: seq<Item>, y: nat, ctx: Ctx, study: string, s: SeriesDir)
    requires y + |s.files| < |a| && a[y].children == Range(y + 1, |s.files|)
    requires forall k :: 0 <= k < |s.files| ==> a[y + 1 + k] == FileNode(ctx, study, s.name, s.files[k], y)
    ensures AllChildrenCorrect(a, y) <==> forall k :: 0 <= k < |s.files| ==> FileStatus(ctx.spec, study, s.name, s.files[k]) == Correct
  {
    RangeChildrenCorrect(a, y, |s.files|);
    if forall k :: 0 <= k < |s.files| ==> FileStatus(ctx.spec, study, s.name, s.files[k]) == Correct {
      forall c | y < c <= y + |s.files| ensures a[c].status == Correct {
        assert a[y + 1 + (c - y - 1)] == FileNode(ctx, study, s.name, s.files[c - y - 1], y);
      }
    } else {
      var k :| 0 <= k < |s.files| && FileStatus(ctx.spec, study, s.name, s.files[k]) != Correct;
      assert a[y + 1 + k].status != Correct;
    }
  }

  /** A node whose children are the `n` nodes right after it. */
  lemma RangeChildrenCorrect(a: seq<Item>, y: nat, n: nat)
    requires y + n < |a| && a[y].children == Range(y + 1, n)
    ensures AllChildrenCorrect(a, y) <==> forall c :: y < c <= y + n ==> a[c].status == Correct
  {
    var kids := a[y].children;
    if forall c :: y < c <= y + n ==> a[c].status == Correct {
      forall c | c in kids ensures c < |a| && a[c].status == Correct {
        var k :| 0 <= k < n && kids[k] == c;
      }
    } else {
      var c :| y < c <= y + n && a[c].status != Correct;
      assert kids[c - y - 1] == c;
    }
  }




  lemma SeriesNodesAt(a: seq<Item>, y: nat, ctx: Ctx, study: string, s: SeriesDir, parent: nat)
    requires y + SeriesSize(s) <= |a| && a[y..y + SeriesSize(s)] == SeriesNodes(ctx, study, s, parent, y)
    ensures a[y] == Item(NameRow(ctx.columns, s.name), SeriesStatus(ctx.spec, study, s), Some(parent),
                         Range(y + 1, |s.files|), map[], [])
    ensures forall k :: 0 <= k < |s.files| ==> a[y + 1 + k] == FileNode(ctx, study, s.name, s.files[k], y)
  {
    var nodes := SeriesNodes(ctx, study, s, parent, y);
    assert a[y] == nodes[0];
    forall k | 0 <= k < |s.files|
      ensures a[y + 1 + k] == FileNode(ctx, study, s.name, s.files[k], y)
    {
      assert a[y + 1 + k] == nodes[1 + k];
    }
  }

  /** The `j`-th series node of a study sits after the nodes of the series before it. */
  lemma {:induction false} SeriesIdxsAt(ss: seq<SeriesDir>, n: nat, start: nat, j: nat)
    requires j < n <= |ss|
    ensures SeriesIdxs(ss, n, start)[j] == start + SeriesListSize(ss, j)
    decreases n
  {
    if j < n - 1 {
      SeriesIdxsAt(ss, n - 1, start, j);
    }
  }

  /** The `i`-th study node sits after the nodes of the studies before it. */
  lemma {:induction false} StudyIdxsAt(sts: seq<StudyDir>, n: nat, start: nat, i: nat)
    requires i < n <= |sts|
    ensures StudyIdxs(sts, n, start)[i] == start + StudyListSize(sts, i)
    decreases n
  {
    if i < n - 1 {
      StudyIdxsAt(sts, n - 1, start, i);
    }
  }

  /** The `j`-th of the first `n` series sits where `SeriesIdxs` says, laid out by `SeriesNodes`. */
  lemma {:induction false} SeriesListAt(ctx: Ctx, study: string, ss: seq<SeriesDir>, n: nat, parent: nat, start: nat,
                                       j: nat, base: nat)
    requires j < n <= |ss| && base == start + SeriesListSize(ss, j)
    ensures SeriesListSize(ss, j) + SeriesSize(ss[j]) <= SeriesListSize(ss, n)
    ensures SeriesListNodes(ctx, study, ss, n, parent, start)[SeriesListSize(ss, j)..SeriesListSize(ss, j) + SeriesSize(ss[j])]
            == SeriesNodes(ctx, study, ss[j], parent, base)
    decreases n
  {
    if j < n - 1 {
      SeriesListAt(ctx, study, ss, n - 1, parent, start, j, base);
      SeriesListKeepsEarlier(ctx, study, ss, n, parent, start, j, base);
    } else {
      SeriesListEndsWith(ctx, study, ss, n, parent, start, j, base);
    }
  }

  lemma SeriesListKeepsEarlier(ctx: Ctx, study: string, ss: seq<SeriesDir>, n: nat, parent: nat, start: nat,
                               j: nat, base: nat)
    requires j < n - 1 && n <= |ss|
    requires SeriesListSize(ss, j) + SeriesSize(ss[j]) <= SeriesListSize(ss, n - 1)
    requires SeriesListNodes(ctx, study, ss, n - 1, parent, start)[SeriesListSize(ss, j)..SeriesListSize(ss, j) + SeriesSize(ss[j])]
             == SeriesNodes(ctx, study, ss[j], parent, base)
    ensures SeriesListSize(ss, j) + SeriesSize(ss[j]) <= SeriesListSize(ss, n)
    ensures SeriesListNodes(ctx, study, ss, n, parent, start)[SeriesListSize(ss, j)..SeriesListSize(ss, j) + SeriesSize(ss[j])]
            == SeriesNodes(ctx, study, ss[j], parent, base)
  {
    var o := SeriesListSize(ss, j);
    SliceInLeft(SeriesListNodes(ctx, study, ss, n, parent, start), SeriesListNodes(ctx, study, ss, n - 1, parent, start),
                SeriesNodes(ctx, study, ss[n - 1], parent, start + SeriesListSize(ss, n - 1)),
                o, o + SeriesSize(ss[j]), SeriesNodes(ctx, study, ss[j], parent, base));
  }

  lemma SeriesListEndsWith(ctx: Ctx, study: string, ss: seq<SeriesDir>, n: nat, parent: nat, start: nat,
                           j: nat, base: nat)
    requires j == n - 1 && 0 < n <= |ss| && base == start + SeriesListSize(ss, j)
    ensures SeriesListSize(ss, j) + SeriesSize(ss[j]) <= SeriesListSize(ss, n)
    ensures SeriesListNodes(ctx, study, ss, n, parent, start)[SeriesListSize(ss, j)..SeriesListSize(ss, j) + SeriesSize(ss[j])]
            == SeriesNodes(ctx, study, ss[j], parent, base)
  {
    var o := SeriesListSize(ss, j);
    SliceIsRight(SeriesListNodes(ctx, study, ss, n, parent, start), SeriesListNodes(ctx, study, ss, n - 1, parent, start),
                 SeriesNodes(ctx, study, ss[j], parent, base), o, o + SeriesSize(ss[j]));
  }

  lemma StudySeriesSlice(a: seq<Item>, x: nat, ctx: Ctx, st: StudyDir, parent: nat)
    requires x + StudySize(st) <= |a| && a[x..x + StudySize(st)] == StudyNodes(ctx, st, parent, x)
    ensures a[x].children == SeriesIdxs(st.series, |st.series|, x + 1)
    ensures a[x + 1..x + StudySize(st)] == SeriesListNodes(ctx, st.name, st.series, |st.series|, x, x + 1)
  {
    var nodes := StudyNodes(ctx, st, parent, x);
    var list := SeriesListNodes(ctx, st.name, st.series, |st.series|, x, x + 1);
    assert a[x] == nodes[0];
    SliceOfSlice(a, x, x + StudySize(st), 1, StudySize(st));
    SliceOfRight([nodes[0]], list);
  }

  lemma SeriesOfStudyAt(a: seq<Item>, x: nat, ctx: Ctx, st: StudyDir, j: nat, y: nat)
    requires x + StudySize(st) <= |a|
    requires a[x + 1..x + StudySize(st)] == SeriesListNodes(ctx, st.name, st.series, |st.series|, x, x + 1)
    requires j < |st.series| && y == SeriesIdxs(st.series, |st.series|, x + 1)[j]
    ensures SeriesCorresponds(a, y, ctx, st.name, st.series[j], x)
    ensures a[y].status == SeriesStatus(ctx.spec, st.name, st.series[j])
  {
    SeriesOfStudySlice(a, x, ctx, st, j, y);
    SeriesCorrespondsAt(a, y, ctx, st.name, st.series[j], x);
  }

  /** The nodes of series `j` sit, as laid out, at its index among the study's children. */
  lemma SeriesOfStudySlice(a: seq<Item>, x: nat, ctx: Ctx, st: StudyDir, j: nat, y: nat)
    requires x + StudySize(st) <= |a|
    requires a[x + 1..x + StudySize(st)] == SeriesListNodes(ctx, st.name, st.series, |st.series|, x, x + 1)
    requires j < |st.series| && y == SeriesIdxs(st.series, |st.series|, x + 1)[j]
    ensures y + SeriesSize(st.series[j]) <= |a|
    ensures a[y..y + SeriesSize(st.series[j])] == SeriesNodes(ctx, st.name, st.series[j], x, y)
  {
    SeriesIdxsAt(st.series, |st.series|, x + 1, j);
    SeriesListAt(ctx, st.name, st.series, |st.series|, x, x + 1, j, y);
    BlockWithin(a, x + 1, x + StudySize(st), SeriesListNodes(ctx, st.name, st.series, |st.series|, x, x + 1),
                SeriesListSize(st.series, j), SeriesSize(st.series[j]), SeriesNodes(ctx, st.name, st.series[j], x, y), y);
  }

  /** A block at offset `o` of the slice `a[lo..hi]` is the block of `a` at `lo + o`. */
  lemma BlockWithin<T>(a: seq<T>, lo: nat, hi: nat, list: seq<T>, o: nat, sz: nat, block: seq<T>, y: nat)
    requires lo <= hi <= |a| && a[lo..hi] == list && o + sz <= |list| && list[o..o + sz] == block && y == lo + o
    ensures y + sz <= |a| && a[y..y + sz] == block
  {
    SliceOfSlice(a, lo, hi, o, o + sz);
  }

  lemma StudyCorrespondsAt(a: seq<Item>, x: nat, ctx: Ctx, st: StudyDir, parent: nat)
    requires x + StudySize(st) <= |a| && a[x..x + StudySize(st)] == StudyNodes(ctx, st, parent, x)
    ensures StudyCorresponds(a, x, ctx, st, parent)
  {
    assert a[x] == StudyNodes(ctx, st, parent, x)[0];
    StudySeriesSlice(a, x, ctx, st, parent);
    forall j | 0 <= j < |st.series|
      ensures SeriesCorresponds(a, a[x].children[j], ctx, st.name, st.series[j], x)
      ensures a[a[x].children[j]].status == SeriesStatus(ctx.spec, st.name, st.series[j])
    {
      SeriesOfStudyAt(a, x, ctx, st, j, a[x].children[j]);
    }
    if st.name in ctx.spec && AllChildrenCorrect(a, x) {
      forall j | 0 <= j < |st.series| ensures SeriesStatus(ctx.spec, st.name, st.series[j]) == Correct {
        assert a[x].children[j] in a[x].children;
      }
    }
  }

  /**
   * The `i`-th of the first `n` studies sits where `StudyIdxs` says, at
   * `base`, laid out by `StudyNodes`.
   */
  lemma {:induction false} StudyListAt(ctx: Ctx, sts: seq<StudyDir>, n: nat, parent: nat, start: nat, i: nat, base: nat)
    requires i < n <= |sts| && base == start + StudyListSize(sts, i)
    ensures StudyListSize(sts, i) + StudySize(sts[i]) <= StudyListSize(sts, n)
    ensures StudyListNodes(ctx, sts, n, parent, start)[StudyListSize(sts, i)..StudyListSize(sts, i) + StudySize(sts[i])]
            == StudyNodes(ctx, sts[i], parent, base)
    decreases n
  {
    if i < n - 1 {
      StudyListAt(ctx, sts, n - 1, parent, start, i, base);
      StudyListKeepsEarlier(ctx, sts, n, parent, start, i, base);
    } else {
      StudyListEndsWith(ctx, sts, n, parent, start, i, base);
    }
  }

  lemma StudyListKeepsEarlier(ctx: Ctx, sts: seq<StudyDir>, n: nat, parent: nat, start: nat, i: nat, base: nat)
    requires i < n - 1 && n <= |sts|
    requires StudyListSize(sts, i) + StudySize(sts[i]) <= StudyListSize(sts, n - 1)
    requires StudyListNodes(ctx, sts, n - 1, parent, start)[StudyListSize(sts, i)..StudyListSize(sts, i) + StudySize(sts[i])]
             == StudyNodes(ctx, sts[i], parent, base)
    ensures StudyListSize(sts, i) + StudySize(sts[i]) <= StudyListSize(sts, n)
    ensures StudyListNodes(ctx, sts, n, parent, start)[StudyListSize(sts, i)..StudyListSize(sts, i) + StudySize(sts[i])]
            == StudyNodes(ctx, sts[i], parent, base)
  {
    var o := StudyListSize(sts, i);
    SliceInLeft(StudyListNodes(ctx, sts, n, parent, start), StudyListNodes(ctx, sts, n - 1, parent, start),
                StudyNodes(ctx, sts[n - 1], parent, start + StudyListSize(sts, n - 1)),
                o, o + StudySize(sts[i]), StudyNodes(ctx, sts[i], parent, base));
  }

  lemma StudyListEndsWith(ctx: Ctx, sts: seq<StudyDir>, n: nat, parent: nat, start: nat, i: nat, base: nat)
    requires i == n - 1 && 0 < n <= |sts| && base == start + StudyListSize(sts, i)
    ensures StudyListSize(sts, i) + StudySize(sts[i]) <= StudyListSize(sts, n)
    ensures StudyListNodes(ctx, sts, n, parent, start)[StudyListSize(sts, i)..StudyListSize(sts, i) + StudySize(sts[i])]
            == StudyNodes(ctx, sts[i], parent, base)
  {
    var o := StudyListSize(sts, i);
    SliceIsRight(StudyListNodes(ctx, sts, n, parent, start), StudyListNodes(ctx, sts, n - 1, parent, start),
                 StudyNodes(ctx, sts[i], parent, base), o, o + StudySize(sts[i]));
  }

  /**
   * After `setupModelData`, every earlier node except the root is unchanged,
   * the root keeps its earlier children and gains one study child per listed
   * study, in order, and each of them, its series and their files
   * correspond to the specification as `StudyCorresponds` says.
   */
  lemma BuiltTreeCorresponds(a: seq<Item>, ctx: Ctx, studies: seq<StudyDir>, root: nat)
    requires root < |a|
    ensures var b := Built(a, ctx, studies, root);
            && |b| >= |a|
            && (forall y :: 0 <= y < |a| && y != root ==> b[y] == a[y])
            && b[root].children[..|a[root].children|] == a[root].children
            && |b[root].children| == |a[root].children| + |studies|
            && forall i :: 0 <= i < |studies| ==>
                 StudyCorresponds(b, b[root].children[|a[root].children| + i], ctx, studies[i], root)
  {
    var b := Built(a, ctx, studies, root);
    var idxs := StudyIdxs(studies, |studies|, |a|);
    var list := StudyListNodes(ctx, studies, |studies|, root, |a|);
    var r := a[root := a[root].(children := a[root].children + idxs)];
    assert b == r + list;
    assert b[root].children == a[root].children + idxs;
    forall i | 0 <= i < |studies|
      ensures StudyCorresponds(b, b[root].children[|a[root].children| + i], ctx, studies[i], root)
    {
      assert b[root].children[|a[root].children| + i] == idxs[i];
      StudyOfRootAt(b, r, list, ctx, studies, root, i, idxs[i]);
    }
  }

  lemma StudyOfRootAt(b: seq<Item>, r: seq<Item>, list: seq<Item>, ctx: Ctx, studies: seq<StudyDir>, root: nat, i: nat, x: nat)
    requires i < |studies| && list == StudyListNodes(ctx, studies, |studies|, root, |r|) && b == r + list
    requires x == StudyIdxs(studies, |studies|, |r|)[i]
    ensures StudyCorresponds(b, x, ctx, studies[i], root)
  {
    StudyOfRootSlice(b, r, list, ctx, studies, root, i, x);
    StudyCorrespondsAt(b, x, ctx, studies[i], root);
  }

  /** The nodes of study `i` sit, as laid out, at its index among the root's children. */
  lemma StudyOfRootSlice(b: seq<Item>, r: seq<Item>, list: seq<Item>, ctx: Ctx, studies: seq<StudyDir>, root: nat, i: nat, x: nat)
    requires i < |studies| && list == StudyListNodes(ctx, studies, |studies|, root, |r|) && b == r + list
    requires x == StudyIdxs(studies, |studies|, |r|)[i]
    ensures x + StudySize(studies[i]) <= |b| && b[x..x + StudySize(studies[i])] == StudyNodes(ctx, studies[i], root, x)
  {
    StudyIdxsAt(studies, |studies|, |r|, i);
    StudyListAt(ctx, studies, |studies|, root, |r|, i, x);
    BlockOf(r, list, StudyListSize(studies, i), StudySize(studies[i]), StudyNodes(ctx, studies[i], root, x), b, x);
  }

  /** A block of `list` at offset `o` is the block of `r + list` at `|r| + o`. */
  lemma BlockOf<T>(r: seq<T>, list: seq<T>, o: nat, sz: nat, block: seq<T>, b: seq<T>, x: nat)
    requires b == r + list && o + sz <= |list| && list[o..o + sz] == block && x == |r| + o
    ensures x + sz <= |b| && b[x..x + sz] == block
  {
    SliceInto(r, list, o, sz);
  }

  /** Under an absent study every series and file node is NOT_PRESENT. */
  lemma AbsentStudyNotPresentBelow(b: seq<Item>, x: nat, ctx: Ctx, st: StudyDir, parent: nat)
    requires StudyCorresponds(b, x, ctx, st, parent) && st.name !in ctx.spec
    ensures b[x].status == NotPresent
    ensures forall j :: 0 <= j < |st.series| ==> b[b[x].children[j]].status == NotPresent
    ensures forall j, k :: 0 <= j < |st.series| && 0 <= k < |st.series[j].files| ==>
              b[b[b[x].children[j]].children[k]].status == NotPresent
  {
    forall j, k | 0 <= j < |st.series| && 0 <= k < |st.series[j].files|
      ensures b[b[b[x].children[j]].children[k]].status == NotPresent
    {
      assert SeriesCorresponds(b, b[x].children[j], ctx, st.name, st.series[j], x);
      assert FileCorresponds(b, b[b[x].children[j]].children[k], ctx, st.name, st.series[j].name,
                             st.series[j].files[k], b[x].children[j]);
    }
  }

  /**
   * A file entry in the documented layout, `{"tags": {...}}`: `set_tags`
   * sees one name, `"tags"`, checks the whole tag object as its value, and
   * records `"tags"` as a bad tag when `check_tag` rejects it.
   */
  lemma DocumentedEntryTags(tags: JsonObject, checkTag: (string, Value) -> (bool, Value))
    ensures JsonValue(Object([("tags", Object(tags))]))
    ensures CheckedTags([("tags", Object(tags))], checkTag) == map["tags" := checkTag("tags", Object(tags)).1]
    ensures RejectedNames([("tags", Object(tags))], checkTag) == if checkTag("tags", Object(tags)).0 then [] else ["tags"]
  {
  }

  // ---------------------------------------------------------------------
  // The model object
  // ---------------------------------------------------------------------

  /** The arena `TreeModel(headers, directory)` ends up with. */
  function Loaded(headers: seq<Value>, directory: Option<Folder>, checkTag: (string, Value) -> (bool, Value)): seq<Item>
  {
    var root := [Item(headers, NotCorrect, None, [], map[], [])];
    if directory.Some? && |directory.value.jsonFiles| == 1
    then Built(root, Ctx(directory.value.spec, |headers|, checkTag), directory.value.studies, 0)
    else root
  }

  class TreeModel {
    var directory: Option<Folder>
    const tree: ItemTree

    ghost predicate Valid()
      reads this, tree
    {
      tree.Valid()
    }

    /** `TreeModel(headers, directory)`: a root holding the headers, then `setModel(directory)`. */
    constructor (headers: seq<Value>, directory: Option<Folder>, checkTag: (string, Value) -> (bool, Value))
      ensures Valid() && this.directory == directory
      ensures tree.items == Loaded(headers, directory, checkTag)
    {
      this.directory := None;
      tree := new ItemTree(headers);
      new;
      SetModel(directory, checkTag);
    }

    /**
     * `setModel(directory)`: records the directory, and builds the tree only
     * when there is a directory holding exactly one `*.json` file.
     */
    method SetModel(directory: Option<Folder>, checkTag: (string, Value) -> (bool, Value))
      requires Valid()
      modifies this, tree
      ensures Valid() && this.directory == directory
      ensures !(directory.Some? && |directory.value.jsonFiles| == 1) ==> tree.items == old(tree.items)
      ensures directory.Some? && |directory.value.jsonFiles| == 1 ==>
                tree.items == Built(old(tree.items), Ctx(directory.value.spec, |old(tree.items)[0].data|, checkTag),
                                    directory.value.studies, 0)
    {
      this.directory := directory;
      if directory.None? {
        return;
      }
      if |directory.value.jsonFiles| != 1 {
        return;
      }
      SetupModelData(directory.value.studies, directory.value.spec, 0, checkTag);
    }

    /**
     * `setupModelData(studies, tags_dict, root)`: one study subtree per
     * listed study, appended after the root's existing children.
     */
    method SetupModelData(studies: seq<StudyDir>, spec: Spec, root: nat,
                          checkTag: (string, Value) -> (bool, Value))
      requires Valid() && root < |tree.items|
      modifies tree
      ensures Valid()
      ensures tree.items == Built(old(tree.items), Ctx(spec, |old(tree.items)[0].data|, checkTag), studies, root)
    {
      var ctx := Ctx(spec, tree.ColumnCount(0), checkTag);
      ghost var a := tree.items;
      assert a[root].children + StudyIdxs(studies, 0, |a|) == a[root].children;
      assert a[root := a[root].(children := a[root].children)] == a;
      assert tree.items == BuiltUpTo(a, ctx, studies, 0, root);
      var i := 0;
      while i < |studies|
        invariant 0 <= i <= |studies|
        invariant Valid() && ctx.columns == |tree.items[0].data|
        invariant tree.items == BuiltUpTo(a, ctx, studies, i, root)
      {
        ghost var before := tree.items;
        AppendStudy(tree, root, ctx, studies[i]);
        StudyStep(before, tree.items, a, ctx, studies, i, root);
        i := i + 1;
      }
    }
  }
}
