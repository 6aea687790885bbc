# DICOM tag checker: a verified model of its core

This tool checks a directory of DICOM images, sorted into study and series
sub-directories, against a JSON tag specification. It shows the result as a
tree. Each study, series and file node is labelled with how it corresponds
to the specification:

- CORRECT: present, and every child is CORRECT;
- NOT_PRESENT: absent from the specification;
- NOT_CORRECT: present, but some child is not CORRECT.

Two scripts work on a `;`-separated CSV with one row per image:

- `check_tags` lists the columns that do not name a DICOM tag, and maps each row's `Label` to the row's other cells;
- `update_tags` writes each row's tags into the selected DICOM file whose base name is the row's label.

A small table chooses the upload type of a file from its extension, and
another lists the error codes of Orthanc's REST API.

The model is written in Dafny and is in five modules, one per source file or
shared concern:

- `TreeItems` (`tree_item.dfy`) is the mutable tree node, `TreeItem`.
  - The nodes live in an arena, the class `ItemTree` with a field `items: seq<Item>`, and a node is named by its index.
  - Every `TreeItem` method is an `ItemTree` method. Its contract gives the exact new arena.
  - The recursive column edits are proved against a node-by-node specification, `ApplyColumns`.
- `TreeModels` (`tree_model.dfy`) is the tree model: `setModel` and `setupModelData`.
  - The nested loops of `setupModelData` are one method per loop level. Each is proved to produce an exact arena layout (`StudyNodes`, `SeriesNodes`, `FileNode`).
  - `BuiltTreeCorresponds` reads the finished arena through its child links. It proves that every study, series and file node is named, linked, labelled and given tags as the specification demands.
- `Dicom` (`dicom.dfy`) holds the DICOM vocabulary: VRs, CSV/JSON values, the JSON dicts `json.load` builds (`JsonObject`) and `check_cast`.
  - pydicom's tag resolution, its data dictionary and Python's `str`/`int`/`float`/`bytes` are the uninterpreted fields of `Externals`.
- `TagsCsv` (`tags_csv.dfy`) covers `check_tags` and `update_tags`.
  - The table is an input. The DICOM files are a `Disk` value threaded through the run, which records every read and every save.
  - Each loop is a method proved equal to a recursive specification function, and the lemmas state the promised properties of those functions.
- `UploadTypes` (`upload_types.dfy`) covers `get_type` with its extension table, `ImageType` and `OrthancErrorCode`.

`Wrappers` (`wrappers.dfy`) holds `Option` and `Result`.

The scripts `scripts/tags.py` and `scripts/update_tags.py` contain the same
`check_cast` and `update_tags`. They are modelled once, and the rows below
cite one file or the other.

The code and the design description disagree in one place, and the model
follows the code. `setModel` does not rebuild the tree from scratch: it
appends the new studies after the root's existing children, and with no
directory or no single `*.json` file it leaves the tree as it was
(`TreeModels.TreeModel.SetModel`).

## Model

| member | source | states |
|---|---|---|
| `TreeItems.Nulls` | models/treeitem.py:64 | `[None] * n` has `max(n, 0)` entries, all None |
| `TreeItems.WithCell` | models/treeitem.py:105-110 | writing a column changes that column only; an out-of-range column leaves the row as it was |
| `TreeItems.FreshRun` | models/treeitem.py:63-66 | `count` nodes each inserted at the same position end up in reverse order of creation |
| `TreeItems.IndexOf` | models/treeitem.py:39 | `list.index` answers the first position holding the element |
| `TreeItems.Edit` | models/treeitem.py:73-74 | a column edit that passed its bounds check inserts `count` Nones or pops `count` columns at `position`, keeping the columns before and after in place; a count <= 0 changes nothing |
| `TreeItems.ApplyColumns` | models/treeitem.py:69-103 | the recursive column edit keeps the arena's shape, so the tree stays well formed |
| `TreeItems.ReachedSplit` | models/treeitem.py:76-77 | below a node whose own check passed, the edit reaches exactly the nodes the edits started at its children reach |
| `TreeItems.NoEditWhenStartFails` | models/treeitem.py:70-71 | when the starting node's bounds check fails, no node of the arena changes |
| `TreeItems.ColumnsRoundTrip` | models/treeitem.py:69-103 | `insert_columns(p, k)` followed by `remove_columns(p, k)` from the same node gives every node its columns back |
| `TreeItems.FreshItems` | models/treeitem.py:63-65 | each node `insert_children` creates has the requested number of None columns, the node as parent, status NOT_CORRECT, no children and no tags |
| `TreeItems.CheckedTags` | models/treeitem.py:51-57 | the tag map `set_tags` builds has exactly the names of the given entries as keys |
| `TreeItems.CheckedTagsLastWins` | models/treeitem.py:56 | for each name the map holds the checked value of its last entry |
| `TreeItems.RejectedNames` | models/treeitem.py:52-55 | the names appended to the bad tags are exactly the names of the entries `check_tag` rejects, at most one per entry |
| `TreeItems.RejectedNamesPerKey` | models/treeitem.py:51-55 | over a dict's entries (`JsonObject`, whose keys are distinct) no name is appended twice: at most one per key |
| `TreeItems.InsertFreshKeepsWellFormed` | models/treeitem.py:59-67 | inserting a fresh child at a valid position keeps the tree well formed: every child points back to its parent and no child is listed twice |
| `TreeItems.RemoveChildKeepsWellFormed` | models/treeitem.py:84-91 | removing a child from the list keeps the tree well formed |
| `TreeItems.ItemTree.constructor` | models/treeitem.py:18-24 | a new root holds the headers, has no parent and no children, status NOT_CORRECT, and no tags or bad tags |
| `TreeItems.ItemTree.Child` | models/treeitem.py:26-29 | `child(n)` is None exactly when `n < 0` or `n >= child_count()`, and is otherwise the n-th child |
| `TreeItems.ItemTree.LastChild` | models/treeitem.py:31-32 | `last_child()` is None exactly when there are no children, and is otherwise `child(child_count() - 1)` |
| `TreeItems.ItemTree.ChildCount` | models/treeitem.py:34-35 | `child(k)` answers a node exactly for `0 <= k < child_count()` |
| `TreeItems.ItemTree.ChildNumber` | models/treeitem.py:37-40 | 0 for a parentless node; otherwise the node's first position in its parent's list, or the error `list.index` raises once the node has been removed from it |
| `TreeItems.ItemTree.ChildNumberOfChild` | models/treeitem.py:26-40 | `child_number` of `child(k)` is `k`: the two are inverse on a node's children |
| `TreeItems.ItemTree.Data` | models/treeitem.py:45-48 | `data(c)` is column `c`, or None for any out-of-range column |
| `TreeItems.ItemTree.ColumnCount` | models/treeitem.py:42-43 | `column_count()` is the number of columns: `data(c)` answers column `c` below it and None from it on |
| `TreeItems.ItemTree.SetData` | models/treeitem.py:105-110 | false with no change when the column is out of range; otherwise only that column of that node changes, and `data(c)` then answers the new value |
| `TreeItems.ItemTree.IsCorrect` | models/treeitem.py:112-113 | holds exactly when the status is CORRECT |
| `TreeItems.ItemTree.SetInTags` | models/treeitem.py:115-116 | only the status of that node changes |
| `TreeItems.ItemTree.SetTags` | models/treeitem.py:50-57 | given a dict (`JsonObject`, each key once, in iteration order), the tag map is replaced by the checked values of its entries, and the rejected names are appended, in iteration order, after the earlier bad tags; nothing else changes |
| `TreeItems.ItemTree.InsertChildren` | models/treeitem.py:59-67 | false with no change unless `0 <= position <= child_count()`; otherwise `count` fresh children are inserted at `position`, the children before and after keep their order, and the new nodes are appended to the arena |
| `TreeItems.ItemTree.RemoveChildren` | models/treeitem.py:84-91 | false with no change when `position < 0` or `position + count > child_count()`; otherwise the list becomes `old[..position] + old[position + count..]` (unchanged for a count <= 0) |
| `TreeItems.ItemTree.EditColumns` | models/treeitem.py:69-103 | the shared recursion of the column edits answers this node's bounds check and leaves exactly the arena `ApplyColumns` specifies |
| `TreeItems.ItemTree.InsertColumns` | models/treeitem.py:69-79 | false with no change when the position is outside this node's columns; otherwise Nones are inserted here and at every descendant whose own check passes |
| `TreeItems.ItemTree.RemoveColumns` | models/treeitem.py:93-103 | false with no change when `position < 0` or `position + columns` exceeds this node's columns; otherwise the columns are popped here and at every descendant whose own check passes |
| `TreeModels.FileStatus` | models/treemodel.py:231 | a file is CORRECT exactly when its study is in the specification, its series is in that study and its name is a key of the series' files; it is never NOT_CORRECT |
| `TreeModels.SeriesStatus` | models/treemodel.py:238 | a series is NOT_PRESENT exactly when its study or its key is absent, CORRECT exactly when present and every listed file is a key of its `"files"`, and NOT_CORRECT exactly when present with some listed file missing |
| `TreeModels.StudyStatus` | models/treemodel.py:243 | a study is NOT_PRESENT exactly when absent, and CORRECT exactly when present and every listed series is in it and lists only files it has |
| `TreeModels.NameRow` | models/treemodel.py:214-216 | a new child has the root's column count, with its name in column 0 and None elsewhere |
| `TreeModels.AppendNamedChild` | models/treemodel.py:214-216 | appending a child at the end and naming it adds exactly one named node, last in the parent's list and last in the arena |
| `TreeModels.AppendFile` | models/treemodel.py:228-236 | the file node is appended under its series with its status, and gets tags only when CORRECT; the answer is whether it is CORRECT |
| `TreeModels.AppendFiles` | models/treemodel.py:225-236 | after the file loop the arena is the series node followed by its file nodes, and `series_all_correct` holds exactly when the series is present and every file is CORRECT |
| `TreeModels.AppendSeries` | models/treemodel.py:220-241 | the series subtree is appended under its study with the rolled-up status; the answer is whether the series is CORRECT |
| `TreeModels.AppendSeriesAt` | models/treemodel.py:219-241 | one turn of the series loop appends the next series subtree and answers whether that series is CORRECT |
| `TreeModels.AppendSeriesList` | models/treemodel.py:218-241 | after the series loop `study_all_correct` holds exactly when the study is present and every series is CORRECT |
| `TreeModels.AppendStudy` | models/treemodel.py:213-243 | the study subtree is appended under the root, after its existing children, with the rolled-up status |
| `TreeModels.SeriesCorrespondsAt` | models/treemodel.py:238 | a laid-out series node is named, has one file child per listed file, and is NOT_PRESENT exactly when its study or its key is absent, CORRECT exactly when present with every file CORRECT, and NOT_CORRECT otherwise |
| `TreeModels.StudyCorrespondsAt` | models/treemodel.py:243 | a laid-out study node is named, has one series child per listed series, and rolls up the same way from its series |
| `TreeModels.SeriesOfStudyAt` | models/treemodel.py:219-241 | the series node a study's child link names corresponds to that series |
| `TreeModels.StudyOfRootAt` | models/treemodel.py:212-243 | the study node the root's child link names corresponds to that study |
| `TreeModels.BuiltTreeCorresponds` | models/treemodel.py:211-245 | after `setupModelData` every earlier node except the root is unchanged, the root keeps its children and gains one study child per listed study in order, and every study, series and file node reached through the child links corresponds to the specification |
| `TreeModels.AbsentStudyNotPresentBelow` | models/treemodel.py:224 | under a study absent from the specification every series and file node is NOT_PRESENT, whatever the files are |
| `TreeModels.DocumentedEntryTags` | models/treemodel.py:234 | a file entry of the documented shape `{"tags": {...}}` is a dict `json.load` can produce, and `set_tags` receives the whole entry: the tag map gets the single key `"tags"`, holding the checked value of the inner object, and `"tags"` is a bad tag exactly when `check_tag` rejects it |
| `TreeModels.TreeModel.constructor` | models/treemodel.py:19-30 | the model starts from a root holding the headers, then runs `setModel` on the directory |
| `TreeModels.TreeModel.SetModel` | models/treemodel.py:183-207 | records the directory; builds the tree only when there is a directory holding exactly one `*.json` file, and otherwise leaves it unchanged |
| `TreeModels.TreeModel.SetupModelData` | models/treemodel.py:211-245 | the arena becomes exactly the specified layout: the earlier arena with one study subtree per listed study appended under the root |
| `Dicom.CheckCast` | scripts/tags.py:62-78 | SQ and the ambiguous VRs, and only they, raise NotImplementedError; a string VR gives `str(val)`, so a string comes back unchanged; a value that already has the VR's type comes back unchanged; a successful cast has the type the VR calls for |
| `Dicom.DispatchOrder` | scripts/update_tags.py:47-55 | testing AT, then the string VRs, then the integer VRs, in that order, picks the type the cast table lists |
| `Dicom.DispatchOrderRest` | scripts/update_tags.py:57-63 | the float and bytes tests come next, and a VR in none of the sets has no cast |
| `TagsCsv.ColumnFrom` | scripts/tags.py:97 | finds a column by name: none exactly when the name is absent |
| `TagsCsv.LabelColumn` | scripts/update_tags.py:84 | the `Label` column is found exactly when the table has one |
| `TagsCsv.BadColumnsExact` | scripts/tags.py:85-94 | the reported columns are exactly the non-`Label` columns that fail tag resolution; `Label` is never reported |
| `TagsCsv.BadColumnsPrefix` | scripts/tags.py:88-94 | the report grows column by column in column order |
| `TagsCsv.CollectBadColumns` | scripts/tags.py:88-94 | the first loop of `check_tags` builds exactly the bad-column list |
| `TagsCsv.RowTagsExact` | scripts/tags.py:99-103 | a row's tags are its non-`Label` cells under their column names, bad columns included |
| `TagsCsv.DropLabel` | scripts/update_tags.py:94 | `row.drop(FILE_NAME)` gives exactly the row's tags |
| `TagsCsv.LabelMapKeys` | scripts/tags.py:95-104 | the labels of `dict_tags` are exactly the rows' labels |
| `TagsCsv.LabelMapLastWins` | scripts/tags.py:104 | each label maps to the tags of the last row carrying it |
| `TagsCsv.CheckTags` | scripts/tags.py:80-105 | raises the missing-`Label` error exactly when there is no `Label` column and at least one row; otherwise answers the bad-column list and the label map (empty for no rows) |
| `TagsCsv.SelectedKeys` | scripts/tags.py:111 | the selected files are keyed by exactly their base names |
| `TagsCsv.SelectedLaterWins` | scripts/update_tags.py:69 | of two files with the same base name the later one is kept |
| `TagsCsv.SelectFiles` | scripts/update_tags.py:69 | the files dictionary is built as specified |
| `TagsCsv.ColumnsResolve` | scripts/tags.py:115-122 | the column check passes exactly when no column is bad |
| `TagsCsv.ElementFor` | scripts/tags.py:142-147 | a cell yields an element exactly when `Tag(col)`, `dictionary_VR`, `check_cast` and element creation all succeed; the element carries the dictionary VR and the cast value |
| `TagsCsv.AddCell` | scripts/update_tags.py:101-107 | a failing cell leaves the dataset as it was; otherwise `ds.add` stores the element under its tag, replacing any earlier one, and no other tag changes |
| `TagsCsv.AddedTagsExact` | scripts/tags.py:139-150 | a row adds a tag exactly when one of its non-`Label` cells names that tag and its VR lookup, cast and element creation all succeed |
| `TagsCsv.ApplyRowAdds` | scripts/update_tags.py:96-107 | after a row the dataset holds its earlier tags plus the added ones, and a failing cell leaves the dataset as it was |
| `TagsCsv.ApplyRowStores` | scripts/tags.py:139-150 | each tag a row adds holds the element made from the last non-`Label` cell that names it |
| `TagsCsv.UpdateRow` | scripts/update_tags.py:96-107 | the inner loop produces the dataset the row specifies |
| `TagsCsv.UpdateRows` | scripts/tags.py:126-159 | the row loop never creates or removes a file; it raises the missing-`Label` error exactly when there is no `Label` column and a row is left; a failed read is of a selected file not on disk; reads and saves are only appended |
| `TagsCsv.UpdateOutcome` | scripts/update_tags.py:66-116 | `update_tags` answers -1 exactly when some non-`Label` column fails resolution, and then leaves the disk as it was; no file is ever created or removed |
| `TagsCsv.RowsNeverReject` | scripts/tags.py:126-159 | once the column check has passed, the run returns 0 or raises; it never returns -1 |
| `TagsCsv.CompletedRunSaves` | scripts/update_tags.py:83-116 | a run that returns 0 reads and then saves, once each and in row order, exactly the selected file of every row whose label is selected |
| `TagsCsv.UnselectedUntouched` | scripts/tags.py:129-135 | a file that no selected base name maps to is never read, changed or saved |
| `TagsCsv.UpdateTags` | scripts/tags.py:108-159 | answers -1 exactly when some non-`Label` column fails resolution, and then no file is read or written; otherwise the outcome and the disk are those of the row loop |
| `UploadTypes.FromMime` | scripts/types.py:122-125 | a MIME string maps back only to the type it stands for |
| `UploadTypes.MimeRoundTrip` | scripts/types.py:122-125 | each upload type is found again from its MIME string |
| `UploadTypes.GetType` | scripts/types.py:127-137 | IMAGE exactly for `jpg`, `jpeg`, `png`, `tiff` and `tif`; PDF exactly for `pdf`; FILE for every other extension, case-sensitively |
| `UploadTypes.MimeLookupFailsAsWritten` | scripts/types.py:123-124 | as declared, looking IMAGE or FILE up by its MIME string finds nothing, while PDF is found |
| `UploadTypes.CodeRoundTrip` | scripts/types.py:11-120 | every error code is found again from its number |
| `UploadTypes.CodesDistinct` | scripts/types.py:4-120 | no two error codes share a number, so lookup by number is well defined |
| `UploadTypes.SuccessAndInternalErrorCodes` | scripts/types.py:11-12 | `ErrorCode_Success` is 0 and `ErrorCode_InternalError` is -1, and each is found from its number |
| `UploadTypes.ValueLookupFailsAsWritten` | scripts/types.py:11-119 | as declared, looking any member but `ErrorCode_START_PLUGINS` up by its number finds nothing |

## Left out

- The Qt side of `TreeModel` is left out because it is GUI plumbing with no logic of its own:
  - `data`, `flags`, `headerData`, `index`, `parent`, `rowCount`, `columnCount`, `setData`, `setHeaderData` and the other `QModelIndex` methods;
  - icons, the `layoutChanged` and `dataChanged` signals, `__repr__` and every `print`.
- The GUI dialogs and `test_wsi.py` are left out.
- The directory walk and the JSON load in `setModel` are inputs. A `Folder` holds the `*.json` names, the study → series → files listing and the parsed specification. A file's entry is a `Dicom.JsonObject`: the dict `json.load` builds, as its entries in iteration order. A dict holds each key once, so a `JsonObject` has distinct keys, and so has every object nested in it (`Dicom.JsonValue`). How `json.load` merges a key repeated in the document (first position, last value) is not modelled. JSON objects, lists and booleans are `Dicom.Value` variants, so the documented `{"tags": {...}}` entry is expressible.
- A specification series without a `"files"` key is left out: the model's series always has a file map, so it does not model the KeyError Python raises for one.
- Keys other than `"files"` in the specification are left out, because nothing in the tree reads them.
- Python objects are replaced by arena indices. A removed child stays in the arena, as the Python object stays alive.
- `tags.check_tag`, which `set_tags` calls, is a parameter of the model. It is not defined in `scripts/tags.py`.
- pydicom is abstract and sits in `Externals`:
  - `Tag()` resolution, `dictionary_VR`, `DataElement` construction and `Dataset.add`;
  - the failures those raise while warnings are errors.
- The `warnings` filter itself is global state and is not modelled.
- `read_file` and `save_as` are left out as I/O. Reading a missing file raises. A save always succeeds and is recorded.
- Python's `str`, `int`, `float` and `bytes` on values of another type are left out; they sit in `Externals`.
- Floating-point values are kept as bit patterns and never computed with.
- pandas CSV parsing is an input `Table` with distinct column names and one cell per column. Duplicate-column renaming, type inference and NaN for empty cells are not modelled.
- `TagsCsv.CheckTags`: labels are compared as model values. Python's equality across `int`, `float` and `bool` keys (`1 == 1.0 == True`) and NaN's inequality with itself are not modelled.
- `to_data_uri` is left out: it is image re-encoding and base64.
- `STATUS_OK` is left out as an unused constant.
- The server upload, `OrthancRequestError` and the module-conflict record are left out because they contain no logic.

## Findings

| source | as written | input that shows it | evidently intended | confidence | as-written member | corrected member |
|---|---|---|---|---|---|---|
| scripts/types.py:11-119 | each `ErrorCode_` member but the last is assigned with a trailing comma, so its value is a 1-tuple such as `(0,)` | `OrthancErrorCode(0)` raises ValueError instead of answering `ErrorCode_Success` | each member's value is its integer code, so lookup by code succeeds | not executed | `UploadTypes.ValueLookupFailsAsWritten` | `UploadTypes.CodeRoundTrip` |
| scripts/types.py:123-124 | `IMAGE` and `FILE` are assigned with a trailing comma, so their values are 1-tuples | `ImageType("image/")` raises ValueError, while `ImageType("application/pdf")` answers PDF | each member's value is its MIME string | not executed | `UploadTypes.MimeLookupFailsAsWritten` | `UploadTypes.MimeRoundTrip` |
