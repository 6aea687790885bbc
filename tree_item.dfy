/**
 * `TreeItem`, the mutable n-ary node the study tree is made of.
 *
 * The nodes live in an arena, `ItemTree.items`, and a node is named by its
 * index there: Python's object identity becomes an index, and allocating a
 * `TreeItem` appends to the arena. Each `TreeItem` method becomes an
 * `ItemTree` method taking the node's index `n`. A node that is removed from
 * its parent's child list stays in the arena, as the Python object stays
 * alive with its `parent_item` still set.
 */
module TreeItems {
  import opened Wrappers
  import opened Dicom

  /** Whether a node of the study tree matches the tag specification. */
  datatype Correspondence = Correct | NotPresent | NotCorrect

  /**
   * The fields of one TreeItem: `item_data`, `is_in_tags`, `parent_item`,
   * `child_items` (as arena indices), `tags_dict` and `potential_bad_tags`.
   */
  datatype Item = Item(
    data: seq<Value>,
    status: Correspondence,
    parent: Option<nat>,
    children: seq<nat>,
    tags: map<string, Value>,
    badTags: seq<string>)

  /** Raised by `child_number` when a node is no longer in its parent's list. */
  datatype TreeError = NotInParentList

  /** `[None] * n`, which is empty for a negative `n`. */
  function Nulls(n: int): (r: seq<Value>)
    ensures |r| == if n > 0 then n else 0
    ensures forall i :: 0 <= i < |r| ==> r[i] == Null
  {
    if n <= 0 then [] else Nulls(n - 1) + [Null]
  }

  /** The node `TreeItem([None] * columns, parent)` creates. */
  function Fresh(parent: nat, columns: int): Item
  {
    Item(Nulls(columns), NotCorrect, Some(parent), [], map[], [])
  }

  /** What `data(column)` reads: None outside the columns. */
  function CellAt(data: seq<Value>, column: int): Value
  {
    if 0 <= column < |data| then data[column] else Null
  }

  /** The columns after `set_data(column, value)`. */
  function WithCell(data: seq<Value>, column: int, value: Value): (r: seq<Value>)
    ensures |r| == |data|
    ensures 0 <= column < |data| ==> CellAt(r, column) == value
    ensures forall c :: c != column ==> CellAt(r, c) == CellAt(data, c)
    ensures !(0 <= column < |data|) ==> r == data
  {
    if 0 <= column < |data| then data[column := value] else data
  }

  /**
   * The indices of `count` nodes allocated from `start` on and each inserted
   * at the same position: the last one allocated comes first.
   */
  function FreshRun(start: nat, count: int): (r: seq<nat>)
    ensures |r| == if count > 0 then count else 0
    ensures forall i :: 0 <= i < |r| ==> r[i] == start + |r| - 1 - i
  {
    if count <= 0 then [] else [start + count - 1] + FreshRun(start, count - 1)
  }

  /** The position of the first occurrence of `x` in `s` (`list.index`). */
  function IndexOf(s: seq<nat>, x: nat): (r: nat)
    requires x in s
    ensures r < |s| && s[r] == x
    ensures forall j :: 0 <= j < r ==> s[j] != x
  {
    if s[0] == x then 0 else 1 + IndexOf(s[1..], x)
  }

  ghost predicate NoDup(s: seq<nat>)
  {
    forall i, j :: 0 <= i < j < |s| ==> s[i] != s[j]
  }

  /**
   * The arena is a forest: a parent has a smaller index than its children,
   * every listed child points back to the node listing it, and no child is
   * listed twice.
   */
  ghost predicate WellFormed(items: seq<Item>)
  {
    && (forall i :: 0 <= i < |items| && items[i].parent.Some? ==> items[i].parent.value < i)
    && (forall i, j :: 0 <= i < |items| && 0 <= j < |items[i].children| ==>
          i < items[i].children[j] < |items| && items[items[i].children[j]].parent == Some(i))
    && (forall i :: 0 <= i < |items| ==> NoDup(items[i].children))
  }

  /** Two arenas with the same nodes, links and all, whatever their columns. */
  ghost predicate SameShape(a: seq<Item>, b: seq<Item>)
  {
    && |a| == |b|
    && (forall i :: 0 <= i < |a| ==> a[i].parent == b[i].parent && a[i].children == b[i].children)
  }

  lemma ShapeKeepsWellFormed(a: seq<Item>, b: seq<Item>)
    requires WellFormed(a) && SameShape(a, b)
    ensures WellFormed(b)
  {
    forall i, j | 0 <= i < |b| && 0 <= j < |b[i].children|
      ensures i < b[i].children[j] < |b| && b[b[i].children[j]].parent == Some(i)
    {
      assert b[i].children[j] == a[i].children[j];
    }
    forall i | 0 <= i < |b| ensures NoDup(b[i].children) {
      assert b[i].children == a[i].children;
    }
  }

  // ---------------------------------------------------------------------
  // Column edits over a subtree (insert_columns / remove_columns)
  // ---------------------------------------------------------------------

  /** The positional edit `insert_columns` or `remove_columns` makes at each node. */
  datatype ColumnEdit = InsertAt(position: int, count: int) | RemoveAt(position: int, count: int)

  /** The bounds check each node makes before editing its own columns. */
  predicate Fits(e: ColumnEdit, data: seq<Value>)
  {
    match e
    case InsertAt(p, _) => 0 <= p <= |data|
    case RemoveAt(p, k) => 0 <= p && p + k <= |data|
  }

  /**
   * A node's columns after the edit passed its check: `count` Nones inserted
   * at `position`, or `count` columns popped there (nothing for a count <= 0).
   */
  function Edit(e: ColumnEdit, data: seq<Value>): (r: seq<Value>)
    requires Fits(e, data)
    ensures e.InsertAt? ==> |r| == |data| + (if e.count > 0 then e.count else 0)
    ensures e.RemoveAt? ==> |r| == |data| - (if e.count > 0 then e.count else 0)
    ensures e.count <= 0 ==> r == data
    ensures e.count > 0 ==> r[..e.position] == data[..e.position]
    ensures e.InsertAt? && e.count > 0 ==> r[e.position..e.position + e.count] == Nulls(e.count)
    ensures e.InsertAt? && e.count > 0 ==> r[e.position + e.count..] == data[e.position..]
    ensures e.RemoveAt? && e.count > 0 ==> r[e.position..] == data[e.position + e.count..]
  {
    match e
    case InsertAt(p, k) => data[..p] + Nulls(k) + data[p..]
    case RemoveAt(p, k) => if k <= 0 then data else data[..p] + data[p + k..]
  }

  /** `y` is `c` or one of its descendants, following parent links. */
  ghost predicate Below(items: seq<Item>, y: nat, c: nat)
    requires WellFormed(items) && y < |items|
    decreases y
  {
    y == c || (y > c && items[y].parent.Some? && Below(items, items[y].parent.value, c))
  }

  /**
   * The recursive edit started at `n` reaches `x` and changes it: every node
   * from `x` up to `n` passes its own check, and each is in its parent's list.
   */
  ghost predicate Reached(items: seq<Item>, n: nat, x: nat, e: ColumnEdit)
    requires WellFormed(items) && x < |items|
    decreases x
  {
    && Fits(e, items[x].data)
    && (x == n
        || (x > n && items[x].parent.Some?
            && x in items[items[x].parent.value].children
            && Reached(items, n, items[x].parent.value, e)))
  }

  ghost predicate ReachedFromSome(items: seq<Item>, cs: seq<nat>, x: nat, e: ColumnEdit)
    requires WellFormed(items) && x < |items|
  {
    exists j :: 0 <= j < |cs| && Reached(items, cs[j], x, e)
  }

  /** The arena after the column edit started at `n`, node by node. */
  ghost function ApplyColumns(items: seq<Item>, n: nat, e: ColumnEdit): (r: seq<Item>)
    requires WellFormed(items)
    ensures SameShape(items, r) && WellFormed(r)
  {
    var r := seq(|items|, x requires 0 <= x < |items| =>
      if Reached(items, n, x, e) then items[x].(data := Edit(e, items[x].data)) else items[x]);
    ShapeKeepsWellFormed(items, r);
    r
  }

  lemma {:induction false} ReachedIsBelow(items: seq<Item>, n: nat, x: nat, e: ColumnEdit)
    requires WellFormed(items) && x < |items| && Reached(items, n, x, e)
    ensures Below(items, x, n)
    decreases x
  {
    if x != n {
      ReachedIsBelow(items, n, items[x].parent.value, e);
    }
  }

  lemma {:induction false} ReachedStartFits(items: seq<Item>, n: nat, x: nat, e: ColumnEdit)
    requires WellFormed(items) && x < |items| && Reached(items, n, x, e)
    ensures n < |items| && Fits(e, items[n].data)
    decreases x
  {
    if x != n {
      ReachedStartFits(items, n, items[x].parent.value, e);
    }
  }

  lemma {:induction false} BelowIsAtLeast(items: seq<Item>, y: nat, c: nat)
    requires WellFormed(items) && y < |items| && Below(items, y, c)
    ensures c <= y
  {
  }

  /** Two distinct children of one node have disjoint subtrees. */
  lemma {:induction false} SiblingsDisjoint(items: seq<Item>, y: nat, c1: nat, c2: nat)
    requires WellFormed(items) && y < |items| && c1 < |items| && c2 < |items|
    requires c1 != c2 && items[c1].parent.Some? && items[c1].parent == items[c2].parent
    ensures !(Below(items, y, c1) && Below(items, y, c2))
    decreases y
  {
    if Below(items, y, c1) && Below(items, y, c2) {
      if y == c1 {
        BelowIsAtLeast(items, items[c1].parent.value, c2);
        assert false;
      } else if y == c2 {
        BelowIsAtLeast(items, items[c2].parent.value, c1);
        assert false;
      } else {
        SiblingsDisjoint(items, items[y].parent.value, c1, c2);
      }
    }
  }

  /** Whether the edit started at `c` reaches `x` depends only on `c`'s subtree. */
  lemma {:induction false} ReachedFrame(a: seq<Item>, b: seq<Item>, c: nat, x: nat, e: ColumnEdit)
    requires WellFormed(a) && SameShape(a, b) && x < |a|
    requires forall y :: 0 <= y < |a| && Below(a, y, c) ==> a[y].data == b[y].data
    ensures WellFormed(b)
    ensures Reached(a, c, x, e) == Reached(b, c, x, e)
    decreases x
  {
    ShapeKeepsWellFormed(a, b);
    if Below(a, x, c) {
      if x != c && a[x].parent.Some? {
        ReachedFrame(a, b, c, a[x].parent.value, e);
      }
    } else {
      if Reached(a, c, x, e) {
        ReachedIsBelow(a, c, x, e);
      }
      if Reached(b, c, x, e) {
        ReachedIsBelow(b, c, x, e);
        BelowFrame(a, b, x, c);
      }
    }
  }

  lemma {:induction false} BelowFrame(a: seq<Item>, b: seq<Item>, y: nat, c: nat)
    requires WellFormed(a) && SameShape(a, b) && y < |a|
    ensures WellFormed(b)
    ensures Below(a, y, c) == Below(b, y, c)
    decreases y
  {
    ShapeKeepsWellFormed(a, b);
    if y != c && y > c && a[y].parent.Some? {
      BelowFrame(a, b, a[y].parent.value, c);
    }
  }

  /**
   * Below a node whose own check passed, the edit reaches exactly what the
   * edits started at its children reach.
   */
  lemma {:induction false} ReachedSplit(items: seq<Item>, n: nat, x: nat, e: ColumnEdit)
    requires WellFormed(items) && n < |items| && x < |items| && x != n
    requires Fits(e, items[n].data)
    ensures Reached(items, n, x, e) <==> ReachedFromSome(items, items[n].children, x, e)
    decreases x
  {
    var cs := items[n].children;
    if Reached(items, n, x, e) {
      var q := items[x].parent.value;
      if q == n {
        var j := IndexOf(cs, x);
        assert Reached(items, cs[j], x, e);
      } else {
        ReachedSplit(items, n, q, e);
        var j :| 0 <= j < |cs| && Reached(items, cs[j], q, e);
        ReachedIsBelow(items, cs[j], q, e);
        BelowIsAtLeast(items, q, cs[j]);
        assert Reached(items, cs[j], x, e);
      }
    }
    if ReachedFromSome(items, cs, x, e) {
      var j :| 0 <= j < |cs| && Reached(items, cs[j], x, e);
      ReachedFromChild(items, n, j, x, e);
    }
  }

  lemma {:induction false} ReachedFromChild(items: seq<Item>, n: nat, j: nat, x: nat, e: ColumnEdit)
    requires WellFormed(items) && n < |items| && x < |items| && j < |items[n].children|
    requires Fits(e, items[n].data) && Reached(items, items[n].children[j], x, e)
    ensures Reached(items, n, x, e)
    decreases x
  {
    var c := items[n].children[j];
    if x != c {
      ReachedFromChild(items, n, j, items[x].parent.value, e);
    }
  }

  /**
   * `insert_columns(p, k)` followed by `remove_columns(p, k)` from the same
   * node gives every node of the arena its columns back.
   */
  lemma ColumnsRoundTrip(items: seq<Item>, n: nat, p: int, k: int)
    requires WellFormed(items)
    ensures ApplyColumns(ApplyColumns(items, n, InsertAt(p, k)), n, RemoveAt(p, k)) == items
  {
    var a := ApplyColumns(items, n, InsertAt(p, k));
    var b := ApplyColumns(a, n, RemoveAt(p, k));
    forall x | 0 <= x < |items| ensures b[x] == items[x] {
      RoundTripAt(items, a, b, n, x, p, k);
    }
  }

  lemma RoundTripAt(items: seq<Item>, a: seq<Item>, b: seq<Item>, n: nat, x: nat, p: int, k: int)
    requires WellFormed(items) && x < |items|
    requires a == ApplyColumns(items, n, InsertAt(p, k)) && b == ApplyColumns(a, n, RemoveAt(p, k))
    ensures b[x] == items[x]
  {
    if k > 0 {
      RoundTripReach(items, a, n, x, p, k);
    }
  }

  lemma {:induction false} RoundTripReach(items: seq<Item>, a: seq<Item>, n: nat, x: nat, p: int, k: int)
    requires WellFormed(items) && x < |items| && k > 0
    requires a == ApplyColumns(items, n, InsertAt(p, k))
    ensures Reached(a, n, x, RemoveAt(p, k)) == Reached(items, n, x, InsertAt(p, k))
    decreases x
  {
    if x != n && x > n && items[x].parent.Some? {
      RoundTripReach(items, a, n, items[x].parent.value, p, k);
    }
  }

  lemma NoEditWhenStartFails(items: seq<Item>, n: nat, e: ColumnEdit)
    requires WellFormed(items) && n < |items| && !Fits(e, items[n].data)
    ensures ApplyColumns(items, n, e) == items
  {
    var r := ApplyColumns(items, n, e);
    forall x | 0 <= x < |items| ensures r[x] == items[x] {
      if Reached(items, n, x, e) {
        ReachedStartFits(items, n, x, e);
      }
    }
  }

  // ---------------------------------------------------------------------
  // The arena of TreeItems
  // ---------------------------------------------------------------------

  class ItemTree {
    var items: seq<Item>

    ghost predicate Valid()
      reads this
    {
      0 < |items| && WellFormed(items)
    }

    /** The root `TreeItem(headers)`: no parent, no children, status NOT_CORRECT. */
    constructor (headers: seq<Value>)
      ensures Valid() && items == [Item(headers, NotCorrect, None, [], map[], [])]
    {
      items := [Item(headers, NotCorrect, None, [], map[], [])];
    }

    /** `child(number)`. */
    function Child(n: nat, number: int): (r: Option<nat>)
      reads this
      requires n < |items|
      ensures r.None? <==> number < 0 || number >= |items[n].children|
      ensures r.Some? ==> r.value == items[n].children[number]
    {
      if number < 0 || number >= |items[n].children| then None else Some(items[n].children[number])
    }

    /** `last_child()`. */
    function LastChild(n: nat): (r: Option<nat>)
      reads this
      requires n < |items|
      ensures r.None? <==> items[n].children == []
      ensures r.Some? ==> r == Child(n, |items[n].children| - 1)
    {
      if items[n].children == [] then None else Some(items[n].children[|items[n].children| - 1])
    }

    /** `child_count()`: exactly the numbers `child` answers for. */
    function ChildCount(n: nat): (r: nat)
      reads this
      requires n < |items|
      ensures forall k :: Child(n, k).Some? <==> 0 <= k < r
    {
      |items[n].children|
    }

    /** `column_count()`: exactly the columns `data` answers from rather than with None. */
    function ColumnCount(n: nat): (r: nat)
      reads this
      requires n < |items|
      ensures forall c :: 0 <= c < r ==> c < |items[n].data| && Data(n, c) == items[n].data[c]
      ensures forall c :: !(0 <= c < r) ==> Data(n, c) == Null
    {
      |items[n].data|
    }

    /**
     * `child_number()`: 0 without a parent, otherwise the node's first position
     * in its parent's list; `list.index` raises when it is no longer there.
     */
    function ChildNumber(n: nat): (r: Result<nat, TreeError>)
      reads this
      requires Valid() && n < |items|
      ensures items[n].parent.None? ==> r == Success(0)
      ensures items[n].parent.Some? ==>
                (r.Success? <==> n in items[items[n].parent.value].children)
      ensures items[n].parent.Some? && r.Success? ==> Child(items[n].parent.value, r.value) == Some(n)
    {
      match items[n].parent
      case None => Success(0)
      case Some(p) =>
        if n in items[p].children then Success(IndexOf(items[p].children, n)) else Failure(NotInParentList)
    }

    /** `child` and `child_number` are inverse on a node's children. */
    lemma ChildNumberOfChild(p: nat, k: int)
      requires Valid() && p < |items| && Child(p, k).Some?
      ensures ChildNumber(Child(p, k).value) == Success(k)
    {
      var c := Child(p, k).value;
      assert items[c].parent == Some(p);
      var j := IndexOf(items[p].children, c);
      assert NoDup(items[p].children);
      if j != k {
        assert false;
      }
    }

    /** `data(column)`: the column's value, None outside the columns. */
    function Data(n: nat, column: int): (r: Value)
      reads this
      requires n < |items|
      ensures 0 <= column < |items[n].data| ==> r == items[n].data[column]
      ensures !(0 <= column < |items[n].data|) ==> r == Null
    {
      CellAt(items[n].data, column)
    }

    /** `is_correct()`. */
    function IsCorrect(n: nat): (r: bool)
      reads this
      requires n < |items|
      ensures r <==> items[n].status == Correct
    {
      items[n].status == Correct
    }

    /** `set_data(column, value)`: only that column of that node changes. */
    method SetData(n: nat, column: int, value: Value) returns (ok: bool)
      requires Valid() && n < |items|
      modifies this
      ensures Valid()
      ensures ok == (0 <= column < |old(items)[n].data|)
      ensures items == old(items)[n := old(items)[n].(data := WithCell(old(items)[n].data, column, value))]
      ensures ok ==> Data(n, column) == value
      ensures !ok ==> items == old(items)
    {
      if column < 0 || column >= |items[n].data| {
        return false;
      }
      items := items[n := items[n].(data := items[n].data[column := value])];
      ShapeKeepsWellFormed(old(items), items);
      return true;
    }

    /** `set_in_tags(in_tags)`: only the status of that node changes. */
    method SetInTags(n: nat, status: Correspondence)
      requires Valid() && n < |items|
      modifies this
      ensures Valid()
      ensures items == old(items)[n := old(items)[n].(status := status)]
    {
      items := items[n := items[n].(status := status)];
      ShapeKeepsWellFormed(old(items), items);
    }

    /**
     * `set_tags(tags_dict)`: the tag map is replaced by the checked values of
     * every entry, and each name the checker rejects is appended to the bad
     * tags, in iteration order and after the earlier ones.
     */
    method SetTags(n: nat, tagsDict: JsonObject, checkTag: (string, Value) -> (bool, Value))
      requires Valid() && n < |items|
      modifies this
      ensures Valid()
      ensures items == old(items)[n := old(items)[n].(
                tags := CheckedTags(tagsDict, checkTag),
                badTags := old(items)[n].badTags + RejectedNames(tagsDict, checkTag))]
    {
      var entries: seq<(string, Value)> := tagsDict;
      var casted: map<string, Value> := map[];
      var i := 0;
      assert items[n].badTags + RejectedNames(entries[..0], checkTag) == items[n].badTags;
      assert items == old(items)[n := old(items)[n].(
                badTags := old(items)[n].badTags + RejectedNames(entries[..0], checkTag))];
      while i < |entries|
        invariant 0 <= i <= |entries| && |items| == |old(items)|
        invariant casted == CheckedTags(entries[..i], checkTag)
        invariant items == old(items)[n := old(items)[n].(
                    badTags := old(items)[n].badTags + RejectedNames(entries[..i], checkTag))]
      {
        var (name, val) := entries[i];
        var (isCorrect, castVal) := checkTag(name, val);
        assert entries[..i + 1][..i] == entries[..i];
        ghost var bad := old(items)[n].badTags + RejectedNames(entries[..i], checkTag);
        if !isCorrect {
          items := items[n := items[n].(badTags := items[n].badTags + [name])];
          assert bad + [name] == old(items)[n].badTags + RejectedNames(entries[..i + 1], checkTag);
        } else {
          assert bad == old(items)[n].badTags + RejectedNames(entries[..i + 1], checkTag);
        }
        casted := casted[name := castVal];
        i := i + 1;
      }
      assert entries[..i] == entries;
      items := items[n := items[n].(tags := casted)];
      ShapeKeepsWellFormed(old(items), items);
    }

    /**
     * `insert_children(position, count, columns)`: false and no change when
     * the position is outside 0..child_count(); otherwise `count` fresh
     * children, each with `columns` Nones, this node as parent and status
     * NOT_CORRECT, are inserted at `position`, most recently created first.
     */
    method InsertChildren(n: nat, position: int, count: int, columns: int) returns (ok: bool)
      requires Valid() && n < |items|
      modifies this
      ensures Valid()
      ensures ok == (0 <= position <= |old(items)[n].children|)
      ensures !ok ==> items == old(items)
      ensures ok ==> (items == old(items)[n := old(items)[n].(children :=
                        old(items)[n].children[..position] + FreshRun(|old(items)|, count)
                        + old(items)[n].children[position..])]
                      + FreshItems(n, count, columns))
    {
      if position < 0 || position > |items[n].children| {
        return false;
      }
      InsertNoneYet(items, n, position, columns);
      var row := 0;
      while row < count
        invariant 0 <= row && (count > 0 ==> row <= count) && (count <= 0 ==> row == 0)
        invariant Valid()
        invariant items == AfterInsert(old(items), n, position, row, columns)
      {
        var idx := |items|;
        InsertFreshKeepsWellFormed(items, n, position, columns);
        InsertOneMore(old(items), n, position, row, columns);
        items := items[n := items[n].(children := items[n].children[..position] + [idx]
                                                 + items[n].children[position..])]
                 + [Fresh(n, columns)];
        row := row + 1;
      }
      return true;
    }

    /**
     * `remove_children(position, count)`: false and no change when
     * `position < 0` or `position + count > child_count()`; otherwise the
     * `count` children from `position` on leave the list (none for a count
     * <= 0). The removed nodes themselves are not changed.
     */
    method RemoveChildren(n: nat, position: int, count: int) returns (ok: bool)
      requires Valid() && n < |items|
      modifies this
      ensures Valid()
      ensures ok == (0 <= position && position + count <= |old(items)[n].children|)
      ensures !ok || count <= 0 ==> items == old(items)
      ensures ok && count > 0 ==> items == old(items)[n := old(items)[n].(children :=
                old(items)[n].children[..position] + old(items)[n].children[position + count..])]
    {
      if position < 0 || position + count > |items[n].children| {
        return false;
      }
      ghost var oc := items[n].children;
      var row := 0;
      while row < count
        invariant 0 <= row && (count > 0 ==> row <= count) && (count <= 0 ==> row == 0)
        invariant position + count <= |oc|
        invariant Valid()
        invariant row == 0 ==> items == old(items)
        invariant row > 0 ==> items == old(items)[n := old(items)[n].(children :=
                    oc[..position] + oc[position + row..])]
      {
        ghost var cur := items[n].children;
        RemoveChildKeepsWellFormed(items, n, position);
        assert cur[..position] + cur[position + 1..] == oc[..position] + oc[position + row + 1..];
        items := items[n := items[n].(children := items[n].children[..position]
                                                 + items[n].children[position + 1..])];
        row := row + 1;
      }
      return true;
    }

    /**
     * The recursion shared by `insert_columns` and `remove_columns`: check
     * this node, edit its own columns, then start the same edit at each
     * child in turn, whose own check may stop it there.
     */
    method EditColumns(n: nat, e: ColumnEdit) returns (ok: bool)
      requires Valid() && n < |items|
      modifies this
      ensures Valid()
      ensures ok == Fits(e, old(items)[n].data)
      ensures items == ApplyColumns(old(items), n, e)
      decreases |items| - n
    {
      if !Fits(e, items[n].data) {
        NoEditWhenStartFails(items, n, e);
        return false;
      }
      ghost var start := items;
      var data := EditedRow(e, items[n].data);
      items := items[n := items[n].(data := data)];
      EditedWhereStart(start, n, e);
      var cs := items[n].children;
      var j := 0;
      while j < |cs|
        invariant 0 <= j <= |cs| && cs == start[n].children
        invariant items == EditedWhere(start, n, j, e)
        invariant Valid()
      {
        StepPartial(start, n, j, e);
        ok := EditColumns(cs[j], e);
        j := j + 1;
      }
      EditedWhereEnd(start, n, e);
      return true;
    }

    /**
     * `insert_columns(position, columns)`: false and no change when the
     * position is outside this node's columns; otherwise `columns` Nones are
     * inserted at `position` here and, recursively, at every descendant whose
     * own check passes.
     */
    method InsertColumns(n: nat, position: int, columns: int) returns (ok: bool)
      requires Valid() && n < |items|
      modifies this
      ensures Valid()
      ensures ok == (0 <= position <= |old(items)[n].data|)
      ensures items == ApplyColumns(old(items), n, InsertAt(position, columns))
    {
      ok := EditColumns(n, InsertAt(position, columns));
    }

    /**
     * `remove_columns(position, columns)`: false and no change when
     * `position < 0` or `position + columns` exceeds this node's columns;
     * otherwise the same columns go here and at every descendant whose own
     * check passes.
     */
    method RemoveColumns(n: nat, position: int, columns: int) returns (ok: bool)
      requires Valid() && n < |items|
      modifies this
      ensures Valid()
      ensures ok == (0 <= position && position + columns <= |old(items)[n].data|)
      ensures items == ApplyColumns(old(items), n, RemoveAt(position, columns))
    {
      ok := EditColumns(n, RemoveAt(position, columns));
    }
  }

  /** The arena after `row` rounds of `insert_children`'s loop. */
  ghost function AfterInsert(o: seq<Item>, n: nat, position: int, row: int, columns: int): seq<Item>
    requires n < |o| && 0 <= position <= |o[n].children|
  {
    o[n := o[n].(children := o[n].children[..position] + FreshRun(|o|, row) + o[n].children[position..])]
    + FreshItems(n, row, columns)
  }

  lemma InsertNoneYet(o: seq<Item>, n: nat, position: int, columns: int)
    requires n < |o| && 0 <= position <= |o[n].children|
    ensures AfterInsert(o, n, position, 0, columns) == o
  {
    assert o[n].children[..position] + [] + o[n].children[position..] == o[n].children;
  }

  lemma InsertOneMore(o: seq<Item>, n: nat, position: int, row: nat, columns: int)
    requires n < |o| && 0 <= position <= |o[n].children|
    ensures var cur := AfterInsert(o, n, position, row, columns);
            cur[n := cur[n].(children := cur[n].children[..position] + [|cur|]
                                         + cur[n].children[position..])]
            + [Fresh(n, columns)]
            == AfterInsert(o, n, position, row + 1, columns)
  {
    var oc := o[n].children;
    var a := o[n := o[n].(children := oc[..position] + FreshRun(|o|, row) + oc[position..])];
    var cur := a + FreshItems(n, row, columns);
    var cc := cur[n].children;
    assert |cur| == |o| + row;
    SpliceOneMore(oc, position, |o|, row);
    UpdateAppend(a, FreshItems(n, row, columns), n, cur[n].(children := cc[..position] + [|cur|] + cc[position..]));
  }

  lemma SpliceOneMore(oc: seq<nat>, position: nat, base: nat, row: nat)
    requires position <= |oc|
    ensures var cc := oc[..position] + FreshRun(base, row) + oc[position..];
            cc[..position] + [base + row] + cc[position..]
            == oc[..position] + FreshRun(base, row + 1) + oc[position..]
  {
    var cc := oc[..position] + FreshRun(base, row) + oc[position..];
    assert cc[..position] == oc[..position];
    assert cc[position..] == FreshRun(base, row) + oc[position..];
  }

  lemma UpdateAppend<T>(a: seq<T>, b: seq<T>, i: nat, x: T)
    requires i < |a|
    ensures (a + b)[i := x] == a[i := x] + b
  {
  }

  /**
   * The loop each node runs on its own columns: `count` times
   * `insert(position, None)`, or `count` times `pop(position)`.
   */
  method EditedRow(e: ColumnEdit, data: seq<Value>) returns (r: seq<Value>)
    requires Fits(e, data)
    ensures r == Edit(e, data)
  {
    match e {
      case InsertAt(p, k) =>
        r := InsertNulls(data, p, k);
      case RemoveAt(p, k) =>
        r := PopColumns(data, p, k);
    }
  }

  /** `count` times `insert(position, None)`. */
  method InsertNulls(data: seq<Value>, p: int, k: int) returns (r: seq<Value>)
    requires 0 <= p <= |data|
    ensures r == data[..p] + Nulls(k) + data[p..]
  {
    r := data;
    var c := 0;
    assert data[..p] + Nulls(0) + data[p..] == data;
    while c < k
      invariant 0 <= c && (k > 0 ==> c <= k) && (k <= 0 ==> c == 0)
      invariant r == data[..p] + Nulls(c) + data[p..]
    {
      assert r[..p] == data[..p] && r[p..] == Nulls(c) + data[p..];
      assert [Null] + Nulls(c) == Nulls(c + 1);
      r := r[..p] + [Null] + r[p..];
      c := c + 1;
    }
  }

  /** `count` times `pop(position)`. */
  method PopColumns(data: seq<Value>, p: int, k: int) returns (r: seq<Value>)
    requires 0 <= p && p + k <= |data|
    ensures r == if k <= 0 then data else data[..p] + data[p + k..]
  {
    r := data;
    var c := 0;
    while c < k
      invariant 0 <= c && (k > 0 ==> c <= k) && (k <= 0 ==> c == 0)
      invariant c == 0 ==> r == data
      invariant c > 0 ==> r == data[..p] + data[p + c..]
    {
      assert r[..p] == data[..p] && r[p + 1..] == data[p + c + 1..];
      r := r[..p] + r[p + 1..];
      c := c + 1;
    }
  }

  /**
   * The arena part-way through the edit started at `n`: `n` itself and the
   * subtrees of its first `j` children are done.
   */
  ghost function EditedWhere(start: seq<Item>, n: nat, j: nat, e: ColumnEdit): (r: seq<Item>)
    requires WellFormed(start) && n < |start| && Fits(e, start[n].data) && j <= |start[n].children|
    ensures SameShape(start, r) && WellFormed(r)
  {
    var r := seq(|start|, x requires 0 <= x < |start| =>
      if Fits(e, start[x].data) && (x == n || ReachedFromSome(start, start[n].children[..j], x, e))
      then start[x].(data := Edit(e, start[x].data)) else start[x]);
    ShapeKeepsWellFormed(start, r);
    r
  }

  lemma EditedWhereStart(start: seq<Item>, n: nat, e: ColumnEdit)
    requires WellFormed(start) && n < |start| && Fits(e, start[n].data)
    ensures start[n := start[n].(data := Edit(e, start[n].data))] == EditedWhere(start, n, 0, e)
  {
  }

  lemma EditedWhereEnd(start: seq<Item>, n: nat, e: ColumnEdit)
    requires WellFormed(start) && n < |start| && Fits(e, start[n].data)
    ensures EditedWhere(start, n, |start[n].children|, e) == ApplyColumns(start, n, e)
  {
    var cs := start[n].children;
    assert cs[..|cs|] == cs;
    forall x | 0 <= x < |start| && x != n
      ensures Reached(start, n, x, e) <==> ReachedFromSome(start, cs, x, e)
    {
      ReachedSplit(start, n, x, e);
    }
  }

  lemma PrefixStep(items: seq<Item>, cs: seq<nat>, j: nat, x: nat, e: ColumnEdit)
    requires WellFormed(items) && x < |items| && j < |cs|
    ensures ReachedFromSome(items, cs[..j + 1], x, e)
            <==> ReachedFromSome(items, cs[..j], x, e) || Reached(items, cs[j], x, e)
  {
    if ReachedFromSome(items, cs[..j + 1], x, e) {
      var jj :| 0 <= jj < j + 1 && Reached(items, cs[..j + 1][jj], x, e);
      if jj < j {
        assert cs[..j][jj] == cs[jj];
      }
    }
    if ReachedFromSome(items, cs[..j], x, e) {
      var jj :| 0 <= jj < j && Reached(items, cs[..j][jj], x, e);
      assert cs[..j + 1][jj] == cs[jj];
    }
    if Reached(items, cs[j], x, e) {
      assert cs[..j + 1][j] == cs[j];
    }
  }

  /** Nothing in the subtree of the `j`-th child is touched before its turn. */
  lemma LaterSubtreeUntouched(start: seq<Item>, n: nat, j: nat, y: nat, e: ColumnEdit)
    requires WellFormed(start) && n < |start| && j < |start[n].children| && y < |start|
    requires Below(start, y, start[n].children[j])
    ensures y != n && !ReachedFromSome(start, start[n].children[..j], y, e)
  {
    var cs := start[n].children;
    BelowIsAtLeast(start, y, cs[j]);
    if ReachedFromSome(start, cs[..j], y, e) {
      var jj :| 0 <= jj < j && Reached(start, cs[..j][jj], y, e);
      ReachedIsBelow(start, cs[jj], y, e);
      SiblingsDisjoint(start, y, cs[jj], cs[j]);
    }
  }

  /** Editing the subtree of the `j`-th child is one step of the loop over children. */
  lemma StepPartial(start: seq<Item>, n: nat, j: nat, e: ColumnEdit)
    requires WellFormed(start) && n < |start| && Fits(e, start[n].data) && j < |start[n].children|
    ensures n < start[n].children[j] < |start|
    ensures ApplyColumns(EditedWhere(start, n, j, e), start[n].children[j], e)
            == EditedWhere(start, n, j + 1, e)
  {
    var cs := start[n].children;
    var child := cs[j];
    var before := EditedWhere(start, n, j, e);
    forall y | 0 <= y < |start| && Below(start, y, child)
      ensures start[y].data == before[y].data
    {
      LaterSubtreeUntouched(start, n, j, y, e);
    }
    var after := ApplyColumns(before, child, e);
    var want := EditedWhere(start, n, j + 1, e);
    forall x | 0 <= x < |start|
      ensures after[x] == want[x]
    {
      ReachedFrame(start, before, child, x, e);
      PrefixStep(start, cs, j, x, e);
      if Reached(start, child, x, e) {
        ReachedIsBelow(start, child, x, e);
        LaterSubtreeUntouched(start, n, j, x, e);
      }
    }
  }

  /** The nodes `count` rounds of `insert_children` allocate. */
  function FreshItems(parent: nat, count: int, columns: int): (r: seq<Item>)
    ensures |r| == if count > 0 then count else 0
    ensures forall i :: 0 <= i < |r| ==> r[i] == Fresh(parent, columns)
  {
    if count <= 0 then [] else FreshItems(parent, count - 1, columns) + [Fresh(parent, columns)]
  }

  /** The tag map `set_tags` builds: the last entry for a name wins. */
  function CheckedTags(entries: seq<(string, Value)>, checkTag: (string, Value) -> (bool, Value)): (r: map<string, Value>)
    ensures r.Keys == set i | 0 <= i < |entries| :: entries[i].0
  {
    if entries == [] then map[]
    else
      var last := entries[|entries| - 1];
      var r := CheckedTags(entries[..|entries| - 1], checkTag)[last.0 := checkTag(last.0, last.1).1];
      assert forall i :: 0 <= i < |entries| - 1 ==> entries[..|entries| - 1][i] == entries[i];
      r
  }

  /** The names `set_tags` appends to the bad tags, in iteration order. */
  function RejectedNames(entries: seq<(string, Value)>, checkTag: (string, Value) -> (bool, Value)): (r: seq<string>)
    ensures |r| <= |entries|
    ensures forall name :: name in r <==>
              exists i :: 0 <= i < |entries| && entries[i].0 == name && !checkTag(entries[i].0, entries[i].1).0
  {
    if entries == [] then []
    else
      var init := entries[..|entries| - 1];
      var last := entries[|entries| - 1];
      assert forall i :: 0 <= i < |init| ==> init[i] == entries[i];
      RejectedNames(init, checkTag) + (if checkTag(last.0, last.1).0 then [] else [last.0])
  }

  /** Over a dict's entries, `set_tags` appends each rejected key once: no name twice. */
  lemma {:induction false} RejectedNamesPerKey(entries: JsonObject, checkTag: (string, Value) -> (bool, Value))
    ensures var r := RejectedNames(entries, checkTag);
            forall i, j :: 0 <= i < j < |r| ==> r[i] != r[j]
    decreases |entries|
  {
    if entries != [] {
      var init := entries[..|entries| - 1];
      var last := entries[|entries| - 1];
      assert forall i :: 0 <= i < |init| ==> init[i] == entries[i];
      RejectedNamesPerKey(init, checkTag);
      assert last.0 !in RejectedNames(init, checkTag);
    }
  }

  /** The value `set_tags` keeps for the last entry of a name is its checked value. */
  lemma {:induction false} CheckedTagsLastWins(entries: seq<(string, Value)>, checkTag: (string, Value) -> (bool, Value), i: nat)
    requires i < |entries|
    requires forall j :: i < j < |entries| ==> entries[j].0 != entries[i].0
    ensures CheckedTags(entries, checkTag)[entries[i].0] == checkTag(entries[i].0, entries[i].1).1
    decreases |entries|
  {
    if i < |entries| - 1 {
      var init := entries[..|entries| - 1];
      assert init[i] == entries[i];
      CheckedTagsLastWins(init, checkTag, i);
    }
  }

  lemma InsertFreshKeepsWellFormed(items: seq<Item>, n: nat, position: int, columns: int)
    requires WellFormed(items) && n < |items| && 0 <= position <= |items[n].children|
    ensures var idx := |items|;
            WellFormed(items[n := items[n].(children := items[n].children[..position] + [idx]
                                                       + items[n].children[position..])]
                       + [Fresh(n, columns)])
  {
    var idx := |items|;
    var oc := items[n].children;
    var nc := oc[..position] + [idx] + oc[position..];
    var r := items[n := items[n].(children := nc)] + [Fresh(n, columns)];
    forall i, j | 0 <= i < |r| && 0 <= j < |r[i].children|
      ensures i < r[i].children[j] < |r| && r[r[i].children[j]].parent == Some(i)
    {
      if i == n {
        if j < position {
          assert nc[j] == oc[j];
        } else if j > position {
          assert nc[j] == oc[j - 1];
        }
      }
    }
    forall i | 0 <= i < |r| ensures NoDup(r[i].children) {
      if i == n {
        forall a, b | 0 <= a < b < |nc| ensures nc[a] != nc[b] {
          assert forall m :: 0 <= m < |oc| ==> oc[m] < idx;
          if b < position {
            assert nc[a] == oc[a] && nc[b] == oc[b];
          } else if a > position {
            assert nc[a] == oc[a - 1] && nc[b] == oc[b - 1];
          } else if a < position && b > position {
            assert nc[a] == oc[a] && nc[b] == oc[b - 1];
          }
        }
      }
    }
  }

  lemma RemoveChildKeepsWellFormed(items: seq<Item>, n: nat, position: int)
    requires WellFormed(items) && n < |items| && 0 <= position < |items[n].children|
    ensures WellFormed(items[n := items[n].(children := items[n].children[..position]
                                                       + items[n].children[position + 1..])])
  {
    var oc := items[n].children;
    var nc := oc[..position] + oc[position + 1..];
    var r := items[n := items[n].(children := nc)];
    forall i, j | 0 <= i < |r| && 0 <= j < |r[i].children|
      ensures i < r[i].children[j] < |r| && r[r[i].children[j]].parent == Some(i)
    {
      if i == n {
        if j < position {
          assert nc[j] == oc[j];
        } else {
          assert nc[j] == oc[j + 1];
        }
      }
    }
    forall i | 0 <= i < |r| ensures NoDup(r[i].children) {
      if i == n {
        forall a, b | 0 <= a < b < |nc| ensures nc[a] != nc[b] {
          var a' := if a < position then a else a + 1;
          var b' := if b < position then b else b + 1;
          assert nc[a] == oc[a'] && nc[b] == oc[b'];
        }
      }
    }
  }
}
