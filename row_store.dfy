/** The three row-list transforms that the data table applies to its rows,
    each as a function from the old list to the new one, with their properties. */
module RowStore {
  import opened Todos

  /** `updateRow`: the row at `rowIndex` gets property `columnId` set to `value`
      (added when absent); every other row is kept, and an index outside the
      list matches no row. */
  function UpdateAt(rows: seq<Todo>, rowIndex: int, columnId: string, value: Value): (r: seq<Todo>)
    ensures |r| == |rows|
    ensures forall k :: 0 <= k < |rows| && k != rowIndex ==> r[k] == rows[k]
    ensures 0 <= rowIndex < |rows| ==>
              Get(r[rowIndex], columnId) == value &&
              forall other :: other != columnId ==> Get(r[rowIndex], other) == Get(rows[rowIndex], other)
    ensures 0 <= rowIndex < |rows| ==> r[rowIndex].fields.Keys == rows[rowIndex].fields.Keys + {columnId}
    ensures !(0 <= rowIndex < |rows|) ==> r == rows
  {
    seq(|rows|, k requires 0 <= k < |rows| =>
      if k == rowIndex then With(rows[rowIndex], columnId, value) else rows[k])
  }

  /** `addRow`: the placeholder record goes at the end. */
  function Append(rows: seq<Todo>, placeholder: Todo): (r: seq<Todo>)
    ensures |r| == |rows| + 1
    ensures forall k :: 0 <= k < |rows| ==> r[k] == rows[k]
    ensures r[|rows|] == placeholder
  {
    rows + [placeholder]
  }

  /** `deleteRow`, local half: the rows whose id differs from `id`, in order. */
  function RemoveId(rows: seq<Todo>, id: int): (r: seq<Todo>)
    ensures |r| <= |rows|
    ensures forall k :: 0 <= k < |r| ==> !HasId(r[k], id)
  {
    if rows == [] then []
    else (if HasId(rows[0], id) then [] else [rows[0]]) + RemoveId(rows[1..], id)
  }

  /** A delete keeps each record with another id as many times as it occurs,
      and no record with the id. */
  lemma {:induction false} RemoveIdCounts(rows: seq<Todo>, id: int, t: Todo)
    ensures multiset(RemoveId(rows, id))[t] == if HasId(t, id) then 0 else multiset(rows)[t]
  {
    if rows != [] {
      RemoveIdCounts(rows[1..], id, t);
      var head := if HasId(rows[0], id) then [] else [rows[0]];
      assert rows == [rows[0]] + rows[1..];
      assert multiset(RemoveId(rows, id)) == multiset(head) + multiset(RemoveId(rows[1..], id));
      assert multiset(rows) == multiset([rows[0]]) + multiset(rows[1..]);
    }
  }

  /** Deleting changes nothing exactly when no row has the id. */
  lemma {:induction false} RemoveIdUnchangedIff(rows: seq<Todo>, id: int)
    ensures RemoveId(rows, id) == rows <==> forall k :: 0 <= k < |rows| ==> !HasId(rows[k], id)
  {
    if rows != [] {
      RemoveIdUnchangedIff(rows[1..], id);
      if HasId(rows[0], id) {
        assert |RemoveId(rows, id)| < |rows|;
      } else {
        assert RemoveId(rows, id) == [rows[0]] + RemoveId(rows[1..], id);
        assert rows == [rows[0]] + rows[1..];
        forall k | 1 <= k < |rows| ensures rows[k] == rows[1..][k - 1] { }
      }
    }
  }

  /** Repeating a delete changes nothing further. */
  lemma RemoveIdIdempotent(rows: seq<Todo>, id: int)
    ensures RemoveId(RemoveId(rows, id), id) == RemoveId(rows, id)
  {
    RemoveIdUnchangedIff(RemoveId(rows, id), id);
  }

  /** Deleting from a concatenation deletes from each part, the survivors of
      the first part staying in front: together with `RemoveIdSingle` this
      says the survivors keep their original relative order. */
  lemma {:induction false} RemoveIdConcat(a: seq<Todo>, b: seq<Todo>, id: int)
    ensures RemoveId(a + b, id) == RemoveId(a, id) + RemoveId(b, id)
  {
    if a != [] {
      assert (a + b)[0] == a[0];
      assert (a + b)[1..] == a[1..] + b;
      RemoveIdConcat(a[1..], b, id);
      var head := if HasId(a[0], id) then [] else [a[0]];
      calc {
        RemoveId(a + b, id);
        head + RemoveId(a[1..] + b, id);
        head + (RemoveId(a[1..], id) + RemoveId(b, id));
        (head + RemoveId(a[1..], id)) + RemoveId(b, id);
        RemoveId(a, id) + RemoveId(b, id);
      }
    } else {
      assert a + b == b;
    }
  }

  /** A one-row list loses its row exactly when the row has the id. */
  lemma RemoveIdSingle(t: Todo, id: int)
    ensures RemoveId([t], id) == if HasId(t, id) then [] else [t]
  {
  }

  /** A delete after an add: the rows deleted before the add, followed by the
      placeholder unless it carries the deleted id. */
  lemma RemoveIdAfterAppend(rows: seq<Todo>, placeholder: Todo, id: int)
    ensures RemoveId(Append(rows, placeholder), id) ==
            RemoveId(rows, id) + (if HasId(placeholder, id) then [] else [placeholder])
  {
    RemoveIdConcat(rows, [placeholder], id);
    RemoveIdSingle(placeholder, id);
  }

  /** Two edits of the same cell: the later value wins. */
  lemma UpdateAtLastWriteWins(rows: seq<Todo>, rowIndex: int, columnId: string, v: Value, w: Value)
    ensures UpdateAt(UpdateAt(rows, rowIndex, columnId, v), rowIndex, columnId, w) ==
            UpdateAt(rows, rowIndex, columnId, w)
  {
    var once := UpdateAt(rows, rowIndex, columnId, w);
    var twice := UpdateAt(UpdateAt(rows, rowIndex, columnId, v), rowIndex, columnId, w);
    if 0 <= rowIndex < |rows| {
      assert rows[rowIndex].fields[columnId := v][columnId := w] == rows[rowIndex].fields[columnId := w];
      assert twice[rowIndex] == once[rowIndex];
    }
    assert forall k :: 0 <= k < |rows| ==> twice[k] == once[k];
  }

  /** An edit of a column other than the id keeps every row's id, so it does
      not change which rows a later delete removes. */
  lemma UpdateAtKeepsIds(rows: seq<Todo>, rowIndex: int, columnId: string, value: Value, id: int)
    requires columnId != IdField
    ensures forall k :: 0 <= k < |rows| ==>
              Get(UpdateAt(rows, rowIndex, columnId, value)[k], IdField) == Get(rows[k], IdField)
    ensures forall k :: 0 <= k < |rows| ==>
              (HasId(UpdateAt(rows, rowIndex, columnId, value)[k], id) <==> HasId(rows[k], id))
    ensures |RemoveId(UpdateAt(rows, rowIndex, columnId, value), id)| == |RemoveId(rows, id)|
  {
    var r := UpdateAt(rows, rowIndex, columnId, value);
    assert forall k :: 0 <= k < |rows| ==> (HasId(r[k], id) <==> HasId(rows[k], id));
    SameIdsSameLength(rows, r, id);
  }

  /** Supports `UpdateAtKeepsIds`: lists that agree position by position on
      which rows have the id lose the same number of rows to a delete. */
  lemma {:induction false} SameIdsSameLength(a: seq<Todo>, b: seq<Todo>, id: int)
    requires |a| == |b|
    requires forall k :: 0 <= k < |a| ==> (HasId(a[k], id) <==> HasId(b[k], id))
    ensures |RemoveId(a, id)| == |RemoveId(b, id)|
  {
    if a != [] {
      assert forall k :: 0 <= k < |a| - 1 ==> a[1..][k] == a[k + 1] && b[1..][k] == b[k + 1];
      SameIdsSameLength(a[1..], b[1..], id);
    }
  }
}
