/** The state of one `DataTable` component: its rows, the table state it hands
    to the table library, and the requests it has sent to the remote add and
    delete mutations, each recorded in order in a log. */
module DataTableComponent {
  import opened Todos
  import opened RowStore

  /** One entry of the sort order: a column and its direction. */
  datatype ColumnSort = ColumnSort(column: string, desc: bool)

  /** One active column filter. */
  datatype ColumnFilter = ColumnFilter(column: string, value: Value)

  /** The add requests one `onStateChange` issues: at most one, issued exactly
      when the first selected key is truthy (the empty string is not),
      carrying `table.getRow(key)?.original`, the record behind that key in
      the table's row index, or `None` when the index has no such key. */
  function AddRequestsFor(selection: seq<string>, rowsById: map<string, Todo>): (reqs: seq<Option<Todo>>)
    ensures |reqs| <= 1
    ensures |reqs| == 1 <==> |selection| > 0 && selection[0] != ""
    ensures |reqs| == 1 ==> (reqs[0].Some? <==> selection[0] in rowsById)
    ensures |reqs| == 1 && reqs[0].Some? ==> reqs[0].value == rowsById[selection[0]]
  {
    if |selection| > 0 && selection[0] != "" then
      var key := selection[0];
      [if key in rowsById then Some(rowsById[key]) else None]
    else
      []
  }

  class DataTable {
    /** The rows, replaced wholesale by each editing operation. */
    var rows: seq<Todo>
    /** Keys of the selected rows, in the order `Object.keys` lists them. */
    var selection: seq<string>
    var sorting: seq<ColumnSort>
    var columnFilters: seq<ColumnFilter>
    /** Payloads handed to the remote add mutation, oldest first. */
    var addRequests: seq<Option<Todo>>
    /** Ids handed to the remote delete mutation, oldest first. */
    var deleteRequests: seq<int>
    /** The record `addRow` appends. */
    const placeholder: Todo

    /** Mounting: the rows start as a copy of the `data` prop, and every
        piece of table state starts empty. */
    constructor (data: seq<Todo>, emptyTodo: Todo)
      ensures rows == data && placeholder == emptyTodo
      ensures selection == [] && sorting == [] && columnFilters == []
      ensures addRequests == [] && deleteRequests == []
    {
      rows := data;
      selection := [];
      sorting := [];
      columnFilters := [];
      addRequests := [];
      deleteRequests := [];
      placeholder := emptyTodo;
    }

    /** `meta.updateRow`: edits one cell; issues no request. */
    method UpdateRow(rowIndex: int, columnId: string, value: Value)
      modifies this`rows
      ensures rows == UpdateAt(old(rows), rowIndex, columnId, value)
    {
      rows := UpdateAt(rows, rowIndex, columnId, value);
    }

    /** `meta.addRow`: appends the placeholder; issues no request. */
    method AddRow()
      modifies this`rows
      ensures rows == Append(old(rows), placeholder)
    {
      rows := Append(rows, placeholder);
    }

    /** `meta.deleteRow`: removes the rows with the id locally, then issues
        exactly one delete request for the id, whether or not a row matched. */
    method DeleteRow(id: int)
      modifies this`rows, this`deleteRequests
      ensures rows == RemoveId(old(rows), id)
      ensures deleteRequests == old(deleteRequests) + [id]
    {
      rows := RemoveId(rows, id);
      deleteRequests := deleteRequests + [id];
    }

    /** `onRowSelectionChange`: the table library replaces the selection. */
    method OnRowSelectionChange(keys: seq<string>)
      modifies this`selection
      ensures selection == keys
    {
      selection := keys;
    }

    /** `onSortingChange`: the table library replaces the sort order. */
    method OnSortingChange(order: seq<ColumnSort>)
      modifies this`sorting
      ensures sorting == order
    {
      sorting := order;
    }

    /** `onColumnFiltersChange`: the table library replaces the filters. */
    method OnColumnFiltersChange(filters: seq<ColumnFilter>)
      modifies this`columnFilters
      ensures columnFilters == filters
    {
      columnFilters := filters;
    }

    /** `onStateChange`: submits the record of the selected row, if a truthy
        key is selected, to the add mutation, then clears the selection.
        `rowsById` is the table library's index from row key to record. */
    method OnStateChange(rowsById: map<string, Todo>)
      modifies this`selection, this`addRequests
      ensures selection == []
      ensures addRequests == old(addRequests) + AddRequestsFor(old(selection), rowsById)
    {
      addRequests := addRequests + AddRequestsFor(selection, rowsById);
      selection := [];
    }
  }

  /** A session: what a caller can conclude from the contracts alone. */
  method Session(a: Todo, b: Todo, emptyTodo: Todo)
    requires HasId(a, 1) && HasId(b, 2) && !HasId(emptyTodo, 1)
  {
    var table := new DataTable([a, b], emptyTodo);
    table.DeleteRow(1);
    RemoveIdSingle(a, 1);
    RemoveIdSingle(b, 1);
    RemoveIdConcat([a], [b], 1);
    assert [a] + [b] == [a, b];
    assert table.rows == [b];
    assert table.deleteRequests == [1];

    table.DeleteRow(1);
    RemoveIdIdempotent([a, b], 1);
    assert table.rows == [b];
    assert table.deleteRequests == [1, 1];

    table.AddRow();
    assert table.rows == [b, emptyTodo];
    assert table.addRequests == [];

    table.OnRowSelectionChange(["1"]);
    table.OnStateChange(map["1" := emptyTodo]);
    assert table.addRequests == [Some(emptyTodo)];
    table.OnStateChange(map["1" := emptyTodo]);
    assert table.addRequests == [Some(emptyTodo)] && table.selection == [];
  }
}
