# DataTable row store

A model of the state held by the `DataTable` component of the realtime-todo
client. The table shows a list of todo records and edits them through three
operations that the table library exposes to cells as `meta`:

- `updateRow` sets one property of the row at an index.
- `addRow` appends the placeholder record `emptyTodo`.
- `deleteRow` drops every record with an id locally, then asks the remote
  delete mutation to delete that id.

The component also holds the table state it hands to the table library:
row selection, sort order and column filters. When the table library calls
`onStateChange`, it sends the record of the first selected row, if there is
one, to the remote add mutation. It then clears the selection.

Files:

- `todo.dfy` (module `Todos`): a record is a map from property name to a
  value. Its identifier is the `"id"` property. `With` models the object
  spread `{ ...t, [name]: value }`, and `HasId` models `t.id === id`.
- `row_store.dfy` (module `RowStore`): each of the three row transforms is a
  function from the old row list to the new one. The lemmas relate them.
- `data_table.dfy` (module `DataTableComponent`): the class `DataTable`
  holds the component's state. Each `setData`, `setRowSelection`, `setSorting`
  or `setColumnFilters` is one atomic field assignment. Each call to a remote
  `mutate` adds one entry to a request log: `addRequests` or
  `deleteRequests`. The file ends with a client method, `Session`, which uses
  only the contracts. It deletes id 1 from `[a, b]` twice, then adds a row,
  then acts on a selection twice.

Behaviour of the code that the model keeps:

- The add request fires whenever the first key `Object.keys` lists is truthy,
  whatever other keys are selected, not only when exactly one row is
  selected. The empty-string key fires nothing.
- The request carries `table.getRow(key)?.original`. The model treats the
  row lookup as a partial map from key to record and logs `None` for a key
  that is not in it.
- An edit of the `"id"` column overwrites the record's id, because the spread
  copies every property. A later `deleteRow` then matches the new id. A
  record whose id is missing or is not a number is never deleted.

## Model

| member | source | states |
|---|---|---|
| Todos.With | apps/client/src/app/components/data-table.tsx:67-70 | the spread sets the named property to the value, adding it when absent, and keeps every other property |
| RowStore.UpdateAt | apps/client/src/app/components/data-table.tsx:63-75 | same length; every row at another index is unchanged; the row at an in-range index has the column set to the value (added if absent) and all its other properties as before; an out-of-range index leaves the list unchanged |
| RowStore.UpdateAtLastWriteWins | apps/client/src/app/components/data-table.tsx:64-73 | two edits of the same cell equal the second edit alone |
| RowStore.UpdateAtKeepsIds | apps/client/src/app/components/data-table.tsx:66-70 | an edit of a column other than the id leaves every row's id property as it was, so each row has a given id after the edit exactly when it had it before, and a later delete removes as many rows as it would have before the edit |
| RowStore.Append | apps/client/src/app/components/data-table.tsx:76-78 | length grows by exactly one, every earlier row stays at its position, and the new last row is the placeholder |
| RowStore.RemoveId | apps/client/src/app/components/data-table.tsx:80 | no surviving row has the id, and the list never grows |
| RowStore.RemoveIdCounts | apps/client/src/app/components/data-table.tsx:80 | each record with another id survives exactly as many times as it occurred; a record with the id does not survive |
| RowStore.RemoveIdConcat | apps/client/src/app/components/data-table.tsx:80 | deleting from a concatenation deletes from each part, with the first part's survivors in front, so the original relative order is kept |
| RowStore.RemoveIdSingle | apps/client/src/app/components/data-table.tsx:80 | a one-row list loses its row exactly when that row has the id |
| RowStore.RemoveIdUnchangedIff | apps/client/src/app/components/data-table.tsx:80 | a delete leaves the list unchanged if and only if no row has the id |
| RowStore.RemoveIdIdempotent | apps/client/src/app/components/data-table.tsx:80 | repeating a delete changes nothing further |
| RowStore.RemoveIdAfterAppend | apps/client/src/app/components/data-table.tsx:76-80 | a delete after an add keeps the earlier rows' survivors, then the placeholder unless it carries the deleted id |
| DataTableComponent.AddRequestsFor | apps/client/src/app/components/data-table.tsx:93-97 | at most one add request; exactly one when a truthy first key is selected; it carries the record looked up for that key, or undefined when there is none |
| DataTableComponent.DataTable.constructor | apps/client/src/app/components/data-table.tsx:44-49 | the rows are a copy of the `data` prop, with the same elements in the same order; selection, sorting, filters and both request logs start empty |
| DataTableComponent.DataTable.UpdateRow | apps/client/src/app/components/data-table.tsx:63-75 | the rows become `UpdateAt` of the old rows; no other state and no request log changes |
| DataTableComponent.DataTable.AddRow | apps/client/src/app/components/data-table.tsx:76-78 | the rows become the old rows plus the placeholder; no request is issued and nothing else changes |
| DataTableComponent.DataTable.DeleteRow | apps/client/src/app/components/data-table.tsx:79-83 | the rows lose every record with the id, and exactly one delete request carrying the id is logged, even when no row matched; selection, sorting, filters and add requests are untouched |
| DataTableComponent.DataTable.OnRowSelectionChange | apps/client/src/app/components/data-table.tsx:86 | the selection becomes the given keys and nothing else changes |
| DataTableComponent.DataTable.OnSortingChange | apps/client/src/app/components/data-table.tsx:87 | the sort order becomes the given one and nothing else changes |
| DataTableComponent.DataTable.OnColumnFiltersChange | apps/client/src/app/components/data-table.tsx:88 | the column filters become the given ones and nothing else changes |
| DataTableComponent.DataTable.OnStateChange | apps/client/src/app/components/data-table.tsx:92-99 | the selection is always empty afterwards; the add log grows by `AddRequestsFor` of the old selection (at most one request); rows and delete requests are untouched |

## Left out

- Rendering of the toolbar, header, body and the "No results." row is not modelled. It is presentation only.
- The table library's core, filtered and sorted row models are not modelled. They are algorithms of an external library. `sorting` and `columnFilters` are kept as fields that only their own setters change.
- The network behaviour of the add and delete mutations is not modelled: asynchrony, failure, retries and cache invalidation. Each `mutate` call is one log entry. Nothing ever restores a deleted row.
- React's update semantics are not modelled: batching, functional updaters, and the stale `rowSelection` that `onStateChange` reads from its closure. Each operation is one atomic state change.
- DataTableComponent.DataTable.OnStateChange: when the table library invokes `onStateChange` is not modelled. It is a method that can be called at any point, independently of the selection, sorting and filter setters.
- `DataTableComponent.DataTable.OnStateChange` takes the table library's row-key index (`rowsById`) as a parameter. How `table.getRow` builds and searches that index is not modelled. This includes its default key, the row's position written as a string.
- The selection is the sequence of keys that `Object.keys` returns for the selection object. How `Object.keys` orders keys, and the boolean values stored under them, are not modelled.
- The contents of `emptyTodo` and the shape of the shared `Todo` type are defined outside this component and are not part of this model. The placeholder is an arbitrary record given to the constructor.
- Property values are undefined, null, booleans, integers or strings. Floating-point numbers (including NaN, which `!==` treats specially), objects and arrays are not modelled.
- The `number` parameters `rowIndex` of `updateRow` and `id` of `deleteRow` are integers here. A fractional index is not modelled; in the code it matches no row and changes nothing. A NaN id is not modelled either; in the code it deletes nothing but still issues the delete request.
- DataTableComponent.DataTable.OnStateChange: the table library's `getRow` throws on a key that is in neither its current nor its core row model, and that throw is not modelled. On that path the code issues no add request and does not clear the selection; the model logs `None` and clears the selection.
- `DataTableComponent.DataTable.OnRowSelectionChange`, `OnSortingChange` and `OnColumnFiltersChange` receive new values directly. The updater-function form that the table library may pass is not modelled.
