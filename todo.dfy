/** Todo records as the data table sees them: plain objects whose properties
    are looked up by column id, the record's identifier being its "id" property. */
module Todos {

  datatype Option<+T> = None | Some(value: T)

  /** A value a record property can hold. Numbers are integers here. */
  datatype Value = Undefined | Null | Bool(b: bool) | Num(n: int) | Str(s: string)

  /** A record: its own properties, by name. */
  datatype Todo = Todo(fields: map<string, Value>)

  /** The property that identifies a record. */
  const IdField: string := "id"

  /** Property access `t[name]`: a missing property reads as `undefined`. */
  function Get(t: Todo, name: string): Value
  {
    if name in t.fields then t.fields[name] else Undefined
  }

  /** `t.id === id` for a numeric `id`: false when the record has no id or a non-numeric one. */
  predicate HasId(t: Todo, id: int)
  {
    Get(t, IdField) == Num(id)
  }

  /** The object spread `{ ...t, [name]: value }`: the property is overwritten
      when present and added when absent; every other property is copied. */
  function With(t: Todo, name: string, value: Value): (u: Todo)
    ensures Get(u, name) == value
    ensures forall other :: other != name ==> Get(u, other) == Get(t, other)
    ensures u.fields.Keys == t.fields.Keys + {name}
  {
    Todo(t.fields[name := value])
  }
}
