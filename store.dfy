/** The persistent store behind the routers, seen as one map per table from
    integer id to record. The record types carry only the fields the routers
    read or write; `get_or_none` is a map lookup and `delete_instance` removes
    a key. */
module Store {

  /** A record that may be absent: what `get_or_none` returns. */
  datatype Option<T> = None | Some(value: T)

  /** A row of the dependency table (`DependenciaDB`): a named sub-area of a
      consumer unit. */
  datatype Dependency = Dependency(id: int, name: string, unit: int)

  /** A row of the device table (`DispositivoDB`). `consumption` is the power
      draw (`consumo`), `dailyUse` the hours of use per day (`uso_diario`),
      `kind` the category tag (`tipo`); `unit` and `dependency` are the ids of
      the consumer unit and dependency the device belongs to. */
  datatype Device = Device(
    id: int,
    name: string,
    consumption: real,
    dailyUse: real,
    kind: string,
    unit: int,
    dependency: int)

  /** A row of the tariff table (`BandeiraDB`): three independent flat rates. */
  datatype Tariff = Tariff(dailyRate: real, monthlyRate: real, annualRate: real)

  /** `Model.get_or_none(Model.id == id)`: the stored row, or None. */
  function GetOrNone<V>(rows: map<int, V>, id: int): (r: Option<V>)
    ensures r.Some? <==> id in rows
    ensures r.Some? ==> r.value == rows[id]
  {
    if id in rows then Some(rows[id]) else None
  }

  /** The table after `delete_instance` of the row stored under `id`. */
  function Without<V>(rows: map<int, V>, id: int): (r: map<int, V>)
    ensures r.Keys == rows.Keys - {id}
    ensures forall k | k in r :: r[k] == rows[k]
  {
    rows - {id}
  }
}
