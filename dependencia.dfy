/** The dependency handlers (`/dependencias`): create, list by consumer unit,
    look up, rename and delete on the dependency table. */
module Dependencies {
  import opened Store

  /** Body of a create request: every field of the new row but its id. */
  datatype NewDependency = NewDependency(name: string, unit: int)

  /** Body of an update request: the only field an update may change. */
  datatype DependencyPatch = DependencyPatch(name: string)

  /** The table after a rename of `id`: only that row's name changes, and an
      absent id leaves the table as it was. */
  function Renamed(rows: map<int, Dependency>, id: int, patch: DependencyPatch): (r: map<int, Dependency>)
    ensures r.Keys == rows.Keys
    ensures id !in rows ==> r == rows
    ensures id in rows ==> r[id].name == patch.name && r[id].id == rows[id].id && r[id].unit == rows[id].unit
    ensures forall k | k in rows && k != id :: r[k] == rows[k]
  {
    if id in rows then rows[id := rows[id].(name := patch.name)] else rows
  }

  /** Repeating the same rename changes nothing more. */
  lemma RenameIdempotent(rows: map<int, Dependency>, id: int, patch: DependencyPatch)
    ensures Renamed(Renamed(rows, id, patch), id, patch) == Renamed(rows, id, patch)
  {
  }

  /** Deleting twice leaves the table as deleting once. */
  lemma DeleteIdempotent(rows: map<int, Dependency>, id: int)
    ensures Without(Without(rows, id), id) == Without(rows, id)
  {
  }

  class DependencyTable {
    /** `DependenciaDB`, keyed by id. */
    var rows: map<int, Dependency>

    ghost predicate Valid()
      reads this
    {
      forall k | k in rows :: rows[k].id == k
    }

    constructor ()
      ensures Valid() && rows == map[]
    {
      rows := map[];
    }

    /** `listar_dependencia`: the row stored under `id`, or None. */
    function Find(id: int): (r: Option<Dependency>)
      reads this
      requires Valid()
      ensures r.Some? <==> id in rows
      ensures r.Some? ==> r.value == rows[id] && r.value.id == id
    {
      GetOrNone(rows, id)
    }

    /** `listar_dependencia_da_unidade_consumidora`: no rows when the consumer
        unit does not exist, otherwise exactly the rows whose unit is it.
        `units` holds the ids of the stored consumer units. */
    function ListByUnit(units: set<int>, unitId: int): (r: set<Dependency>)
      reads this
      requires Valid()
      ensures unitId !in units ==> r == {}
      ensures unitId in units ==> forall k | k in rows :: rows[k] in r <==> rows[k].unit == unitId
      ensures forall d | d in r :: d.id in rows && rows[d.id] == d && d.unit == unitId
    {
      if unitId in units then set k | k in rows && rows[k].unit == unitId :: rows[k] else {}
    }

    /** `criar_dependencia`: stores the given fields under the fresh id the
        store allocates, and returns the new row. */
    method Create(id: int, fields: NewDependency) returns (d: Dependency)
      requires Valid()
      requires id !in rows
      modifies this
      ensures Valid()
      ensures d.id == id && d.name == fields.name && d.unit == fields.unit
      ensures rows == old(rows)[id := d]
    {
      d := Dependency(id, fields.name, fields.unit);
      rows := rows[id := d];
    }

    /** `atualizar_dependencia`: renames the row under `id` and returns it
        renamed; an absent id returns None and changes nothing. */
    method Update(id: int, patch: DependencyPatch) returns (r: Option<Dependency>)
      requires Valid()
      modifies this
      ensures Valid()
      ensures rows == Renamed(old(rows), id, patch)
      ensures r.Some? <==> id in old(rows)
      ensures r.Some? ==> r.value == rows[id]
    {
      r := Find(id);
      if r.Some? {
        r := Some(r.value.(name := patch.name));
        rows := rows[id := r.value];
      }
    }

    /** `excluir_dependencia`: removes the row under `id` and returns it; an
        absent id returns None and changes nothing. No device row is touched. */
    method Delete(id: int) returns (r: Option<Dependency>)
      requires Valid()
      modifies this
      ensures Valid()
      ensures r == GetOrNone(old(rows), id)
      ensures rows == Without(old(rows), id)
    {
      r := Find(id);
      if r.Some? {
        rows := Without(rows, id);
      }
    }
  }
}
