/** The device handlers (`/dispositivos`): create, list by consumer unit, list
    by dependency, look up, update and delete on the device table. */
module Devices {
  import opened Store
  import Dependencies

  /** Body of a create request: every field of the new row but its id. */
  datatype NewDevice = NewDevice(
    name: string,
    consumption: real,
    dailyUse: real,
    kind: string,
    unit: int,
    dependency: int)

  /** Body of an update request: the four fields an update overwrites. */
  datatype DevicePatch = DevicePatch(name: string, consumption: real, dailyUse: real, kind: string)

  /** The table after an update of `id`: that row takes the patch's name,
      consumption, daily use and kind and keeps its id, unit and dependency;
      every other row is kept, and an absent id leaves the table as it was. */
  function Patched(rows: map<int, Device>, id: int, patch: DevicePatch): (r: map<int, Device>)
    ensures r.Keys == rows.Keys
    ensures id !in rows ==> r == rows
    ensures id in rows ==>
      && r[id].name == patch.name && r[id].consumption == patch.consumption
      && r[id].dailyUse == patch.dailyUse && r[id].kind == patch.kind
      && r[id].id == rows[id].id && r[id].unit == rows[id].unit
      && r[id].dependency == rows[id].dependency
    ensures forall k | k in rows && k != id :: r[k] == rows[k]
  {
    if id in rows then
      rows[id := rows[id].(name := patch.name, consumption := patch.consumption,
                           dailyUse := patch.dailyUse, kind := patch.kind)]
    else rows
  }

  /** Repeating the same update changes nothing more. */
  lemma PatchIdempotent(rows: map<int, Device>, id: int, patch: DevicePatch)
    ensures Patched(Patched(rows, id, patch), id, patch) == Patched(rows, id, patch)
  {
  }

  /** Deleting twice leaves the table as deleting once. */
  lemma DeleteIdempotent(rows: map<int, Device>, id: int)
    ensures Without(Without(rows, id), id) == Without(rows, id)
  {
  }

  class DeviceTable {
    /** `DispositivoDB`, keyed by id. */
    var rows: map<int, Device>

    ghost predicate Valid()
      reads this
    {
      forall k | k in rows :: rows[k].id == k
    }

    constructor ()
      ensures Valid() && rows == map[]
    {
      rows := map[];
    }

    /** `listar_dispositivo`: the row stored under `id`, or None. */
    function Find(id: int): (r: Option<Device>)
      reads this
      requires Valid()
      ensures r.Some? <==> id in rows
      ensures r.Some? ==> r.value == rows[id] && r.value.id == id
    {
      GetOrNone(rows, id)
    }

    /** `listar_dispositivos`: no rows when the consumer unit does not exist,
        otherwise exactly the devices whose unit is it. `units` holds the ids
        of the stored consumer units. */
    function ListByUnit(units: set<int>, unitId: int): (r: set<Device>)
      reads this
      requires Valid()
      ensures unitId !in units ==> r == {}
      ensures unitId in units ==> forall k | k in rows :: rows[k] in r <==> rows[k].unit == unitId
      ensures forall d | d in r :: d.id in rows && rows[d.id] == d && d.unit == unitId
    {
      if unitId in units then set k | k in rows && rows[k].unit == unitId :: rows[k] else {}
    }

    /** `listar_dispositivos_por_dependencia`: no rows when the dependency does
        not exist, otherwise exactly the devices whose dependency is it. */
    function ListByDependency(deps: Dependencies.DependencyTable, dependencyId: int): (r: set<Device>)
      reads this, deps
      requires Valid() && deps.Valid()
      ensures dependencyId !in deps.rows ==> r == {}
      ensures dependencyId in deps.rows ==>
        forall k | k in rows :: rows[k] in r <==> rows[k].dependency == dependencyId
      ensures forall d | d in r :: d.id in rows && rows[d.id] == d && d.dependency == dependencyId
    {
      match deps.Find(dependencyId)
      case Some(dep) => set k | k in rows && rows[k].dependency == dep.id :: rows[k]
      case None => {}
    }

    /** `criar_dispositivo`: stores the given fields under the fresh id the
        store allocates, and returns the new row. */
    method Create(id: int, fields: NewDevice) returns (d: Device)
      requires Valid()
      requires id !in rows
      modifies this
      ensures Valid()
      ensures d.id == id && d.name == fields.name && d.consumption == fields.consumption
      ensures d.dailyUse == fields.dailyUse && d.kind == fields.kind
      ensures d.unit == fields.unit && d.dependency == fields.dependency
      ensures rows == old(rows)[id := d]
    {
      d := Device(id, fields.name, fields.consumption, fields.dailyUse, fields.kind,
                  fields.unit, fields.dependency);
      rows := rows[id := d];
    }

    /** `atualizar_dispositivo`: overwrites four fields of the row under `id`
        and returns it updated; an absent id returns None and changes nothing. */
    method Update(id: int, patch: DevicePatch) returns (r: Option<Device>)
      requires Valid()
      modifies this
      ensures Valid()
      ensures rows == Patched(old(rows), id, patch)
      ensures r.Some? <==> id in old(rows)
      ensures r.Some? ==> r.value == rows[id]
    {
      r := Find(id);
      if r.Some? {
        var d := r.value;
        d := d.(name := patch.name);
        d := d.(consumption := patch.consumption);
        d := d.(dailyUse := patch.dailyUse);
        d := d.(kind := patch.kind);
        rows := rows[id := d];
        r := Some(d);
      }
    }

    /** `eliminar_dispositivo`: removes the row under `id` and returns it; an
        absent id returns None and changes nothing. */
    method Delete(id: int) returns (r: Option<Device>)
      requires Valid()
      modifies this
      ensures Valid()
      ensures r == GetOrNone(old(rows), id)
      ensures rows == Without(old(rows), id)
    {
      r := Find(id);
      if r.Some? {
        rows := Without(rows, id);
      }
    }
  }
}
