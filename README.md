# Household energy calculator: calculation and table handlers

A Dafny model of the core of a small HTTP backend that estimates household
electricity use. The backend stores consumer units, their dependencies (named
sub-areas) and the devices in them. One endpoint sums the daily energy of a
list of devices, scales it to a day, a month (30 days) or a year (12 months),
and prices it at the matching rate of a tariff ("bandeira").

The store is modelled as one map per table, from integer id to record:

- `Store` (`store.dfy`) holds the record types.
  - `GetOrNone` models `get_or_none` as a map lookup.
  - `Without` models `delete_instance` as a key removal.
- `Dependencies` (`dependencia.dfy`) has the class `DependencyTable`.
  - Its field `rows` is the dependency table.
  - Its methods create, rename and delete rows.
  - Its functions look up a row and list rows by consumer unit.
- `Devices` (`dispositivo.dfy`) has the class `DeviceTable`, built the same way.
  - Updates overwrite name, consumption, daily use and kind.
  - Devices can be listed by consumer unit or by dependency.
- `Calculation` (`calcular.dfy`) models the calculation endpoint.
  - `ResolveDevices` and `DailyConsumption` are the two loops of the source.
  - `MonthlyConsumption`, `AnnualConsumption` and `Calculate` follow its call chain.
  - `Estimate` is the reference definition of the whole answer. The lemmas about the
    calculation are stated over `Estimate`.
  - `Calculate` is proved equal to `Estimate`.

The consumer-unit table is read only for existence, so it appears as a set of ids
(`units`). The tariff table is never written, so it appears as a map value
(`tariffs`).

## Model

| member | source | states |
|---|---|---|
| `Store.GetOrNone` | routers/dependencia.py:25 | the lookup yields a row exactly when the id is stored, and then the stored row |
| `Store.Without` | routers/dispositivo.py:50-52 | deletion removes exactly the given key and keeps every other row as it was |
| `Dependencies.Renamed` | routers/dependencia.py:28-34 | an update changes only the name of the row under the id; id, parent unit, other rows and the key set are kept; an absent id leaves the table unchanged |
| `Dependencies.RenameIdempotent` | routers/dependencia.py:28-34 | repeating the same update gives the same table as doing it once |
| `Dependencies.DeleteIdempotent` | routers/dependencia.py:36-41 | deleting twice gives the same table as deleting once |
| `Dependencies.DependencyTable.Find` | routers/dependencia.py:23-26 | lookup returns the stored row with that id or None, and reads the table without changing it |
| `Dependencies.DependencyTable.ListByUnit` | routers/dependencia.py:15-21 | nothing when the consumer unit is absent; otherwise a stored row is listed if and only if its unit is the given one, and every listed row is stored |
| `Dependencies.DependencyTable.Create` | routers/dependencia.py:10-13 | a new row carrying exactly the given fields is stored under the fresh id and returned; every other row is kept |
| `Dependencies.DependencyTable.Update` | routers/dependencia.py:28-34 | the table becomes `Renamed` of the old one; the renamed row is returned, or None exactly when the id was absent |
| `Dependencies.DependencyTable.Delete` | routers/dependencia.py:36-41 | returns the stored row or None and removes exactly that key; the class frame leaves the device table untouched |
| `Devices.Patched` | routers/dispositivo.py:37-46 | an update overwrites name, consumption, daily use and kind of the row under the id; id, unit, dependency, other rows and the key set are kept; an absent id leaves the table unchanged |
| `Devices.PatchIdempotent` | routers/dispositivo.py:37-46 | repeating the same update gives the same table as doing it once |
| `Devices.DeleteIdempotent` | routers/dispositivo.py:48-53 | deleting twice gives the same table as deleting once |
| `Devices.DeviceTable.Find` | routers/dispositivo.py:32-35 | lookup returns the stored row with that id or None, and reads the table without changing it |
| `Devices.DeviceTable.ListByUnit` | routers/dispositivo.py:16-22 | nothing when the consumer unit is absent; otherwise a stored device is listed if and only if its unit is the given one, and every listed device is stored |
| `Devices.DeviceTable.ListByDependency` | routers/dispositivo.py:24-30 | nothing when the dependency is absent; otherwise a stored device is listed if and only if its dependency is the given one, and every listed device is stored |
| `Devices.DeviceTable.Create` | routers/dispositivo.py:11-14 | a new row carrying exactly the given fields is stored under the fresh id and returned; every other row is kept |
| `Devices.DeviceTable.Update` | routers/dispositivo.py:37-46 | the table becomes `Patched` of the old one; the updated row is returned, or None exactly when the id was absent |
| `Devices.DeviceTable.Delete` | routers/dispositivo.py:48-53 | returns the stored row or None and removes exactly that key |
| `Calculation.ParsePeriod` | routers/calcular.py:29-39 | each of `diario`, `mensal` and `anual` selects its own period, and every other string selects none |
| `Calculation.Scaled` | routers/calcular.py:83-90 | a month is 30 times the daily consumption and a year 360 times it |
| `Calculation.Rate` | routers/calcular.py:93-105 | a missing tariff gives rate 0; otherwise each period reads its own field of the tariff |
| `Calculation.Cost` | routers/calcular.py:108-120 | the cost is 0 when the tariff is missing or nothing was consumed |
| `Calculation.ResolveDevices` | routers/calcular.py:59-63 | one lookup result per reference, in request order: the stored device, or None for an id that is not stored |
| `Calculation.DailyConsumption` | routers/calcular.py:70-80 | the loop's total is the sum over the referenced devices of consumption times daily use, starting from 0 |
| `Calculation.MonthlyConsumption` | routers/calcular.py:83-85 | the monthly consumption is the daily sum scaled to a month (times 30) |
| `Calculation.AnnualConsumption` | routers/calcular.py:88-90 | the annual consumption is the daily sum scaled to a year (times 360) |
| `Calculation.Calculate` | routers/calcular.py:27-44 | the handler's answer equals `Estimate` for every request whose device references resolve, and for every request with an invalid period |
| `Calculation.DailyTotalAppend` | routers/calcular.py:76-78 | the sum over two concatenated device lists is the sum of the two sums |
| `Calculation.DailyTotalOrderIndependent` | routers/calcular.py:76-78 | in exact arithmetic the daily sum depends only on the multiset of referenced devices, not their order |
| `Calculation.DailyTotalNonNegative` | routers/calcular.py:76-80 | devices with non-negative consumption and use give a non-negative daily sum |
| `Calculation.NoDevicesNoConsumption` | routers/calcular.py:76-80 | an empty device list gives consumption 0 and cost 0 for every valid period |
| `Calculation.ExtraDeviceAddsItsEnergy` | routers/calcular.py:61-78 | one more reference to a stored device, even one already referenced, adds exactly its consumption times daily use to the daily consumption |
| `Calculation.PeriodsScaleDaily` | routers/calcular.py:83-90 | for the same devices, monthly is 30 times daily, annual 12 times monthly and 360 times daily |
| `Calculation.CostUsesThePeriodsRate` | routers/calcular.py:29-37 | with a stored tariff the cost is the consumption times that period's own rate field, never another period's field |
| `Calculation.MissingTariffCostsNothing` | routers/calcular.py:93-105 | an unknown tariff id gives cost 0 whatever the consumption |
| `Calculation.InvalidPeriodIsBadRequest` | routers/calcular.py:38-39 | the answer is an error exactly when the period is none of the three, and that error has status 400 |
| `Calculation.LookedUpOnlyFieldsIrrelevant` | routers/calcular.py:70-74 | the consumer type, consumer unit and dependency ids of a request do not change its answer (by construction, since the model drops their unused lookups) |
| `Calculation.UnreferencedDevicesIrrelevant` | routers/calcular.py:59-63 | only the rows of the referenced devices matter; any other change to the device table leaves the answer as it was |

## Left out

- HTTP routing, `async`, response models and serialisation are not modelled.
- Request validation by the web framework is not modelled. Over HTTP, the
  `Literal` type of the period rejects other strings earlier, with a 422. The
  model takes the period as a plain string and keeps the handler's own 400
  branch.
- The store's id allocation is not modelled. The `Create` methods take the new
  id as a parameter and require that no row uses it.
- Query execution, transactions, foreign-key enforcement and cascading deletes
  are not modelled. The routers themselves check no parent id on create and
  touch no device on a dependency delete. Any constraint or cascade declared
  in the database models is not part of this model.
- Listing handlers return their rows as a set. The order of the rows that
  the store's select returns is not modelled. Rows carry their ids, so no
  row is lost.
- Floating point is not modelled. Consumption and cost are `real`, so the
  model states the exact arithmetic. Rounding and the dependence of a float sum
  on the order of its terms are not captured. `(x * 30) * 12` and `x * 360` are
  equal here, although they may differ in floats.
- The calculation's lookups of the consumer type, the consumer unit and the
  dependencies are not performed. Their results are never used, and the
  consumer-type table is not part of this model.
- A device reference is reduced to its `id` entry. A reference without an
  `id` key would fail in the source, and that failure is not modelled.
- A device reference that names no stored device makes the source fail when
  it dereferences the missing row. The model makes resolution a precondition
  of the calculation, for valid periods only: with an invalid period the
  source answers 400 before it looks at any device.
- The `models` and `schemas` modules are not part of this model. Field names
  come from their uses in the routers. The device `tipo` is taken to be a
  string.
