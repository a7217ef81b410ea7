/** The energy and cost calculation (`POST /calcular/calcular`): the daily
    consumption of the referenced devices, scaled to the chosen period, and
    its cost at the matching rate of the chosen tariff. Arithmetic is on
    `real`: the ideal values of the floating-point totals. */
module Calculation {
  import opened Store
  import Devices

  /** The three periods a request may select. */
  datatype Period = Daily | Monthly | Annual

  /** A calculation request. `deviceIds` holds the `id` entry of each device
      reference, in request order; the consumer type, the consumer unit and
      the dependencies are looked up by the source but never used. */
  datatype Request = Request(
    consumerTypeId: int,
    unitId: int,
    dependencyIds: seq<int>,
    deviceIds: seq<int>,
    tariffId: int,
    period: string)

  /** The response body: total consumption and total cost for the period. */
  datatype Totals = Totals(consumption: real, cost: real)

  datatype HttpError = HttpError(status: int, detail: string)

  datatype Result<T> = Ok(value: T) | Err(error: HttpError)

  /** The only error the calculation reports. */
  const InvalidPeriod := HttpError(400, "Período inválido")

  const DaysPerMonth: real := 30.0
  const MonthsPerYear: real := 12.0

  /** The period a selector string names; any other string names none. */
  function ParsePeriod(s: string): (p: Option<Period>)
    ensures p == Some(Daily) <==> s == "diario"
    ensures p == Some(Monthly) <==> s == "mensal"
    ensures p == Some(Annual) <==> s == "anual"
    ensures p == None <==> s !in {"diario", "mensal", "anual"}
  {
    if s == "diario" then Some(Daily)
    else if s == "mensal" then Some(Monthly)
    else if s == "anual" then Some(Annual)
    else None
  }

  /** Energy one device uses per day. */
  function Energy(d: Device): real
  {
    d.consumption * d.dailyUse
  }

  /** Sum of the devices' daily energy, accumulated from 0 in list order. */
  function DailyTotal(ds: seq<Device>): real
  {
    if ds == [] then 0.0 else DailyTotal(ds[..|ds| - 1]) + Energy(ds[|ds| - 1])
  }

  /** Every referenced id names a stored device. */
  predicate AllResolve(rows: map<int, Device>, ids: seq<int>)
  {
    forall i | 0 <= i < |ids| :: ids[i] in rows
  }

  /** The referenced devices, in request order. */
  function Resolved(rows: map<int, Device>, ids: seq<int>): (ds: seq<Device>)
    requires AllResolve(rows, ids)
    ensures |ds| == |ids|
    ensures forall i | 0 <= i < |ids| :: ds[i] == rows[ids[i]]
  {
    seq(|ids|, i requires 0 <= i < |ids| => rows[ids[i]])
  }

  /** Consumption over a period from the daily consumption: 30 days to the
      month and 12 months to the year. */
  function Scaled(p: Period, daily: real): (r: real)
    ensures p == Daily ==> r == daily
    ensures p == Monthly ==> r == 30.0 * daily
    ensures p == Annual ==> r == 360.0 * daily
  {
    match p
    case Daily => daily
    case Monthly => daily * DaysPerMonth
    case Annual => daily * DaysPerMonth * MonthsPerYear
  }

  /** `obter_tarifa_*`: the rate of the chosen tariff for the period, each
      period reading its own field, or 0 when the tariff is not stored. */
  function Rate(tariffs: map<int, Tariff>, tariffId: int, p: Period): (r: real)
    ensures tariffId !in tariffs ==> r == 0.0
    ensures tariffId in tariffs && p == Daily ==> r == tariffs[tariffId].dailyRate
    ensures tariffId in tariffs && p == Monthly ==> r == tariffs[tariffId].monthlyRate
    ensures tariffId in tariffs && p == Annual ==> r == tariffs[tariffId].annualRate
  {
    match GetOrNone(tariffs, tariffId)
    case None => 0.0
    case Some(t) =>
      match p
      case Daily => t.dailyRate
      case Monthly => t.monthlyRate
      case Annual => t.annualRate
  }

  /** `calcular_custo_*`: the cost of a consumption at the period's rate;
      nothing when the tariff is not stored or nothing was consumed. */
  function Cost(p: Period, consumption: real, tariffs: map<int, Tariff>, tariffId: int): (r: real)
    ensures tariffId !in tariffs ==> r == 0.0
    ensures consumption == 0.0 ==> r == 0.0
  {
    consumption * Rate(tariffs, tariffId, p)
  }

  /** What the calculation answers for a request against the stored devices
      and tariffs. A valid period needs every device reference to resolve:
      the source dereferences the looked-up row without checking it. */
  function Estimate(rows: map<int, Device>, tariffs: map<int, Tariff>, req: Request): Result<Totals>
    requires ParsePeriod(req.period).Some? ==> AllResolve(rows, req.deviceIds)
  {
    match ParsePeriod(req.period)
    case None => Err(InvalidPeriod)
    case Some(p) =>
      var consumption := Scaled(p, DailyTotal(Resolved(rows, req.deviceIds)));
      Ok(Totals(consumption, Cost(p, consumption, tariffs, req.tariffId)))
  }

  /** `obter_dispositivos`: looks up every reference in order, keeping a
      None for each id that is not stored. */
  method ResolveDevices(table: Devices.DeviceTable, ids: seq<int>) returns (found: seq<Option<Device>>)
    requires table.Valid()
    ensures |found| == |ids|
    ensures forall i | 0 <= i < |ids| :: found[i] == GetOrNone(table.rows, ids[i])
  {
    found := [];
    for i := 0 to |ids|
      invariant |found| == i
      invariant forall j | 0 <= j < i :: found[j] == GetOrNone(table.rows, ids[j])
    {
      found := found + [table.Find(ids[i])];
    }
  }

  /** `calcular_consumo_diario`: accumulates consumption times daily use
      over the referenced devices. */
  method DailyConsumption(table: Devices.DeviceTable, req: Request) returns (total: real)
    requires table.Valid()
    requires AllResolve(table.rows, req.deviceIds)
    ensures total == DailyTotal(Resolved(table.rows, req.deviceIds))
  {
    var found := ResolveDevices(table, req.deviceIds);
    ghost var ds := Resolved(table.rows, req.deviceIds);
    total := 0.0;
    for i := 0 to |found|
      invariant total == DailyTotal(ds[..i])
    {
      var device := found[i].value;
      assert ds[..i + 1][..i] == ds[..i];
      total := total + device.consumption * device.dailyUse;
    }
    assert ds[..|found|] == ds;
  }

  /** `calcular_consumo_mensal`: the daily consumption over 30 days. */
  method MonthlyConsumption(table: Devices.DeviceTable, req: Request) returns (total: real)
    requires table.Valid()
    requires AllResolve(table.rows, req.deviceIds)
    ensures total == Scaled(Monthly, DailyTotal(Resolved(table.rows, req.deviceIds)))
  {
    var daily := DailyConsumption(table, req);
    total := daily * DaysPerMonth;
  }

  /** `calcular_consumo_anual`: the monthly consumption over 12 months. */
  method AnnualConsumption(table: Devices.DeviceTable, req: Request) returns (total: real)
    requires table.Valid()
    requires AllResolve(table.rows, req.deviceIds)
    ensures total == Scaled(Annual, DailyTotal(Resolved(table.rows, req.deviceIds)))
  {
    var monthly := MonthlyConsumption(table, req);
    total := monthly * MonthsPerYear;
  }

  /** `calcular_energetico`: dispatches on the period, pairing each period's
      consumption with the same period's cost; any other period is a 400. */
  method Calculate(table: Devices.DeviceTable, tariffs: map<int, Tariff>, req: Request) returns (r: Result<Totals>)
    requires table.Valid()
    requires ParsePeriod(req.period).Some? ==> AllResolve(table.rows, req.deviceIds)
    ensures r == Estimate(table.rows, tariffs, req)
  {
    if req.period == "diario" {
      var consumption := DailyConsumption(table, req);
      r := Ok(Totals(consumption, Cost(Daily, consumption, tariffs, req.tariffId)));
    } else if req.period == "mensal" {
      var consumption := MonthlyConsumption(table, req);
      r := Ok(Totals(consumption, Cost(Monthly, consumption, tariffs, req.tariffId)));
    } else if req.period == "anual" {
      var consumption := AnnualConsumption(table, req);
      r := Ok(Totals(consumption, Cost(Annual, consumption, tariffs, req.tariffId)));
    } else {
      r := Err(InvalidPeriod);
    }
  }

  // Properties of the daily sum.

  /** The total over a concatenation is the sum of the totals. */
  lemma {:induction false} DailyTotalAppend(a: seq<Device>, b: seq<Device>)
    ensures DailyTotal(a + b) == DailyTotal(a) + DailyTotal(b)
  {
    if b == [] {
      assert a + b == a;
    } else {
      var b' := b[..|b| - 1];
      assert (a + b)[..|a + b| - 1] == a + b';
      DailyTotalAppend(a, b');
    }
  }

  /** The total does not depend on the order of the device references. */
  lemma {:induction false} DailyTotalOrderIndependent(a: seq<Device>, b: seq<Device>)
    requires multiset(a) == multiset(b)
    ensures DailyTotal(a) == DailyTotal(b)
    decreases |a|
  {
    if a == [] {
      assert |b| == |multiset(b)| == 0;
    } else {
      var a' := a[..|a| - 1];
      var x := a[|a| - 1];
      assert a == a' + [x];
      assert x in multiset(b);
      var i :| 0 <= i < |b| && b[i] == x;
      var b' := b[..i] + b[i + 1..];
      assert b == b[..i] + [x] + b[i + 1..];
      assert multiset(b) == multiset(b[..i]) + multiset([x]) + multiset(b[i + 1..]);
      assert multiset(a) == multiset(a') + multiset([x]);
      assert multiset(b') == multiset(b[..i]) + multiset(b[i + 1..]);
      assert multiset(a') == multiset(a) - multiset([x]);
      assert multiset(b') == multiset(b) - multiset([x]);
      DailyTotalOrderIndependent(a', b');
      DailyTotalAppend(b[..i] + [x], b[i + 1..]);
      DailyTotalAppend(b[..i], [x]);
      DailyTotalAppend(b[..i], b[i + 1..]);
      assert DailyTotal([x]) == Energy(x) by {
        assert [x][..0] == [];
      }
    }
  }

  /** Devices with non-negative consumption and use give a non-negative total. */
  lemma {:induction false} DailyTotalNonNegative(ds: seq<Device>)
    requires forall i | 0 <= i < |ds| :: ds[i].consumption >= 0.0 && ds[i].dailyUse >= 0.0
    ensures DailyTotal(ds) >= 0.0
  {
    if ds != [] {
      DailyTotalNonNegative(ds[..|ds| - 1]);
      var d := ds[|ds| - 1];
      assert d.consumption * d.dailyUse >= 0.0;
    }
  }

  // Properties of the whole calculation.

  /** A request with no device references consumes and costs nothing. */
  lemma NoDevicesNoConsumption(rows: map<int, Device>, tariffs: map<int, Tariff>, req: Request)
    requires ParsePeriod(req.period).Some?
    requires req.deviceIds == []
    ensures Estimate(rows, tariffs, req) == Ok(Totals(0.0, 0.0))
  {
  }

  /** One more reference to a stored device, whether or not the request
      already references it, adds that device's consumption times daily use
      to the daily consumption: a device referenced twice is counted twice. */
  lemma ExtraDeviceAddsItsEnergy(rows: map<int, Device>, tariffs: map<int, Tariff>, req: Request, id: int)
    requires req.period == "diario"
    requires AllResolve(rows, req.deviceIds)
    requires id in rows
    ensures var more := req.(deviceIds := req.deviceIds + [id]);
      Estimate(rows, tariffs, more).value.consumption
        == Estimate(rows, tariffs, req).value.consumption + Energy(rows[id])
  {
    var ids' := req.deviceIds + [id];
    assert Resolved(rows, ids') == Resolved(rows, req.deviceIds) + [rows[id]];
    DailyTotalAppend(Resolved(rows, req.deviceIds), [rows[id]]);
    assert [rows[id]][..0] == [];
  }

  /** The monthly consumption is 30 times the daily, the annual 12 times
      the monthly, for the same devices. */
  lemma PeriodsScaleDaily(rows: map<int, Device>, tariffs: map<int, Tariff>, req: Request)
    requires AllResolve(rows, req.deviceIds)
    ensures var daily := Estimate(rows, tariffs, req.(period := "diario")).value.consumption;
      var monthly := Estimate(rows, tariffs, req.(period := "mensal")).value.consumption;
      var annual := Estimate(rows, tariffs, req.(period := "anual")).value.consumption;
      monthly == 30.0 * daily && annual == 12.0 * monthly && annual == 360.0 * daily
  {
  }

  /** The cost is the consumption times the chosen tariff's rate for the same
      period, never another period's rate. */
  lemma CostUsesThePeriodsRate(rows: map<int, Device>, tariffs: map<int, Tariff>, req: Request)
    requires ParsePeriod(req.period).Some?
    requires AllResolve(rows, req.deviceIds)
    requires req.tariffId in tariffs
    ensures var t := tariffs[req.tariffId];
      var totals := Estimate(rows, tariffs, req).value;
      && (req.period == "diario" ==> totals.cost == totals.consumption * t.dailyRate)
      && (req.period == "mensal" ==> totals.cost == totals.consumption * t.monthlyRate)
      && (req.period == "anual" ==> totals.cost == totals.consumption * t.annualRate)
  {
  }

  /** An unknown tariff costs nothing, whatever the consumption. */
  lemma MissingTariffCostsNothing(rows: map<int, Device>, tariffs: map<int, Tariff>, req: Request)
    requires ParsePeriod(req.period).Some?
    requires AllResolve(rows, req.deviceIds)
    requires req.tariffId !in tariffs
    ensures Estimate(rows, tariffs, req).Ok?
    ensures Estimate(rows, tariffs, req).value.cost == 0.0
  {
  }

  /** Exactly the three known periods are accepted; any other is a 400 with
      no totals. */
  lemma InvalidPeriodIsBadRequest(rows: map<int, Device>, tariffs: map<int, Tariff>, req: Request)
    requires ParsePeriod(req.period).Some? ==> AllResolve(rows, req.deviceIds)
    ensures Estimate(rows, tariffs, req).Err? <==> req.period !in {"diario", "mensal", "anual"}
    ensures Estimate(rows, tariffs, req).Err? ==> Estimate(rows, tariffs, req).error.status == 400
  {
  }

  /** The consumer type, the consumer unit and the dependencies of a request
      do not affect its answer. This holds by construction: the model drops
      the source's lookups of these ids, whose results are never used, so the
      lemma records that abstraction rather than proving a fact about them. */
  lemma LookedUpOnlyFieldsIrrelevant(rows: map<int, Device>, tariffs: map<int, Tariff>, req: Request, other: Request)
    requires ParsePeriod(req.period).Some? ==> AllResolve(rows, req.deviceIds)
    requires other.deviceIds == req.deviceIds && other.tariffId == req.tariffId && other.period == req.period
    ensures Estimate(rows, tariffs, other) == Estimate(rows, tariffs, req)
  {
  }

  /** Only the referenced device rows matter: changing or adding any other
      row leaves the answer as it was. */
  lemma UnreferencedDevicesIrrelevant(rows: map<int, Device>, rows': map<int, Device>, tariffs: map<int, Tariff>, req: Request)
    requires ParsePeriod(req.period).Some?
    requires AllResolve(rows, req.deviceIds)
    requires forall i | 0 <= i < |req.deviceIds| :: req.deviceIds[i] in rows' && rows'[req.deviceIds[i]] == rows[req.deviceIds[i]]
    ensures Estimate(rows', tariffs, req) == Estimate(rows, tariffs, req)
  {
    assert Resolved(rows', req.deviceIds) == Resolved(rows, req.deviceIds);
  }
}
