/** The adapter_routes table and the canary split between its two stages. */
module AdapterRoutes {
  import opened Wrappers
  import opened ChatRequest

  datatype Key = Key(tenant: string, modelAlias: string, stage: string)

  datatype Route = Route(baseModel: string, adapterId: string, enabled: bool, canaryPercent: int)

  datatype Row = Row(key: Key, route: Route)

  type Table = map<Key, Route>

  const PRODUCTION: string := "Production"
  const STAGING: string := "Staging"

  function Clamp(percent: int): int {
    if percent < 0 then 0 else if 100 < percent then 100 else percent
  }

  /** The enabled row of a stage. */
  function Active(t: Table, tenant: string, modelAlias: string, stage: string): Option<Row> {
    var k := Key(tenant, modelAlias, stage);
    if k in t && t[k].enabled then Some(Row(k, t[k])) else None
  }

  function OrElse(a: Option<Row>, b: Option<Row>): Option<Row> { if a.Some? then a else b }

  /** The row a request is steered to; `hash` is the first 32 bits of the routing
      key's digest. An empty preferred stage is no preference. */
  function Choose(t: Table, tenant: string, modelAlias: string, hash: nat, preferredStage: Option<string>)
    : Option<Row>
  {
    if preferredStage.Some? && preferredStage.value != "" then
      Active(t, tenant, modelAlias, preferredStage.value)
    else
      var production := Active(t, tenant, modelAlias, PRODUCTION);
      var staging := Active(t, tenant, modelAlias, STAGING);
      if staging.Some? && staging.value.route.canaryPercent > 0 then
        if hash % 100 < staging.value.route.canaryPercent then staging else OrElse(production, staging)
      else
        OrElse(production, staging)
  }

  /** Which row a request is steered to, read off the table: the enabled row of a preferred
      stage or none; otherwise Staging's for the first `canaryPercent` of every hundred
      hash values, and Production's for the rest; either stands in for a missing one. */
  lemma ChooseByTable(t: Table, tenant: string, modelAlias: string, hash: nat, preferredStage: Option<string>)
    ensures var production, staging := Key(tenant, modelAlias, "Production"), Key(tenant, modelAlias, "Staging");
            var chosen := Choose(t, tenant, modelAlias, hash, preferredStage);
            if preferredStage !in {None, Some("")} then
              var key := Key(tenant, modelAlias, preferredStage.value);
              chosen == if key in t && t[key].enabled then Some(Row(key, t[key])) else None
            else if staging in t && t[staging].enabled && hash % 100 < t[staging].canaryPercent then
              chosen == Some(Row(staging, t[staging]))
            else if production in t && t[production].enabled then chosen == Some(Row(production, t[production]))
            else if staging in t && t[staging].enabled then chosen == Some(Row(staging, t[staging]))
            else chosen == None
  {
  }

  // ------------------------------------------------------------ the split

  const HASHES: nat := 0x1_0000_0000

  function Residues(n: nat, p: nat): set<nat> {
    set h: nat | h < n && h % 100 < p
  }

  function Smaller(a: nat, b: nat): nat { if a < b then a else b }

  /** Size of Residues(n, p). */
  function Quota(n: nat, p: nat): nat { n / 100 * p + Smaller(n % 100, p) }

  lemma QuotaStep(n: nat, p: nat)
    requires p <= 100
    ensures Quota(n + 1, p) == Quota(n, p) + if n % 100 < p then 1 else 0
  {
    var q, r := n / 100, n % 100;
    assert n + 1 == 100 * q + (r + 1);
    if r == 99 {
      assert (n + 1) / 100 == q + 1 && (n + 1) % 100 == 0;
      assert (q + 1) * p == q * p + p;
    } else {
      assert (n + 1) / 100 == q && (n + 1) % 100 == r + 1;
    }
  }

  lemma {:induction false} CountResidues(n: nat, p: nat)
    requires p <= 100
    ensures |Residues(n, p)| == Quota(n, p)
  {
    if n == 0 {
      assert Residues(0, p) == {};
    } else {
      hide Quota;
      CountResidues(n - 1, p);
      QuotaStep(n - 1, p);
      if (n - 1) % 100 < p {
        assert Residues(n, p) == Residues(n - 1, p) + {n - 1};
      } else {
        assert Residues(n, p) == Residues(n - 1, p);
      }
    }
  }

  /** The hash values steered to Staging. */
  function StagingHashes(t: Table, tenant: string, modelAlias: string): set<nat> {
    set h: nat | h < HASHES && Choose(t, tenant, modelAlias, h, None) == Active(t, tenant, modelAlias, STAGING)
  }

  /** With both stages enabled, percentage p sends exactly 42949672 p + min(p, 96)
      of the 2^32 hash values to Staging. */
  lemma CanaryShareIsExact(t: Table, tenant: string, modelAlias: string)
    requires Active(t, tenant, modelAlias, PRODUCTION).Some? && Active(t, tenant, modelAlias, STAGING).Some?
    requires 0 <= Active(t, tenant, modelAlias, STAGING).value.route.canaryPercent <= 100
    ensures var p := Active(t, tenant, modelAlias, STAGING).value.route.canaryPercent;
            |StagingHashes(t, tenant, modelAlias)| == 42949672 * p + Smaller(p, 96)
  {
    var p := Active(t, tenant, modelAlias, STAGING).value.route.canaryPercent;
    assert STAGING[0] == 'S' && PRODUCTION[0] == 'P';
    assert StagingHashes(t, tenant, modelAlias) == Residues(HASHES, p);
    CountResidues(HASHES, p);
  }

  /** Raising the percentage never moves a key from Staging back to Production. */
  lemma CanaryIsMonotone(t: Table, tenant: string, modelAlias: string, hash: nat, p: int)
    requires Active(t, tenant, modelAlias, PRODUCTION).Some? && Active(t, tenant, modelAlias, STAGING).Some?
    requires Active(t, tenant, modelAlias, STAGING).value.route.canaryPercent <= p
    requires Choose(t, tenant, modelAlias, hash, None) == Active(t, tenant, modelAlias, STAGING)
    ensures var k := Key(tenant, modelAlias, STAGING);
            var raised := t[k := t[k].(canaryPercent := p)];
            Choose(raised, tenant, modelAlias, hash, None) == Active(raised, tenant, modelAlias, STAGING)
  {
    assert STAGING[0] == 'S' && PRODUCTION[0] == 'P';
  }

  // ------------------------------------------------------------ repository

  ghost predicate UniqueKeys(rows: seq<Row>) {
    forall i, j :: 0 <= i < j < |rows| ==> rows[i].key != rows[j].key
  }

  /** Position of the row stored under `key`, or the length. */
  function Position(rows: seq<Row>, key: Key): (i: nat)
    ensures i <= |rows|
    ensures i < |rows| ==> rows[i].key == key
    ensures i == |rows| ==> forall j :: 0 <= j < |rows| ==> rows[j].key != key
  {
    if rows == [] then 0
    else if rows[0].key == key then 0
    else 1 + Position(rows[1..], key)
  }

  class AdapterRouteRepository {
    var rows: seq<Row>

    constructor ()
      ensures Valid() && Contents() == map[]
    {
      rows := [];
    }

    ghost predicate Valid()
      reads this
    {
      && UniqueKeys(rows)
      && forall i :: 0 <= i < |rows| ==> 0 <= rows[i].route.canaryPercent <= 100
    }

    /** The table as a map from (tenant, alias, stage). */
    ghost function Contents(): Table
      reads this
    {
      AsTable(rows)
    }

    method GetByUnique(key: Key) returns (row: Option<Row>)
      requires Valid()
      ensures row == if key in Contents() then Some(Row(key, Contents()[key])) else None
    {
      var i := Position(rows, key);
      TableHas(rows, key);
      return if i < |rows| then Some(rows[i]) else None;
    }

    method GetActive(tenant: string, modelAlias: string, stage: string) returns (row: Option<Row>)
      requires Valid()
      ensures row == Active(Contents(), tenant, modelAlias, stage)
    {
      row := GetByUnique(Key(tenant, modelAlias, stage));
      if row.Some? && !row.value.route.enabled {
        row := None;
      }
    }

    method ResolveWithCanary(tenant: string, modelAlias: string, hash: nat, preferredStage: Option<string>)
      returns (row: Option<Row>)
      requires Valid()
      ensures row == Choose(Contents(), tenant, modelAlias, hash, preferredStage)
    {
      if preferredStage.Some? && preferredStage.value != "" {
        row := GetActive(tenant, modelAlias, preferredStage.value);
        return;
      }
      var production := GetActive(tenant, modelAlias, PRODUCTION);
      var staging := GetActive(tenant, modelAlias, STAGING);
      if staging.Some? && staging.value.route.canaryPercent > 0 {
        var bucket := hash % 100;
        if bucket < staging.value.route.canaryPercent {
          return staging;
        }
        return OrElse(production, staging);
      }
      return OrElse(production, staging);
    }

    /** Writes one row and no other, clamping the percentage; keys stay unique. */
    method Upsert(key: Key, route: Route) returns (row: Row)
      requires Valid()
      modifies this
      ensures Valid() && row == Row(key, route.(canaryPercent := Clamp(route.canaryPercent)))
      ensures Contents() == old(Contents())[key := row.route]
      ensures row.route.canaryPercent == if route.canaryPercent <= 0 then 0
                                         else if 100 <= route.canaryPercent then 100 else route.canaryPercent
    {
      row := Row(key, route.(canaryPercent := Clamp(route.canaryPercent)));
      hide AsTable, Position;
      var i := Position(rows, key);
      if i < |rows| {
        rows := rows[i := row];
      } else {
        rows := rows + [row];
      }
      RowWritten(old(rows), i, row, rows);
    }

    /** Switches one row off and reports it, or reports that there is none. */
    method Disable(key: Key) returns (row: Option<Row>)
      requires Valid()
      modifies this
      ensures Valid()
      ensures key !in old(Contents()) ==> row == None && Contents() == old(Contents())
      ensures key in old(Contents()) ==>
                var off := old(Contents())[key].(enabled := false);
                row == Some(Row(key, off)) && Contents() == old(Contents())[key := off]
    {
      var i := Position(rows, key);
      TableHas(rows, key);
      if i == |rows| {
        return None;
      }
      var off := rows[i].(route := rows[i].route.(enabled := false));
      rows := rows[i := off];
      RowWritten(old(rows), i, off, rows);
      return Some(off);
    }
  }

  function AsTable(rows: seq<Row>): Table {
    if rows == [] then map[]
    else AsTable(rows[..|rows| - 1])[rows[|rows| - 1].key := rows[|rows| - 1].route]
  }

  lemma {:induction false} TableHas(rows: seq<Row>, key: Key)
    requires UniqueKeys(rows)
    ensures var i := Position(rows, key);
            if i < |rows| then key in AsTable(rows) && AsTable(rows)[key] == rows[i].route
            else key !in AsTable(rows)
    decreases |rows|
  {
    if rows != [] {
      var n := |rows| - 1;
      TableHas(rows[..n], key);
      var i, j := Position(rows, key), Position(rows[..n], key);
      if j < n && i < |rows| {
        assert rows[j].key == rows[i].key;
      }
    }
  }

  lemma {:induction false} UpdatedInPlace(before: seq<Row>, i: nat, row: Row)
    requires UniqueKeys(before) && i < |before| && before[i].key == row.key
    ensures AsTable(before[i := row]) == AsTable(before)[row.key := row.route]
    decreases |before|
  {
    var n := |before| - 1;
    var after := before[i := row];
    if i == n {
      assert after[..n] == before[..n];
    } else {
      assert after[..n] == before[..n][i := row];
      UpdatedInPlace(before[..n], i, row);
    }
  }

  lemma RowWritten(before: seq<Row>, i: nat, row: Row, after: seq<Row>)
    requires UniqueKeys(before) && i == Position(before, row.key)
    requires after == if i < |before| then before[i := row] else before + [row]
    ensures UniqueKeys(after)
    ensures AsTable(after) == AsTable(before)[row.key := row.route]
  {
    if i < |before| {
      UpdatedInPlace(before, i, row);
    } else {
      assert after[..|after| - 1] == before;
    }
  }

  // ---------------------------------------------------------------- runs

  datatype Op = Put(key: Key, route: Route) | Off(key: Key)

  function Perform(t: Table, op: Op): Table {
    match op
    case Put(key, route) => t[key := route.(canaryPercent := Clamp(route.canaryPercent))]
    case Off(key) => if key in t then t[key := t[key].(enabled := false)] else t
  }

  function PerformAll(t: Table, ops: seq<Op>): Table {
    if ops == [] then t else Perform(PerformAll(t, ops[..|ops| - 1]), ops[|ops| - 1])
  }

  /** The operations on one key. */
  function On(key: Key, ops: seq<Op>): seq<Op> {
    if ops == [] then []
    else On(key, ops[..|ops| - 1]) + if ops[|ops| - 1].key == key then [ops[|ops| - 1]] else []
  }

  /** Whatever the run, percentages stay within 0..100, and a row is what its own
      operations made it: no other tenant, alias or stage has any say. */
  lemma {:induction false} RowsAreIndependent(ops: seq<Op>, key: Key)
    ensures var t, own := PerformAll(map[], ops), PerformAll(map[], On(key, ops));
            && (key in t <==> key in own)
            && (key in t ==> t[key] == own[key] && 0 <= t[key].canaryPercent <= 100)
    decreases |ops|
  {
    if ops != [] {
      var last, before := ops[|ops| - 1], ops[..|ops| - 1];
      RowsAreIndependent(before, key);
      if last.key == key {
        assert On(key, ops)[..|On(key, ops)| - 1] == On(key, before);
      } else {
        assert On(key, ops) == On(key, before);
      }
    }
  }

  // ------------------------------------------------- routing of a request

  predicate Truthy(s: Option<string>) { s.Some? && s.value != "" }

  /** The request after the adapter table has been consulted; already routed requests
      and failed lookups pass unchanged. */
  function ApplyRoute(r: ChatRequest, t: Table, tenant: string, hash: nat, reachable: bool): ChatRequest {
    if (Truthy(r.adapterId) && Truthy(r.modelAlias)) || !reachable then r else
    match Choose(t, tenant, r.model, hash, r.adapterStage)
    case None => r
    case Some(row) =>
      r.(modelAlias := Some(r.model), model := row.route.baseModel,
         adapterId := Some(row.route.adapterId), adapterStage := Some(row.key.stage))
  }

  /** A request is remapped to its row's model and adapter, remembers what it asked for, and
      is otherwise unchanged; nothing happens without a row, after a failed lookup, or to
      a request that already names both adapter and alias. */
  lemma RoutedRequest(r: ChatRequest, t: Table, tenant: string, hash: nat, reachable: bool)
    ensures var row := Choose(t, tenant, r.model, hash, r.adapterStage);
            var named := r.adapterId !in {None, Some("")} && r.modelAlias !in {None, Some("")};
            ApplyRoute(r, t, tenant, hash, reachable)
            == if named || !reachable || row.None? then r
               else r.(model := row.value.route.baseModel, adapterId := Some(row.value.route.adapterId),
                       modelAlias := Some(r.model), adapterStage := Some(row.value.key.stage))
  {
  }

  /** A request that found a row is left alone by every further routing, whatever table,
      hash and luck it meets, exactly when the row names an adapter and the request
      named a model. */
  lemma RoutingIsAppliedOnceIff(r: ChatRequest, t: Table, tenant: string, hash: nat)
    requires !(Truthy(r.adapterId) && Truthy(r.modelAlias)) && Choose(t, tenant, r.model, hash, r.adapterStage).Some?
    ensures var row := Choose(t, tenant, r.model, hash, r.adapterStage).value;
            var routed := ApplyRoute(r, t, tenant, hash, true);
            (forall t': Table, hash': nat, up: bool :: ApplyRoute(routed, t', tenant, hash', up) == routed)
            <==> row.route.adapterId != "" && r.model != ""
  {
    var row, routed := Choose(t, tenant, r.model, hash, r.adapterStage).value, ApplyRoute(r, t, tenant, hash, true);
    assert PRODUCTION != "" && STAGING != "" && row.key.stage != "";
    if row.route.adapterId == "" || r.model == "" {
      var elsewhere := Route(routed.model + "x", "", true, 0);
      var t' := map[Key(tenant, routed.model, row.key.stage) := elsewhere];
      assert Choose(t', tenant, routed.model, 0, routed.adapterStage).value.route == elsewhere;
      assert ApplyRoute(routed, t', tenant, 0, true).model != routed.model;
    }
  }
}
