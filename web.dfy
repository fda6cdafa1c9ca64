/** The dashboard server of multidomain_inventory_web.py: the time-bounded
    cache of the aggregate, the statistics the page shows, the language
    fallback of the page route and the rows of the CSV export. */
module Web {
  import opened Wrappers
  import opened Strings
  import opened Collections
  import opened Records
  import Core

  // ---------------------------------------------------------------------------
  // The cache.

  /** `CACHE_DURATION`, in seconds. */
  const CacheDuration: real := 300.0

  /** The two module globals `DATA_CACHE` and `LAST_UPDATE`. */
  datatype CacheState = CacheState(cache: Option<seq<Record>>, lastUpdate: real)

  /** The cached entry can be served: there is one, the refresh is not forced
      and it is younger than `CACHE_DURATION`. */
  predicate Hit(st: CacheState, force: bool, now: real) {
    st.cache.Some? && !force && now - st.lastUpdate < CacheDuration
  }

  /** What one call of `get_data_with_cache` returns and the state it leaves. */
  datatype CacheStep = CacheStep(data: seq<Record>, after: CacheState)

  /** One call of `get_data_with_cache` at time `now`, where `fetched` is what a
      fresh `get_all_inventory` would return. After every call the cache holds
      exactly what the call returned; a hit changes nothing; otherwise the
      fresh data is returned and stamped with `now`. */
  function Step(st: CacheState, force: bool, now: real, fetched: seq<Record>): (r: CacheStep)
    ensures r.after.cache == Some(r.data)
    ensures Hit(st, force, now) ==> r.after == st
    ensures !Hit(st, force, now) ==> r.data == fetched && r.after.lastUpdate == now
  {
    if Hit(st, force, now) then CacheStep(st.cache.value, st)
    else CacheStep(fetched, CacheState(Some(fetched), now))
  }

  /** A forced refresh always fetches and restamps the entry. */
  lemma ForcedRefreshFetches(st: CacheState, now: real, fetched: seq<Record>)
    ensures Step(st, true, now, fetched) == CacheStep(fetched, CacheState(Some(fetched), now))
  {
  }

  /** An entry `CACHE_DURATION` seconds old or older is replaced by a fresh fetch. */
  lemma StaleEntryFetches(st: CacheState, force: bool, now: real, fetched: seq<Record>)
    requires now - st.lastUpdate >= CacheDuration
    ensures Step(st, force, now, fetched) == CacheStep(fetched, CacheState(Some(fetched), now))
  {
  }

  /** After any call, an unforced call made less than `CACHE_DURATION` after the
      entry's timestamp returns the same data and leaves the state (timestamp
      included) as it was, whatever a fetch would have returned. */
  lemma RepeatedReadWithinDuration(st: CacheState, force: bool, t1: real, t2: real, x: seq<Record>, y: seq<Record>)
    requires t2 - Step(st, force, t1, x).after.lastUpdate < CacheDuration
    ensures var first := Step(st, force, t1, x);
            Step(first.after, false, t2, y) == first
  {
  }

  /** `DATA_CACHE`/`LAST_UPDATE` with `get_data_with_cache`; the clock reading
      and the configuration and replies the fetch would see are parameters. */
  class InventoryCache {
    var dataCache: Option<seq<Record>>
    var lastUpdate: real

    /** `DATA_CACHE = None`, `LAST_UPDATE = 0` */
    constructor ()
      ensures dataCache == None && lastUpdate == 0.0
    {
      dataCache := None;
      lastUpdate := 0.0;
    }

    function State(): CacheState
      reads this
    {
      CacheState(dataCache, lastUpdate)
    }

    /** `get_data_with_cache(force)` called at time `now`. */
    method GetDataWithCache(force: bool, now: real, cfg: Core.Config, replies: Core.Replies) returns (data: seq<Record>)
      modifies this
      ensures CacheStep(data, State()) == Step(old(State()), force, now, Core.AllInventory(cfg, replies))
    {
      if dataCache.Some? && !force && now - lastUpdate < CacheDuration {
        return dataCache.value;
      }
      data := Core.GetAllInventory(cfg, replies);
      dataCache := Some(data);
      lastUpdate := now;
    }
  }

  // ---------------------------------------------------------------------------
  // The statistics of the page.

  /** One entry of `stats['controllers']`. */
  datatype ControllerInfo = ControllerInfo(count: nat, domain: string)

  /** The `stats` dictionary. */
  datatype Stats = Stats(total: nat, aci: nat, meraki: nat, catalyst: nat, sdwan: nat,
                         controllers: map<Value, ControllerInfo>)

  const EmptyStats: Stats := Stats(0, 0, 0, 0, 0, map[])

  /** Every device row's domain, if present, is a string: the source calls
      `strip()` on it and would raise on anything else. */
  predicate StatsReady(rows: seq<Record>) {
    forall i :: 0 <= i < |rows| && IsDevice(rows[i]) ==> DomainIsText(rows[i])
  }

  /** `row.get('domain', '').strip()`; a `None` domain (which the source cannot
      strip, and `StatsReady` rules out) reads as empty. */
  function StrippedDomain(row: Record): string {
    match GetOr(row, "domain", Text(""))
    case Text(s) => Strip(s)
    case Null => ""
  }

  /** The domain counter a device row increments, if any. */
  function Bucket(row: Record): Option<DomainKey> {
    FirstKeyIn(Lower(StrippedDomain(row)))
  }

  /** `row.get('controller', 'Unknown')` */
  function ControllerOf(row: Record): Value {
    GetOr(row, "controller", Text("Unknown"))
  }

  /** The counter of domain `k`. */
  function BucketCount(st: Stats, k: DomainKey): nat {
    match k
    case Aci => st.aci
    case Meraki => st.meraki
    case Catalyst => st.catalyst
    case Sdwan => st.sdwan
  }

  /** The counters after a row whose domain falls in bucket `b` (if any). */
  function BumpBucket(st: Stats, b: Option<DomainKey>): (r: Stats)
    ensures r.total == st.total && r.controllers == st.controllers
    ensures forall k :: BucketCount(r, k) == BucketCount(st, k) + (if b == Some(k) then 1 else 0)
  {
    match b
    case Some(Aci) => st.(aci := st.aci + 1)
    case Some(Meraki) => st.(meraki := st.meraki + 1)
    case Some(Catalyst) => st.(catalyst := st.catalyst + 1)
    case Some(Sdwan) => st.(sdwan := st.sdwan + 1)
    case None => st
  }

  /** `controllers` after one more row of controller `ctrl` whose stripped
      domain is `domain`: a new entry takes that domain, an existing one keeps
      its own. */
  function Tally(m: map<Value, ControllerInfo>, ctrl: Value, domain: string): (r: map<Value, ControllerInfo>)
    ensures r.Keys == m.Keys + {ctrl}
    ensures r[ctrl].count == (if ctrl in m then m[ctrl].count else 0) + 1
    ensures r[ctrl].domain == if ctrl in m then m[ctrl].domain else domain
    ensures forall c :: c in m && c != ctrl ==> r[c] == m[c]
  {
    var info := if ctrl in m then m[ctrl] else ControllerInfo(0, domain);
    m[ctrl := info.(count := info.count + 1)]
  }

  /** The source's two steps, creating a missing entry with count 0 and then
      incrementing it, make one `Tally`. */
  lemma TallyInTwoSteps(m: map<Value, ControllerInfo>, ctrl: Value, domain: string)
    ensures var m1 := if ctrl in m then m else m[ctrl := ControllerInfo(0, domain)];
            m1[ctrl := m1[ctrl].(count := m1[ctrl].count + 1)] == Tally(m, ctrl, domain)
  {
  }

  /** One pass of the loop body of `calculate_stats`: a row with an `error`
      key changes nothing; any other row adds one to the total, to at most one
      domain counter and to its controller's entry. */
  function CountRow(st: Stats, row: Record): (r: Stats)
    ensures IsError(row) ==> r == st
    ensures IsDevice(row) ==>
      && r.total == st.total + 1
      && r.aci == st.aci + (if Bucket(row) == Some(Aci) then 1 else 0)
      && r.meraki == st.meraki + (if Bucket(row) == Some(Meraki) then 1 else 0)
      && r.catalyst == st.catalyst + (if Bucket(row) == Some(Catalyst) then 1 else 0)
      && r.sdwan == st.sdwan + (if Bucket(row) == Some(Sdwan) then 1 else 0)
      && r.controllers == Tally(st.controllers, ControllerOf(row), StrippedDomain(row))
  {
    if IsError(row) then st
    else BumpBucket(st.(total := st.total + 1), Bucket(row)).(controllers := Tally(st.controllers, ControllerOf(row), StrippedDomain(row)))
  }

  /** The statistics of `rows`, counted row by row from the first. */
  function StatsOf(rows: seq<Record>): Stats {
    if rows == [] then EmptyStats else CountRow(StatsOf(rows[..|rows| - 1]), rows[|rows| - 1])
  }

  /** Counting one more row at the end of `rows`. */
  lemma StatsOfSnoc(rows: seq<Record>, row: Record)
    ensures StatsOf(rows + [row]) == CountRow(StatsOf(rows), row)
  {
    assert (rows + [row])[..|rows|] == rows;
  }

  /** The body of the loop of `calculate_stats` for a row without an `error` key. */
  method CountDevice(before: Stats, row: Record) returns (stats: Stats)
    requires IsDevice(row) && DomainIsText(row)
    ensures stats == CountRow(before, row)
  {
    stats := before.(total := before.total + 1);
    var domain := StrippedDomain(row);
    // the `elif` chain on the lower-cased domain
    stats := CountBucket(stats, FirstKeyIn(Lower(domain)));
    var ctrl := GetOr(row, "controller", Text("Unknown"));
    var ctrls := TallyController(stats.controllers, ctrl, domain);
    stats := stats.(controllers := ctrls);
  }

  /** The `controllers` update of `calculate_stats`: a controller seen for the
      first time is entered with count 0 and this row's domain, then its count
      goes up by one. */
  method TallyController(before: map<Value, ControllerInfo>, ctrl: Value, domain: string)
    returns (ctrls: map<Value, ControllerInfo>)
    ensures ctrls == Tally(before, ctrl, domain)
  {
    ctrls := before;
    if ctrl !in ctrls {
      ctrls := ctrls[ctrl := ControllerInfo(0, domain)];
    }
    ctrls := ctrls[ctrl := ctrls[ctrl].(count := ctrls[ctrl].count + 1)];
    TallyInTwoSteps(before, ctrl, domain);
  }

  /** The `elif` chain of `calculate_stats`: the counter of bucket `b`, if
      any, goes up by one. */
  method CountBucket(before: Stats, b: Option<DomainKey>) returns (stats: Stats)
    ensures stats == BumpBucket(before, b)
  {
    stats := before;
    match b {
      case Some(Aci) => stats := stats.(aci := stats.aci + 1);
      case Some(Meraki) => stats := stats.(meraki := stats.meraki + 1);
      case Some(Catalyst) => stats := stats.(catalyst := stats.catalyst + 1);
      case Some(Sdwan) => stats := stats.(sdwan := stats.sdwan + 1);
      case None =>
    }
  }

  /** `calculate_stats(data)` */
  method CalculateStats(data: seq<Record>) returns (stats: Stats)
    requires StatsReady(data)
    ensures stats == StatsOf(data)
  {
    stats := EmptyStats;
    var i := 0;
    while i < |data|
      invariant 0 <= i <= |data|
      invariant stats == StatsOf(data[..i])
    {
      var row := data[i];
      assert data[..i + 1] == data[..i] + [row];
      StatsOfSnoc(data[..i], row);
      if "error" !in row {
        stats := CountDevice(stats, row);
      }
      i := i + 1;
    }
    assert data[..|data|] == data;
  }

  /** The device rows whose domain increments counter `k`. */
  function InBucket(k: DomainKey): Record -> bool {
    row => IsDevice(row) && Bucket(row) == Some(k)
  }

  /** The device rows of controller `c`. */
  function OfController(c: Value): Record -> bool {
    row => IsDevice(row) && ControllerOf(row) == c
  }

  /** `total` counts exactly the rows without an `error` key. */
  lemma {:induction false} StatsTotal(rows: seq<Record>)
    ensures StatsOf(rows).total == |Filter(IsDevice, rows)|
  {
    if rows != [] {
      var init := rows[..|rows| - 1];
      assert rows == init + [rows[|rows| - 1]];
      StatsTotal(init);
      FilterSnoc(IsDevice, init, rows[|rows| - 1]);
    }
  }

  /** Each domain counter counts exactly the device rows whose stripped,
      lower-cased domain first matches that domain's keyword. */
  lemma {:induction false} StatsBucketCount(rows: seq<Record>, k: DomainKey)
    ensures BucketCount(StatsOf(rows), k) == |Filter(InBucket(k), rows)|
  {
    if rows != [] {
      var init := rows[..|rows| - 1];
      assert rows == init + [rows[|rows| - 1]];
      StatsBucketCount(init, k);
      FilterSnoc(InBucket(k), init, rows[|rows| - 1]);
    }
  }

  /** A row increments at most one domain counter, so the four never add up to
      more than the total. */
  lemma {:induction false} StatsBucketsBounded(rows: seq<Record>)
    ensures var st := StatsOf(rows);
            st.aci + st.meraki + st.catalyst + st.sdwan <= st.total
  {
    if rows != [] {
      StatsBucketsBounded(rows[..|rows| - 1]);
    }
  }

  /** The per-controller counts, as a counting map. */
  function Counts(m: map<Value, ControllerInfo>): map<Value, nat> {
    map c | c in m :: m[c].count
  }

  /** Tallying a controller bumps its count and leaves the other counts alone. */
  lemma CountsTally(m: map<Value, ControllerInfo>, ctrl: Value, domain: string)
    ensures Counts(Tally(m, ctrl, domain)) == Counts(m)[ctrl := (if ctrl in Counts(m) then Counts(m)[ctrl] else 0) + 1]
  {
    var lhs := Counts(Tally(m, ctrl, domain));
    var rhs := Counts(m)[ctrl := (if ctrl in Counts(m) then Counts(m)[ctrl] else 0) + 1];
    assert lhs.Keys == rhs.Keys;
    forall c | c in lhs.Keys
      ensures lhs[c] == rhs[c]
    {
    }
  }

  /** The per-controller counts add up to the total. */
  lemma {:induction false} ControllerCountsSumToTotal(rows: seq<Record>)
    ensures SumValues(Counts(StatsOf(rows).controllers)) == StatsOf(rows).total
  {
    if rows != [] {
      var init := rows[..|rows| - 1];
      var row := rows[|rows| - 1];
      ControllerCountsSumToTotal(init);
      if IsDevice(row) {
        var m := StatsOf(init).controllers;
        var ctrl := ControllerOf(row);
        CountsTally(m, ctrl, StrippedDomain(row));
        SumValuesBump(Counts(m), ctrl);
      }
    }
  }

  /** `j` is the first device row of controller `c`. */
  predicate FirstRowOf(rows: seq<Record>, c: Value, j: int) {
    0 <= j < |rows| && OfController(c)(rows[j]) && forall i :: 0 <= i < j ==> !OfController(c)(rows[i])
  }

  /** The `controllers` entries after the loop has passed over `rows`, on their
      own: each device row tallies its controller. */
  function ControllersOf(rows: seq<Record>): map<Value, ControllerInfo> {
    if rows == [] then map[]
    else
      var row := rows[|rows| - 1];
      var m := ControllersOf(rows[..|rows| - 1]);
      if IsDevice(row) then Tally(m, ControllerOf(row), StrippedDomain(row)) else m
  }

  /** `ControllersOf` is the `controllers` part of the statistics. */
  lemma {:induction false} StatsControllers(rows: seq<Record>)
    ensures StatsOf(rows).controllers == ControllersOf(rows)
  {
    if rows != [] {
      var init := rows[..|rows| - 1];
      assert rows == init + [rows[|rows| - 1]];
      StatsOfSnoc(init, rows[|rows| - 1]);
      StatsControllers(init);
    }
  }

  /** The entries of `controllers` after counting one more row. */
  lemma ControllersSnoc(init: seq<Record>, row: Record)
    ensures var m := ControllersOf(init);
            var m' := ControllersOf(init + [row]);
            if IsDevice(row) then m' == Tally(m, ControllerOf(row), StrippedDomain(row)) else m' == m
  {
    assert (init + [row])[..|init|] == init;
  }

  /** A controller has an entry iff some device row falls under it (a row
      without a `controller` key falls under 'Unknown'). */
  lemma {:induction false} ControllerPresence(rows: seq<Record>, c: Value)
    ensures c in ControllersOf(rows) <==> exists j :: 0 <= j < |rows| && OfController(c)(rows[j])
  {
    if rows != [] {
      var init := rows[..|rows| - 1];
      var row := rows[|rows| - 1];
      assert rows == init + [row];
      ControllerPresence(init, c);
      ControllersSnoc(init, row);
      if exists j :: 0 <= j < |rows| && OfController(c)(rows[j]) {
        var j :| 0 <= j < |rows| && OfController(c)(rows[j]);
        if j < |init| {
          assert OfController(c)(init[j]);
        }
      }
      if c in ControllersOf(init) {
        var j :| 0 <= j < |init| && OfController(c)(init[j]);
        assert OfController(c)(rows[j]);
      }
    }
  }

  /** A controller's count is the number of device rows that fall under it. */
  lemma {:induction false} ControllerCount(rows: seq<Record>, c: Value)
    requires c in ControllersOf(rows)
    ensures ControllersOf(rows)[c].count == |Filter(OfController(c), rows)|
  {
    var init := rows[..|rows| - 1];
    var row := rows[|rows| - 1];
    assert rows == init + [row];
    ControllersSnoc(init, row);
    FilterSnoc(OfController(c), init, row);
    if c in ControllersOf(init) {
      ControllerCount(init, c);
    } else {
      ControllerPresence(init, c);
      FilterKeepsNone(OfController(c), init);
    }
  }

  /** A controller's domain is the stripped domain of the first device row
      that falls under it: later rows never overwrite it. */
  lemma {:induction false} ControllerDomainFirstSeen(rows: seq<Record>, c: Value)
    requires c in ControllersOf(rows)
    ensures exists j :: FirstRowOf(rows, c, j) && ControllersOf(rows)[c].domain == StrippedDomain(rows[j])
  {
    var init := rows[..|rows| - 1];
    var row := rows[|rows| - 1];
    assert rows == init + [row];
    ControllersSnoc(init, row);
    if c in ControllersOf(init) {
      ControllerDomainFirstSeen(init, c);
      var j :| FirstRowOf(init, c, j) && ControllersOf(init)[c].domain == StrippedDomain(init[j]);
      assert FirstRowOf(rows, c, j);
    } else {
      ControllerPresence(init, c);
      assert FirstRowOf(rows, c, |rows| - 1);
    }
  }

  /** The adapters' tags carry no surrounding white space. */
  lemma StripTag(k: DomainKey)
    ensures Strip(Tag(k)) == Tag(k)
  {
    match k
    case Aci => StripKeeps("ACI");
    case Meraki => StripKeeps("Meraki");
    case Catalyst => StripKeeps("Catalyst");
    case Sdwan => StripKeeps("SDWAN");
  }

  /** A record tagged by adapter `k` falls in the counter of `k`. */
  lemma TaggedBucket(k: DomainKey, x: Record)
    requires "domain" in x && x["domain"] == Text(Tag(k))
    ensures Bucket(x) == Some(k)
  {
    StripTag(k);
    assert StrippedDomain(x) == Tag(k);
    TagResolvesToItsKey(k);
  }

  /** The rows of one adapter's block that counter `k` counts. */
  lemma BlockBucket(k: DomainKey, owner: DomainKey, rs: seq<Record>)
    requires Core.Tagged(owner, rs)
    ensures Filter(InBucket(k), rs) == if k == owner then Filter(IsDevice, rs) else []
  {
    forall i | 0 <= i < |rs|
      ensures Bucket(rs[i]) == Some(owner)
    {
      TaggedBucket(owner, rs[i]);
    }
    if k == owner {
      FilterAgree(InBucket(k), IsDevice, rs);
    } else {
      FilterKeepsNone(InBucket(k), rs);
    }
  }

  /** Over the aggregate, the counter of each domain counts exactly the devices
      that domain's adapter reported. */
  lemma AggregateBucketCounts(cfg: Core.Config, replies: Core.Replies, k: DomainKey)
    ensures BucketCount(StatsOf(Core.AllInventory(cfg, replies)), k)
         == |Filter(IsDevice, Core.DomainInventory(cfg, replies, k))|
  {
    var a := Core.DomainInventory(cfg, replies, Aci);
    var m := Core.DomainInventory(cfg, replies, Meraki);
    var c := Core.DomainInventory(cfg, replies, Catalyst);
    var s := Core.DomainInventory(cfg, replies, Sdwan);
    StatsBucketCount(Core.AllInventory(cfg, replies), k);
    FilterAppend(InBucket(k), a + m + c, s);
    FilterAppend(InBucket(k), a + m, c);
    FilterAppend(InBucket(k), a, m);
    BlockBucket(k, Aci, a);
    BlockBucket(k, Meraki, m);
    BlockBucket(k, Catalyst, c);
    BlockBucket(k, Sdwan, s);
  }

  /** The aggregate meets what `calculate_stats` demands of its rows, and since
      no adapter writes a `controller` key, 'Unknown' is its only controller. */
  lemma AggregateControllers(cfg: Core.Config, replies: Core.Replies)
    ensures StatsReady(Core.AllInventory(cfg, replies))
    ensures StatsOf(Core.AllInventory(cfg, replies)).controllers.Keys <= {Text("Unknown")}
  {
    var all := Core.AllInventory(cfg, replies);
    Core.AllInventoryShape(cfg, replies);
    assert forall i :: 0 <= i < |all| ==> all[i] in all;
    StatsControllers(all);
    forall c | c in ControllersOf(all)
      ensures c == Text("Unknown")
    {
      ControllerPresence(all, c);
      var j :| 0 <= j < |all| && OfController(c)(all[j]);
      assert all[j] in all;
    }
  }

  // ---------------------------------------------------------------------------
  // The page route's language and the CSV export.

  /** The languages `UI_TEXT` has texts for. */
  const UiLanguages: set<string> := {"en", "ja", "ko", "zh"}

  /** `lang if lang in UI_TEXT else 'en'` */
  function TargetLang(lang: string): (r: string)
    ensures r in UiLanguages
    ensures lang in UiLanguages ==> r == lang
    ensures lang !in UiLanguages ==> r == "en"
  {
    if lang in UiLanguages then lang else "en"
  }

  /** The header row of the export. */
  const CsvHeader: seq<string> := ["Domain", "Controller/Site", "Name", "Model", "Serial/UUID", "Version", "IP Address", "Dashboard URL"]

  /** A value as `csv.writer` writes it: `None` becomes an empty field. */
  function Cell(v: Value): string {
    match v
    case Text(s) => s
    case Null => ""
  }

  /** The export row of one device record; the controller defaults to '-'. */
  function ExportRow(row: Record): (r: seq<string>)
    ensures |r| == |CsvHeader|
    ensures r[1] == if "controller" in row then Cell(row["controller"]) else "-"
  {
    [Cell(Get(row, "domain")), Cell(GetOr(row, "controller", Text("-"))), Cell(Get(row, "name")),
     Cell(Get(row, "model")), Cell(Get(row, "serial")), Cell(Get(row, "version")),
     Cell(Get(row, "ip")), Cell(Get(row, "dashboard_url"))]
  }

  /** The rows the export writes: the header, then one row per record without
      an `error` key, in the order of `data`. */
  method Export(data: seq<Record>) returns (table: seq<seq<string>>)
    ensures |table| == 1 + |Filter(IsDevice, data)|
    ensures table[0] == CsvHeader
    ensures forall k :: 0 <= k < |Filter(IsDevice, data)| ==> table[k + 1] == ExportRow(Filter(IsDevice, data)[k])
  {
    table := [CsvHeader];
    var i := 0;
    while i < |data|
      invariant 0 <= i <= |data|
      invariant |table| == 1 + |Filter(IsDevice, data[..i])| && table[0] == CsvHeader
      invariant forall k :: 0 <= k < |Filter(IsDevice, data[..i])| ==> table[k + 1] == ExportRow(Filter(IsDevice, data[..i])[k])
    {
      var row := data[i];
      assert data[..i + 1] == data[..i] + [row];
      FilterSnoc(IsDevice, data[..i], row);
      if "error" !in row {
        table := table + [ExportRow(row)];
      }
      i := i + 1;
    }
    assert data[..|data|] == data;
  }

  /** Over the aggregate, an exported row's domain cell is its record's tag and
      its controller cell is always '-', since no adapter writes a `controller`
      key. */
  lemma AggregateExportCells(cfg: Core.Config, replies: Core.Replies, x: Record)
    requires x in Core.AllInventory(cfg, replies)
    ensures ExportRow(x)[0] == x["domain"].s && ExportRow(x)[0] in {"ACI", "Meraki", "Catalyst", "SDWAN"}
    ensures ExportRow(x)[1] == "-"
  {
    Core.AllInventoryShape(cfg, replies);
  }
}
