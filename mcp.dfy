/** The tools and the summary resource of multidomain_inventory_mcp.py, with
    their JSON text replaced by the data it serialises. */
module Mcp {
  import opened Wrappers
  import opened Strings
  import opened Collections
  import opened Records
  import Core

  // ---------------------------------------------------------------------------
  // The summary resource.

  /** The statuses the summary counts as health issues. */
  const SummaryStatuses: seq<string> := ["offline", "unreachable", "error", "inactive", "alerting", "unknown"]

  /** The statuses `get_unhealthy_devices` lists; 'unknown' is not among them. */
  const UnhealthyStatuses: seq<string> := ["offline", "unreachable", "error", "inactive", "alerting"]

  /** `str(device.get("status", "")).lower()` */
  function StatusOf(d: Record): string {
    Lower(Show(GetOr(d, "status", Text(""))))
  }

  /** The summary's test: an error record, or a status in `SummaryStatuses`. */
  predicate HasHealthIssue(d: Record) {
    IsError(d) || StatusOf(d) in SummaryStatuses
  }

  /** `device.get("domain", "Unknown")` */
  function DomainOf(d: Record): Value {
    GetOr(d, "domain", Text("Unknown"))
  }

  /** `m[v] = m.get(v, 0) + 1` */
  function Bump(m: map<Value, nat>, v: Value): map<Value, nat> {
    m[v := (if v in m then m[v] else 0) + 1]
  }

  /** `by_domain` after counting `rows` from the first. */
  function CountBy(rows: seq<Record>): map<Value, nat> {
    if rows == [] then map[] else Bump(CountBy(rows[..|rows| - 1]), DomainOf(rows[|rows| - 1]))
  }

  /** How often `v` was counted (0 when it has no entry). */
  function CountOf(m: map<Value, nat>, v: Value): nat {
    if v in m then m[v] else 0
  }

  /** The rows `by_domain` counts under `v`. */
  function OfDomain(v: Value): Record -> bool {
    d => DomainOf(d) == v
  }

  /** The `summary` dictionary. */
  datatype Summary = Summary(totalDevices: nat, byDomain: map<Value, nat>, healthIssues: nat)

  /** The summary of `data`. */
  function SummaryOf(data: seq<Record>): Summary {
    Summary(|data|, CountBy(data), |Filter(HasHealthIssue, data)|)
  }

  /** Counting one more row at the end of `rows`. */
  lemma CountBySnoc(rows: seq<Record>, d: Record)
    ensures CountBy(rows + [d]) == Bump(CountBy(rows), DomainOf(d))
  {
    assert (rows + [d])[..|rows|] == rows;
  }

  /** `get_inventory_summary()` over the aggregate the replies give. */
  method GetInventorySummary(cfg: Core.Config, replies: Core.Replies) returns (summary: Summary)
    ensures summary == SummaryOf(Core.AllInventory(cfg, replies))
  {
    var data := Core.GetAllInventory(cfg, replies);
    summary := Summarise(data);
  }

  /** One pass of the counting loop over `device`. */
  function SummaryStep(s: Summary, device: Record): Summary {
    Summary(s.totalDevices, Bump(s.byDomain, DomainOf(device)), s.healthIssues + (if HasHealthIssue(device) then 1 else 0))
  }

  /** The summary after the loop has passed over `rows`, starting from `total`
      with no domain and no issue counted. */
  function Summarised(total: nat, rows: seq<Record>): Summary {
    if rows == [] then Summary(total, map[], 0) else SummaryStep(Summarised(total, rows[..|rows| - 1]), rows[|rows| - 1])
  }

  /** Passing over all of `data` gives its summary. */
  lemma {:induction false} SummarisedIsSummaryOf(total: nat, rows: seq<Record>)
    ensures Summarised(total, rows) == Summary(total, CountBy(rows), |Filter(HasHealthIssue, rows)|)
  {
    if rows != [] {
      var init := rows[..|rows| - 1];
      assert rows == init + [rows[|rows| - 1]];
      SummarisedIsSummaryOf(total, init);
      FilterCountSnoc(HasHealthIssue, init, rows[|rows| - 1]);
    }
  }

  /** The counting loop of `get_inventory_summary`. */
  method Summarise(data: seq<Record>) returns (summary: Summary)
    ensures summary == SummaryOf(data)
  {
    summary := Summary(|data|, map[], 0);
    var i := 0;
    while i < |data|
      invariant 0 <= i <= |data|
      invariant summary == Summarised(|data|, data[..i])
    {
      assert data[..i + 1][..i] == data[..i];
      summary := CountDevice(summary, data[i]);
      i := i + 1;
    }
    assert data[..|data|] == data;
    SummarisedIsSummaryOf(|data|, data);
  }

  /** The loop body of `get_inventory_summary` for one device. */
  method CountDevice(before: Summary, device: Record) returns (summary: Summary)
    ensures summary == SummaryStep(before, device)
  {
    var domain := GetOr(device, "domain", Text("Unknown"));
    var byDomain := before.byDomain;
    byDomain := byDomain[domain := (if domain in byDomain then byDomain[domain] else 0) + 1];
    summary := before.(byDomain := byDomain);
    // `"error" in device or status in unhealthy_statuses`
    if HasHealthIssue(device) {
      summary := summary.(healthIssues := summary.healthIssues + 1);
    }
  }

  /** Every value in `by_domain` counts exactly the rows whose domain (or
      'Unknown' when it is missing) is that value, and every entry is at least 1. */
  lemma {:induction false} CountByExact(rows: seq<Record>, v: Value)
    ensures CountOf(CountBy(rows), v) == |Filter(OfDomain(v), rows)|
    ensures v in CountBy(rows) ==> CountBy(rows)[v] > 0
  {
    if rows != [] {
      var init := rows[..|rows| - 1];
      assert rows == init + [rows[|rows| - 1]];
      CountByExact(init, v);
      FilterSnoc(OfDomain(v), init, rows[|rows| - 1]);
    }
  }

  /** `by_domain` counts every record once, error records included, so it adds
      up to `total_devices`. */
  lemma {:induction false} CountBySumsToTotal(rows: seq<Record>)
    ensures SumValues(CountBy(rows)) == |rows|
  {
    if rows != [] {
      var init := rows[..|rows| - 1];
      CountBySumsToTotal(init);
      SumValuesBump(CountBy(init), DomainOf(rows[|rows| - 1]));
    }
  }

  /** The summary's counts are consistent: the domains add up to the total and
      the health issues are at most the total. */
  lemma SummaryConsistent(data: seq<Record>)
    ensures SumValues(SummaryOf(data).byDomain) == SummaryOf(data).totalDevices
    ensures SummaryOf(data).healthIssues <= SummaryOf(data).totalDevices
  {
    CountBySumsToTotal(data);
  }

  // ---------------------------------------------------------------------------
  // The tools.

  /** What a tool answers: the records it would serialise, or a message. */
  datatype Answer = Devices(records: seq<Record>) | Message(text: string)

  /** The records an answer lists: none for a message. */
  function Listed(r: Answer): seq<Record> {
    if r.Devices? then r.records else []
  }

  /** What `get_domain_inventory` answers. */
  datatype DomainAnswer = Inventory(key: DomainKey, records: seq<Record>) | Unsupported(message: string)

  /** The keys of `domain_map` as `list(...)` prints them. */
  const DomainMapKeys: string := "['aci', 'meraki', 'catalyst', 'sdwan']"

  function UnsupportedMessage(domain: string): string {
    "Error: '" + domain + "' is not a supported domain. Available options: " + DomainMapKeys
  }

  /** `get_domain_inventory(domain)`: the adapter of the first key of
      `domain_map`, in its order aci, meraki, catalyst, sdwan, that occurs in
      the lower-cased argument. */
  function GetDomainInventory(domain: string, cfg: Core.Config, replies: Core.Replies): (r: DomainAnswer)
    ensures r.Inventory? ==>
      && IsInfix(KeyName(r.key), Lower(domain))
      && (forall k :: KeyRank(k) < KeyRank(r.key) ==> !IsInfix(KeyName(k), Lower(domain)))
      && r.records == Core.DomainInventory(cfg, replies, r.key)
    ensures r.Unsupported? <==> forall k :: !IsInfix(KeyName(k), Lower(domain))
    ensures r.Unsupported? ==> r.message == UnsupportedMessage(domain)
  {
    match FirstKeyIn(Lower(domain))
    case Some(k) => Inventory(k, Core.DomainInventory(cfg, replies, k))
    case None => Unsupported(UnsupportedMessage(domain))
  }

  /** Each key of `domain_map`, and each adapter's tag, selects that adapter. */
  lemma DomainKeysResolve(k: DomainKey, cfg: Core.Config, replies: Core.Replies)
    ensures GetDomainInventory(KeyName(k), cfg, replies) == Inventory(k, Core.DomainInventory(cfg, replies, k))
    ensures GetDomainInventory(Tag(k), cfg, replies) == Inventory(k, Core.DomainInventory(cfg, replies, k))
  {
    KeywordIsLower(k);
    TagLowersToKeyword(k);
    DomainResolvesInAnyCase(k, KeyName(k), cfg, replies);
    DomainResolvesInAnyCase(k, Tag(k), cfg, replies);
  }

  /** Any spelling of a key of `domain_map`, in any mix of upper and lower
      case, selects that key's adapter. */
  lemma DomainResolvesInAnyCase(k: DomainKey, domain: string, cfg: Core.Config, replies: Core.Replies)
    requires Lower(domain) == KeyName(k)
    ensures GetDomainInventory(domain, cfg, replies) == Inventory(k, Core.DomainInventory(cfg, replies, k))
  {
    KeywordResolves(k);
  }

  /** `q in str(d.get(key, "")).lower()` */
  function FieldMatches(q: string, d: Record, key: string): bool {
    Contains(Lower(Show(GetOr(d, key, Text("")))), q)
  }

  /** The search test on the lower-cased query `q`: name, serial, IP or ID. */
  function Matches(q: string): Record -> bool {
    d => FieldMatches(q, d, "name") || FieldMatches(q, d, "serial") || FieldMatches(q, d, "ip") || FieldMatches(q, d, "id")
  }

  /** The search test, stated on the characters: the lower-cased query occurs
      in the lower-cased text of one of the four fields. */
  ghost predicate Found(query: string, d: Record) {
    exists key :: key in {"name", "serial", "ip", "id"} && IsInfix(Lower(query), Lower(Show(GetOr(d, key, Text("")))))
  }

  function NoMatchMessage(query: string): string {
    "No devices found matching query: '" + query + "'"
  }

  /** `search_devices(query)` over `data`, the aggregate. */
  function SearchDevices(query: string, data: seq<Record>): (r: Answer)
    ensures r.Devices? ==> r.records != [] && IsSubsequence(r.records, data)
    ensures r.Devices? ==> forall k :: 0 <= k < |r.records| ==> Found(query, r.records[k])
    ensures forall k :: 0 <= k < |data| && Found(query, data[k]) ==> r.Devices? && data[k] in r.records
    ensures r.Message? ==> r.text == NoMatchMessage(query)
  {
    var results := Filter(Matches(Lower(query)), data);
    FilterIsSubsequence(Matches(Lower(query)), data);
    FilterKeeps(Matches(Lower(query)), data);
    MatchesIffFound(query);
    if results == [] then Message(NoMatchMessage(query)) else Devices(results)
  }

  /** The search lists every copy of a record that `Found` accepts, as many
      times as it occurs in `data`, and no copy of any other record. */
  lemma SearchKeepsEveryCopy(query: string, data: seq<Record>, x: Record)
    ensures multiset(Listed(SearchDevices(query, data)))[x] == if Found(query, x) then multiset(data)[x] else 0
  {
    FilterMultiplicity(Matches(Lower(query)), data, x);
    MatchesIffFoundAt(query, x);
  }

  /** The executable search test agrees with `Found`. */
  lemma MatchesIffFound(query: string)
    ensures forall d :: Matches(Lower(query))(d) <==> Found(query, d)
  {
    forall d
      ensures Matches(Lower(query))(d) <==> Found(query, d)
    {
      MatchesIffFoundAt(query, d);
    }
  }

  /** `MatchesIffFound` for one record. */
  lemma MatchesIffFoundAt(query: string, d: Record)
    ensures Matches(Lower(query))(d) <==> Found(query, d)
  {
    var q := Lower(query);
    if FieldMatches(q, d, "name") {
      assert "name" in {"name", "serial", "ip", "id"};
    } else if FieldMatches(q, d, "serial") {
      assert "serial" in {"name", "serial", "ip", "id"};
    } else if FieldMatches(q, d, "ip") {
      assert "ip" in {"name", "serial", "ip", "id"};
    } else if FieldMatches(q, d, "id") {
      assert "id" in {"name", "serial", "ip", "id"};
    }
  }

  /** The empty query occurs in every field, so it returns every record,
      error records included. */
  lemma EmptyQueryMatchesAll(data: seq<Record>)
    requires data != []
    ensures SearchDevices("", data) == Devices(data)
  {
    forall k | 0 <= k < |data|
      ensures Matches(Lower(""))(data[k])
    {
      ContainsEmpty(Lower(Show(GetOr(data[k], "name", Text("")))));
    }
    FilterKeepsAll(Matches(Lower("")), data);
  }

  /** An error record of the aggregate has none of the searched fields, so only
      the empty query finds it. */
  lemma ErrorRecordFoundOnlyByEmptyQuery(query: string, k: DomainKey, msg: string)
    ensures Matches(Lower(query))(Core.ErrorRecord(k, msg)) <==> Lower(query) == ""
  {
    var x := Core.ErrorRecord(k, msg);
    assert "name" !in x && "serial" !in x && "ip" !in x && "id" !in x;
    assert Lower(Show(Text(""))) == "";
    if Lower(query) == "" {
      ContainsEmpty("");
    }
  }

  /** `get_unhealthy_devices`'s test: a status in `UnhealthyStatuses`, or an error record. */
  predicate IsUnhealthy(d: Record) {
    StatusOf(d) in UnhealthyStatuses || IsError(d)
  }

  const AllNormalMessage: string := "No unhealthy devices found. All systems appear normal."

  /** `get_unhealthy_devices()` over `data`, the aggregate. */
  function GetUnhealthyDevices(data: seq<Record>): (r: Answer)
    ensures r.Devices? ==> r.records != [] && IsSubsequence(r.records, data)
    ensures r.Devices? ==> forall k :: 0 <= k < |r.records| ==> IsUnhealthy(r.records[k])
    ensures forall k :: 0 <= k < |data| && IsUnhealthy(data[k]) ==> r.Devices? && data[k] in r.records
    ensures r.Message? ==> r.text == AllNormalMessage
  {
    var issues := Filter(IsUnhealthy, data);
    FilterIsSubsequence(IsUnhealthy, data);
    FilterKeeps(IsUnhealthy, data);
    if issues == [] then Message(AllNormalMessage) else Devices(issues)
  }

  /** The unhealthy tool lists every copy of an unhealthy record, as many times
      as it occurs in `data`, and no copy of any other record. */
  lemma UnhealthyKeepsEveryCopy(data: seq<Record>, x: Record)
    ensures multiset(Listed(GetUnhealthyDevices(data)))[x] == if IsUnhealthy(x) then multiset(data)[x] else 0
  {
    FilterMultiplicity(IsUnhealthy, data, x);
  }

  /** Every device the tool lists is also a health issue in the summary: the
      unhealthy list is the unhealthy part of the summary's issues, so it is
      never longer than their count. */
  lemma UnhealthyWithinHealthIssues(data: seq<Record>)
    ensures Filter(IsUnhealthy, data) == Filter(IsUnhealthy, Filter(HasHealthIssue, data))
    ensures |Filter(IsUnhealthy, data)| <= SummaryOf(data).healthIssues
  {
    FilterNarrows(IsUnhealthy, HasHealthIssue, data);
  }

  /** The two lists of statuses differ in 'unknown': a device reporting it is
      a health issue in the summary but not listed by the tool. */
  lemma UnknownStatusIsOnlyInSummary(d: Record)
    requires IsDevice(d) && StatusOf(d) == "unknown"
    ensures HasHealthIssue(d) && !IsUnhealthy(d)
  {
    assert SummaryStatuses[5] == "unknown";
  }

  // ---------------------------------------------------------------------------
  // The tools over the aggregate the adapters produce.

  /** No adapter writes a `status` key, so the status test reads the empty string. */
  lemma AggregateStatusIsEmpty(cfg: Core.Config, replies: Core.Replies, x: Record)
    requires x in Core.AllInventory(cfg, replies)
    ensures StatusOf(x) == "" && (HasHealthIssue(x) <==> IsError(x)) && (IsUnhealthy(x) <==> IsError(x))
  {
    Core.AllInventoryShape(cfg, replies);
    assert Lower("") == "";
  }

  /** Over the aggregate, the summary's health issues and the unhealthy list are
      both exactly the error records. */
  lemma AggregateHealthIsErrors(cfg: Core.Config, replies: Core.Replies)
    ensures var all := Core.AllInventory(cfg, replies);
            && Filter(HasHealthIssue, all) == Filter(IsError, all)
            && Filter(IsUnhealthy, all) == Filter(IsError, all)
  {
    var all := Core.AllInventory(cfg, replies);
    forall k | 0 <= k < |all|
      ensures HasHealthIssue(all[k]) == IsError(all[k]) && IsUnhealthy(all[k]) == IsError(all[k])
    {
      AggregateStatusIsEmpty(cfg, replies, all[k]);
    }
    FilterAgree(HasHealthIssue, IsError, all);
    FilterAgree(IsUnhealthy, IsError, all);
  }

  /** The rows one adapter contributes to `by_domain` under the tag of `k`. */
  lemma BlockDomain(k: DomainKey, owner: DomainKey, rs: seq<Record>)
    requires Core.Tagged(owner, rs)
    ensures |Filter(OfDomain(Text(Tag(k))), rs)| == if k == owner then |rs| else 0
  {
    if k == owner {
      FilterKeepsAll(OfDomain(Text(Tag(k))), rs);
    } else {
      assert Tag(k) != Tag(owner) by {
        match k
        case Aci =>
        case Meraki =>
        case Catalyst =>
        case Sdwan =>
      }
      FilterKeepsNone(OfDomain(Text(Tag(k))), rs);
    }
  }

  /** Over the aggregate, `by_domain` gives each adapter's tag the number of
      records that adapter returned, its error record included. */
  lemma AggregateByDomain(cfg: Core.Config, replies: Core.Replies, k: DomainKey)
    ensures CountOf(SummaryOf(Core.AllInventory(cfg, replies)).byDomain, Text(Tag(k)))
         == |Core.DomainInventory(cfg, replies, k)|
  {
    var a := Core.DomainInventory(cfg, replies, Aci);
    var m := Core.DomainInventory(cfg, replies, Meraki);
    var c := Core.DomainInventory(cfg, replies, Catalyst);
    var s := Core.DomainInventory(cfg, replies, Sdwan);
    var p := OfDomain(Text(Tag(k)));
    CountByExact(Core.AllInventory(cfg, replies), Text(Tag(k)));
    FilterAppend(p, a + m + c, s);
    FilterAppend(p, a + m, c);
    FilterAppend(p, a, m);
    BlockDomain(k, Aci, a);
    BlockDomain(k, Meraki, m);
    BlockDomain(k, Catalyst, c);
    BlockDomain(k, Sdwan, s);
  }
}
