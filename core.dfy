/** The four domain adapters and the aggregate of multidomain_inventory_core.py.
    The HTTP exchange of each adapter (log-in, token, the device query and the
    JSON decoding of its reply) is an input: either the failure it raised, or
    the listing of devices it returned. */
module Core {
  import opened Wrappers
  import opened Strings
  import opened Records
  import Collections

  // ---------------------------------------------------------------------------
  // Configuration: the settings `os.getenv` read at start-up (`None` when unset).

  datatype AciConfig = AciConfig(host: Option<string>, user: Option<string>, pass: Option<string>, proxy: Option<string>)

  datatype MerakiConfig = MerakiConfig(key: Option<string>, orgId: Option<string>, proxy: Option<string>)

  datatype CatalystConfig = CatalystConfig(host: Option<string>, user: Option<string>, pass: Option<string>, proxy: Option<string>)

  datatype SdwanConfig = SdwanConfig(url: Option<string>, user: Option<string>, pass: Option<string>, proxy: Option<string>)

  datatype Config = Config(aci: AciConfig, meraki: MerakiConfig, catalyst: CatalystConfig, sdwan: SdwanConfig)

  /** The `PROXY` entry of one domain's configuration. */
  function ProxySetting(cfg: Config, k: DomainKey): Option<string> {
    match k
    case Aci => cfg.aci.proxy
    case Meraki => cfg.meraki.proxy
    case Catalyst => cfg.catalyst.proxy
    case Sdwan => cfg.sdwan.proxy
  }

  /** The setting whose absence makes an adapter answer "Missing Config":
      the host for the fabric and assurance controllers, the API key for the
      cloud controller, the manager URL for the WAN overlay. */
  function RequiredSetting(cfg: Config, k: DomainKey): Option<string> {
    match k
    case Aci => cfg.aci.host
    case Meraki => cfg.meraki.key
    case Catalyst => cfg.catalyst.host
    case Sdwan => cfg.sdwan.url
  }

  /** The `{"http": p, "https": p}` dictionary handed to the HTTP session. */
  datatype Proxies = Proxies(http: string, https: string)

  /** `get_proxies`: both schemes go through the configured proxy when one is
      configured; an unset or empty proxy setting gives no proxy dictionary. */
  function GetProxies(cfg: Config, k: DomainKey): (r: Option<Proxies>)
    ensures r.Some? <==> IsSet(ProxySetting(cfg, k))
    ensures r.Some? ==> r.value.http == ProxySetting(cfg, k).value && r.value.https == ProxySetting(cfg, k).value
  {
    var p := ProxySetting(cfg, k);
    if IsSet(p) then Some(Proxies(p.value, p.value)) else None
  }

  // ---------------------------------------------------------------------------
  // Controller replies.

  /** One element of a controller's device listing: the attribute dictionary
      the mapping reads, or an element the mapping cannot read (not a
      dictionary, or lacking the nesting the code indexes into), together with
      the message of the exception reading it raises. */
  datatype Item = Attrs(attrs: Record) | Malformed(message: string)

  /** The outcome of a controller's HTTP exchange: an exception (transport,
      authentication, decoding or a missing top-level key) with its message, or
      the device listing. */
  datatype Reply = Failed(message: string) | Listing(items: seq<Item>)

  /** The fabric controller's reply: its `imdata` member may be absent, which the
      adapter reads as an empty listing. */
  datatype AciReply = AciFailed(message: string) | AciListing(imdata: Option<seq<Item>>)

  datatype Replies = Replies(aci: AciReply, meraki: Reply, catalyst: Reply, sdwan: Reply)

  // ---------------------------------------------------------------------------
  // Records.

  const MissingConfig: string := "Missing Config"

  /** `{"domain": ..., "error": ...}` */
  function ErrorRecord(k: DomainKey, message: string): (r: Record)
    ensures r.Keys == ErrorKeys
    ensures IsError(r) && r["domain"] == Text(Tag(k)) && r["error"] == Text(message)
  {
    map["domain" := Text(Tag(k)), "error" := Text(message)]
  }

  /** The keys of a normalised device record. */
  const DeviceKeys: set<string> := {"domain", "name", "model", "serial", "version", "ip", "dashboard_url"}

  /** A normalised device record. */
  function Normalised(k: DomainKey, name: Value, model: Value, serial: Value, version: Value, ip: Value, url: string): (r: Record)
    ensures r.Keys == DeviceKeys && IsDevice(r)
    ensures r["domain"] == Text(Tag(k)) && r["dashboard_url"] == Text(url)
    ensures r["name"] == name && r["model"] == model && r["serial"] == serial && r["version"] == version && r["ip"] == ip
  {
    map["domain" := Text(Tag(k)), "name" := name, "model" := model, "serial" := serial,
        "version" := version, "ip" := ip, "dashboard_url" := Text(url)]
  }

  /** A fabric node: its attributes under fixed names; the dashboard is the controller itself. */
  function AciRecord(host: string, a: Record): Record {
    Normalised(Aci, Get(a, "name"), Get(a, "model"), Get(a, "serial"), Get(a, "version"), Get(a, "address"),
               "https://" + host + "/")
  }

  /** A cloud-managed device: a missing or empty name falls back to the serial,
      a missing or empty LAN address to "Cloud"; the dashboard searches the
      organisation's inventory for the serial. */
  function MerakiRecord(orgId: Option<string>, d: Record): Record {
    var serial := Get(d, "serial");
    Normalised(Meraki,
               if Truthy(Get(d, "name")) then Get(d, "name") else serial,
               Get(d, "model"), serial, Get(d, "firmware"),
               if Truthy(Get(d, "lanIp")) then Get(d, "lanIp") else Text("Cloud"),
               "https://dashboard.meraki.com/o/" + ShowSetting(orgId) + "/manage/organization/inventory?search=" + Show(serial))
  }

  /** An assurance-controller device; the dashboard link carries the configured
      user name and the device id. */
  function CatalystRecord(user: Option<string>, host: string, d: Record): Record {
    Normalised(Catalyst, Get(d, "hostname"), Get(d, "platformId"), Get(d, "serialNumber"),
               Get(d, "softwareVersion"), Get(d, "managementIpAddress"),
               "https://" + ShowSetting(user) + "@" + host + "/dna/assurance/device/details?id=" + Show(Get(d, "id")))
  }

  /** A WAN-overlay device: the UUID is the serial, the system IP is both the
      address and the device id of the dashboard link. */
  function SdwanRecord(url: string, d: Record): Record {
    Normalised(Sdwan, Get(d, "host-name"), Get(d, "device-model"), Get(d, "uuid"), Get(d, "version"),
               Get(d, "system-ip"), url + "/#/app/monitor/network/system?deviceId=" + Show(Get(d, "system-ip")))
  }

  // ---------------------------------------------------------------------------
  // Mapping a listing: the comprehension stops at the first element it cannot read.

  datatype Mapped = Mapped(records: seq<Record>) | Fault(message: string)

  /** `j` is the first element of `items` that cannot be read. */
  predicate FirstMalformed(items: seq<Item>, j: int) {
    0 <= j < |items| && items[j].Malformed? && forall k :: 0 <= k < j ==> items[k].Attrs?
  }

  /** `[f(i) for i in items]`, where reading an unreadable element raises. */
  function MapItems(f: Record -> Record, items: seq<Item>): (r: Mapped)
    ensures r.Mapped? <==> forall k :: 0 <= k < |items| ==> items[k].Attrs?
    ensures r.Mapped? ==> |r.records| == |items| && forall k :: 0 <= k < |items| ==> r.records[k] == f(items[k].attrs)
    ensures r.Fault? ==> exists j :: FirstMalformed(items, j) && r.message == items[j].message
  {
    if items == [] then Mapped([])
    else match items[0]
      case Malformed(e) => assert FirstMalformed(items, 0); Fault(e)
      case Attrs(a) =>
        match MapItems(f, items[1..])
        case Mapped(rs) => Mapped([f(a)] + rs)
        case Fault(e) =>
          var j :| FirstMalformed(items[1..], j) && e == items[1..][j].message;
          assert FirstMalformed(items, j + 1);
          Fault(e)
  }

  /** The keys of an error record. */
  const ErrorKeys: set<string> := {"domain", "error"}

  /** Every record carries domain `k`'s tag and is shaped as a normalised device
      record or as an error record. */
  predicate Tagged(k: DomainKey, rs: seq<Record>) {
    forall i :: 0 <= i < |rs| ==>
      && "domain" in rs[i] && rs[i]["domain"] == Text(Tag(k))
      && (rs[i].Keys == DeviceKeys || rs[i].Keys == ErrorKeys)
  }

  /** An adapter's output is exactly one error record, or holds no error record. */
  predicate SingleErrorOrDevices(rs: seq<Record>) {
    (|rs| == 1 && IsError(rs[0])) || forall i :: 0 <= i < |rs| ==> IsDevice(rs[i])
  }

  /** The adapter's answer: the mapped records, or the single error record the
      `except` clause builds. */
  function Settle(k: DomainKey, m: Mapped): (r: seq<Record>)
    requires m.Mapped? ==> Tagged(k, m.records) && forall i :: 0 <= i < |m.records| ==> IsDevice(m.records[i])
    ensures Tagged(k, r) && SingleErrorOrDevices(r)
  {
    match m
    case Mapped(rs) => rs
    case Fault(e) => [ErrorRecord(k, e)]
  }

  // ---------------------------------------------------------------------------
  // The adapters as functions of their configuration and reply.

  /** `get_aci_inventory` */
  function AciInventory(c: AciConfig, reply: AciReply): (r: seq<Record>)
    ensures Tagged(Aci, r) && SingleErrorOrDevices(r)
  {
    if !IsSet(c.host) then [ErrorRecord(Aci, MissingConfig)]
    else
      var host := c.host.value;
      match reply
      case AciFailed(e) => [ErrorRecord(Aci, e)]
      case AciListing(imdata) =>
        Settle(Aci, MapItems(a => AciRecord(host, a), if imdata.Some? then imdata.value else []))
  }

  /** `get_meraki_inventory`, which the source writes as an append loop (see `GetMerakiInventory`). */
  function MerakiInventory(c: MerakiConfig, reply: Reply): (r: seq<Record>)
    ensures Tagged(Meraki, r) && SingleErrorOrDevices(r)
  {
    if !IsSet(c.key) then [ErrorRecord(Meraki, MissingConfig)]
    else
      match reply
      case Failed(e) => [ErrorRecord(Meraki, e)]
      case Listing(items) => Settle(Meraki, MapItems(d => MerakiRecord(c.orgId, d), items))
  }

  /** `get_catalyst_inventory` */
  function CatalystInventory(c: CatalystConfig, reply: Reply): (r: seq<Record>)
    ensures Tagged(Catalyst, r) && SingleErrorOrDevices(r)
  {
    if !IsSet(c.host) then [ErrorRecord(Catalyst, MissingConfig)]
    else
      var host := c.host.value;
      match reply
      case Failed(e) => [ErrorRecord(Catalyst, e)]
      case Listing(items) => Settle(Catalyst, MapItems(d => CatalystRecord(c.user, host, d), items))
  }

  /** `get_sdwan_inventory` */
  function SdwanInventory(c: SdwanConfig, reply: Reply): (r: seq<Record>)
    ensures Tagged(Sdwan, r) && SingleErrorOrDevices(r)
  {
    if !IsSet(c.url) then [ErrorRecord(Sdwan, MissingConfig)]
    else
      var url := c.url.value;
      match reply
      case Failed(e) => [ErrorRecord(Sdwan, e)]
      case Listing(items) => Settle(Sdwan, MapItems(d => SdwanRecord(url, d), items))
  }

  /** The device record one domain's adapter builds from one attribute dictionary. */
  function DeviceRecord(cfg: Config, k: DomainKey, a: Record): Record
    requires IsSet(RequiredSetting(cfg, k))
  {
    match k
    case Aci => AciRecord(cfg.aci.host.value, a)
    case Meraki => MerakiRecord(cfg.meraki.orgId, a)
    case Catalyst => CatalystRecord(cfg.catalyst.user, cfg.catalyst.host.value, a)
    case Sdwan => SdwanRecord(cfg.sdwan.url.value, a)
  }

  /** The device listing one domain's reply carries, if the exchange succeeded
      (the fabric controller's missing `imdata` counts as an empty listing). */
  function ListingOf(replies: Replies, k: DomainKey): Option<seq<Item>> {
    match k
    case Aci => (match replies.aci
                 case AciFailed(_) => None
                 case AciListing(imdata) => Some(if imdata.Some? then imdata.value else []))
    case Meraki => if replies.meraki.Listing? then Some(replies.meraki.items) else None
    case Catalyst => if replies.catalyst.Listing? then Some(replies.catalyst.items) else None
    case Sdwan => if replies.sdwan.Listing? then Some(replies.sdwan.items) else None
  }

  /** The message of one domain's failed exchange. */
  function FailureOf(replies: Replies, k: DomainKey): string
    requires ListingOf(replies, k).None?
  {
    match k
    case Aci => replies.aci.message
    case Meraki => replies.meraki.message
    case Catalyst => replies.catalyst.message
    case Sdwan => replies.sdwan.message
  }

  /** One domain's adapter. Every record it returns carries the domain's tag;
      it returns one error record or only device records; an unset required
      setting gives the single "Missing Config" record. */
  function DomainInventory(cfg: Config, replies: Replies, k: DomainKey): (r: seq<Record>)
    ensures Tagged(k, r) && SingleErrorOrDevices(r)
    ensures !IsSet(RequiredSetting(cfg, k)) ==> r == [ErrorRecord(k, MissingConfig)]
  {
    match k
    case Aci => AciInventory(cfg.aci, replies.aci)
    case Meraki => MerakiInventory(cfg.meraki, replies.meraki)
    case Catalyst => CatalystInventory(cfg.catalyst, replies.catalyst)
    case Sdwan => SdwanInventory(cfg.sdwan, replies.sdwan)
  }

  /** `get_all_inventory`: the four adapters' outputs in the order ACI, Meraki,
      Catalyst, SD-WAN. */
  function AllInventory(cfg: Config, replies: Replies): seq<Record> {
    DomainInventory(cfg, replies, Aci) + DomainInventory(cfg, replies, Meraki)
      + DomainInventory(cfg, replies, Catalyst) + DomainInventory(cfg, replies, Sdwan)
  }

  // ---------------------------------------------------------------------------
  // The imperative parts of the source.

  /** `get_meraki_inventory`: one record appended per listed device; an element
      that cannot be read abandons the partial list for one error record. */
  method GetMerakiInventory(c: MerakiConfig, reply: Reply) returns (results: seq<Record>)
    ensures results == MerakiInventory(c, reply)
  {
    if !IsSet(c.key) {
      return [ErrorRecord(Meraki, MissingConfig)];
    }
    match reply {
      case Failed(e) =>
        return [ErrorRecord(Meraki, e)];
      case Listing(items) =>
        results := [];
        var i := 0;
        while i < |items|
          invariant 0 <= i <= |items|
          invariant |results| == i
          invariant forall k :: 0 <= k < i ==> items[k].Attrs? && results[k] == MerakiRecord(c.orgId, items[k].attrs)
        {
          match items[i] {
            case Malformed(e) =>
              MerakiFirstMalformed(c, items, i);
              return [ErrorRecord(Meraki, e)];
            case Attrs(d) =>
              results := results + [MerakiRecord(c.orgId, d)];
          }
          i := i + 1;
        }
        MerakiListingMaps(c, items);
    }
  }

  /** `get_all_inventory`: `data` extended by each adapter's output in turn. */
  method GetAllInventory(cfg: Config, replies: Replies) returns (data: seq<Record>)
    ensures data == AllInventory(cfg, replies)
  {
    data := [];
    assert data + DomainInventory(cfg, replies, Aci) == DomainInventory(cfg, replies, Aci);
    data := data + DomainInventory(cfg, replies, Aci);
    var meraki := GetMerakiInventory(cfg.meraki, replies.meraki);
    assert meraki == DomainInventory(cfg, replies, Meraki);
    data := data + meraki;
    data := data + DomainInventory(cfg, replies, Catalyst);
    data := data + DomainInventory(cfg, replies, Sdwan);
  }

  // ---------------------------------------------------------------------------
  // Properties of the adapters and of the aggregate.

  /** An adapter without its required setting answers with the one "Missing
      Config" record, whatever the controller would have replied: it makes no
      request. */
  lemma MissingConfigIgnoresReply(cfg: Config, replies: Replies, other: Replies, k: DomainKey)
    requires !IsSet(RequiredSetting(cfg, k))
    ensures DomainInventory(cfg, replies, k) == DomainInventory(cfg, other, k) == [ErrorRecord(k, MissingConfig)]
  {
  }

  /** A failed exchange (log-in, token, query or decoding) gives exactly one
      error record, tagged with the adapter's domain and carrying the message. */
  lemma FailedExchangeGivesOneError(cfg: Config, replies: Replies, k: DomainKey)
    requires IsSet(RequiredSetting(cfg, k)) && ListingOf(replies, k).None?
    ensures DomainInventory(cfg, replies, k) == [ErrorRecord(k, FailureOf(replies, k))]
  {
  }

  /** The first malformed element is unique. */
  lemma FirstMalformedUnique(items: seq<Item>, i: int, j: int)
    requires FirstMalformed(items, i) && FirstMalformed(items, j)
    ensures i == j
  {
  }

  /** An element of the listing that cannot be read discards the devices mapped
      before it: the adapter answers with one error record carrying the message
      of the first such element. */
  lemma UnreadableDeviceGivesOneError(cfg: Config, replies: Replies, k: DomainKey, j: int)
    requires IsSet(RequiredSetting(cfg, k)) && ListingOf(replies, k).Some?
    requires FirstMalformed(ListingOf(replies, k).value, j)
    ensures DomainInventory(cfg, replies, k) == [ErrorRecord(k, ListingOf(replies, k).value[j].message)]
  {
    var items := ListingOf(replies, k).value;
    var f: Record -> Record := match k
      case Aci => a => AciRecord(cfg.aci.host.value, a)
      case Meraki => d => MerakiRecord(cfg.meraki.orgId, d)
      case Catalyst => d => CatalystRecord(cfg.catalyst.user, cfg.catalyst.host.value, d)
      case Sdwan => d => SdwanRecord(cfg.sdwan.url.value, d);
    var m := MapItems(f, items);
    assert !items[j].Attrs?;
    var j' :| FirstMalformed(items, j') && m.message == items[j'].message;
    FirstMalformedUnique(items, j, j');
    assert DomainInventory(cfg, replies, k) == Settle(k, m);
  }

  /** A readable listing gives exactly one device record per listed device, in
      the listing's order, each built by the domain's fixed mapping. */
  lemma ListingMapsEachDevice(cfg: Config, replies: Replies, k: DomainKey)
    requires IsSet(RequiredSetting(cfg, k)) && ListingOf(replies, k).Some?
    requires forall i :: 0 <= i < |ListingOf(replies, k).value| ==> ListingOf(replies, k).value[i].Attrs?
    ensures var r := DomainInventory(cfg, replies, k);
            var items := ListingOf(replies, k).value;
            && |r| == |items|
            && forall i :: 0 <= i < |items| ==> r[i] == DeviceRecord(cfg, k, items[i].attrs) && IsDevice(r[i])
  {
    match k
    case Aci => AciListingMaps(cfg.aci, replies.aci.imdata);
    case Meraki => MerakiListingMaps(cfg.meraki, replies.meraki.items);
    case Catalyst => CatalystListingMaps(cfg.catalyst, replies.catalyst.items);
    case Sdwan => SdwanListingMaps(cfg.sdwan, replies.sdwan.items);
  }

  lemma AciListingMaps(c: AciConfig, imdata: Option<seq<Item>>)
    requires IsSet(c.host)
    requires var items := if imdata.Some? then imdata.value else [];
             forall i :: 0 <= i < |items| ==> items[i].Attrs?
    ensures var r := AciInventory(c, AciListing(imdata));
            var items := if imdata.Some? then imdata.value else [];
            |r| == |items| && forall i :: 0 <= i < |items| ==> r[i] == AciRecord(c.host.value, items[i].attrs)
  {
  }

  lemma MerakiFirstMalformed(c: MerakiConfig, items: seq<Item>, j: int)
    requires IsSet(c.key) && FirstMalformed(items, j)
    ensures MerakiInventory(c, Listing(items)) == [ErrorRecord(Meraki, items[j].message)]
  {
    var m := MapItems(d => MerakiRecord(c.orgId, d), items);
    assert !items[j].Attrs?;
    var j' :| FirstMalformed(items, j') && m.message == items[j'].message;
    FirstMalformedUnique(items, j, j');
  }

  lemma MerakiListingMaps(c: MerakiConfig, items: seq<Item>)
    requires IsSet(c.key) && forall i :: 0 <= i < |items| ==> items[i].Attrs?
    ensures var r := MerakiInventory(c, Listing(items));
            |r| == |items| && forall i :: 0 <= i < |items| ==> r[i] == MerakiRecord(c.orgId, items[i].attrs)
  {
  }

  lemma CatalystListingMaps(c: CatalystConfig, items: seq<Item>)
    requires IsSet(c.host) && forall i :: 0 <= i < |items| ==> items[i].Attrs?
    ensures var r := CatalystInventory(c, Listing(items));
            |r| == |items| && forall i :: 0 <= i < |items| ==> r[i] == CatalystRecord(c.user, c.host.value, items[i].attrs)
  {
  }

  lemma SdwanListingMaps(c: SdwanConfig, items: seq<Item>)
    requires IsSet(c.url) && forall i :: 0 <= i < |items| ==> items[i].Attrs?
    ensures var r := SdwanInventory(c, Listing(items));
            |r| == |items| && forall i :: 0 <= i < |items| ==> r[i] == SdwanRecord(c.url.value, items[i].attrs)
  {
  }

  /** The cloud controller's name fallback: a missing or empty name becomes the serial. */
  lemma MerakiNameFallback(orgId: Option<string>, d: Record)
    ensures var r := MerakiRecord(orgId, d);
            && r["serial"] == Get(d, "serial")
            && (Truthy(Get(d, "name")) ==> r["name"] == d["name"])
            && (!Truthy(Get(d, "name")) ==> r["name"] == Get(d, "serial"))
  {
  }

  /** The cloud controller's address fallback: a missing or empty LAN address
      becomes "Cloud", so a cloud-managed device's address is never empty. */
  lemma MerakiAddressFallback(orgId: Option<string>, d: Record)
    ensures var r := MerakiRecord(orgId, d);
            && (Truthy(Get(d, "lanIp")) ==> r["ip"] == d["lanIp"])
            && (!Truthy(Get(d, "lanIp")) ==> r["ip"] == Text("Cloud"))
            && Truthy(r["ip"])
  {
  }

  /** A cloud-managed device's dashboard link ends with a search for its serial. */
  lemma MerakiDashboardSearchesSerial(orgId: Option<string>, d: Record)
    ensures var url := MerakiRecord(orgId, d)["dashboard_url"].s;
            var serial := Show(Get(d, "serial"));
            |serial| <= |url| && url[|url| - |serial|..] == serial
  {
    var prefix := "https://dashboard.meraki.com/o/" + ShowSetting(orgId) + "/manage/organization/inventory?search=";
    var serial := Show(Get(d, "serial"));
    assert MerakiRecord(orgId, d)["dashboard_url"].s == prefix + serial;
    assert (prefix + serial)[|prefix|..] == serial;
  }

  /** A fabric-controller reply without `imdata` is an empty inventory, not an error. */
  lemma AciMissingImdataIsEmpty(c: AciConfig)
    requires IsSet(c.host)
    ensures AciInventory(c, AciListing(None)) == []
  {
    assert MapItems(a => AciRecord(c.host.value, a), []) == Mapped([]);
  }

  /** Every fabric-controller device links to the controller's own address. */
  lemma AciDashboardIsController(c: AciConfig, reply: AciReply)
    requires IsSet(c.host)
    ensures forall x :: x in AciInventory(c, reply) && IsDevice(x) ==> x["dashboard_url"] == Text("https://" + c.host.value + "/")
  {
    var host := c.host.value;
    if reply.AciListing? {
      var items := if reply.imdata.Some? then reply.imdata.value else [];
      var m := MapItems(a => AciRecord(host, a), items);
      if m.Mapped? {
        forall x | x in m.records
          ensures x["dashboard_url"] == Text("https://" + host + "/")
        {
          var i :| 0 <= i < |m.records| && m.records[i] == x;
        }
      }
    }
  }

  /** A WAN-overlay device's serial is its UUID; its system IP is both its
      address and the device id in its dashboard link. */
  lemma SdwanIdentity(url: string, d: Record)
    ensures var r := SdwanRecord(url, d);
            && r["serial"] == Get(d, "uuid")
            && r["ip"] == Get(d, "system-ip")
            && r["dashboard_url"] == Text(url + "/#/app/monitor/network/system?deviceId=" + Show(r["ip"]))
  {
  }

  /** The aggregate is the four adapters' outputs back to back, ACI first and
      SD-WAN last: its length is the sum of theirs and each occupies its block. */
  lemma AllInventoryLayout(cfg: Config, replies: Replies)
    ensures var all := AllInventory(cfg, replies);
            var a := DomainInventory(cfg, replies, Aci);
            var m := DomainInventory(cfg, replies, Meraki);
            var c := DomainInventory(cfg, replies, Catalyst);
            var s := DomainInventory(cfg, replies, Sdwan);
            && |all| == |a| + |m| + |c| + |s|
            && all[..|a|] == a
            && all[|a|..|a| + |m|] == m
            && all[|a| + |m|..|a| + |m| + |c|] == c
            && all[|a| + |m| + |c|..] == s
  {
    var a := DomainInventory(cfg, replies, Aci);
    var m := DomainInventory(cfg, replies, Meraki);
    var c := DomainInventory(cfg, replies, Catalyst);
    var s := DomainInventory(cfg, replies, Sdwan);
    Collections.Blocks(a, m, c, s);
  }

  /** How aggregate records look to their consumers: the domain is always one
      of the four tags, records are device-shaped or error-shaped, and no record
      carries `controller`, `id` or `status`, so every consumer falls back to
      its default for those keys. */
  predicate CoreShaped(x: Record) {
    && "domain" in x && x["domain"].Text?
    && x["domain"].s in {"ACI", "Meraki", "Catalyst", "SDWAN"}
    && (x.Keys == DeviceKeys || x.Keys == ErrorKeys)
  }

  lemma TaggedIsCoreShaped(k: DomainKey, rs: seq<Record>, x: Record)
    requires Tagged(k, rs) && x in rs
    ensures CoreShaped(x)
  {
    var i :| 0 <= i < |rs| && rs[i] == x;
  }

  /** The keys consumers read with a default are never set by the adapters. */
  lemma CoreShapedLacksConsumerKeys(x: Record)
    requires CoreShaped(x)
    ensures DomainIsText(x) && "controller" !in x && "id" !in x && "status" !in x
  {
    assert "controller" !in DeviceKeys && "id" !in DeviceKeys && "status" !in DeviceKeys;
    assert "controller" !in ErrorKeys && "id" !in ErrorKeys && "status" !in ErrorKeys;
  }

  lemma AllInventoryShape(cfg: Config, replies: Replies)
    ensures forall x :: x in AllInventory(cfg, replies) ==>
      CoreShaped(x) && DomainIsText(x) && "controller" !in x && "id" !in x && "status" !in x
  {
    forall x | x in AllInventory(cfg, replies)
      ensures CoreShaped(x) && DomainIsText(x) && "controller" !in x && "id" !in x && "status" !in x
    {
      var k: DomainKey :|
        x in DomainInventory(cfg, replies, k);
      TaggedIsCoreShaped(k, DomainInventory(cfg, replies, k), x);
      CoreShapedLacksConsumerKeys(x);
    }
  }
}
