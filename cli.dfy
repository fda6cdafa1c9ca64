/** The terminal report of multidomain_inventory_cli.py: the badge colour of a
    domain, the fixed-width row of each record and the lines `main` prints,
    collected as a list of strings instead of being written to the terminal. */
module Cli {
  import opened Wrappers
  import opened Strings
  import opened Collections
  import opened Records
  import Core

  // ---------------------------------------------------------------------------
  // The escape sequences of `Colors`.

  const Reset: string := "\U{1b}[0m"
  const Bold: string := "\U{1b}[1m"
  const WhiteTxt: string := "\U{1b}[97m"
  const BlackTxt: string := "\U{1b}[30m"
  const RedTxt: string := "\U{1b}[91m"
  const GrayTxt: string := "\U{1b}[90m"
  const BgBlue: string := "\U{1b}[44m"
  const BgGreen: string := "\U{1b}[42m"
  const BgCyan: string := "\U{1b}[46m"
  const BgPurple: string := "\U{1b}[45m"
  const BgDefault: string := "\U{1b}[40m"

  /** The badge of a recognised domain: its background, white text except on
      Catalyst's cyan, which takes black. */
  function KeyColor(k: DomainKey): string {
    match k
    case Aci => BgBlue + WhiteTxt
    case Meraki => BgGreen + WhiteTxt
    case Catalyst => BgCyan + BlackTxt
    case Sdwan => BgPurple + WhiteTxt
  }

  /** The badge of a domain no keyword matches. */
  const DefaultColor: string := BgDefault + WhiteTxt

  /** `get_badge_color(domain)` */
  function BadgeColor(domain: Value): string {
    match FirstKeyIn(Lower(Show(domain)))
    case Some(k) => KeyColor(k)
    case None => DefaultColor
  }

  /** The badge is the colour of the first keyword, in the order aci, meraki,
      catalyst, sdwan, that occurs in `str(domain).lower()`, and the default
      colour when none does. */
  lemma BadgeColorByKeyword(domain: Value)
    ensures forall k :: IsInfix(KeyName(k), Lower(Show(domain)))
                     && (forall j :: KeyRank(j) < KeyRank(k) ==> !IsInfix(KeyName(j), Lower(Show(domain))))
                     ==> BadgeColor(domain) == KeyColor(k)
    ensures (forall k :: !IsInfix(KeyName(k), Lower(Show(domain)))) ==> BadgeColor(domain) == DefaultColor
  {
    var d := Lower(Show(domain));
    forall k | IsInfix(KeyName(k), d) && (forall j :: KeyRank(j) < KeyRank(k) ==> !IsInfix(KeyName(j), d))
      ensures BadgeColor(domain) == KeyColor(k)
    {
      FirstKeyInPicks(d, k);
    }
    if forall k :: !IsInfix(KeyName(k), d) {
      FirstKeyInNone(d);
    }
  }

  /** The five badges are pairwise different. */
  lemma BadgeColorsDistinct(k: DomainKey, j: DomainKey)
    ensures KeyColor(k) != DefaultColor
    ensures k != j ==> KeyColor(k) != KeyColor(j)
  {
    assert KeyColor(k)[3] != DefaultColor[3];
    if k != j {
      assert KeyColor(k)[3] != KeyColor(j)[3];
    }
  }

  /** Each adapter's own tag gets that domain's badge. */
  lemma TagBadge(k: DomainKey)
    ensures BadgeColor(Text(Tag(k))) == KeyColor(k)
  {
    TagResolvesToItsKey(k);
  }

  // ---------------------------------------------------------------------------
  // One row of the report.

  /** `row.get('domain', 'Unknown')` as the text `{domain:^10}` formats; the
      source cannot format a `None` domain, which `DomainIsText` rules out. */
  function DomainText(row: Record): string {
    match GetOr(row, "domain", Text("Unknown"))
    case Text(s) => s
    case Null => ""
  }

  /** `row.get('controller', '-')` as `str` shows it. */
  function ControllerText(row: Record): string {
    Show(GetOr(row, "controller", Text("-")))
  }

  /** `str(row.get(key, ''))` */
  function FieldText(row: Record, key: string): string {
    Show(GetOr(row, key, Text("")))
  }

  /** `domain_str`: the badge colour, the domain centred in 10 characters
      between single spaces, and the reset sequence. */
  function DomainBadge(row: Record): string {
    BadgeColor(GetOr(row, "domain", Text("Unknown"))) + " " + Center(DomainText(row), 10) + " " + Reset
  }

  /** The line printed for a record with an `error` key: the badge, the
      controller column and the error in red. */
  function ErrorLine(row: Record): string
    requires IsError(row)
  {
    DomainBadge(row) + " " + Column(ControllerText(row), 17, 18) + " " + RedTxt + "Error: " + Show(row["error"]) + Reset
  }

  /** The columns after the badge of a device row: controller, name, model,
      serial and version, each cut and padded to a fixed width, then the URL. */
  function DeviceColumns(row: Record): string {
    Column(ControllerText(row), 17, 18) + " "
      + Column(FieldText(row, "name"), 24, 25) + " "
      + Column(FieldText(row, "model"), 19, 20) + " "
      + Column(FieldText(row, "serial"), 17, 18) + " "
      + Column(FieldText(row, "version"), 14, 15) + " "
      + FieldText(row, "dashboard_url")
  }

  /** The line `main` prints for one record. */
  function FormatRow(row: Record): string
  {
    if IsError(row) then ErrorLine(row) else DomainBadge(row) + " " + DeviceColumns(row)
  }

  /** The columns of a device row start at fixed offsets, whatever the lengths
      of the fields: every field is cut to its width less one and padded to
      its width, so a long value never shifts the ones after it. */
  lemma DeviceColumnOffsets(row: Record)
    ensures var t := DeviceColumns(row);
      && |t| == 101 + |FieldText(row, "dashboard_url")|
      && t[0..18] == Column(ControllerText(row), 17, 18)
      && t[19..44] == Column(FieldText(row, "name"), 24, 25)
      && t[45..65] == Column(FieldText(row, "model"), 19, 20)
      && t[66..84] == Column(FieldText(row, "serial"), 17, 18)
      && t[85..100] == Column(FieldText(row, "version"), 14, 15)
      && t[101..] == FieldText(row, "dashboard_url")
      && t[18] == ' ' && t[44] == ' ' && t[65] == ' ' && t[84] == ' ' && t[100] == ' '
  {
    var c := Column(ControllerText(row), 17, 18);
    var n := Column(FieldText(row, "name"), 24, 25);
    var m := Column(FieldText(row, "model"), 19, 20);
    var s := Column(FieldText(row, "serial"), 17, 18);
    var v := Column(FieldText(row, "version"), 14, 15);
    var u := FieldText(row, "dashboard_url");
    Joined(c, n, m, s, v, u, ' ');
  }

  /** A record missing a field shows it empty, and a missing controller shows
      as '-'; a record missing its domain is shown as 'Unknown'. */
  lemma MissingFieldDefaults(row: Record, key: string)
    requires key != "controller" && key !in row && "controller" !in row && "domain" !in row
    ensures FieldText(row, key) == "" && ControllerText(row) == "-" && DomainText(row) == "Unknown"
  {
  }

  /** The error line shows only the domain, the controller and the error: two
      error records that agree on those print the same line. */
  lemma ErrorLineIgnoresDeviceFields(r1: Record, r2: Record)
    requires IsError(r1) && IsError(r2) && r1["error"] == r2["error"]
    requires GetOr(r1, "domain", Text("Unknown")) == GetOr(r2, "domain", Text("Unknown"))
    requires GetOr(r1, "controller", Text("-")) == GetOr(r2, "controller", Text("-"))
    ensures ErrorLine(r1) == ErrorLine(r2)
  {
  }

  /** A domain of at most 10 characters makes a badge of 12 visible characters,
      the width of the DOMAIN column of the header. */
  lemma BadgeWidth(row: Record)
    requires |DomainText(row)| <= 10
    ensures |" " + Center(DomainText(row), 10) + " "| == |PadRight("DOMAIN", 12)| == 12
  {
    if |DomainText(row)| < 10 {
      CenterSpec(DomainText(row), 10);
    }
  }

  // ---------------------------------------------------------------------------
  // The report.

  /** A line of 150 dashes. */
  function Rule(): (r: string)
    ensures |r| == 150 && forall i :: 0 <= i < 150 ==> r[i] == '-'
  {
    Dashes(150)
  }

  /** `"-" * n` */
  function Dashes(n: nat): (r: string)
    ensures |r| == n && forall i :: 0 <= i < n ==> r[i] == '-'
  {
    seq(n, _ => '-')
  }

  /** `header_str` */
  function Header(): string {
    PadRight("DOMAIN", 12) + " " + PadRight("CONTROLLER", 18) + " " + PadRight("NAME", 25) + " "
      + PadRight("MODEL", 20) + " " + PadRight("SERIAL", 18) + " " + PadRight("VERSION", 15) + " " + "URL"
  }

  const Banner: string := "\n" + Bold + "\U{1F680} Starting Multi-Domain Inventory Collector (CLI)..." + Reset + "\n"

  const FetchingLine: string := GrayTxt + "Fetching data from all configured controllers..." + Reset

  const TotalPrefix: string := "\U{1F4CA} Total Devices: "

  /** The closing count line: the number of records, error records included. */
  function TotalLine(n: nat): string {
    Bold + TotalPrefix + Decimal(n) + Reset
  }

  /** The count can be read back from the closing line. */
  lemma TotalLineReadsBack(n: nat)
    ensures var line := TotalLine(n);
      && line[..|Bold + TotalPrefix|] == Bold + TotalPrefix
      && line[|line| - |Reset|..] == Reset
      && DigitsValue(line[|Bold + TotalPrefix|..|line| - |Reset|]) == n
  {
    var line := TotalLine(n);
    assert line[|Bold + TotalPrefix|..|line| - |Reset|] == Decimal(n);
    DecimalRoundTrip(n);
  }

  /** Every row's domain is text, as the `{domain:^10}` format requires. */
  predicate Printable(data: seq<Record>) {
    forall i :: 0 <= i < |data| ==> DomainIsText(data[i])
  }

  /** What `main` prints before the rows: the banner, the fetching notice and
      the header between two rules. */
  function Opening(): seq<string> {
    [Banner, FetchingLine, Rule(), Bold + Header() + Reset, Rule()]
  }

  /** What `main` prints after the rows of `n` records. */
  function Closing(n: nat): seq<string> {
    [Rule(), TotalLine(n)]
  }

  /** Everything `main` prints but the elapsed time: the opening, one line per
      record and the closing. */
  function Report(data: seq<Record>): (r: seq<string>)
    ensures |r| == |data| + 7
    ensures r[..5] == Opening() && r[5 + |data|..] == Closing(|data|)
  {
    Opening() + MapSeq(FormatRow, data) + Closing(|data|)
  }

  /** Between the opening and the closing, the report has the line of each
      record, in the order of `data`. */
  lemma ReportRow(data: seq<Record>, i: int)
    requires 0 <= i < |data|
    ensures Report(data)[5 + i] == FormatRow(data[i])
  {
  }

  /** The printing loop of `main`: one line per record of `data`, in order,
      after the lines already printed. */
  method PrintRows(printed: seq<string>, data: seq<Record>) returns (lines: seq<string>)
    requires Printable(data)
    ensures lines == printed + MapSeq(FormatRow, data)
  {
    lines := printed;
    var i := 0;
    while i < |data|
      invariant 0 <= i <= |data|
      invariant lines == printed + MapSeq(FormatRow, data[..i])
    {
      MapSeqGrow(printed, FormatRow, data, i);
      lines := lines + [FormatRow(data[i])];
      i := i + 1;
    }
    MapSeqWhole(FormatRow, data);
  }

  /** `main` over the records `data`: the opening, the rows and the closing. */
  method PrintReport(data: seq<Record>) returns (lines: seq<string>)
    requires Printable(data)
    ensures lines == Report(data)
  {
    lines := PrintRows(Opening(), data);
    lines := lines + Closing(|data|);
  }

  /** `main()` over the aggregate the replies give. */
  method RunReport(cfg: Core.Config, replies: Core.Replies) returns (lines: seq<string>)
    ensures Printable(Core.AllInventory(cfg, replies))
    ensures lines == Report(Core.AllInventory(cfg, replies))
  {
    var data := Core.GetAllInventory(cfg, replies);
    Core.AllInventoryShape(cfg, replies);
    assert forall i :: 0 <= i < |data| ==> data[i] in data;
    lines := PrintReport(data);
  }

  /** Over the aggregate, every row shows '-' for the controller, since no
      adapter writes a `controller` key, and each record's badge is its
      adapter's. */
  lemma AggregateRows(cfg: Core.Config, replies: Core.Replies, k: DomainKey, x: Record)
    requires x in Core.DomainInventory(cfg, replies, k)
    ensures ControllerText(x) == "-"
    ensures BadgeColor(GetOr(x, "domain", Text("Unknown"))) == KeyColor(k)
  {
    var rs := Core.DomainInventory(cfg, replies, k);
    var i :| 0 <= i < |rs| && rs[i] == x;
    Core.TaggedIsCoreShaped(k, rs, x);
    Core.CoreShapedLacksConsumerKeys(x);
    TagBadge(k);
  }

  /** Over the aggregate the badge tells the adapters apart: no record gets
      the default badge, and records of two different adapters get different
      badges. */
  lemma AggregateBadgesDistinct(cfg: Core.Config, replies: Core.Replies, k: DomainKey, j: DomainKey, x: Record, y: Record)
    requires x in Core.DomainInventory(cfg, replies, k) && y in Core.DomainInventory(cfg, replies, j)
    ensures BadgeColor(GetOr(x, "domain", Text("Unknown"))) != DefaultColor
    ensures k != j ==> BadgeColor(GetOr(x, "domain", Text("Unknown"))) != BadgeColor(GetOr(y, "domain", Text("Unknown")))
  {
    AggregateRows(cfg, replies, k, x);
    AggregateRows(cfg, replies, j, y);
    BadgeColorsDistinct(k, j);
  }
}
