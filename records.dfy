/** Inventory records: string-keyed dictionaries whose values are the strings
    and nulls read from the controllers, and the ordered domain keywords that
    every consumer matches against a record's domain. */
module Records {
  import opened Wrappers
  import opened Strings

  /** A JSON value taken over from a controller reply: a string or null (Python `None`). */
  datatype Value = Text(s: string) | Null

  /** One record of the aggregate: a dictionary from key to value. */
  type Record = map<string, Value>

  /** `str(v)`: a string is itself, `None` prints as "None". */
  function Show(v: Value): string {
    match v
    case Text(s) => s
    case Null => "None"
  }

  /** An f-string of a configuration setting that may be unset. */
  function ShowSetting(o: Option<string>): string {
    match o
    case Some(s) => s
    case None => "None"
  }

  /** Python truthiness of a value: a non-empty string. */
  predicate Truthy(v: Value) {
    v.Text? && v.s != ""
  }

  /** Python truthiness of a configuration setting (`os.getenv` gives `None` when unset). */
  predicate IsSet(o: Option<string>) {
    o.Some? && o.value != ""
  }

  /** `row.get(key)` */
  function Get(row: Record, key: string): Value {
    if key in row then row[key] else Null
  }

  /** `row.get(key, default)` */
  function GetOr(row: Record, key: string, default: Value): Value {
    if key in row then row[key] else default
  }

  /** `"error" in row`: the record reports a failure rather than a device. */
  predicate IsError(row: Record) {
    "error" in row
  }

  predicate IsDevice(row: Record) {
    "error" !in row
  }

  /** The record's domain, when present, is a string (consumers call string methods on it). */
  predicate DomainIsText(row: Record) {
    "domain" in row ==> row["domain"].Text?
  }

  /** The four domains, in the order every consumer tests them. */
  datatype DomainKey = Aci | Meraki | Catalyst | Sdwan

  /** The lower-case keyword of a domain. */
  function KeyName(k: DomainKey): string {
    match k
    case Aci => "aci"
    case Meraki => "meraki"
    case Catalyst => "catalyst"
    case Sdwan => "sdwan"
  }

  /** The position of a domain in the test order aci, meraki, catalyst, sdwan. */
  function KeyRank(k: DomainKey): nat {
    match k
    case Aci => 0
    case Meraki => 1
    case Catalyst => 2
    case Sdwan => 3
  }

  /** The domain tag an adapter writes into its records. */
  function Tag(k: DomainKey): string {
    match k
    case Aci => "ACI"
    case Meraki => "Meraki"
    case Catalyst => "Catalyst"
    case Sdwan => "SDWAN"
  }

  /** The chain `if "aci" in d … elif "meraki" in d … elif "catalyst" in d … elif "sdwan" in d`:
      the first keyword, in test order, that occurs in `d`. */
  function FirstKeyIn(d: string): (r: Option<DomainKey>)
    ensures r.Some? ==> IsInfix(KeyName(r.value), d)
    ensures forall k :: (r.None? || KeyRank(k) < KeyRank(r.value)) ==> !IsInfix(KeyName(k), d)
  {
    if Contains(d, "aci") then Some(Aci)
    else if Contains(d, "meraki") then Some(Meraki)
    else if Contains(d, "catalyst") then Some(Catalyst)
    else if Contains(d, "sdwan") then Some(Sdwan)
    else None
  }

  /** The chain picks keyword `k` when `k` occurs and no earlier one does. */
  lemma FirstKeyInPicks(d: string, k: DomainKey)
    requires IsInfix(KeyName(k), d)
    requires forall j :: KeyRank(j) < KeyRank(k) ==> !IsInfix(KeyName(j), d)
    ensures FirstKeyIn(d) == Some(k)
  {
    if KeyRank(k) > 0 {
      assert !IsInfix(KeyName(Aci), d);
    }
    if KeyRank(k) > 1 {
      assert !IsInfix(KeyName(Meraki), d);
    }
    if KeyRank(k) > 2 {
      assert !IsInfix(KeyName(Catalyst), d);
    }
  }

  /** The chain picks nothing when no keyword occurs. */
  lemma FirstKeyInNone(d: string)
    requires forall k :: !IsInfix(KeyName(k), d)
    ensures FirstKeyIn(d) == None
  {
    assert !IsInfix(KeyName(Aci), d) && !IsInfix(KeyName(Meraki), d);
    assert !IsInfix(KeyName(Catalyst), d) && !IsInfix(KeyName(Sdwan), d);
  }

  /** Each adapter's own tag resolves, lower-cased, to that adapter's keyword. */
  lemma TagResolvesToItsKey(k: DomainKey)
    ensures FirstKeyIn(Lower(Tag(k))) == Some(k)
  {
    TagLowersToKeyword(k);
    KeywordResolves(k);
  }

  /** Lower-casing an adapter's tag gives its keyword. */
  lemma TagLowersToKeyword(k: DomainKey)
    ensures Lower(Tag(k)) == KeyName(k)
  {
    match k
    case Aci => LowerIs("ACI", "aci");
    case Meraki => LowerIs("Meraki", "meraki");
    case Catalyst => LowerIs("Catalyst", "catalyst");
    case Sdwan => LowerIs("SDWAN", "sdwan");
  }

  /** Each keyword is already lower-case. */
  lemma KeywordIsLower(k: DomainKey)
    ensures Lower(KeyName(k)) == KeyName(k)
  {
    match k
    case Aci => LowerIs("aci", "aci");
    case Meraki => LowerIs("meraki", "meraki");
    case Catalyst => LowerIs("catalyst", "catalyst");
    case Sdwan => LowerIs("sdwan", "sdwan");
  }

  /** A keyword on its own selects its own domain: no earlier keyword occurs in it. */
  lemma KeywordResolves(k: DomainKey)
    ensures FirstKeyIn(KeyName(k)) == Some(k)
  {
    assert OccursAt(KeyName(k), KeyName(k), 0);
    match k
    case Aci =>
    case Meraki =>
      MissingChar("aci", "meraki", 1);
    case Catalyst =>
      MissingChar("aci", "catalyst", 2);
      MissingChar("meraki", "catalyst", 0);
    case Sdwan =>
      MissingChar("aci", "sdwan", 1);
      MissingChar("meraki", "sdwan", 0);
      MissingChar("catalyst", "sdwan", 0);
  }
}
