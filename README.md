# Multi-domain Cisco inventory, modelled in Dafny

The repository collects device inventories from four Cisco controllers:
- the ACI fabric controller;
- the Meraki cloud dashboard;
- the Catalyst Center assurance controller;
- the SD-WAN manager.

It normalises every device into one record shape and merges the four answers
into one list. Three consumers read that list:
- a terminal report;
- a Flask dashboard with a five-minute cache, statistics and a CSV export;
- an MCP tool server with a summary, a per-domain query, a search and a list
  of unhealthy devices.

This project models that core: the adapters, the aggregate and what each
consumer computes from the aggregate.

Modules, one file each:
- `Strings` (`strings.dfy`):
  - the Python string operations the code relies on (`in`, `lower`, `strip`);
  - the format specifications `<n`, `^n` and `[:n]`;
  - `str` of a count.
- `Wrappers` and `Collections` (`collections.dfy`):
  - `Option`;
  - list comprehension with a condition (`Filter`) and its laws;
  - subsequences;
  - sums over counting maps.
- `Records` (`records.dfy`):
  - a record is a dictionary from key to a string or `None`;
  - the four domain keywords in the order every consumer tests them.
- `Core` (`core.dfy`):
  - `get_proxies`;
  - the four adapters and `get_all_inventory`.
  - The Meraki adapter appends in a loop and `get_all_inventory` extends one list four times, so both are methods proved against the functions that specify them.
- `Web` (`web.dfy`):
  - the cache, a class over the globals `DATA_CACHE` and `LAST_UPDATE`;
  - `calculate_stats`;
  - the language fallback of the page route;
  - the export.
- `Mcp` (`mcp.dfy`):
  - the summary resource and the three tools;
  - JSON output is replaced by the data it would serialise.
- `Cli` (`cli.dfy`):
  - the badge colour;
  - the fixed-width report line of each record;
  - the list of lines `main` prints.

Inputs that come from outside the program are parameters:
- Each adapter's HTTP exchange (log-in, token, query and JSON decoding) is a `Reply`. A reply is either the exception raised, with its message, or the device listing.
- Each element of a listing is either an attribute dictionary or an element the mapping cannot read:
  - For ACI, an element without `fabricNode`/`attributes`.
  - For the other domains, an element that is not a dictionary.
- The environment settings are a `Config` of optional strings.
- The clock reading of `get_data_with_cache` is a parameter `now`.

Some comments promise more than the code does, and the model follows the code:
- The comment at multidomain_inventory_cli.py:41 speaks of fetching in parallel, and the one at multidomain_inventory_cli.py:59 of a `controller` field the core adds. The code has one controller per domain, read from the environment, runs the adapters one after the other and writes no `controller` key.
- The aggregate's order is fixed: ACI, Meraki, Catalyst, SD-WAN.
- An adapter whose required setting is unset does not drop out silently. It returns one `"Missing Config"` error record.
- Records carry no `id`, `controller` or `status` key, and the Meraki adapter makes no status query. Every consumer therefore falls back to its default for those keys:
  - the controller shows as `'-'` or `'Unknown'`;
  - the status is empty.
  - This is proved in `Core.AllInventoryShape`, `Web.AggregateControllers`, `Web.AggregateExportCells`, `Mcp.AggregateStatusIsEmpty` and `Cli.AggregateRows`.
- The summary's `by_domain` counts error records too (`Mcp.AggregateByDomain`).
- The search for the empty query returns every record, error records included (`Mcp.EmptyQueryMatchesAll`).

## Model

| member | source | states |
|---|---|---|
| Strings.Lower | multidomain_inventory_mcp.py:108 | `s.lower()` keeps the length and lower-cases each character in place (ASCII case mapping) |
| Strings.Contains | multidomain_inventory_mcp.py:114-117 | Python's `q in s` is true exactly when `q` occurs at some position of `s` |
| Strings.ContainsEmpty | multidomain_inventory_mcp.py:114 | the empty string occurs in every string |
| Strings.TrimStartSpec | multidomain_inventory_web.py:272 | `lstrip` removes exactly the leading white space: the result is a suffix that is empty or starts with a non-space character, and only white space precedes it |
| Strings.TrimEndSpec | multidomain_inventory_web.py:272 | `rstrip` removes exactly the trailing white space, symmetrically |
| Strings.StripSpec | multidomain_inventory_web.py:272 | `strip()` is a contiguous block of the input with only white space outside it and no white space at either end |
| Strings.StripKeeps | multidomain_inventory_web.py:272 | a string without white space at its ends is its own `strip()` |
| Strings.Take | multidomain_inventory_cli.py:72 | `s[:n]` is the prefix of `s` of length `min(len(s), n)` |
| Strings.PadRight | multidomain_inventory_cli.py:51 | `f"{s:<n}"` starts with `s`, is padded with spaces to width `n`, and is never shorter than `s` |
| Strings.CenterSpec | multidomain_inventory_cli.py:66 | `f"{s:^n}"` for a shorter `s` has width `n` with `s` in the middle; the left padding is half the fill rounded down, the right padding the rest |
| Strings.Column | multidomain_inventory_cli.py:72-82 | `f"{str(v)[:cut]:<width}"` has exactly `width` characters: the first `cut` characters of `v`, then spaces |
| Strings.Decimal | multidomain_inventory_cli.py:86 | `str(n)` for a count is a non-empty string of decimal digits without a leading zero |
| Strings.DecimalRoundTrip | multidomain_inventory_cli.py:86 | the digits of `str(n)` read back as `n` |
| Collections.Filter | multidomain_inventory_mcp.py:112-118 | a conditional comprehension has at most as many elements as its input; which elements it keeps is `Collections.FilterKeeps` |
| Collections.FilterKeeps | multidomain_inventory_mcp.py:112-118 | every element the comprehension keeps is an element of the input that satisfies the condition, and every element of the input that satisfies it is kept |
| Collections.FilterMultiplicity | multidomain_inventory_mcp.py:112-118 | the comprehension keeps every copy of an element that satisfies the condition and no copy of one that does not |
| Collections.FilterCountSnoc | multidomain_inventory_mcp.py:50-51 | one more element raises the number kept by one exactly when it satisfies the condition |
| Collections.FilterSnoc | multidomain_inventory_web.py:324-325 | filtering a list with one element appended is filtering the list, then keeping the new element when it satisfies the condition |
| Collections.FilterKeepsAll | multidomain_inventory_mcp.py:112-118 | a condition every element meets keeps the whole list |
| Collections.FilterKeepsNone | multidomain_inventory_mcp.py:112-118 | a condition no element meets gives the empty list |
| Collections.FilterMonotone | multidomain_inventory_mcp.py:139-142 | a weaker condition keeps at least as many elements |
| Collections.FilterAgree | multidomain_inventory_mcp.py:139-142 | two conditions that agree on every element filter alike |
| Collections.FilterNarrows | multidomain_inventory_mcp.py:137-142 | filtering on a weaker condition and then on a stronger one is filtering on the stronger one alone |
| Collections.FilterAppend | multidomain_inventory_core.py:136-142 | filtering a concatenation is concatenating the filtered parts |
| Collections.FilterIsSubsequence | multidomain_inventory_mcp.py:112-118 | a conditional comprehension keeps elements in their input order: the result is a subsequence of the input |
| Collections.MapSeq | multidomain_inventory_cli.py:57-83 | mapping a list gives one result per element, at the same position |
| Collections.MapSeqGrow | multidomain_inventory_cli.py:57-83 | mapping one more element after a prefix appends that element's image |
| Collections.SumValuesBump | multidomain_inventory_mcp.py:45 | `m[v] = m.get(v, 0) + 1` adds one to the sum of a counting dictionary |
| Records.FirstKeyIn | multidomain_inventory_web.py:274-277 | the `if/elif` chain on `aci`, `meraki`, `catalyst`, `sdwan` picks a keyword that occurs in the text, and no keyword earlier in that order occurs; no pick means no keyword occurs |
| Records.FirstKeyInPicks | multidomain_inventory_web.py:274-277 | the chain picks a keyword that occurs when no keyword earlier in the order occurs |
| Records.FirstKeyInNone | multidomain_inventory_web.py:274-277 | the chain picks nothing when no keyword occurs |
| Records.TagResolvesToItsKey | multidomain_inventory_core.py:63 | each adapter's domain tag, lower-cased, selects that adapter's own keyword |
| Records.TagLowersToKeyword | multidomain_inventory_core.py:63 | lower-casing each adapter's tag (`ACI`, `Meraki`, `Catalyst`, `SDWAN`) gives that adapter's keyword |
| Records.KeywordIsLower | multidomain_inventory_mcp.py:80-85 | each `domain_map` key is already lower-case, so lower-casing it leaves it unchanged |
| Records.KeywordResolves | multidomain_inventory_web.py:274-277 | each keyword on its own selects its own domain: no earlier keyword occurs in it |
| Core.GetProxies | multidomain_inventory_core.py:40-42 | there is a proxy dictionary exactly when the `PROXY` setting is set and non-empty, and then both schemes use it |
| Core.ErrorRecord | multidomain_inventory_core.py:47 | an error record has exactly the keys `domain` and `error`, with the adapter's tag and the message |
| Core.Normalised | multidomain_inventory_core.py:62-70 | a device record has exactly the seven normalised keys, carries the adapter's tag and holds the given values |
| Core.AciRecord | multidomain_inventory_core.py:62-70 | the ACI mapping of one node's attributes: name, model, serial, version and address from the node, and the controller's address as the link; `Core.AciDashboardIsController` states its link |
| Core.MerakiRecord | multidomain_inventory_core.py:82-91 | the Meraki mapping of one device; `Core.MerakiNameFallback`, `Core.MerakiAddressFallback` and `Core.MerakiDashboardSearchesSerial` state its fallbacks and link |
| Core.CatalystRecord | multidomain_inventory_core.py:105-113 | the Catalyst mapping of one device, with the `user@host` assurance link; `Core.ListingMapsEachDevice` states that a listing maps through it |
| Core.SdwanRecord | multidomain_inventory_core.py:125-133 | the SD-WAN mapping of one device; `Core.SdwanIdentity` states its serial, address and link |
| Core.MapItems | multidomain_inventory_core.py:62-70 | the comprehension succeeds exactly when every element can be read, mapping each in order; otherwise it fails with the message of the first unreadable element |
| Core.Settle | multidomain_inventory_core.py:71 | the `except` clause turns a failure into one error record; either way the records carry the domain's tag and there is one error record or no error record at all |
| Core.AciInventory | multidomain_inventory_core.py:46-71 | the ACI adapter's records all carry the tag `ACI`, and it returns one error record or only device records |
| Core.MerakiInventory | multidomain_inventory_core.py:73-93 | the Meraki adapter's records all carry the tag `Meraki`, and it returns one error record or only device records |
| Core.CatalystInventory | multidomain_inventory_core.py:95-114 | the Catalyst adapter's records all carry the tag `Catalyst`, and it returns one error record or only device records |
| Core.SdwanInventory | multidomain_inventory_core.py:116-134 | the SD-WAN adapter's records all carry the tag `SDWAN`, and it returns one error record or only device records |
| Core.DomainInventory | multidomain_inventory_core.py:47 | for every adapter: an unset required setting gives exactly the one "Missing Config" record |
| Core.GetMerakiInventory | multidomain_inventory_core.py:73-93 | the append loop returns what the Meraki adapter's specification gives, including the discarded partial list when one element cannot be read |
| Core.GetAllInventory | multidomain_inventory_core.py:136-142 | extending an empty list by each adapter in turn gives the aggregate |
| Core.AllInventory | multidomain_inventory_core.py:136-142 | the aggregate as a value: the four adapters' outputs in order; `Core.AllInventoryLayout` and `Core.AllInventoryShape` state its layout and shape |
| Core.MissingConfigIgnoresReply | multidomain_inventory_core.py:47 | without its required setting an adapter answers "Missing Config" whatever the controller would reply: it makes no request |
| Core.FailedExchangeGivesOneError | multidomain_inventory_core.py:71 | a failed exchange gives exactly one error record with the adapter's tag and the exception's message |
| Core.FirstMalformedUnique | multidomain_inventory_core.py:62-70 | the first unreadable element of a listing is unique |
| Core.UnreadableDeviceGivesOneError | multidomain_inventory_core.py:93 | one unreadable element discards the devices mapped before it: the adapter answers one error record with the message of the first such element |
| Core.MerakiFirstMalformed | multidomain_inventory_core.py:81-93 | with a key configured, the first unreadable device of the listing makes the Meraki answer one error record with that device's message |
| Core.ListingMapsEachDevice | multidomain_inventory_core.py:105-113 | a readable listing gives one device record per listed device, in order, each built by the domain's mapping |
| Core.AciListingMaps | multidomain_inventory_core.py:62-70 | a readable ACI listing (an absent `imdata` reads as empty) gives one ACI record per element, in order |
| Core.MerakiListingMaps | multidomain_inventory_core.py:81-92 | a readable Meraki listing gives one Meraki record per device, in order |
| Core.CatalystListingMaps | multidomain_inventory_core.py:105-113 | a readable Catalyst listing gives one Catalyst record per device, in order |
| Core.SdwanListingMaps | multidomain_inventory_core.py:125-133 | a readable SD-WAN listing gives one SD-WAN record per device, in order |
| Core.MerakiNameFallback | multidomain_inventory_core.py:85 | a missing or empty Meraki name falls back to the serial; a non-empty one is kept |
| Core.MerakiAddressFallback | multidomain_inventory_core.py:89 | a missing or empty LAN IP becomes "Cloud", so the address is never empty |
| Core.MerakiDashboardSearchesSerial | multidomain_inventory_core.py:90 | the Meraki dashboard link ends with a search for the device's serial |
| Core.AciMissingImdataIsEmpty | multidomain_inventory_core.py:70 | an ACI reply without `imdata` is an empty inventory, not an error |
| Core.AciDashboardIsController | multidomain_inventory_core.py:69 | every ACI device links to the controller's own address |
| Core.SdwanIdentity | multidomain_inventory_core.py:129-132 | an SD-WAN device's serial is its UUID, and its system IP is both its address and the device id in its link |
| Core.AllInventoryLayout | multidomain_inventory_core.py:136-142 | the aggregate is the four adapters' outputs back to back in the order ACI, Meraki, Catalyst, SD-WAN, with lengths adding up |
| Core.TaggedIsCoreShaped | multidomain_inventory_core.py:62-70 | a record of an adapter's output has one of the four tags and is device-shaped or error-shaped |
| Core.CoreShapedLacksConsumerKeys | multidomain_inventory_core.py:62-70 | such a record has a string domain and no `controller`, `id` or `status` key |
| Core.AllInventoryShape | multidomain_inventory_core.py:136-142 | every record of the aggregate is so shaped |
| Web.Step | multidomain_inventory_web.py:245-255 | after every call the cache holds what the call returned; a fresh, unforced entry is returned with the state unchanged; otherwise the fetched data is returned and stamped with the call's time |
| Web.ForcedRefreshFetches | multidomain_inventory_web.py:248 | a forced call always fetches and restamps |
| Web.StaleEntryFetches | multidomain_inventory_web.py:12 | an entry `CACHE_DURATION` (300 s) old or older is refetched |
| Web.RepeatedReadWithinDuration | multidomain_inventory_web.py:248-249 | an unforced call within 300 s of the last fetch returns the same data, whatever a fetch would return now |
| Web.InventoryCache.constructor | multidomain_inventory_web.py:10-11 | the cache starts empty with timestamp 0 |
| Web.InventoryCache.GetDataWithCache | multidomain_inventory_web.py:245-255 | the method returns and leaves what `Step` specifies, with a fetch being `get_all_inventory` |
| Web.BumpBucket | multidomain_inventory_web.py:274-277 | at most the one selected domain counter goes up by one; nothing else changes |
| Web.Tally | multidomain_inventory_web.py:280-285 | a controller entry is created with the row's domain when new and keeps its domain otherwise, its count goes up by one, and other entries are unchanged |
| Web.TallyInTwoSteps | multidomain_inventory_web.py:282-285 | creating a missing entry with count 0 and then incrementing it is one `Tally` |
| Web.StrippedDomain | multidomain_inventory_web.py:272 | `row.get('domain', '').strip()`; `Strings.StripSpec` states what `strip` keeps |
| Web.Bucket | multidomain_inventory_web.py:272-277 | the counter a device row selects: the first keyword in its stripped, lower-cased domain; `Records.FirstKeyIn` states the choice |
| Web.CountRow | multidomain_inventory_web.py:265-285 | a row with an `error` key changes nothing; any other row adds one to the total, one to the counter its domain selects, and one to its controller's entry |
| Web.StatsOfSnoc | multidomain_inventory_web.py:265 | the statistics of a list with one more row are one more loop pass |
| Web.StatsOf | multidomain_inventory_web.py:265-285 | the statistics of a list, counted row by row from the first with `CountRow`; `Web.StatsTotal`, `Web.StatsBucketCount` and the controller lemmas state what it counts |
| Web.CountDevice | multidomain_inventory_web.py:268-285 | the loop body for a device row is `CountRow` |
| Web.CountBucket | multidomain_inventory_web.py:274-277 | the `elif` chain raises the counter of the picked domain by one and no other |
| Web.TallyController | multidomain_inventory_web.py:280-285 | a controller seen the first time is entered with count 0 and the row's domain, then its count goes up by one |
| Web.CountsTally | multidomain_inventory_web.py:285 | tallying a row raises its controller's count by one and leaves the other counts alone |
| Web.CalculateStats | multidomain_inventory_web.py:257-287 | the loop returns the statistics of the whole list |
| Web.StatsTotal | multidomain_inventory_web.py:266-269 | `total` is exactly the number of rows without an `error` key |
| Web.StatsBucketCount | multidomain_inventory_web.py:272-277 | each domain counter is exactly the number of device rows whose stripped, lower-cased domain first matches that keyword |
| Web.StatsBucketsBounded | multidomain_inventory_web.py:274-277 | the four domain counters never add up to more than the total |
| Web.ControllerCountsSumToTotal | multidomain_inventory_web.py:280-285 | the per-controller counts add up to the total |
| Web.StatsControllers | multidomain_inventory_web.py:279-285 | the `controllers` part of the statistics is `ControllersOf`, the tally of the device rows alone |
| Web.ControllersOf | multidomain_inventory_web.py:279-285 | the `controllers` entries after a pass over a list, tallying each device row; `Web.ControllerPresence`, `Web.ControllerCount` and `Web.ControllerDomainFirstSeen` state their meaning |
| Web.ControllersSnoc | multidomain_inventory_web.py:280-285 | a device row tallies its controller, and an error row leaves the controllers unchanged |
| Web.ControllerPresence | multidomain_inventory_web.py:280-283 | a controller has an entry exactly when some device row falls under it, 'Unknown' for rows without a `controller` key |
| Web.ControllerCount | multidomain_inventory_web.py:285 | a controller's count is the number of device rows under it |
| Web.ControllerDomainFirstSeen | multidomain_inventory_web.py:282-283 | a controller's domain is the stripped domain of its first device row; later rows never overwrite it |
| Web.StripTag | multidomain_inventory_web.py:272 | the adapters' tags carry no surrounding white space |
| Web.TaggedBucket | multidomain_inventory_web.py:272-277 | a record with adapter `k`'s tag falls in counter `k` |
| Web.BlockBucket | multidomain_inventory_web.py:272-277 | in one adapter's block, only its own counter counts, and it counts the block's device rows |
| Web.AggregateBucketCounts | multidomain_inventory_web.py:274-277 | over the aggregate, each domain counter is the number of devices that domain's adapter reported |
| Web.AggregateControllers | multidomain_inventory_web.py:280 | the aggregate meets what `calculate_stats` demands, and 'Unknown' is its only controller |
| Web.TargetLang | multidomain_inventory_web.py:297 | the page language is always one of `en`, `ja`, `ko`, `zh`: the requested one when it has texts, `en` otherwise |
| Web.ExportRow | multidomain_inventory_web.py:326-335 | an export row has the eight columns of the header, and the controller cell defaults to '-' |
| Web.Export | multidomain_inventory_web.py:316-335 | the export is the header row, then one row per record without an `error` key, in order |
| Web.AggregateExportCells | multidomain_inventory_web.py:327-328 | exporting the aggregate, the domain cell is the record's tag and the controller cell is always '-' |
| Mcp.CountBySnoc | multidomain_inventory_mcp.py:44-45 | counting one more record bumps its domain's entry |
| Mcp.StatusOf | multidomain_inventory_mcp.py:49 | `str(d.get('status', '')).lower()` |
| Mcp.HasHealthIssue | multidomain_inventory_mcp.py:33-50 | the summary's test: an `error` key, or a status in the six-element list ending in 'unknown'; `Mcp.UnknownStatusIsOnlyInSummary` states how it differs from the tool's test |
| Mcp.CountBy | multidomain_inventory_mcp.py:44-45 | `by_domain` of a list, counted record by record; `Mcp.CountByExact` and `Mcp.CountBySumsToTotal` state its counts |
| Mcp.GetInventorySummary | multidomain_inventory_mcp.py:19-53 | the summary of the aggregate is `SummaryOf` it |
| Mcp.SummaryOf | multidomain_inventory_mcp.py:35-51 | the summary of a list: its length, `CountBy` of it and the number of records with a health issue; `Mcp.SummaryConsistent` states how they relate |
| Mcp.Summarise | multidomain_inventory_mcp.py:35-51 | the counting loop gives the number of records, the count per domain and the number of health issues |
| Mcp.CountDevice | multidomain_inventory_mcp.py:41-51 | one loop pass adds one to the device's domain count and one to the health issues exactly when it has an issue |
| Mcp.SummaryStep | multidomain_inventory_mcp.py:44-51 | one pass of the summary loop over a device; `Mcp.CountDevice` is proved equal to it |
| Mcp.Summarised | multidomain_inventory_mcp.py:35-51 | the summary after the loop has passed over a list; `Mcp.SummarisedIsSummaryOf` states what it counts |
| Mcp.SummarisedIsSummaryOf | multidomain_inventory_mcp.py:35-51 | the loop's pass over a list yields the per-domain counts `CountBy` and the number of rows with a health issue |
| Mcp.CountByExact | multidomain_inventory_mcp.py:44-45 | `by_domain` maps each domain (or 'Unknown') to exactly the number of records with it, and every entry is at least 1 |
| Mcp.CountBySumsToTotal | multidomain_inventory_mcp.py:36-45 | `by_domain` counts every record once, so it adds up to `total_devices` |
| Mcp.SummaryConsistent | multidomain_inventory_mcp.py:35-51 | the domain counts add up to the total, and the health issues are at most the total |
| Mcp.GetDomainInventory | multidomain_inventory_mcp.py:80-94 | the first `domain_map` key, in order, that occurs in the lower-cased argument selects its adapter; when none occurs the answer is the "not a supported domain" message |
| Mcp.DomainKeysResolve | multidomain_inventory_mcp.py:80-90 | each `domain_map` key, and each adapter's tag as the adapter writes it, selects that adapter |
| Mcp.DomainResolvesInAnyCase | multidomain_inventory_mcp.py:87-90 | any argument that lower-cases to a `domain_map` key, whatever its mix of cases, selects that key's adapter |
| Mcp.SearchDevices | multidomain_inventory_mcp.py:97-123 | the results are a non-empty subsequence of the aggregate, every result matches, and every matching record is among them; with none, the "No devices found" message |
| Mcp.SearchKeepsEveryCopy | multidomain_inventory_mcp.py:112-118 | the search lists a record `Found` accepts as many times as it occurs in the data, and lists no other record |
| Mcp.Matches | multidomain_inventory_mcp.py:113-117 | the search's `or` of four substring tests on the lower-cased query; `Mcp.MatchesIffFound` states what it accepts |
| Mcp.Found | multidomain_inventory_mcp.py:113-117 | the independent statement of the search test: the lower-cased query occurs in the lower-cased text of the name, serial, IP or ID |
| Mcp.MatchesIffFound | multidomain_inventory_mcp.py:113-117 | the search test is true exactly when the lower-cased query occurs in the name, serial, IP or ID |
| Mcp.MatchesIffFoundAt | multidomain_inventory_mcp.py:113-117 | the same equivalence for one record |
| Mcp.EmptyQueryMatchesAll | multidomain_inventory_mcp.py:108-118 | the empty query returns every record, error records included |
| Mcp.ErrorRecordFoundOnlyByEmptyQuery | multidomain_inventory_mcp.py:114-117 | an error record is found exactly by a query that lower-cases to the empty string |
| Mcp.IsUnhealthy | multidomain_inventory_mcp.py:137-141 | the tool's test: a status in the five-element list or an `error` key; `Mcp.GetUnhealthyDevices` states what it lists |
| Mcp.GetUnhealthyDevices | multidomain_inventory_mcp.py:126-147 | the list is a non-empty subsequence holding exactly the records with an unhealthy status or an `error` key; with none, the "All systems appear normal" message |
| Mcp.UnhealthyWithinHealthIssues | multidomain_inventory_mcp.py:136-142 | every record the tool lists is among the summary's health issues: the unhealthy list is the unhealthy part of the issues list, so it is never longer than their count |
| Mcp.UnhealthyKeepsEveryCopy | multidomain_inventory_mcp.py:139-142 | the tool lists an unhealthy record as many times as it occurs in the data, and lists no other record |
| Mcp.UnknownStatusIsOnlyInSummary | multidomain_inventory_mcp.py:33 | a device with status 'unknown' is a health issue in the summary but not listed by the tool |
| Mcp.AggregateStatusIsEmpty | multidomain_inventory_mcp.py:49 | aggregate records have no status, so both health tests reduce to having an `error` key |
| Mcp.AggregateHealthIsErrors | multidomain_inventory_mcp.py:139-142 | over the aggregate, the summary's health issues and the unhealthy list are both exactly the error records |
| Mcp.BlockDomain | multidomain_inventory_mcp.py:44-45 | within one adapter's block, only its own tag is counted, once per record |
| Mcp.AggregateByDomain | multidomain_inventory_mcp.py:44-45 | over the aggregate, `by_domain` gives each tag the number of records its adapter returned, its error record included |
| Cli.BadgeColorByKeyword | multidomain_inventory_cli.py:27-34 | the badge is the colour of the first keyword that occurs in `str(domain).lower()`, and the default colour when none occurs |
| Cli.BadgeColor | multidomain_inventory_cli.py:27-34 | `get_badge_color` as the keyword chain on `str(domain).lower()`; `Cli.BadgeColorByKeyword` states which colour it gives |
| Cli.BadgeColorsDistinct | multidomain_inventory_cli.py:21-34 | the four adapters' badges are pairwise different and none is the default; `Cli.AggregateBadgesDistinct` carries this to the records of the aggregate |
| Cli.TagBadge | multidomain_inventory_cli.py:30-33 | each adapter's tag gets its own domain's badge |
| Cli.AggregateBadgesDistinct | multidomain_inventory_cli.py:58-62 | over the aggregate no record gets the default badge, and records of two different adapters get different badges |
| Cli.DeviceColumnOffsets | multidomain_inventory_cli.py:77-83 | the columns of a device line start at fixed offsets whatever the field lengths, separated by single spaces |
| Cli.MissingFieldDefaults | multidomain_inventory_cli.py:58-83 | a missing field shows empty, a missing controller '-', a missing domain 'Unknown' |
| Cli.ErrorLineIgnoresDeviceFields | multidomain_inventory_cli.py:69-74 | an error line depends only on the domain, the controller and the error |
| Cli.BadgeWidth | multidomain_inventory_cli.py:66 | a domain of at most 10 characters makes a badge 12 characters wide, the width of the header's DOMAIN column |
| Cli.DomainBadge | multidomain_inventory_cli.py:58-66 | `domain_str`: the badge colour, the domain centred in 10 characters between single spaces, and the reset; `Cli.BadgeWidth` states its width |
| Cli.ErrorLine | multidomain_inventory_cli.py:69-73 | the line of an error record; `Cli.ErrorLineIgnoresDeviceFields` states what it depends on |
| Cli.DeviceColumns | multidomain_inventory_cli.py:77-83 | the columns of a device line after the badge; `Cli.DeviceColumnOffsets` states their offsets |
| Cli.FormatRow | multidomain_inventory_cli.py:66-83 | the line printed for one record, the error line or the device line; `Cli.ReportRow` states where it is printed |
| Cli.Rule | multidomain_inventory_cli.py:53 | the rule is 150 dashes |
| Cli.Dashes | multidomain_inventory_cli.py:53 | `"-" * n` is `n` dashes |
| Cli.TotalLineReadsBack | multidomain_inventory_cli.py:86 | the count can be read back from the closing line |
| Cli.Report | multidomain_inventory_cli.py:36-86 | the report has seven lines more than the records: the banner, the fetching notice and the header between rules come first, and a rule and the total come last |
| Cli.ReportRow | multidomain_inventory_cli.py:57-83 | the line after the opening at offset `i` is the line of record `i` |
| Cli.PrintRows | multidomain_inventory_cli.py:57-83 | the row loop appends the line of each record in order |
| Cli.PrintReport | multidomain_inventory_cli.py:36-86 | what `main` prints for a list of records is `Report` of it |
| Cli.RunReport | multidomain_inventory_cli.py:36-86 | `main` over the aggregate can format every row, and prints `Report` of the aggregate |
| Cli.AggregateRows | multidomain_inventory_cli.py:59-62 | over the aggregate every row shows '-' for the controller and its adapter's badge |

## Left out

- HTTP, TLS settings, cookies, timeouts and JSON decoding are not modelled. Each controller's exchange is a parameter, either the exception message or the device listing, because the model cannot see the network.
- The request bodies and headers the adapters send are not modelled. Only the results of the exchange matter to the records, and credentials affect only whether the exchange succeeds.
- Loading `.env`, `os.getenv` and the `CONFIG` dictionary are not modelled. The configuration is a parameter of optional strings.
- `get_full_inventory` is not a separate member. It is `json.dumps` of the aggregate, which `Core.AllInventory` and `Core.GetAllInventory` give; JSON serialisation is out of scope.
- The MCP tools `search_devices` and `get_unhealthy_devices` take the aggregate as their argument instead of calling `get_all_inventory`. Composing them with `Core.GetAllInventory` is direct.
- Flask routing, templates, redirects, the `UI_TEXT` strings and the HTTP response headers of the export are not modelled. Only the language fallback and the exported rows are.
- CSV quoting and escaping are not modelled. `Web.Export` gives the rows as lists of cells, with `None` as an empty cell.
- `print` is not modelled: the terminal report is the list of lines `main` would print. The meaning of the ANSI escape sequences, the elapsed-time line (a clock reading) and the `print` in `get_data_with_cache` are left out.
- FastMCP registration and `mcp.run`, and `app.run`, are not modelled.
- Strings.Lower: only ASCII letters are lower-cased, not full Unicode case mapping. Python's `str.lower` lower-cases every cased character.
- Web.Step: the cache state is two sequential globals. Flask's threaded request handling and any concurrent refresh are not modelled.
- Web.CalculateStats and Web.CountDevice require that a device row's domain, when present, is a string. The source raises on a `None` domain (`strip` of `None`), and the model does not represent that exception. `Web.AggregateControllers` proves the aggregate meets the requirement.
- Cli.PrintRows requires `Printable`, string domains on every row. In the source, formatting a `None` domain with `^10` raises, and the model does not represent that exception. `Cli.RunReport` proves the aggregate `Printable`.
- Cli.PrintReport has the same `Printable` requirement, for the same reason.
- Collections.Filter: its own contract states only the length bound. Which elements it keeps is stated by the lemma `Collections.FilterKeeps`, so that every unfolding of `Filter` does not carry two quantifiers; callers that need it call the lemma.
- Records.Value: a value is a string or `None` only. JSON numbers, booleans, lists and objects a controller may send are not represented, so their `str()` in the search, the badge and the report columns is not modelled.
- Web.Step: the `time.time()` reading is a mathematical `real` parameter; floating-point rounding of the clock and of `now - LAST_UPDATE` is not modelled.
