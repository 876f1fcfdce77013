# Operations scripts and Ansible modules of perzizzle/ansible-playbooks, in Dafny

This project models the Python code shipped with the playbooks: three Telegraf
collector scripts, one Jinja2 filter and three Ansible modules. The Python
behaviour they depend on is modelled once and shared by all of them.

- `py.dfy` (module `Py`): Python values (`None`, booleans, integers, strings,
  lists, dicts) and exceptions; subscripting and iteration with their
  exceptions; and the unspecified iteration order of a Python 2 dict.
- `strings.dfy` (module `Strings`): the `str` methods the scripts use
  (`strip`, `upper`, `lower`, `find`, `split(sep)`, `split()`, `join`,
  `replace`), plus `int()` and `str()` on integers.
- `queue_metrics.dfy` (`QueueMetrics`): the IBM MQ scraper. For every queue
  manager and prefix it runs `display qstatus` through runmqsc. It cuts the
  output at `AMQ` and extracts QUEUE, CURDEPTH, LPUTTIME, MONQ and MSGAGE. It
  replaces blank or unmonitored values with the `-1` and `-2` sentinels, then
  prints four line-protocol lines per queue.
- `ogg_lag.dfy` (`OggLag`): the GoldenGate lag reporter. It converts the lag
  and checkpoint columns of ggsci's `info all` from `h:m:s` to seconds.
- `powershell.dfy` (`Powershell`): the `toPowershell` filter. It renders a
  dict as a PowerShell hashtable literal `@{'k'='v';...}`.
- `gtm_pool.dfy` (`GtmPool`): the `bigip_gtm_pool` module. It makes a GTM pool
  or a pool member absent or present, or sets a pool enabled or disabled. The
  F5 device is a class holding a registry of pools.
- `gtm_facts.dfy` (`GtmFacts`): the `bigip_gtm_facts` module. It gathers pool,
  wide IP and virtual server facts from a read-only device.
- `zenoss.dfy` (`Zenoss`): the Zenoss JSON-API client class and the `zenoss`
  module built on it. The client counts transaction ids and keeps a log of
  what it posted.
- `burrow_metrics.dfy` (`BurrowMetrics`): the Burrow reporter. It walks
  clusters, consumer groups and partitions, appending line-protocol lines to
  one message. It keeps a running lag total and an average.

Shell commands, HTTP replies and iControl calls are parameters:
- `run` gives a shell command's output;
- `fetch` gives Burrow's JSON reply for an address;
- `Server` gives the Zenoss server's reply to a post;
- `Device` gives a BIG-IP reply for the facts module;
- the `Gtm` class's `pools` map and `faults` map stand for the device of the pool module.

Printed output is a sequence of lines. An `exit()`, an escaping exception and
`fail_json` are outcomes of the modelled run.

## Model

| member | source | states |
|---|---|---|
| Py.Text | library/bigip_gtm_pool.py:127 | `str(e)` of an IndexError is "list index out of range", the text the not-found test reads |
| Py.Get | roles/telegrafLinux/files/burrow_metrics.py:23 | `v[key]` succeeds exactly when `v` is a dict holding `key`, and then gives that entry |
| Py.At | roles/telegrafLinux/files/ogg_lag.py:40 | `v[i]` succeeds exactly when `v` is a list longer than `i`, and then gives its `i`-th element |
| Py.Items | roles/telegrafLinux/files/burrow_metrics.py:39 | `for x in v` iterates exactly when `v` is a list; anything else is a TypeError |
| Py.DictKeys | roles/telegrafLinux/files/queue_metrics.py:80 | the keys of a dict in some iteration order: each key exactly once and nothing else |
| Py.DictItems | filter_plugins/powershell.py:9 | `items()`: every key once, each paired with its own value, in some iteration order |
| Strings.StripLeft | library/bigip_gtm_pool.py:117 | the result does not start with whitespace |
| Strings.StripLeftRemovesSpace | library/bigip_gtm_pool.py:117 | `lstrip()` gives a suffix of the text, and everything it removed is whitespace |
| Strings.StripRight | library/bigip_gtm_pool.py:117 | the result is a prefix of the input that does not end with whitespace |
| Strings.StripRightRemovesSpace | library/bigip_gtm_pool.py:117 | everything `rstrip()` removed from the end is whitespace |
| Strings.Strip | library/bigip_gtm_pool.py:117 | the result neither starts nor ends with whitespace |
| Strings.StripTrims | library/bigip_gtm_pool.py:117 | `strip()` gives a slice of the text with only whitespace before and after it |
| Strings.StripNoSpace | library/bigip_gtm_facts.py:168 | strip leaves text without whitespace unchanged |
| Strings.Upper | library/bigip_gtm_pool.py:161 | `upper()` maps each character to its upper-case form and keeps the length |
| Strings.Lower | library/bigip_gtm_pool.py:109 | `lower()` maps each character to its lower-case form and keeps the length |
| Strings.LowerUpper | library/bigip_gtm_pool.py:109 | `upper()` then `lower()` gives a lower-case word back |
| Strings.Find | library/zenoss.py:134 | `find` gives the first position of an occurrence, or -1 when there is none |
| Strings.Split | roles/telegrafLinux/files/queue_metrics.py:39 | `split(sep)` gives at least one part |
| Strings.SplitParts | roles/telegrafLinux/files/queue_metrics.py:39 | no part contains the separator; there is more than one part exactly when the text contains it, and then the first part is the text before its first occurrence |
| Strings.SplitJoin | roles/telegrafLinux/files/queue_metrics.py:39 | joining the parts of a split with the separator gives the text back |
| Strings.JoinSplit | roles/telegrafLinux/files/ogg_lag.py:27 | parts without a one-character separator, joined and split again, are recovered |
| Strings.SplitNoSeparator | library/bigip_gtm_pool.py:109 | text without the separator splits into itself alone |
| Strings.SplitLeadingSeparator | roles/telegrafLinux/files/queue_metrics.py:39 | text starting with the separator splits into an empty first part and the split of the rest |
| Strings.FindAfterFreePrefix | library/bigip_gtm_pool.py:109 | the first occurrence of a one-character separator comes right after a prefix that lacks it |
| Strings.Tokens | roles/telegrafLinux/files/ogg_lag.py:39 | `split()` gives non-empty words without whitespace |
| Strings.TokensOfJoin | roles/telegrafLinux/files/ogg_lag.py:39 | words joined by single spaces split back into those words |
| Strings.WordLengthOfPrefix | roles/telegrafLinux/files/ogg_lag.py:39 | text that starts with whitespace does not lengthen the leading word |
| Strings.TokensAtSpace | roles/telegrafLinux/files/ogg_lag.py:39 | a whitespace character separates tokens: `(a + c + b).split() == a.split() + b.split()` |
| Strings.TokensOfSingleWord | roles/telegrafLinux/files/ogg_lag.py:39 | a non-empty text without whitespace splits into itself alone |
| Strings.TokensOfBlank | roles/telegrafLinux/files/ogg_lag.py:39 | `split()` gives no words exactly when the text is empty or all whitespace |
| Strings.ContainsChar | library/zenoss.py:134 | a one-character substring occurs exactly when the character does |
| Strings.MissingChar | library/zenoss.py:134 | a text cannot contain a substring holding a character the text lacks |
| Strings.ContainsMiddle | library/bigip_gtm_pool.py:127 | a text contains whatever sits inside it |
| Strings.NatToString | roles/telegrafLinux/files/queue_metrics.py:81 | `str(n)` of a natural number is non-empty decimal digits |
| Strings.IntToString | roles/telegrafLinux/files/queue_metrics.py:81 | `str(i)` is non-empty, has no whitespace and holds only digits and `-` |
| Strings.DigitsValueOfNatToString | roles/telegrafLinux/files/queue_metrics.py:81 | the digits `str(n)` writes have the value `n` |
| Strings.ParseInt | roles/telegrafLinux/files/ogg_lag.py:28 | `int(s)` succeeds exactly on an integer literal: whitespace around, an optional sign, optional whitespace after the sign, decimal digits |
| Strings.ParseIntSpaceAfterSign | roles/telegrafLinux/files/queue_metrics.py:81 | `int("- 5") == -5` and `int(" + 7 ") == 7`: whitespace after the sign is skipped |
| Strings.ParseIntRejectsInnerSpace | roles/telegrafLinux/files/queue_metrics.py:81 | `int()` rejects whitespace inside the digits and a second sign |
| Strings.ParseIntOfDigits | roles/telegrafLinux/files/ogg_lag.py:28 | `int()` of digits with an optional minus gives their signed value |
| Strings.ParseIntToString | roles/telegrafLinux/files/queue_metrics.py:81 | `int(str(i)) == i` |
| QueueMetrics.Field | roles/telegrafLinux/files/queue_metrics.py:50-56 | a field is found exactly when the chunk has `KEY(` and a `)` after the first one; it is then the `)`-free text between them; a chunk without `KEY(` has no field |
| QueueMetrics.ApplySentinels | roles/telegrafLinux/files/queue_metrics.py:58-67 | MONQ OFF makes both lputtime and msgage "-2"; otherwise a blank value becomes "-1" and any other value is kept |
| QueueMetrics.SentinelsDistinguishable | roles/telegrafLinux/files/queue_metrics.py:58-67 | with monitoring off nothing is "-1"; with it on, "-2" appears only when the tool printed it, and no stored value is blank |
| QueueMetrics.ParseChunk | roles/telegrafLinux/files/queue_metrics.py:49-68 | a chunk without a QUEUE anchor is skipped; an anchored chunk missing a field raises; otherwise it yields the name and the sentinel-applied status |
| QueueMetrics.GetQueueDepth | roles/telegrafLinux/files/queue_metrics.py:39-70 | the loop over the `AMQ` chunks builds the same dict, or the same error, as the chunk-by-chunk specification |
| QueueMetrics.ScrapedErrorPersists | roles/telegrafLinux/files/queue_metrics.py:49-56 | an error in an early chunk is the error of the whole scrape |
| QueueMetrics.ScrapedWithoutQueues | roles/telegrafLinux/files/queue_metrics.py:47-70 | output without an anchored chunk gives an empty dict, not an error |
| QueueMetrics.ScrapedKeys | roles/telegrafLinux/files/queue_metrics.py:49-68 | the dict's keys are exactly the names of the anchored chunks |
| QueueMetrics.ScrapedLastWins | roles/telegrafLinux/files/queue_metrics.py:68 | a later chunk for the same queue overwrites an earlier one |
| QueueMetrics.ScrapedSentinels | roles/telegrafLinux/files/queue_metrics.py:58-68 | every stored status obeys the sentinel rule |
| QueueMetrics.ParseChunkSentinels | roles/telegrafLinux/files/queue_metrics.py:58-68 | a parsed chunk's status obeys the sentinel rule |
| QueueMetrics.QueueLinesFields | roles/telegrafLinux/files/queue_metrics.py:81-84 | a queue prints four lines (depth, lputtime, monq, msgage) for its manager and name; the numbers print `int()` of the stored text and the strings print quoted |
| QueueMetrics.QueueLinesOk | roles/telegrafLinux/files/queue_metrics.py:81-84 | with both numbers well formed, the four lines are exactly the expected ones and nothing raises |
| QueueMetrics.ExampleMonitoringOff | roles/telegrafLinux/files/queue_metrics.py:60-62 | a queue with depth 5 and monitoring off prints `depth=5`, `lputtime="-1"`, `monq="OFF"`, `msgage=-2` |
| QueueMetrics.QueueLinesLength | roles/telegrafLinux/files/queue_metrics.py:81-84 | a queue prints four lines unless a conversion raises |
| QueueMetrics.LinesForLength | roles/telegrafLinux/files/queue_metrics.py:80-84 | without a conversion error, every queue adds exactly four lines |
| QueueMetrics.LinesForBlock | roles/telegrafLinux/files/queue_metrics.py:80-84 | the k-th block of four lines is the k-th queue's printout in iteration order |
| QueueMetrics.ConcatAfterError | roles/telegrafLinux/files/queue_metrics.py:80-84 | once a queue's `int()` raises, nothing more is printed |
| QueueMetrics.EmitQueueMetrics | roles/telegrafLinux/files/queue_metrics.py:80-84 | prints the lines of every queue in some iteration order of the dict, stopping at the first conversion error |
| QueueMetrics.EmitQueues | roles/telegrafLinux/files/queue_metrics.py:80-84 | the print loop over a given key order gives the specification's lines and error |
| QueueMetrics.ScrapedPairs | roles/telegrafLinux/files/queue_metrics.py:6-7 | the script visits (SS_QM_01, SS), (SS_QM_01, RXH), (SS_QM_02, SS), (SS_QM_02, RXH) in that order |
| QueueMetrics.ScrapePass | roles/telegrafLinux/files/queue_metrics.py:31-38 | one pass exits with nothing printed when runmqsc is already running; otherwise it prints what the scrape of its own command gives |
| QueueMetrics.ScrapeManager | roles/telegrafLinux/files/queue_metrics.py:77-84 | the inner loop visits the prefixes in order up to the first stop, each pass printing what its scrape gives |
| QueueMetrics.ScrapeAll | roles/telegrafLinux/files/queue_metrics.py:75-84 | the outer loops visit a prefix of the (manager, prefix) pairs in order, all of them unless a pass stops; every line printed is in order, and only the last pass may stop |
| OggLag.ParseFields | roles/telegrafLinux/files/ogg_lag.py:28 | `int()` of the fields left to right: all values, or the error of the first bad field |
| OggLag.ParseFieldsValues | roles/telegrafLinux/files/ogg_lag.py:28 | the fields convert exactly when each is an integer literal, and then to their values |
| OggLag.ParseFieldsError | roles/telegrafLinux/files/ogg_lag.py:28 | a failed conversion reports the leftmost field that is not an integer literal |
| OggLag.ConvertAccepts | roles/telegrafLinux/files/ogg_lag.py:26-28 | `convert_to_seconds` succeeds exactly on three colon-separated integer fields; another number of fields is the unpacking ValueError |
| OggLag.SplitClock | roles/telegrafLinux/files/ogg_lag.py:27 | three colon-free fields joined by colons split back into those fields |
| OggLag.ParseFieldsCons | roles/telegrafLinux/files/ogg_lag.py:28 | an integer field in front of others parses to its value in front of theirs |
| OggLag.ConvertFields | roles/telegrafLinux/files/ogg_lag.py:26-28 | three integer fields joined by colons convert to `h * 3600 + m * 60 + s` |
| OggLag.ConvertClock | roles/telegrafLinux/files/ogg_lag.py:26-28 | a clock written out from three integers converts to its number of seconds |
| OggLag.DivModClock | roles/telegrafLinux/files/ogg_lag.py:28 | hours, minutes and seconds from `divmod` put the count of seconds back together |
| OggLag.ConvertSecondsBack | roles/telegrafLinux/files/ogg_lag.py:26-28 | every number of seconds is the conversion of its own `h:m:s` |
| OggLag.ConvertPadded | roles/telegrafLinux/files/ogg_lag.py:26-28 | ggsci's zero-padded `00:01:30` converts to 90 |
| OggLag.PaddedFields | roles/telegrafLinux/files/ogg_lag.py:28 | the zero-padded fields `00`, `01`, `30` read as 0, 1 and 30 |
| OggLag.OggLineFails | roles/telegrafLinux/files/ogg_lag.py:39-40 | a line prints exactly when it has five columns and both times convert; a short line raises IndexError, and the lag's error comes before the fifth column's |
| OggLag.OggLineOfStream | roles/telegrafLinux/files/ogg_lag.py:39-40 | a line whose times convert prints its first three columns and both times in seconds |
| OggLag.OggLineOfColumns | roles/telegrafLinux/files/ogg_lag.py:39-40 | space-separated columns print program, status, group and both times; extra columns are ignored |
| OggLag.PrintLines | roles/telegrafLinux/files/ogg_lag.py:38-40 | the loop prints each line's rendering in order, ending at the first line that raises |
| OggLag.ReportLag | roles/telegrafLinux/files/ogg_lag.py:30-40 | exits with nothing printed when ggsci is already running; otherwise prints a prefix of the `info all` lines, all of them unless a line raises, and then that line's error |
| Powershell.ToPowershell | filter_plugins/powershell.py:5-16 | a non-dict gives False; a dict gives `@{` + one entry per pair in iteration order + `}`; for quote-free keys and values the text reads back as exactly those pairs |
| Powershell.Render | filter_plugins/powershell.py:9-11 | the loop writes `@{`, the entries of every pair in order, then `}` |
| Powershell.Pieces | filter_plugins/powershell.py:10 | the quoted pieces of `n` entries are four per entry |
| Powershell.BodyIsJoin | filter_plugins/powershell.py:9-10 | the written entries are their pieces joined by single quotes after an empty first piece |
| Powershell.PartsQuoteFree | filter_plugins/powershell.py:10 | for quote-free pairs, every piece is quote-free |
| Powershell.SplitBody | filter_plugins/powershell.py:9-10 | the entries of quote-free pairs cut at the quotes into an empty piece and their pieces |
| Powershell.ParseBraces | filter_plugins/powershell.py:7-11 | a text in braces is cut at the quotes between them |
| Powershell.ParseWritten | filter_plugins/powershell.py:9-11 | for pairs without single quotes, the written hashtable parses back as exactly those pairs |
| Powershell.PairsOfPieces | filter_plugins/powershell.py:10 | the pieces of the first `n` entries regroup as exactly the first `n` pairs |
| Powershell.QuoteInjection | filter_plugins/powershell.py:10 | nothing is escaped: a value holding `';'k2'='v2` is written like a second entry `k2` |
| Powershell.AmbiguousRendering | filter_plugins/powershell.py:10 | two different dicts can render as the same text |
| GtmPool.StateRoundTrip | library/bigip_gtm_pool.py:107-118 | `get_pool_state` reads back the lower-case state name `set_pool_state` sent |
| GtmPool.DecodeStateFails | library/bigip_gtm_pool.py:109 | reading a state raises IndexError exactly when the reply holds no `STATE_` |
| GtmPool.LbMethodDefault | library/bigip_gtm_pool.py:158-161 | an empty method is sent as `LB_METHOD_ROUND_ROBIN`; any other as its stripped, upper-cased name |
| GtmPool.PoolPathInjective | library/bigip_gtm_pool.py:199 | `/partition/pool` determines the partition (without `/`) and the pool |
| GtmPool.ExistsRule | library/bigip_gtm_pool.py:120-148 | exists is true when the probe returns, false only for "was not found", and any other error is raised again |
| GtmPool.NotFoundMeansAbsent | library/bigip_gtm_pool.py:126-128 | the device's not-found error reads as "does not exist" |
| GtmPool.CheckModeReportsSame | library/bigip_gtm_pool.py:204-270 | check mode reports the change a real run would make, and leaves the pools as they were |
| GtmPool.ChangedIffModified | library/bigip_gtm_pool.py:204-270 | a real run reports a change exactly when the pools change |
| GtmPool.Idempotent | library/bigip_gtm_pool.py:204-270 | a second run with the same options, after one that did not fail, reports no change and changes nothing |
| GtmPool.RunHealthy | library/bigip_gtm_pool.py:204-270 | against a device with no fault on any call about the pool (faults elsewhere allowed), `main` does what `Expected` says |
| GtmPool.RunCheckMode | library/bigip_gtm_pool.py:204-270 | check mode leaves the pools as they were, whatever the device answers |
| GtmPool.RunReportsChange | library/bigip_gtm_pool.py:204-270 | against any device, a real run that exits reports a change exactly when the pools changed |
| GtmPool.AbsentReportsChange | library/bigip_gtm_pool.py:209-225 | the same for the `absent` branch |
| GtmPool.PresentReportsChange | library/bigip_gtm_pool.py:226-248 | the same for the `present` branch |
| GtmPool.SetStateReportsChange | library/bigip_gtm_pool.py:249-266 | the same for the `enabled`/`disabled` branches |
| GtmPool.RunFailure | library/bigip_gtm_pool.py:204-270 | any exception (a probe, a member probe, a read or a write) ends the run with "received exception" and the pools unchanged, except that when `remove_pool` raises after `remove_pool_member` succeeded the member stays removed and the pool stays |
| GtmPool.AbsentFailure | library/bigip_gtm_pool.py:209-225 | the same for the `absent` branch, the only one that can fail half-way |
| GtmPool.AbsentHealthy | library/bigip_gtm_pool.py:209-225 | `RunHealthy` for the `absent` branch |
| GtmPool.PresentHealthy | library/bigip_gtm_pool.py:226-248 | `RunHealthy` for the `present` branch |
| GtmPool.SetStateHealthy | library/bigip_gtm_pool.py:249-266 | `RunHealthy` for the `enabled`/`disabled` branches |
| GtmPool.Gtm.PoolExistsHealthy | library/bigip_gtm_pool.py:120-132 | a device with no fault on the pool answers "does the pool exist" truthfully |
| GtmPool.Gtm.MemberExistsHealthy | library/bigip_gtm_pool.py:134-148 | a device with no fault on the pool answers "does the member exist" truthfully |
| GtmPool.Gtm.SetPoolState | library/bigip_gtm_pool.py:116-118 | stores the `STATE_` constant for the name in the pool, or raises the device's fault and changes nothing |
| GtmPool.Gtm.AddPool | library/bigip_gtm_pool.py:158-164 | creates an empty pool with the given method, or raises the device's fault and changes nothing |
| GtmPool.Gtm.RemovePool | library/bigip_gtm_pool.py:165-166 | deletes the pool, or raises and changes nothing |
| GtmPool.Gtm.RemovePoolMember | library/bigip_gtm_pool.py:154-156 | removes the member from the pool, or raises and changes nothing |
| GtmPool.Gtm.Remove | library/bigip_gtm_pool.py:209-225 | the `absent` branch ends with the outcome and pools `Run` (through `RunAbsent`) gives for the device's pools and faults, every probe and write fault included |
| GtmPool.Gtm.Create | library/bigip_gtm_pool.py:226-248 | the `present` branch ends as `Run` (through `RunPresent`) gives: a create failing with "already exists" is not an error and changes nothing |
| GtmPool.Gtm.SetState | library/bigip_gtm_pool.py:249-266 | the `enabled`/`disabled` branches end as `Run` (through `RunSetState`) gives, read and write faults included |
| GtmPool.Gtm.RunPoolModule | library/bigip_gtm_pool.py:194-270 | `main` ends as `Run` says for the device's pools and faults; check mode changes nothing; a device with no fault on the pool ends as `Expected` says; a probe error other than "was not found" fails with nothing changed |
| GtmFacts.Lowered | library/bigip_gtm_facts.py:243 | each include value lower-cased, in order |
| GtmFacts.LowerIsSpelling | library/bigip_gtm_facts.py:243 | a value lower-cases to a lower-case word exactly when it spells that word in some case |
| GtmFacts.IncludeCaseInsensitive | library/bigip_gtm_facts.py:243-247 | the include list is accepted exactly when every value spells `pool`, `wide_ip` or `virtual_server` with any of its letters upper-cased (`Pool`, `WIDE_ip`, ...) |
| GtmFacts.RawStateKeepsCase | library/bigip_gtm_facts.py:133-136 | the facts keep the device's case; the pool module's state is their lower-case form |
| GtmFacts.RawStateOfEncoding | library/bigip_gtm_facts.py:133-136 | what the pool module sends for `enabled` reads back here as `ENABLED` |
| GtmFacts.ReplaceLbPrefix | library/bigip_gtm_facts.py:166-169 | removing `LB_METHOD_` from the prefixed text leaves the rest untouched |
| GtmFacts.LbMethodRoundTrip | library/bigip_gtm_facts.py:166-169 | a method sent by the pool module reads back as its own lower-case name |
| GtmFacts.FlattenFailsFrom | library/bigip_gtm_facts.py:159-163 | once an element of the reply is not a list, walking further fails with that error |
| GtmFacts.LastOfLastNonEmpty | library/bigip_gtm_facts.py:159-164 | the result is the last element of the last non-empty inner list |
| GtmFacts.NoMemberIsUnbound | library/bigip_gtm_facts.py:159-164 | the walk raises UnboundLocalError exactly when the reply is a list of empty lists; any other failure has a reply or an element that is not a list |
| GtmFacts.FlattenAllLists | library/bigip_gtm_facts.py:159-163 | a reply of lists is walked without error, and visits no member exactly when every list is empty |
| GtmFacts.FlattenNotAllLists | library/bigip_gtm_facts.py:159-163 | a reply with an element that is not a list makes the inner loop raise TypeError |
| GtmFacts.GetVirtualServer | library/bigip_gtm_facts.py:156-164 | the loops keep the last element visited; an empty reply leaves the variable unbound |
| GtmFacts.NoErrorAllOk | library/bigip_gtm_facts.py:260-281 | when no getter raises, every fact key set holds a value |
| GtmFacts.CategoriesRaiseInOrder | library/bigip_gtm_facts.py:260-281 | the first category that raises carries the first exception in calling order |
| GtmFacts.CategoriesMerge | library/bigip_gtm_facts.py:260-281 | writing the categories in order gives each key the value of the last category that sets it |
| GtmFacts.MergeAt | library/bigip_gtm_facts.py:260-281 | one key of the merged facts comes from the last category that has it |
| GtmFacts.Dispatch | library/bigip_gtm_facts.py:260-283 | the three branches run in order, and the first exception ends the run |
| GtmFacts.AddPoolFacts | library/bigip_gtm_facts.py:261-267 | the pool branch writes state, statistics and status for a named pool, or else `pools` |
| GtmFacts.AddWideIpFacts | library/bigip_gtm_facts.py:268-273 | the wide IP branch writes `lb_method` and `pools` for a named wide IP, or else `wide_ips` |
| GtmFacts.AddServerFacts | library/bigip_gtm_facts.py:274-281 | the virtual server branch writes by pool, by name and server, or lists them all |
| GtmFacts.GatherFacts | library/bigip_gtm_facts.py:213-289 | the module's outcome is the specified one: the include check, the existence checks, then the merged categories |
| Zenoss.DeviceRouterKnown | library/zenoss.py:83-93 | `DeviceRouter` is in the routers table with segment `device` |
| Zenoss.RouterUriSegment | library/zenoss.py:125 | on one host, two routers share an address only if they share a path segment |
| Zenoss.MentionsContains | library/zenoss.py:134 | the login-page search agrees with substring containment |
| Zenoss.AnswerRule | library/zenoss.py:134-137 | a login page is refused whatever it parses to; any other reply is its JSON `result` |
| Zenoss.RouterCall | library/zenoss.py:112-137 | an unknown router raises before posting; otherwise a post is recorded exactly when the server answers it, at the router's address, with the current transaction id, counted even when the reply is refused |
| Zenoss.GetDevicesCall | library/zenoss.py:139-144 | `get_devices`: a `getDevices` post over the whole tree, with no limit; its posts carry consecutive transaction ids from the current count |
| Zenoss.FirstNamedIsFirst | library/zenoss.py:293-296 | the first-match loop finds the first item of that name, after items with other names |
| Zenoss.FirstNamedNone | library/zenoss.py:293-296 | the first-match loop finds nothing exactly when every item has a name and none has that one |
| Zenoss.LastNamedOk | library/zenoss.py:279-281 | the last-match loop raises exactly when some item has no name |
| Zenoss.LastNamedIsLast | library/zenoss.py:279-281 | the last-match loop finds the last item of that name |
| Zenoss.LastNamedNone | library/zenoss.py:279-281 | the last-match loop finds nothing only when no item has that name |
| Zenoss.LastNamedRaisesOnward | library/zenoss.py:279-281 | once a prefix raises, every longer prefix raises the same exception |
| Zenoss.MatchingOk | library/zenoss.py:175 | the comprehension raises exactly when some device has no name |
| Zenoss.MatchingFirst | library/zenoss.py:175 | with every device named, the comprehension's first element is the first match |
| Zenoss.PickDeviceIsFirst | library/zenoss.py:172-180 | `find_device` on a well-formed list gives the first device of that name with the list's hash, or "Cannot locate device" |
| Zenoss.NamelessDeviceAfterMatch | library/zenoss.py:175 | a nameless device after the match still makes `find_device` raise KeyError |
| Zenoss.FirstAndLastDiffer | library/zenoss.py:279-296 | with two components of one name, `get_component` reports the second and `set_component_monitor` the first |
| Zenoss.FindDeviceCall | library/zenoss.py:168-180 | `find_device`: the device list, then the first device of that name; its posts carry consecutive transaction ids from the current count |
| Zenoss.DeviceUidCall | library/zenoss.py:182-185 | `device_uid`: the found device's `uid`; its posts carry consecutive transaction ids from the current count |
| Zenoss.GetComponentsByUidCall | library/zenoss.py:152-159 | `get_components_by_uid` with its default arguments; its posts carry consecutive transaction ids from the current count |
| Zenoss.GetComponentsCall | library/zenoss.py:146-150 | `get_components`: the device's uid, then its components; its posts carry consecutive transaction ids from the current count |
| Zenoss.SetComponentsMonitoredCall | library/zenoss.py:161-166 | `set_components_monitored` for the component's uid; its posts carry consecutive transaction ids from the current count |
| Zenoss.AddDeviceCall | library/zenoss.py:187-192 | `add_device`: one `addDevice` post; its posts carry consecutive transaction ids from the current count |
| Zenoss.RemoveDeviceCall | library/zenoss.py:194-200 | `remove_device`: the device found by name, then its deletion under the list's hash; its posts carry consecutive transaction ids from the current count |
| Zenoss.SetProdStateCall | library/zenoss.py:202-208 | `set_prod_state`: the device found by name, then the new state under the list's hash; its posts carry consecutive transaction ids from the current count |
| Zenoss.SetProdStatePosts | library/zenoss.py:202-208 | the listing, then the state post, and the latter only when the device was found |
| Zenoss.DeviceCallPosts | library/zenoss.py:112-137 | a device-router call posts at most itself |
| Zenoss.GetComponentsPosts | library/zenoss.py:146-159 | reading components lists the devices, then asks for the components, and writes nothing |
| Zenoss.ReadsOnlyRead | library/zenoss.py:252-286 | the three reading methods post only `getDevices` and `getComponents` |
| Zenoss.SetProdStateCalls | library/zenoss.py:202-208 | writing a production state posts the device listing, then the new state |
| Zenoss.ProductionStateDecision | library/zenoss.py:260-273 | a count other than 1 fails and writes nothing; otherwise it writes and reports a change exactly when the state differs |
| Zenoss.ComponentMonitorDecision | library/zenoss.py:297-303 | the first component of that name is written, and a change reported, exactly when its `monitored` differs |
| Zenoss.ReadComponentAlwaysChanged | library/zenoss.py:282-286 | `get_component` reports a change whenever it finds the component, and reports the last of that name |
| Zenoss.LastComponent | library/zenoss.py:279-281 | the `get_component` loop keeps the last component of that name |
| Zenoss.FirstComponent | library/zenoss.py:293-296 | the `set_component_monitor` loop stops at the first component of that name |
| Zenoss.ExpectedListDevices | library/zenoss.py:252-254 | the `get_devices` branch: the devices of that name, with no change; its posts carry consecutive transaction ids from the current count |
| Zenoss.ExpectedReadProductionState | library/zenoss.py:255-259 | the `get_production_state` branch: the first listed device's state (no `totalCount` read), with no change; its posts carry consecutive transaction ids from the current count |
| Zenoss.ReadProductionStateReports | library/zenoss.py:255-259 | `get_production_state` succeeds exactly when the listing answers and its first device has a state, and then reports that state, its message and no change |
| Zenoss.ReadStateOfCurrent | library/zenoss.py:256-264 | the write branch reads the same state as the read branch, then `totalCount`, and fails only where one of them is missing |
| Zenoss.ReadCurrentWithoutCount | library/zenoss.py:255-259 | a listing without `totalCount` still gives the read branch its state, while the write branch's reads fail |
| Zenoss.ExpectedReadComponent | library/zenoss.py:274-286 | the `get_component` branch: the last component of that name, reported as a change; its posts carry consecutive transaction ids from the current count |
| Zenoss.DecideComponentMonitor | library/zenoss.py:287-303 | `set_component_monitor` after the read: the first component of that name is written only when its flag differs; its posts carry consecutive transaction ids from the current count |
| Zenoss.Client.constructor | library/zenoss.py:105-110 | a new client has posted nothing and counts from 0 |
| Zenoss.Client.RouterRequest | library/zenoss.py:112-137 | the client posts what `RouterCall` specifies and advances its count by the posts made |
| Zenoss.Client.GetDevices | library/zenoss.py:139-144 | posts and returns what `GetDevicesCall` specifies |
| Zenoss.Client.FindDevice | library/zenoss.py:168-180 | posts and returns what `FindDeviceCall` specifies |
| Zenoss.Client.DeviceUid | library/zenoss.py:182-185 | posts and returns what `DeviceUidCall` specifies |
| Zenoss.Client.GetComponentsByUid | library/zenoss.py:152-159 | posts and returns what `GetComponentsByUidCall` specifies |
| Zenoss.Client.GetComponents | library/zenoss.py:146-150 | posts and returns what `GetComponentsCall` specifies |
| Zenoss.Client.SetComponentsMonitored | library/zenoss.py:161-166 | posts and returns what `SetComponentsMonitoredCall` specifies |
| Zenoss.Client.AddDevice | library/zenoss.py:187-192 | posts and returns what `AddDeviceCall` specifies |
| Zenoss.Client.RemoveDevice | library/zenoss.py:194-200 | posts and returns what `RemoveDeviceCall` specifies |
| Zenoss.Client.SetProdState | library/zenoss.py:202-208 | posts and returns what `SetProdStateCall` specifies |
| Zenoss.Client.SetMaintenance | library/zenoss.py:210-214 | sets production state 300 |
| Zenoss.Client.SetProduction | library/zenoss.py:216-220 | sets production state 1000 |
| Zenoss.ListDevicesBranch | library/zenoss.py:252-254 | the `get_devices` branch does what `ExpectedListDevices` says |
| Zenoss.ReadProductionStateBranch | library/zenoss.py:255-259 | the `get_production_state` branch does what `ExpectedReadProductionState` says |
| Zenoss.DecideProductionStateStep | library/zenoss.py:264-273 | after the listing: the count check, then the write only when the state differs |
| Zenoss.WriteProductionStateBranch | library/zenoss.py:260-273 | a missing state fails before posting; otherwise the listing, then the decision of `ProductionStateDecision` |
| Zenoss.ReadComponentBranch | library/zenoss.py:274-286 | the `get_component` branch does what `ExpectedReadComponent` says |
| Zenoss.DecideComponentMonitorStep | library/zenoss.py:293-303 | after the components were read, does what `DecideComponentMonitor` says |
| Zenoss.WriteComponentMonitorBranch | library/zenoss.py:287-303 | missing arguments fail before posting; otherwise the components are read, then `DecideComponentMonitor` |
| Zenoss.RunModule | library/zenoss.py:222-306 | a fresh client counting from 0, then the named branch; an unknown method fails before any post |
| BurrowMetrics.EntryResults | roles/telegrafLinux/files/burrow_metrics.py:48-50 | one result per partition |
| BurrowMetrics.EntriesOfEach | roles/telegrafLinux/files/burrow_metrics.py:48-50 | a group's entries exist exactly when every partition has one, in place; otherwise the first partition's exception |
| BurrowMetrics.PartitionsAppend | roles/telegrafLinux/files/burrow_metrics.py:48-50 | every partition's line is appended in order and its lag added to the total; the count and the average stay |
| BurrowMetrics.PartitionsRaise | roles/telegrafLinux/files/burrow_metrics.py:48-50 | the loop stops with the exception of the first partition lacking a field or a numeric lag |
| BurrowMetrics.ConsumerReport | roles/telegrafLinux/files/burrow_metrics.py:45-52 | the group line, then its partitions' lines; the lag keeps earlier groups' total; the count is this group's; the average is recomputed only when the lag is positive |
| BurrowMetrics.LagReportReads | roles/telegrafLinux/files/burrow_metrics.py:45-48 | the reply is read as `status.status`, then `status.partitions`, and the first failing lookup is the group's exception |
| BurrowMetrics.EmptyGroupAfterLag | roles/telegrafLinux/files/burrow_metrics.py:47-52 | the total is never reset: after a lagging group, a group without partitions raises ZeroDivisionError |
| BurrowMetrics.PartitionEntryLine | roles/telegrafLinux/files/burrow_metrics.py:49 | every partition line ends in a newline |
| BurrowMetrics.PartitionsWholeLines | roles/telegrafLinux/files/burrow_metrics.py:48-50 | the partition loop appends whole lines |
| BurrowMetrics.ConsumerWholeLines | roles/telegrafLinux/files/burrow_metrics.py:45-52 | a group appends whole lines |
| BurrowMetrics.ConsumersWholeLines | roles/telegrafLinux/files/burrow_metrics.py:43-52 | the groups of a cluster append whole lines |
| BurrowMetrics.ClustersWholeLines | roles/telegrafLinux/files/burrow_metrics.py:39-52 | the clusters append whole lines |
| BurrowMetrics.OutputWholeLines | roles/telegrafLinux/files/burrow_metrics.py:55 | every printed line ends in a newline, and `print` adds one more |
| BurrowMetrics.ConsumersFrom | roles/telegrafLinux/files/burrow_metrics.py:43-52 | one turn of the group loop: one group's step, then the rest |
| BurrowMetrics.Script.constructor | roles/telegrafLinux/files/burrow_metrics.py:13-17 | the message is empty and lag, count and average are 0 |
| BurrowMetrics.Script.ReportConsumer | roles/telegrafLinux/files/burrow_metrics.py:45-52 | one group's body changes the state as `ConsumerStep` says |
| BurrowMetrics.Script.UpdateAverage | roles/telegrafLinux/files/burrow_metrics.py:51-52 | the state after the average step as `Average` specifies: with a positive lag, lag divided by count, or ZeroDivisionError on 0 |
| BurrowMetrics.Script.AddPartition | roles/telegrafLinux/files/burrow_metrics.py:49-50 | the state after one partition as `PartitionStep` specifies: its line appended and its lag added, or its exception |
| BurrowMetrics.Script.ReportPartitions | roles/telegrafLinux/files/burrow_metrics.py:48-50 | the partition loop changes the state as `Partitions` says |
| BurrowMetrics.Script.ReportCluster | roles/telegrafLinux/files/burrow_metrics.py:39-52 | one cluster: its group list, then every group |
| BurrowMetrics.Script.ReportConsumers | roles/telegrafLinux/files/burrow_metrics.py:43-52 | the group loop changes the state as `Consumers` says |
| BurrowMetrics.RunScript | roles/telegrafLinux/files/burrow_metrics.py:38-55 | the whole script ends as `Output` says: the printed message, or the first exception |

## Left out

- Subprocesses, urllib2, requests, json parsing and bigsuds are not modelled. Their results are parameters (`run`, `fetch`, `Server`, `Device`, the `Gtm` device). The scripts' `run_command` error printing and its `None` result after an exception are left out too. With `execute` true, the queue scraper's `run_command` never returns `()`.
- Python 2 dict iteration order is unspecified. The model allows any order; it does not pick CPython's hash order.
- QueueMetrics.Field: the regular expressions are modelled as "the text between the first `KEY(` and the next `)`". Three differences are not modelled. First, `.` does not match a newline, so in the script a whole match must lie on one line. Second, the QUEUE, CURDEPTH and MONQ patterns (queue_metrics.py:50-55) also need a second parenthesised group after the field on the same line; for example, the chunk "QUEUE(X)\nCURDEPTH(0) LPUTTIME( )\nMONQ(OFF) MSGAGE( )" is skipped by the script but parsed by `ParseChunk`. Third, the greedy `.*` picks the last `KEY(` on the line that still allows a match and captures up to the last `)` that does, where the model stops at the first `)`. (`re.M` has no effect, since the patterns have no `^` or `$`.)
- Strings.Upper and Strings.Lower: ASCII only; Unicode case mapping is not modelled.
- Py.Text: only the texts the model relies on are fixed; the other exception messages are abstract.
- Py.At, Py.Get and Py.Items: a wrong-shaped value gives a TypeError whose text is not Python's exact message. Iterating a dict or a string (which Python allows, visiting its keys or characters) is modelled as that TypeError. This holds for Burrow's clusters, consumers and partitions, for the Zenoss `devices` and `data` lists, and for the facts module's pool member reply walked by `Flatten` and `GetVirtualServer`.
- Burrow lags are integers. Float lags, and float division in the average, are not modelled; nor is the formatting of non-ASCII text.
- Burrow message: once an exception escapes, the message is never printed, so the model does not keep the partial message.
- `Show` prints list and dict values as empty text in URLs and lines.
- Ansible's `fail_json` and `exit_json` are modelled as an outcome value, not as SystemExit. Argument validation by AnsibleModule is not modelled.
- Zenoss.RunModule: its own contract states the failures for missing write parameters; the full write cases are stated by WriteProductionStateBranch and WriteComponentMonitorBranch.
- Zenoss: the JSON framing (`type: 'rpc'`, the one-element list), the HTTP headers, `ssl_verify` and the session object are not modelled. `add_device` and `remove_device` are modelled but `main` does not call them.
- `bigip_api`, `get_pools`, `get_all_pool_status`, `get_pool_statistics` and `add_pool_member` of the pool module are not called by its `main` and are not modelled apart from the device calls `main` makes.
- The `Gtm` device's `faults` map injects a failure per call (a call kind and its pool); a fault answers that call the same way every time it is made. Timing and partial failures inside one iControl call are not modelled.
- The GTM facts module's statistics and status replies are opaque values; their structure is not modelled.
- GtmFacts.Swallowed: the getters that catch an exception print it (`print e`) before returning `None`; the printed text is not modelled, only the `None`.
- Powershell.ToPowershell: keys and values arrive already rendered by `str()` (a `map<string, string>`), so three behaviours are not modelled. The `except TypeError: return False` path (powershell.py:15-16) cannot be reached, which is why a dict never gives False here. Two keys whose `str()` coincide, such as `1` and `'1'`, would be written as two entries, which such a map cannot hold. A unicode key or value outside ASCII makes `format` raise UnicodeEncodeError, which escapes the filter because only TypeError is caught.
- Strings.ParseInt: a literal too large for a C long is read by `long()`, which also accepts a trailing `L`; that is not modelled.
- QueueMetrics.ScrapeAll: `run` answers each command line the same way on every pass, so the process check gives the same answer on every pass, and the script stops at the first pass or not at all. A runmqsc process that starts or ends between passes is not modelled.
