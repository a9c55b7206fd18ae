# Nmap report and scan-log model

This project models two pieces of a terminal front end for nmap.

- **`NmapXMLParser`** (`core/nmap_parsers.py`) walks the element tree of an nmap XML result.
  It builds one record per `<host>`: status, the first address, non-empty hostnames, the ports
  with four state counters, the last `<extraports>` summary, OS matches and traceroute hops.
  It then renders those records as a text report: a header, one block per host, and a scan
  summary.
- **`Logs`** (`core/logs.py`) streams a subprocess's output into a log pane.
  `stream_process` writes every line stripped, followed by a closing line with the exit code.
  `scripts_stream_process` does the same. It also collects script names: a name is the line
  just before a line that starts with `Categories:`.

The modules follow the program:

- `ElementTree` is the abstract XML tree: a tag, an attribute map and children, with `find`,
  `findall` and `get`.
- `NmapHosts` holds the host and port records. Functions state what `_parse_host` and
  `_parse_port` return, and methods with the source's loops are proved equal to them.
- `NmapReport` renders the report. Functions state each block of lines. The methods of
  `_format_host` are proved equal to those functions.
- `NmapParser` holds the `NmapXMLParser` class, which keeps `hosts` as a field that
  `ParseXml` appends to.
- `Logs` holds the `Logs` class, whose `sink` field holds the lines written to the pane.
- `Text` models the Python string builtins the code relies on: `str.strip` with Python's
  whitespace set, `str.startswith`, `int()` on text, `str()` of an integer, format padding
  (`{x:8}`), `upper` and `join`.
- `Sorting` models `sorted(..., key=...)` as a stable insertion sort.
- `Seqs` and `Wrappers` are generic sequence helpers and `Option`/`Result`.

`int()` raising `ValueError` is modelled as the error `InvalidIntLiteral(text)`. It is carried
by a `Result` through parsing (the `<extraports>` counts) and through rendering (the sort keys
`int(portid)`).

Behaviour of the code worth noting, which the model keeps:

- The name list can reach 26 entries, not 25, because the guard `len(script_names) <= 25`
  is checked before the append.
- Stream lines are stripped before they are written to the pane.
- Port columns are padded to their widths and never cut, so a long value pushes the
  following columns right.
- The closing line of `scripts_stream_process` starts with a newline; that of
  `stream_process` does not.
- The comment above the classifier speaks of a name line with no spaces, but the code does
  not check this: any non-empty previous line is taken.

## Model

| member | source | states |
|---|---|---|
| ElementTree.FindAll | core/nmap_parsers.py:17 | `findall(tag)` returns exactly the children with that tag |
| ElementTree.FindAllConcat | core/nmap_parsers.py:17 | `findall` keeps document order and duplicates: for children `a + b` it returns the result for `a` followed by the result for `b` |
| ElementTree.FindAllSingle | core/nmap_parsers.py:17 | a single child is returned exactly when its tag matches |
| ElementTree.FindIsFirstOfFindAll | core/nmap_parsers.py:26 | `find(tag)` is the first element `findall(tag)` returns, or none when there is none |
| Text.StripSpec | core/logs.py:20 | `strip()` returns a contiguous slice of the line; everything cut off on either side is whitespace, and the result neither starts nor ends with whitespace |
| Text.StripIdempotent | core/logs.py:38 | stripping a stripped line changes nothing |
| Text.ParseIntToString | core/nmap_parsers.py:83 | `int()` reads back every integer that `str()` writes |
| Text.ParseCleanInt | core/nmap_parsers.py:91 | `int()` on text whose ends are not whitespace to `int()`: a run of digits is its value, a minus sign negates it, and text that starts with anything other than a digit or a sign is rejected |
| Text.IntSpaceIsNotStripSpace | core/nmap_parsers.py:83 | `int()` skips a blank and a non-breaking space around a count, but rejects a trailing U+001C, which `strip()` would remove |
| Text.UnknownIsNotInteger | core/nmap_parsers.py:124 | the default port id `'unknown'` is not an integer literal, so sorting a bucket that holds it raises |
| Text.PadRight | core/nmap_parsers.py:289 | `{s:w}` keeps `s` in front and pads with spaces up to width `w`; a longer `s` stays whole |
| Text.Upper | core/nmap_parsers.py:213 | `upper()` keeps the length and upper-cases each character |
| NmapHosts.Bump | core/nmap_parsers.py:68-77 | counting one port raises the counter of its bucket by one and leaves the other three alone |
| NmapHosts.BumpCases | core/nmap_parsers.py:69-77 | `'open'`, `'closed'` and `'filtered'` each raise their own counter; any other state, `'unknown'` included, raises `other` |
| NmapHosts.StatsOf | core/nmap_parsers.py:55-77 | the four counters add up to the number of ports |
| NmapHosts.PortsIn | core/nmap_parsers.py:228 | a bucket's list holds exactly the ports whose state falls in that bucket |
| NmapHosts.PortsInConcat | core/nmap_parsers.py:228 | a bucket keeps the ports' order and duplicates: the bucket of `a + c` is that of `a` followed by that of `c` |
| NmapHosts.PortsInSingle | core/nmap_parsers.py:228 | one port is in a bucket exactly when its state falls in that bucket |
| NmapHosts.StatsCountBuckets | core/nmap_parsers.py:62-77 | each counter equals the number of ports in its bucket |
| NmapHosts.PortDefaults | core/nmap_parsers.py:123-158 | a missing protocol reads `'tcp'`, a missing port id `'unknown'`, a missing `<state>` `'unknown'` with reason `''`, a missing `<service>` `'unknown'` with conf `'0'` and empty product, version, extra information and method; there is one script record per `<script>` |
| NmapHosts.PortAttributeDefaults | core/nmap_parsers.py:127-158 | a present `<state>` without `state` gives `'unknown'`, so the port counts as `other`, and without `reason` gives `''`; a present `<service>` without `name` gives `'unknown'`, without `conf` `'0'`, and without product, version, extra information or method `''`; each script record is the `<script>`'s `id` and `output`, `''` when missing |
| NmapHosts.HostnamesOf | core/nmap_parsers.py:40-50 | the kept hostnames are at most as many as the elements, and none has an empty name |
| NmapHosts.HostnamesConcat | core/nmap_parsers.py:43-50 | the hostnames of two runs of elements are those of the first then those of the second, so document order and duplicates are kept |
| NmapHosts.HostnameSingle | core/nmap_parsers.py:44-50 | one `<hostname>` is kept exactly when its name is non-empty |
| NmapHosts.CountOf | core/nmap_parsers.py:83 | reading a count fails exactly when the attribute is present and is not an integer literal; a missing count reads 0, and a present one reads as the integer `int()` gives |
| NmapHosts.ReasonsOfSpec | core/nmap_parsers.py:86-92 | the reasons list succeeds exactly when every `<extrareasons>` does, and then holds one record per element, in order |
| NmapHosts.LastExtraPortsSpec | core/nmap_parsers.py:80-93 | the `<extraports>` loop succeeds exactly when every summary can be built, and then keeps only the last one, or none |
| NmapHosts.ExtraPortsFails | core/nmap_parsers.py:81-92 | a summary fails exactly when its own count or one of its reasons' counts is not an integer |
| NmapHosts.HostFailsOnlyOnCounts | core/nmap_parsers.py:21-117 | parsing a host raises exactly when some `<extraports>` count or reason count is not an integer; nothing else raises |
| NmapHosts.HostDefaults | core/nmap_parsers.py:26-37 | a missing `<status>` gives state `'unknown'` and reason `''`; a missing `<address>` gives `'N/A'` and `'ipv4'`; missing hostnames, OS and trace give empty lists |
| NmapHosts.HostAttributeDefaults | core/nmap_parsers.py:26-37 | a present `<status>` without `state` gives `'unknown'` and without `reason` gives `''`; a present `<address>` without `addr` gives `'N/A'` and without `addrtype` gives `'ipv4'` |
| NmapHosts.HostWithoutPorts | core/nmap_parsers.py:53-62 | a host without `<ports>` parses, with no ports, all four counters at 0 and no extra-ports summary |
| NmapHosts.HostStats | core/nmap_parsers.py:62-77 | a parsed host's counters match its own port list bucket by bucket and add up to its number of ports |
| NmapHosts.ParseHostsSpec | core/nmap_parsers.py:15-19 | hosts are appended in document order, one per `<host>`, until the first one that raises; without an error every host is appended |
| NmapHosts.ParsePort | core/nmap_parsers.py:119-160 | the field-by-field port method returns the record `PortOf` states |
| NmapHosts.ParseExtraPorts | core/nmap_parsers.py:81-92 | the method builds the summary `ExtraPortsOf` states, or raises its error |
| NmapHosts.ParseReasons | core/nmap_parsers.py:86-92 | the reasons loop returns `ReasonsOf`, stopping at the first count that raises |
| NmapHosts.ParseHostnames | core/nmap_parsers.py:41-50 | the hostnames loop returns `HostnamesOf` of the `<hostname>` children |
| NmapHosts.ParsePortList | core/nmap_parsers.py:64-77 | the ports loop returns every port in document order, with counters equal to `StatsOf` of those ports |
| NmapHosts.ParseExtraPortsList | core/nmap_parsers.py:80-93 | the `<extraports>` loop returns `LastExtraPorts` |
| NmapHosts.ParseOs | core/nmap_parsers.py:96-103 | one OS match per `<osmatch>`, in order, with defaults `'Unknown'` and `'0'` |
| NmapHosts.ParseTrace | core/nmap_parsers.py:106-115 | one hop per `<hop>`, in order, with `ipaddr` read as the hop's address |
| NmapHosts.ParseHost | core/nmap_parsers.py:21-117 | the host method returns `HostOf`: the record, or the error of the first count that raises |
| NmapHosts.ParseHostList | core/nmap_parsers.py:17-19 | the hosts loop returns the hosts `ParseHosts` states and the error that stopped it |
| Sorting.SortSpec | core/nmap_parsers.py:231 | `sorted` returns a permutation of its input, of the same length, ascending by key, in which elements with equal keys keep their order |
| Sorting.FirstUnkeyed | core/nmap_parsers.py:231 | the key that raises is that of the first element without an integer key; every earlier element has one |
| NmapReport.FormatPortStart | core/nmap_parsers.py:289 | a port line starts with two spaces, the port id and a slash |
| NmapReport.FormatPortLength | core/nmap_parsers.py:289-299 | a port line's length is the padded columns plus ` product` when product or version is non-empty, plus ` version` when version is non-empty, plus ` (extrainfo)` when that is non-empty |
| NmapReport.FormatPortTail | core/nmap_parsers.py:297-299 | a line with extra information ends in ` (extrainfo)`; a port with no product, version or extra information shows its columns alone |
| NmapReport.FormatPortColumns | core/nmap_parsers.py:289 | when protocol, state and service fit widths 3, 8 and 15, they sit at fixed offsets after the port id and the optional parts follow at one fixed offset |
| NmapReport.SortByPortIdSpec | core/nmap_parsers.py:231 | sorting by `int(portid)` succeeds exactly when every port id is an integer; the result is an ascending stable permutation; the error names the first id `int()` rejects |
| NmapReport.OpenSectionSpec | core/nmap_parsers.py:228-232 | no open ports give no lines; otherwise a title with the count and every open port once, in sorted order, or the error of the first bad port id |
| NmapReport.FilteredSectionSpec | core/nmap_parsers.py:235-244 | a title with the count, the first `min(10, n)` ports of the sorted order, and the `... and n-10 more filtered ports` line exactly when `n > 10` |
| NmapReport.ClosedSectionSpec | core/nmap_parsers.py:247-253 | with `0 < n <= 10`, a title and one sorted line per closed port, or the sort's error; with `n > 10`, only the count line, which never fails |
| NmapReport.OsSectionSpec | core/nmap_parsers.py:264-267 | no OS match gives no lines; otherwise the title, then at most three matches, the first ones, in stored order |
| NmapReport.ExtraSectionSpec | core/nmap_parsers.py:256-261 | no summary gives no lines; a summary gives a line with its count and state, then one line per reason with its count, in stored order |
| NmapReport.TraceSectionSpec | core/nmap_parsers.py:270-275 | every hop is shown, in stored order, after the section title |
| NmapReport.HostLinesSucceeds | core/nmap_parsers.py:206-277 | a host renders exactly when every open and filtered port id is an integer, and every closed one too unless there are more than ten |
| NmapReport.HostHeaderShape | core/nmap_parsers.py:210-225 | a host block starts with its number, a rule, the address, the status, the hostnames title and one line per hostname when there are any, then the port counters |
| NmapReport.HostLinesStart | core/nmap_parsers.py:208-225 | a rendered host begins with its header lines |
| NmapReport.FormatOpen | core/nmap_parsers.py:228-232 | the open-ports block returns `OpenSection` |
| NmapReport.FormatFiltered | core/nmap_parsers.py:235-244 | the filtered-ports block returns `FilteredSection` |
| NmapReport.FormatClosed | core/nmap_parsers.py:247-253 | the closed-ports block returns `ClosedSection` |
| NmapReport.FormatHostHeader | core/nmap_parsers.py:210-225 | the header lines are `HostHeader` |
| NmapReport.FormatExtra | core/nmap_parsers.py:256-261 | the extra-ports block is its title line then one line per reason, or nothing without a summary |
| NmapReport.FormatOs | core/nmap_parsers.py:264-267 | the OS block returns `OsSection` |
| NmapReport.FormatTrace | core/nmap_parsers.py:270-275 | the traceroute block returns `TraceSection` |
| NmapReport.FormatHostDetails | core/nmap_parsers.py:255-275 | the extra-ports, OS and traceroute blocks, in that order |
| NmapReport.AssembleLines | core/nmap_parsers.py:227-253 | the port blocks are appended in order, and the first sort that raises ends the host |
| NmapReport.FormatHost | core/nmap_parsers.py:206-277 | `_format_host` returns `HostLines` |
| NmapReport.UpHosts | core/nmap_parsers.py:316 | the up hosts are exactly the hosts whose state is `'up'` |
| NmapReport.UpHostsConcat | core/nmap_parsers.py:316 | the up hosts keep the hosts' order and duplicates: those of `a + c` are those of `a` followed by those of `c` |
| NmapReport.UpHostsSingle | core/nmap_parsers.py:316 | one host counts as up exactly when its state is `'up'` |
| NmapReport.HostsUpCounts | core/nmap_parsers.py:316-317 | `Hosts Up` counts exactly the hosts whose state is `'up'`, and is at most the number of hosts |
| NmapReport.TotalsCountPorts | core/nmap_parsers.py:311-313 | for parsed hosts, each total is the number of ports in that bucket over all hosts |
| NmapReport.TotalsAdd | core/nmap_parsers.py:311-313 | the totals add up over a split of the host list |
| NmapReport.HostsLinesSpec | core/nmap_parsers.py:196-197 | the hosts render exactly when every host renders under its own 1-based number; a failure is the error of the first host that does not |
| NmapReport.ReportWithoutHosts | core/nmap_parsers.py:172-204 | a scan with no hosts renders 22 lines, with zero hosts, zero hosts up and zero open ports |
| NmapParser.NmapXMLParser.constructor | core/nmap_parsers.py:8-12 | the parser keeps the file name and the tree, and holds no hosts yet |
| NmapParser.NmapXMLParser.ParseXml | core/nmap_parsers.py:15-19 | `hosts` grows by the records of the `<host>` children up to the first that raises, and that error is returned |
| NmapParser.NmapXMLParser.FormatHosts | core/nmap_parsers.py:196-197 | the hosts loop returns `HostsLines` of the stored hosts |
| NmapParser.NmapXMLParser.BuildReport | core/nmap_parsers.py:172-204 | the report is the header, the host blocks, the summary and a closing rule joined with newlines, or the error a host raises |
| NmapParser.Load | core/nmap_parsers.py:8-19 | the parser exists exactly when no host raises; it then holds one record per `<host>`, and otherwise the error is that of the first host that raised |
| Logs.DetectionsSnoc | core/logs.py:45-49 | reading one more line records at most one name: the previous line, when the new line is a header after a non-empty line |
| Logs.DetectionsComplete | core/logs.py:45-47 | every header after a non-empty line records that line |
| Logs.DetectionsSound | core/logs.py:45-47 | every recorded name is the line just before some header, and never comes from the first line |
| Logs.DetectionsPrefix | core/logs.py:37-49 | reading more lines only appends names; earlier ones are never revised |
| Logs.FirstLineNeverRecords | core/logs.py:35-47 | the first line never records a name, because `last_line` starts empty |
| Logs.ScriptNamesBound | core/logs.py:45-47 | the names are all detections while there are fewer than 26, and the first 26 otherwise |
| Logs.ScriptNamesGrow | core/logs.py:45-47 | more output only appends names, and once 26 are held nothing changes |
| Logs.HeaderAfterHeader | core/logs.py:45-49 | `alpha`, `Categories: x`, `Categories: y` gives `alpha` and `Categories: x`, because `last_line` moves on at every line |
| Logs.TwoScripts | core/logs.py:37-49 | `alpha`, `Categories: x`, `beta`, `Categories: y` gives `alpha` and `beta`, in input order |
| Logs.ClassifyStep | core/logs.py:45-49 | one loop turn: the guarded append keeps the names equal to the first 26 detections, and `last_line` becomes the line just read |
| Logs.Logs.constructor | core/logs.py:5 | a new pane holds no lines |
| Logs.Logs.StreamProcess | core/logs.py:10-25 | every output line is written stripped, in arrival order, then exactly one `Process finished with code rc` line |
| Logs.Logs.ScriptsStreamProcess | core/logs.py:27-55 | every line is written stripped, in arrival order, then one closing line starting with a newline; the names returned are `ScriptNames` of the output |

## Left out

- Parsing XML text (`ET.parse`, `core/nmap_parsers.py:10`) is a library call. The model starts
  from the element tree, and well-formedness errors are not modelled.
- The generation time, `datetime.now()` at `core/nmap_parsers.py:181`, is a parameter of
  `BuildReport`.
- `generate_report` (`core/nmap_parsers.py:162-170`) only writes the text of `_build_report`
  to a file. That file write is I/O, and so is the command-line entry point at
  `core/nmap_parsers.py:327` onwards.
- Subprocess creation, `asyncio.sleep(0)`, `process.wait()` and byte decoding
  (`core/logs.py:13-16`, `20`, `22-24`, `29-32`, `38`, `40`, `51-53`) are asynchronous I/O.
  The process is given as its decoded output lines and its exit code. Three events end the stream early with no closing line, and the model captures none of
  them: output that is not valid UTF-8 makes `decode()` raise `UnicodeDecodeError`
  (`core/logs.py:20`, `38`); a line longer than the stream reader's 64 KiB limit makes the
  line iteration raise `ValueError` (`core/logs.py:19`, `37`); and the coroutine can be cancelled
  at any `await` (`core/logs.py:22`, `24`, `40`, `51`, `53`).
- Writing to the Textual `RichLog` widget is modelled as appending to the `sink` sequence.
  Its rendering, highlighting (`on_mount`) and scrolling are not modelled.
- Text.ParseCleanInt: `int()` also accepts non-ASCII decimal digits (for example
  Arabic-Indic digits). The model accepts ASCII digits only, because Unicode digit tables are
  not modelled. Since Python 3.11 (and the 3.10.7 and 3.9.14 updates), `int()` also raises
  `ValueError` on a literal of more than 4300 digits; the model reads such a count or port id, because
  that limit depends on the Python version and on `sys.set_int_max_str_digits`. The model
  does follow `int()`'s own whitespace set (`Text.IsIntSpace`, which unlike `strip()` does
  not skip U+001C to U+001F), its sign and its underscore rules.
- Text.Upper: only ASCII letters are upper-cased. Python's full Unicode case mapping,
  including mappings that change a string's length such as `ß`, is not modelled.
- NmapParser.NmapXMLParser.ParseXml: the model appends the parsed records to `hosts` in one
  step after its loop, not one append per iteration. The final state is the same. So is the
  state when a host raises, because the hosts before it are kept.
- An `Element` carries no text content or tail, because the code reads only tags, attributes
  and children.
