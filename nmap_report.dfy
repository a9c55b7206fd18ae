/** The text report `NmapXMLParser` renders from its parsed hosts: one function per block of
    lines, the stable sort behind `sorted(ports, key=lambda x: int(x['portid']))`, and the
    method that renders one host with the source's loops. */
module NmapReport {
  import opened Wrappers
  import opened Seqs
  import opened Text
  import opened ElementTree
  import opened NmapHosts
  import opened Sorting

  /** `"=" * 80` and `"-" * 80`. */
  const Rule := Repeat('=', 80)
  const Dashes := Repeat('-', 80)

  // ---------------------------------------------------------------- _format_port

  /** `f"  {portid}/{protocol:3} {state:8} {service:15}"`. */
  function PortColumns(p: Port): string {
    "  " + p.portid + "/" + PadRight(p.protocol, 3) + " " + PadRight(p.state, 8) + " "
    + PadRight(p.service, 15)
  }

  /** The product, then the version, when either is known. */
  function VersionText(p: Port): string {
    if p.product != "" || p.version != "" then
      " " + p.product + (if p.version != "" then " " + p.version else "")
    else ""
  }

  function ExtraInfoText(p: Port): string {
    if p.extrainfo != "" then " (" + p.extrainfo + ")" else ""
  }

  /** One line of a port listing. */
  function FormatPort(p: Port): string {
    PortColumns(p) + VersionText(p) + ExtraInfoText(p)
  }

  function Width(s: string, w: nat): nat {
    if |s| < w then w else |s|
  }

  /** The line starts with the port id and a slash, and keeps the padded columns whole. */
  lemma FormatPortStart(p: Port)
    ensures StartsWith(FormatPort(p), "  " + p.portid + "/")
    ensures StartsWith(FormatPort(p), PortColumns(p))
  {
    var lead := "  " + p.portid + "/";
    var c1 := lead + PadRight(p.protocol, 3);
    var c2 := c1 + " ";
    var c3 := c2 + PadRight(p.state, 8);
    var c4 := c3 + " ";
    var cols := c4 + PadRight(p.service, 15);
    var tail := VersionText(p) + ExtraInfoText(p);
    assert StartsWith(lead, lead);
    StartsWithAppend(lead, lead, PadRight(p.protocol, 3));
    StartsWithAppend(c1, lead, " ");
    StartsWithAppend(c2, lead, PadRight(p.state, 8));
    StartsWithAppend(c3, lead, " ");
    StartsWithAppend(c4, lead, PadRight(p.service, 15));
    assert cols == PortColumns(p);
    assert StartsWith(cols, cols);
    assert FormatPort(p) == cols + tail;
    StartsWithAppend(cols, lead, tail);
    StartsWithAppend(cols, cols, tail);
  }

  /** Columns are padded to their widths and never cut, so the line is exactly as long as
      its padded columns and the optional parts it shows; the product is shown when the
      product or the version is known, the version when it is, extra information when it is. */
  lemma FormatPortLength(p: Port)
    ensures |FormatPort(p)| ==
      3 + |p.portid| + Width(p.protocol, 3) + 1 + Width(p.state, 8) + 1 + Width(p.service, 15)
      + (if p.product != "" || p.version != "" then 1 + |p.product| else 0)
      + (if p.version != "" then 1 + |p.version| else 0)
      + (if p.extrainfo != "" then 3 + |p.extrainfo| else 0)
  {
    assert |PortColumns(p)| ==
      3 + |p.portid| + Width(p.protocol, 3) + 1 + Width(p.state, 8) + 1 + Width(p.service, 15);
  }

  /** Extra information closes the line in parentheses; a port with no product, version or
      extra information shows its columns alone. */
  lemma FormatPortTail(p: Port)
    ensures p.extrainfo != "" ==>
      var r := FormatPort(p); r[|r| - |p.extrainfo| - 3..] == " (" + p.extrainfo + ")"
    ensures p.product == "" && p.version == "" && p.extrainfo == "" ==> FormatPort(p) == PortColumns(p)
  {
    if p.extrainfo != "" {
      var r := FormatPort(p);
      var t := " (" + p.extrainfo + ")";
      assert r == (PortColumns(p) + VersionText(p)) + t;
      assert r[|r| - |t|..] == t;
    }
  }

  /** When the protocol, state and service fit their widths, they sit in fixed columns after
      the port id and the optional parts start at a fixed offset. */
  lemma FormatPortColumns(p: Port)
    requires |p.protocol| <= 3 && |p.state| <= 8 && |p.service| <= 15
    ensures var r := FormatPort(p); var id := |p.portid|;
      && r[id + 3..id + 3 + |p.protocol|] == p.protocol
      && r[id + 7..id + 7 + |p.state|] == p.state
      && r[id + 16..id + 16 + |p.service|] == p.service
      && |PortColumns(p)| == id + 31
      && r[id + 31..] == VersionText(p) + ExtraInfoText(p)
  {
    var r := FormatPort(p);
    var id := |p.portid|;
    var pre := "  " + p.portid + "/";
    var a := PadRight(p.protocol, 3);
    var b := PadRight(p.state, 8);
    var c := PadRight(p.service, 15);
    var tail := VersionText(p) + ExtraInfoText(p);
    assert |pre| == id + 3;
    assert r == pre + a + " " + b + " " + c + tail;
    assert r[id + 3..id + 6] == a;
    assert r[id + 7..id + 15] == b;
    assert r[id + 16..id + 31] == c;
    assert r[id + 31..] == tail;
  }

  // ---------------------------------------------------------------- sorting by port number

  /** The sort key `int(port['portid'])`, when the port id is an integer literal. */
  function PortNumber(p: Port): Option<int> {
    ParseInt(p.portid)
  }

  /** Every port has a sort key. */
  predicate Numbered(ps: seq<Port>) {
    AllKeyed(PortNumber, ps)
  }

  /** The port's key, for a port that has one. */
  function KeyOf(p: Port): int {
    match PortNumber(p)
    case Some(n) => n
    case None => 0
  }

  /** `sorted(ps, key=lambda x: int(x['portid']))`: the key of every port is computed
      first, in order, so the first id that is not an integer raises. */
  function SortByPortId(ps: seq<Port>): Result<seq<Port>, Error> {
    if Numbered(ps) then Success(Sort(KeyOf, ps))
    else Failure(InvalidIntLiteral(ps[FirstUnkeyed(PortNumber, ps)].portid))
  }

  /** Sorting succeeds exactly when every port id is an integer; its result is an ascending
      permutation of the ports by `int(portid)` in which ports with equal numbers keep their
      order; its error names the first id `int()` rejects. */
  lemma SortByPortIdSpec(ps: seq<Port>)
    ensures SortByPortId(ps).Success? <==> Numbered(ps)
    ensures SortByPortId(ps).Success? ==>
      var s := SortByPortId(ps).value;
      && multiset(s) == multiset(ps) && |s| == |ps|
      && (forall i :: 0 <= i < |s| ==> PortNumber(s[i]) == Some(KeyOf(s[i])))
      && SortedBy(KeyOf, s)
      && (forall k :: WithKey(KeyOf, s, k) == WithKey(KeyOf, ps, k))
    ensures SortByPortId(ps).Failure? ==>
      exists i :: 0 <= i < |ps| && PortNumber(ps[i]).None? && Numbered(ps[..i])
                  && SortByPortId(ps).error == InvalidIntLiteral(ps[i].portid)
  {
    if Numbered(ps) {
      var s := Sort(KeyOf, ps);
      SortSpec(KeyOf, ps);
      forall i | 0 <= i < |s| ensures PortNumber(s[i]) == Some(KeyOf(s[i])) {
        assert s[i] in multiset(ps);
        var j :| 0 <= j < |ps| && ps[j] == s[i];
        assert PortNumber(ps[j]).Some?;
      }
    } else {
      var i := FirstUnkeyed(PortNumber, ps);
      assert PortNumber(ps[i]).None? && Numbered(ps[..i]);
    }
  }

  // ---------------------------------------------------------------- _format_host

  function HostnameLine(h: Hostname): string {
    "  " + h.name + " (" + h.kind + ")"
  }

  function ReasonLine(r: ExtraReason): string {
    "  " + r.reason + ": " + IntToString(r.count)
  }

  function OsLine(m: OsMatch): string {
    "  " + m.name + " (" + m.accuracy + "%)"
  }

  function HopLine(h: Hop): string {
    "  TTL " + h.ttl + ": " + h.host + " (" + h.ip + ") - " + h.time + "ms"
  }

  function StatsLine(st: PortStats): string {
    "  Open: " + NatToString(st.open) + ", Closed: " + NatToString(st.closed)
    + ", Filtered: " + NatToString(st.filtered) + ", Other: " + NatToString(st.other)
  }

  function HostnameSection(names: seq<Hostname>): seq<string> {
    if names == [] then [] else ["Hostnames:"] + Map(HostnameLine, names)
  }

  function TitleLine(num: nat): string {
    "\nHOST " + NatToString(num)
  }

  function AddressLine(h: Host): string {
    "Address: " + h.addr + " (" + h.addrtype + ")"
  }

  function StatusLine(h: Host): string {
    "Status: " + Upper(h.state) + " (" + h.reason + ")"
  }

  /** The host's number, address, status and names, then its port counters. */
  function HostHeader(h: Host, num: nat): seq<string> {
    [TitleLine(num), Dashes, AddressLine(h), StatusLine(h)]
    + HostnameSection(h.hostnames)
    + ["\nPort Summary:", StatsLine(h.portStats)]
  }

  /** Every open port, by port number. */
  function OpenSection(ps: seq<Port>): Result<seq<string>, Error> {
    if ps == [] then Success([])
    else
      var sorted :- SortByPortId(ps);
      Success(["\nOPEN PORTS (" + NatToString(|ps|) + "):"] + Map(FormatPort, sorted))
  }

  /** The ten lowest-numbered filtered ports, and how many more there are. */
  function FilteredSection(ps: seq<Port>): Result<seq<string>, Error> {
    if ps == [] then Success([])
    else
      var sorted :- SortByPortId(ps);
      Success(["\nFILTERED PORTS (" + NatToString(|ps|) + "):"] + Map(FormatPort, Take(sorted, 10))
        + (if |ps| > 10 then ["  ... and " + NatToString(|ps| - 10) + " more filtered ports"] else []))
  }

  /** Up to ten closed ports are listed by number; more are only counted, and never sorted. */
  function ClosedSection(ps: seq<Port>): Result<seq<string>, Error> {
    if ps == [] then Success([])
    else if |ps| <= 10 then
      var sorted :- SortByPortId(ps);
      Success(["\nCLOSED PORTS (" + NatToString(|ps|) + "):"] + Map(FormatPort, sorted))
    else Success(["\nCLOSED PORTS: " + NatToString(|ps|) + " ports closed"])
  }

  function ExtraLine(e: ExtraPorts): string {
    "\nEXTRA PORTS: " + IntToString(e.count) + " ports " + e.state
  }

  function ExtraSection(x: Option<ExtraPorts>): seq<string> {
    match x
    case None => []
    case Some(e) => [ExtraLine(e)] + Map(ReasonLine, e.reasons)
  }

  /** The first three OS matches. */
  function OsSection(os: seq<OsMatch>): seq<string> {
    if os == [] then [] else ["\nOS DETECTION:"] + Map(OsLine, Take(os, 3))
  }

  function TraceSection(trace: seq<Hop>): seq<string> {
    if trace == [] then [] else ["\nTRACEROUTE:"] + Map(HopLine, trace)
  }

  /** The extra-ports, OS and traceroute blocks. */
  function HostDetails(h: Host): seq<string> {
    ExtraSection(h.extraports) + OsSection(h.os) + TraceSection(h.trace)
  }

  /** The header, then each port block in turn unless one of them raised, then the details. */
  function Assemble(header: seq<string>, open: Result<seq<string>, Error>, filtered: Result<seq<string>, Error>,
                    closed: Result<seq<string>, Error>, details: seq<string>): Result<seq<string>, Error>
  {
    var o :- open;
    var f :- filtered;
    var c :- closed;
    Success(header + o + f + c + details)
  }

  /** What `_format_host` returns for the host numbered `num`, or the error a sort raises. */
  function HostLines(h: Host, num: nat): Result<seq<string>, Error> {
    Assemble(HostHeader(h, num), OpenSection(PortsIn(h.ports, Open)), FilteredSection(PortsIn(h.ports, Filtered)),
             ClosedSection(PortsIn(h.ports, Closed)), HostDetails(h))
  }

  /** The open ports section lists every open port once, in ascending stable port order, or
      fails on the first port id that is not an integer. */
  lemma OpenSectionSpec(ps: seq<Port>)
    ensures ps == [] ==> OpenSection(ps) == Success([])
    ensures ps != [] ==> (OpenSection(ps).Success? <==> Numbered(ps))
    ensures ps != [] && Numbered(ps) ==>
      var r := OpenSection(ps).value; var s := Sort(KeyOf, ps);
      && |r| == |ps| + 1 && r[0] == "\nOPEN PORTS (" + NatToString(|ps|) + "):"
      && (forall i :: 0 <= i < |ps| ==> r[i + 1] == FormatPort(s[i]))
      && multiset(s) == multiset(ps) && SortedBy(KeyOf, s)
    ensures !Numbered(ps) ==> OpenSection(ps) == Failure(InvalidIntLiteral(ps[FirstUnkeyed(PortNumber, ps)].portid))
  {
    if ps != [] && Numbered(ps) {
      SortSpec(KeyOf, ps);
      Listing("\nOPEN PORTS (" + NatToString(|ps|) + "):", FormatPort, Sort(KeyOf, ps));
    }
  }

  /** The filtered ports section lists the ten lowest-numbered filtered ports, and states how
      many more there are exactly when there are more than ten. */
  lemma FilteredSectionSpec(ps: seq<Port>)
    ensures ps == [] ==> FilteredSection(ps) == Success([])
    ensures ps != [] ==> (FilteredSection(ps).Success? <==> Numbered(ps))
    ensures ps != [] && Numbered(ps) ==>
      var r := FilteredSection(ps).value; var s := Sort(KeyOf, ps);
      var shown := if |ps| < 10 then |ps| else 10;
      && |r| == 1 + shown + (if |ps| > 10 then 1 else 0)
      && r[0] == "\nFILTERED PORTS (" + NatToString(|ps|) + "):"
      && (forall i :: 0 <= i < shown ==> r[i + 1] == FormatPort(s[i]))
      && (|ps| > 10 ==> r[|r| - 1] == "  ... and " + NatToString(|ps| - 10) + " more filtered ports")
      && multiset(s) == multiset(ps) && SortedBy(KeyOf, s)
    ensures !Numbered(ps) ==> FilteredSection(ps) == Failure(InvalidIntLiteral(ps[FirstUnkeyed(PortNumber, ps)].portid))
  {
    if ps != [] && Numbered(ps) {
      SortSpec(KeyOf, ps);
      FilteredListing(|ps|, Sort(KeyOf, ps));
    }
  }

  /** The lines of the filtered section for `n` ports sorted as `s`. */
  lemma FilteredListing(n: nat, s: seq<Port>)
    requires |s| == n
    ensures var shown := if n < 10 then n else 10;
      var r := ["\nFILTERED PORTS (" + NatToString(n) + "):"] + Map(FormatPort, Take(s, 10))
        + (if n > 10 then ["  ... and " + NatToString(n - 10) + " more filtered ports"] else []);
      && |r| == 1 + shown + (if n > 10 then 1 else 0)
      && (forall i :: 0 <= i < shown ==> r[i + 1] == FormatPort(s[i]))
      && (n > 10 ==> r[|r| - 1] == "  ... and " + NatToString(n - 10) + " more filtered ports")
  {
    var more := if n > 10 then ["  ... and " + NatToString(n - 10) + " more filtered ports"] else [];
    ListingThen("\nFILTERED PORTS (" + NatToString(n) + "):", FormatPort, Take(s, 10), more);
  }

  /** Up to ten closed ports are listed by number; more than ten are only counted, so their
      ids are never converted and cannot fail. */
  lemma ClosedSectionSpec(ps: seq<Port>)
    ensures ps == [] ==> ClosedSection(ps) == Success([])
    ensures |ps| > 10 ==> ClosedSection(ps) == Success(["\nCLOSED PORTS: " + NatToString(|ps|) + " ports closed"])
    ensures 0 < |ps| <= 10 ==> (ClosedSection(ps).Success? <==> Numbered(ps))
    ensures 0 < |ps| <= 10 && Numbered(ps) ==>
      var r := ClosedSection(ps).value; var s := Sort(KeyOf, ps);
      && |r| == |ps| + 1 && r[0] == "\nCLOSED PORTS (" + NatToString(|ps|) + "):"
      && (forall i :: 0 <= i < |ps| ==> r[i + 1] == FormatPort(s[i]))
      && multiset(s) == multiset(ps) && SortedBy(KeyOf, s)
  {
    if ps == [] || |ps| > 10 {
    } else if Numbered(ps) {
      var s := Sort(KeyOf, ps);
      var header := "\nCLOSED PORTS (" + NatToString(|ps|) + "):";
      assert ClosedSection(ps) == Success([header] + Map(FormatPort, s));
      SortSpec(KeyOf, ps);
      Listing(header, FormatPort, s);
    } else {
      assert SortByPortId(ps).Failure?;
    }
  }

  /** No OS match gives no lines; otherwise the title and at most three matches, the first
      ones, in stored order. */
  lemma OsSectionSpec(os: seq<OsMatch>)
    ensures os == [] ==> OsSection(os) == []
    ensures |OsSection(os)| <= 4
    ensures os != [] ==>
      var n := if |os| < 3 then |os| else 3;
      && |OsSection(os)| == n + 1 && OsSection(os)[0] == "\nOS DETECTION:"
      && forall i :: 0 <= i < n ==> OsSection(os)[i + 1] == OsLine(os[i])
  {
    if os != [] {
      Listing("\nOS DETECTION:", OsLine, Take(os, 3));
    }
  }

  /** No summary gives no lines; a summary gives its count and state, then one line per
      reason, in stored order. */
  lemma ExtraSectionSpec(x: Option<ExtraPorts>)
    ensures x.None? ==> ExtraSection(x) == []
    ensures x.Some? ==>
      var e := x.value; var r := ExtraSection(x);
      && |r| == |e.reasons| + 1
      && r[0] == "\nEXTRA PORTS: " + IntToString(e.count) + " ports " + e.state
      && forall i :: 0 <= i < |e.reasons| ==> r[i + 1] == "  " + e.reasons[i].reason + ": " + IntToString(e.reasons[i].count)
  {
    if x.Some? {
      Listing(ExtraLine(x.value), ReasonLine, x.value.reasons);
    }
  }

  /** Every hop is shown, in stored order, after the section title. */
  lemma TraceSectionSpec(trace: seq<Hop>)
    ensures trace == [] ==> TraceSection(trace) == []
    ensures trace != [] ==>
      |TraceSection(trace)| == |trace| + 1 && TraceSection(trace)[0] == "\nTRACEROUTE:"
      && forall i :: 0 <= i < |trace| ==> TraceSection(trace)[i + 1] == HopLine(trace[i])
  {
    if trace != [] {
      Listing("\nTRACEROUTE:", HopLine, trace);
    }
  }

  /** A host renders exactly when every open and every filtered port has an integer id, and
      so does every closed port unless there are more than ten of them. */
  lemma HostLinesSucceeds(h: Host, num: nat)
    ensures HostLines(h, num).Success? <==>
      && Numbered(PortsIn(h.ports, Open))
      && Numbered(PortsIn(h.ports, Filtered))
      && (|PortsIn(h.ports, Closed)| > 10 || Numbered(PortsIn(h.ports, Closed)))
  {
    OpenSectionSpec(PortsIn(h.ports, Open));
    FilteredSectionSpec(PortsIn(h.ports, Filtered));
    ClosedSectionSpec(PortsIn(h.ports, Closed));
  }

  /** A host's header: its number, a rule, its address and its upper-cased status, its names
      when it has any, then its own counters. */
  lemma HostHeaderShape(h: Host, num: nat)
    ensures var r := HostHeader(h, num); var k := |h.hostnames|;
      && |r| == 6 + (if k == 0 then 0 else k + 1)
      && r[0] == TitleLine(num) && r[1] == Dashes && r[2] == AddressLine(h) && r[3] == StatusLine(h)
      && (k > 0 ==> r[4] == "Hostnames:" && forall i :: 0 <= i < k ==> r[5 + i] == HostnameLine(h.hostnames[i]))
      && r[|r| - 2] == "\nPort Summary:" && r[|r| - 1] == StatsLine(h.portStats)
  {
    var top := [TitleLine(num), Dashes, AddressLine(h), StatusLine(h)];
    var names := HostnameSection(h.hostnames);
    var bottom := ["\nPort Summary:", StatsLine(h.portStats)];
    ThreeParts(top, names, bottom);
    if h.hostnames != [] {
      Listing("Hostnames:", HostnameLine, h.hostnames);
    }
  }

  /** The assembled lines start with the header. */
  lemma AssembleStart(header: seq<string>, open: Result<seq<string>, Error>, filtered: Result<seq<string>, Error>,
                      closed: Result<seq<string>, Error>, details: seq<string>)
    requires Assemble(header, open, filtered, closed, details).Success?
    ensures StartsWith(Assemble(header, open, filtered, closed, details).value, header)
  {
    var r := Assemble(header, open, filtered, closed, details).value;
    assert r == header + (open.value + filtered.value + closed.value + details);
  }

  /** A rendered host starts with its header. */
  lemma HostLinesStart(h: Host, num: nat)
    ensures HostLines(h, num).Success? ==> StartsWith(HostLines(h, num).value, HostHeader(h, num))
  {
    if HostLines(h, num).Success? {
      AssembleStart(HostHeader(h, num), OpenSection(PortsIn(h.ports, Open)), FilteredSection(PortsIn(h.ports, Filtered)),
                    ClosedSection(PortsIn(h.ports, Closed)), HostDetails(h));
    }
  }

  /** The open-ports block of `_format_host`. */
  method FormatOpen(openPorts: seq<Port>) returns (r: Result<seq<string>, Error>)
    ensures r == OpenSection(openPorts)
  {
    if openPorts == [] {
      return Success([]);
    }
    var sorted := SortByPortId(openPorts);
    if sorted.Failure? {
      return Failure(sorted.error);
    }
    var lines := AppendMapped(["\nOPEN PORTS (" + NatToString(|openPorts|) + "):"], FormatPort, sorted.value);
    r := Success(lines);
  }

  /** The filtered-ports block of `_format_host`. */
  method FormatFiltered(filteredPorts: seq<Port>) returns (r: Result<seq<string>, Error>)
    ensures r == FilteredSection(filteredPorts)
  {
    if filteredPorts == [] {
      return Success([]);
    }
    var sorted := SortByPortId(filteredPorts);
    if sorted.Failure? {
      return Failure(sorted.error);
    }
    var lines := AppendMapped(["\nFILTERED PORTS (" + NatToString(|filteredPorts|) + "):"],
                              FormatPort, Take(sorted.value, 10));
    var more := [];
    if |filteredPorts| > 10 {
      more := ["  ... and " + NatToString(|filteredPorts| - 10) + " more filtered ports"];
    }
    assert FilteredSection(filteredPorts) == Success(lines + more);
    r := Success(lines + more);
  }

  /** The closed-ports block of `_format_host`. */
  method FormatClosed(closedPorts: seq<Port>) returns (r: Result<seq<string>, Error>)
    ensures r == ClosedSection(closedPorts)
  {
    if closedPorts == [] {
      return Success([]);
    }
    if |closedPorts| > 10 {
      return Success(["\nCLOSED PORTS: " + NatToString(|closedPorts|) + " ports closed"]);
    }
    var sorted := SortByPortId(closedPorts);
    if sorted.Failure? {
      return Failure(sorted.error);
    }
    var lines := AppendMapped(["\nCLOSED PORTS (" + NatToString(|closedPorts|) + "):"], FormatPort, sorted.value);
    r := Success(lines);
  }

  /** The address, status, hostname and counter lines of `_format_host`. */
  method FormatHostHeader(host: Host, hostNum: nat) returns (lines: seq<string>)
    ensures lines == HostHeader(host, hostNum)
  {
    lines := [TitleLine(hostNum), Dashes, AddressLine(host), StatusLine(host)];
    ghost var top := lines;
    if host.hostnames != [] {
      lines := lines + ["Hostnames:"];
      lines := AppendMapped(lines, HostnameLine, host.hostnames);
    }
    assert lines == top + HostnameSection(host.hostnames);
    lines := lines + ["\nPort Summary:", StatsLine(host.portStats)];
  }

  /** The extra-ports, OS and traceroute blocks of `_format_host`. */
  method FormatHostDetails(host: Host) returns (lines: seq<string>)
    ensures lines == HostDetails(host)
  {
    var extra := FormatExtra(host.extraports);
    var os := FormatOs(host.os);
    var trace := FormatTrace(host.trace);
    lines := extra + os + trace;
  }

  /** The `if 'extraports' in host` block. */
  method FormatExtra(x: Option<ExtraPorts>) returns (lines: seq<string>)
    ensures lines == ExtraSection(x)
  {
    lines := [];
    if x.Some? {
      var extra := x.value;
      lines := AppendMapped(lines + [ExtraLine(extra)], ReasonLine, extra.reasons);
    }
  }

  /** The `# OS Detection` block. */
  method FormatOs(os: seq<OsMatch>) returns (lines: seq<string>)
    ensures lines == OsSection(os)
  {
    lines := [];
    if os != [] {
      lines := AppendMapped(lines + ["\nOS DETECTION:"], OsLine, Take(os, 3));
    }
  }

  /** The `# Traceroute` block. */
  method FormatTrace(trace: seq<Hop>) returns (lines: seq<string>)
    ensures lines == TraceSection(trace)
  {
    lines := [];
    if trace != [] {
      lines := AppendMapped(lines + ["\nTRACEROUTE:"], HopLine, trace);
    }
  }

  /** `_format_host`: the header, the three port blocks, then the details; a sort that
      raises ends it. */
  method FormatHost(host: Host, hostNum: nat) returns (r: Result<seq<string>, Error>)
    ensures r == HostLines(host, hostNum)
  {
    var lines := FormatHostHeader(host, hostNum);
    var open := FormatOpen(PortsIn(host.ports, Open));
    var filtered := FormatFiltered(PortsIn(host.ports, Filtered));
    var closed := FormatClosed(PortsIn(host.ports, Closed));
    var details := FormatHostDetails(host);
    r := AssembleLines(lines, open, filtered, closed, details);
  }

  /** Appends the port blocks, stopping at the first one that raised. */
  method AssembleLines(header: seq<string>, open: Result<seq<string>, Error>, filtered: Result<seq<string>, Error>,
                       closed: Result<seq<string>, Error>, details: seq<string>) returns (r: Result<seq<string>, Error>)
    ensures r == Assemble(header, open, filtered, closed, details)
  {
    var lines := header;
    var o :- open;
    lines := lines + o;
    var f :- filtered;
    lines := lines + f;
    var c :- closed;
    lines := lines + c;
    r := Success(lines + details);
  }

  // ---------------------------------------------------------------- _format_summary

  /** `sum(h['port_stats'][b] for h in hosts)`. */
  function TotalOf(hosts: seq<Host>, b: Bucket): nat {
    if hosts == [] then 0 else TotalOf(DropLast(hosts), b) + Count(Last(hosts).portStats, b)
  }

  /** `sum(1 for h in hosts if h['state'] == 'up')`. */
  function HostsUp(hosts: seq<Host>): nat {
    if hosts == [] then 0 else HostsUp(DropLast(hosts)) + (if Last(hosts).state == "up" then 1 else 0)
  }

  function SummaryLines(hosts: seq<Host>): seq<string> {
    ["\n" + Rule, "SCAN SUMMARY", Rule,
     "Total Hosts Scanned: " + NatToString(|hosts|),
     "Hosts Up: " + NatToString(HostsUp(hosts)),
     "\nPort Statistics (All Hosts):",
     "  Total Open: " + NatToString(TotalOf(hosts, Open)),
     "  Total Closed: " + NatToString(TotalOf(hosts, Closed)),
     "  Total Filtered: " + NatToString(TotalOf(hosts, Filtered))]
  }

  /** The hosts whose state is exactly "up". */
  function UpHosts(hosts: seq<Host>): (r: seq<Host>)
    ensures forall h :: h in r <==> h in hosts && h.state == "up"
  {
    if hosts == [] then []
    else UpHosts(DropLast(hosts)) + (if Last(hosts).state == "up" then [Last(hosts)] else [])
  }

  /** The up hosts keep the hosts' order and duplicates: those of `a + c` are those of `a`
      followed by those of `c`. */
  lemma {:induction false} UpHostsConcat(a: seq<Host>, c: seq<Host>)
    ensures UpHosts(a + c) == UpHosts(a) + UpHosts(c)
  {
    if c == [] {
      assert a + c == a;
    } else {
      assert DropLast(a + c) == a + DropLast(c);
      assert Last(a + c) == Last(c);
      UpHostsConcat(a, DropLast(c));
    }
  }

  /** One host is up exactly when its state is `"up"`. */
  lemma UpHostsSingle(h: Host)
    ensures UpHosts([h]) == if h.state == "up" then [h] else []
  {
    assert DropLast([h]) == [];
  }

  /** The up count counts the hosts whose state is exactly "up", so it never exceeds the
      number of hosts. */
  lemma {:induction false} HostsUpCounts(hosts: seq<Host>)
    ensures HostsUp(hosts) == |UpHosts(hosts)| <= |hosts|
  {
    if hosts != [] {
      HostsUpCounts(DropLast(hosts));
    }
  }

  /** Every port of every host in a bucket, host by host. */
  function AllPortsIn(hosts: seq<Host>, b: Bucket): seq<Port> {
    if hosts == [] then [] else AllPortsIn(DropLast(hosts), b) + PortsIn(Last(hosts).ports, b)
  }

  /** For hosts whose counters were taken from their own ports, as `_parse_host` does, each
      total is the number of ports in that bucket across all hosts. */
  lemma {:induction false} TotalsCountPorts(hosts: seq<Host>, b: Bucket)
    requires forall i :: 0 <= i < |hosts| ==> hosts[i].portStats == StatsOf(hosts[i].ports)
    ensures TotalOf(hosts, b) == |AllPortsIn(hosts, b)|
  {
    if hosts != [] {
      TotalsCountPorts(DropLast(hosts), b);
      StatsCountBuckets(Last(hosts).ports);
    }
  }

  /** Totals add up over a split of the host list. */
  lemma {:induction false} TotalsAdd(a: seq<Host>, c: seq<Host>, b: Bucket)
    ensures TotalOf(a + c, b) == TotalOf(a, b) + TotalOf(c, b)
  {
    if c != [] {
      assert DropLast(a + c) == a + DropLast(c);
      TotalsAdd(a, DropLast(c), b);
    } else {
      assert a + c == a;
    }
  }

  // ---------------------------------------------------------------- _build_report

  function ReportHeader(xmlFile: string, generated: string, root: Element, n: nat): seq<string> {
    [Rule, "NMAP SCAN REPORT", Rule, "Generated: " + generated, "XML File: " + xmlFile, "",
     "SCAN INFORMATION", Dashes,
     "Nmap Version: " + Get(root, "version", "N/A"),
     "Command: " + Get(root, "args", "N/A"),
     "Total Hosts: " + NatToString(n), ""]
  }

  /** Every host's lines in turn, numbered from 1, stopping at the first host that fails. */
  function HostsLines(hosts: seq<Host>): Result<seq<string>, Error> {
    ConcatNumbered(HostLines, hosts)
  }

  /** The lines `_build_report` joins, or the error rendering a host raises. */
  function ReportLines(xmlFile: string, generated: string, root: Element, hosts: seq<Host>)
    : Result<seq<string>, Error>
  {
    var body :- HostsLines(hosts);
    Success(ReportHeader(xmlFile, generated, root, |hosts|) + body + SummaryLines(hosts) + [Rule])
  }

  /** `_build_report`'s text. */
  function ReportText(xmlFile: string, generated: string, root: Element, hosts: seq<Host>)
    : Result<string, Error>
  {
    var lines :- ReportLines(xmlFile, generated, root, hosts);
    Success(Join(lines, "\n"))
  }

  /** The report renders exactly when every host renders under its own 1-based number
      (`OkAt(HostLines, hosts, i)` says host i renders as number i + 1); a failure is the
      error of the first host that does not. */
  lemma HostsLinesSpec(hosts: seq<Host>)
    ensures HostsLines(hosts).Success? <==> forall i :: 0 <= i < |hosts| ==> OkAt(HostLines, hosts, i)
    ensures HostsLines(hosts).Failure? ==>
      exists i :: 0 <= i < |hosts| && HostLines(hosts[i], i + 1) == Failure(HostsLines(hosts).error)
        && forall j :: 0 <= j < i ==> OkAt(HostLines, hosts, j)
  {
    ConcatNumberedSpec(HostLines, hosts);
  }

  /** A scan without hosts still renders its header and a zero summary. */
  lemma ReportWithoutHosts(xmlFile: string, generated: string, root: Element)
    ensures ReportLines(xmlFile, generated, root, []).Success?
    ensures var r := ReportLines(xmlFile, generated, root, []).value;
      && |r| == 22
      && r[10] == "Total Hosts: 0"
      && r[15] == "Total Hosts Scanned: 0"
      && r[16] == "Hosts Up: 0"
      && r[18] == "  Total Open: 0"
  {
    assert NatToString(0) == "0";
  }
}
