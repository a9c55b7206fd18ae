/** The per-host records `NmapXMLParser` builds from an nmap XML tree, the functions that say
    what `_parse_host` and `_parse_port` produce, and the two parsing loops themselves. */
module NmapHosts {
  import opened Wrappers
  import opened Seqs
  import opened Text
  import opened ElementTree

  datatype Script = Script(id: string, output: string)

  /** One `<port>`: every field is the attribute text, or its default. */
  datatype Port = Port(
    protocol: string, portid: string, state: string, stateReason: string,
    service: string, product: string, version: string, extrainfo: string,
    detectionMethod: string, conf: string, scripts: seq<Script>)

  datatype Hostname = Hostname(name: string, kind: string)
  datatype ExtraReason = ExtraReason(reason: string, count: int)
  datatype ExtraPorts = ExtraPorts(state: string, count: int, reasons: seq<ExtraReason>)
  datatype OsMatch = OsMatch(name: string, accuracy: string)
  datatype Hop = Hop(ttl: string, host: string, ip: string, time: string)

  /** The four counters of `port_stats`. */
  datatype Bucket = Open | Closed | Filtered | Other
  datatype PortStats = PortStats(open: nat, closed: nat, filtered: nat, other: nat)

  datatype Host = Host(
    state: string, reason: string, addr: string, addrtype: string,
    hostnames: seq<Hostname>, ports: seq<Port>, portStats: PortStats,
    extraports: Option<ExtraPorts>, os: seq<OsMatch>, trace: seq<Hop>)

  /** The ValueError `int(text)` raises, with the text it rejected. */
  datatype Error = InvalidIntLiteral(text: string)

  // ---------------------------------------------------------------- port states

  /** The counter a port state string goes to: anything but the three names is `other`. */
  function BucketOf(state: string): Bucket {
    if state == "open" then Open
    else if state == "closed" then Closed
    else if state == "filtered" then Filtered
    else Other
  }

  function Count(st: PortStats, b: Bucket): nat {
    match b
    case Open => st.open
    case Closed => st.closed
    case Filtered => st.filtered
    case Other => st.other
  }

  const NoPorts := PortStats(0, 0, 0, 0)

  /** One `port_stats[...] += 1`: exactly the counter of the state's bucket goes up. */
  function Bump(st: PortStats, state: string): (r: PortStats)
    ensures forall b :: Count(r, b) == Count(st, b) + (if b == BucketOf(state) then 1 else 0)
  {
    match BucketOf(state)
    case Open => st.(open := st.open + 1)
    case Closed => st.(closed := st.closed + 1)
    case Filtered => st.(filtered := st.filtered + 1)
    case Other => st.(other := st.other + 1)
  }

  /** `Bump` as the `if`/`elif` chain of `_parse_host` spells it. */
  lemma BumpCases(st: PortStats, state: string)
    ensures state == "open" ==> Bump(st, state) == st.(open := st.open + 1)
    ensures state != "open" && state == "closed" ==> Bump(st, state) == st.(closed := st.closed + 1)
    ensures state != "open" && state != "closed" && state == "filtered" ==>
      Bump(st, state) == st.(filtered := st.filtered + 1)
    ensures state != "open" && state != "closed" && state != "filtered" ==>
      Bump(st, state) == st.(other := st.other + 1)
  {
  }

  /** The counters after counting `ps` in order; every port is counted once. */
  function StatsOf(ps: seq<Port>): (r: PortStats)
    ensures r.open + r.closed + r.filtered + r.other == |ps|
  {
    if ps == [] then NoPorts else Bump(StatsOf(DropLast(ps)), Last(ps).state)
  }

  /** `[p for p in ports if p['state'] == name]` for the bucket's name (for Other: every
      port no named bucket takes). */
  function PortsIn(ps: seq<Port>, b: Bucket): (r: seq<Port>)
    ensures |r| <= |ps|
    ensures forall p :: p in r <==> p in ps && BucketOf(p.state) == b
  {
    if ps == [] then []
    else PortsIn(DropLast(ps), b) + (if BucketOf(Last(ps).state) == b then [Last(ps)] else [])
  }

  /** A bucket keeps the ports' order and duplicates: the bucket of `a + c` is that of `a`
      followed by that of `c`. */
  lemma {:induction false} PortsInConcat(a: seq<Port>, c: seq<Port>, b: Bucket)
    ensures PortsIn(a + c, b) == PortsIn(a, b) + PortsIn(c, b)
  {
    if c == [] {
      assert a + c == a;
    } else {
      assert DropLast(a + c) == a + DropLast(c);
      assert Last(a + c) == Last(c);
      PortsInConcat(a, DropLast(c), b);
    }
  }

  /** One port lands in exactly the bucket of its state. */
  lemma PortsInSingle(p: Port, b: Bucket)
    ensures PortsIn([p], b) == if BucketOf(p.state) == b then [p] else []
  {
    assert DropLast([p]) == [];
  }

  /** Each counter equals the number of ports whose state falls in its bucket. */
  lemma {:induction false} StatsCountBuckets(ps: seq<Port>)
    ensures forall b :: Count(StatsOf(ps), b) == |PortsIn(ps, b)|
  {
    if ps != [] {
      StatsCountBuckets(DropLast(ps));
    }
  }

  // ---------------------------------------------------------------- _parse_port

  function ScriptOf(e: Element): Script {
    Script(Get(e, "id", ""), Get(e, "output", ""))
  }

  /** What `_parse_port` returns for a `<port>` element. */
  function PortOf(e: Element): Port {
    var state := Find(e, "state");
    var service := Find(e, "service");
    Port(
      Get(e, "protocol", "tcp"), Get(e, "portid", "unknown"),
      if state.Some? then Get(state.value, "state", "unknown") else "unknown",
      if state.Some? then Get(state.value, "reason", "") else "",
      if service.Some? then Get(service.value, "name", "unknown") else "unknown",
      if service.Some? then Get(service.value, "product", "") else "",
      if service.Some? then Get(service.value, "version", "") else "",
      if service.Some? then Get(service.value, "extrainfo", "") else "",
      if service.Some? then Get(service.value, "method", "") else "",
      if service.Some? then Get(service.value, "conf", "0") else "0",
      Map(ScriptOf, FindAll(e, "script")))
  }

  /** Missing attributes and sub-elements of a `<port>` read as the fixed defaults. */
  lemma PortDefaults(e: Element)
    ensures var p := PortOf(e);
      && ("protocol" !in e.attrib ==> p.protocol == "tcp")
      && ("portid" !in e.attrib ==> p.portid == "unknown")
      && (Find(e, "state").None? ==> p.state == "unknown" && p.stateReason == "")
      && (Find(e, "service").None? ==>
            p.service == "unknown" && p.product == "" && p.version == "" && p.extrainfo == ""
            && p.detectionMethod == "" && p.conf == "0")
      && |p.scripts| == |FindAll(e, "script")|
  {
  }

  /** A present `<state>`, `<service>` or `<script>` with an attribute missing reads that
      attribute's default, and present attributes are read as written. */
  lemma PortAttributeDefaults(e: Element)
    ensures var p := PortOf(e); var st := Find(e, "state"); var sv := Find(e, "service");
      && (st.Some? ==> p.state == Get(st.value, "state", "unknown") && p.stateReason == Get(st.value, "reason", ""))
      && (st.Some? && "state" !in st.value.attrib ==> p.state == "unknown" && BucketOf(p.state) == Other)
      && (st.Some? && "reason" !in st.value.attrib ==> p.stateReason == "")
      && (sv.Some? && "name" !in sv.value.attrib ==> p.service == "unknown")
      && (sv.Some? && "product" !in sv.value.attrib ==> p.product == "")
      && (sv.Some? && "version" !in sv.value.attrib ==> p.version == "")
      && (sv.Some? && "extrainfo" !in sv.value.attrib ==> p.extrainfo == "")
      && (sv.Some? && "method" !in sv.value.attrib ==> p.detectionMethod == "")
      && (sv.Some? && "conf" !in sv.value.attrib ==> p.conf == "0")
      && forall i :: 0 <= i < |p.scripts| ==>
           var x := FindAll(e, "script")[i];
           p.scripts[i] == Script(Get(x, "id", ""), Get(x, "output", ""))
           && ("id" !in x.attrib ==> p.scripts[i].id == "")
           && ("output" !in x.attrib ==> p.scripts[i].output == "")
  {
  }

  // ---------------------------------------------------------------- _parse_host

  function HostnameOf(e: Element): Hostname {
    Hostname(Get(e, "name", ""), Get(e, "type", ""))
  }

  /** The `<hostname>` entries with a non-empty name, in document order. */
  function HostnamesOf(es: seq<Element>): (r: seq<Hostname>)
    ensures |r| <= |es|
    ensures forall h :: h in r ==> h.name != ""
  {
    if es == [] then []
    else
      var h := HostnameOf(Last(es));
      HostnamesOf(DropLast(es)) + (if h.name != "" then [h] else [])
  }

  /** Hostnames are kept in document order with duplicates: the entries for `a + b` are
      those for `a` followed by those for `b`. */
  lemma {:induction false} HostnamesConcat(a: seq<Element>, b: seq<Element>)
    ensures HostnamesOf(a + b) == HostnamesOf(a) + HostnamesOf(b)
  {
    if b == [] {
      assert a + b == a;
    } else {
      assert DropLast(a + b) == a + DropLast(b);
      assert Last(a + b) == Last(b);
      HostnamesConcat(a, DropLast(b));
    }
  }

  /** One element gives one entry unless its name is empty. */
  lemma HostnameSingle(e: Element)
    ensures HostnamesOf([e]) == if Get(e, "name", "") == "" then [] else [HostnameOf(e)]
  {
    assert DropLast([e]) == [];
  }

  /** `int(e.get('count', 0))`: an absent count is 0, a present one must be an integer. */
  function CountOf(e: Element): (r: Result<int, Error>)
    ensures r.Failure? <==> "count" in e.attrib && ParseInt(e.attrib["count"]).None?
    ensures "count" !in e.attrib ==> r == Success(0)
    ensures r.Success? && "count" in e.attrib ==> ParseInt(e.attrib["count"]) == Some(r.value)
  {
    if "count" !in e.attrib then Success(0)
    else match ParseInt(e.attrib["count"])
      case Some(n) => Success(n)
      case None => Failure(InvalidIntLiteral(e.attrib["count"]))
  }

  function ExtraReasonOf(e: Element): Result<ExtraReason, Error> {
    var c :- CountOf(e);
    Success(ExtraReason(Get(e, "reason", ""), c))
  }

  /** The `<extrareasons>` list; the first count that is not an integer aborts it. */
  function ReasonsOf(es: seq<Element>): Result<seq<ExtraReason>, Error> {
    MapResult(ExtraReasonOf, es)
  }

  /** One `<extraports>` summary: its count is read before its reasons. */
  function ExtraPortsOf(e: Element): Result<ExtraPorts, Error> {
    var c :- CountOf(e);
    var rs :- ReasonsOf(FindAll(e, "extrareasons"));
    Success(ExtraPorts(Get(e, "state", "unknown"), c, rs))
  }

  /** The loop over `<extraports>`: every summary is built in turn, the last one is stored. */
  function LastExtraPorts(es: seq<Element>): Result<Option<ExtraPorts>, Error> {
    var all :- MapResult(ExtraPortsOf, es);
    Success(if all == [] then None else Some(Last(all)))
  }

  /** The reasons list is built exactly when every reason's count is an integer, and then
      holds one entry per `<extrareasons>` element, in document order. */
  lemma ReasonsOfSpec(es: seq<Element>)
    ensures ReasonsOf(es).Success? <==> forall i :: 0 <= i < |es| ==> ExtraReasonOf(es[i]).Success?
    ensures ReasonsOf(es).Success? ==> var rs := ReasonsOf(es).value;
      |rs| == |es| && forall i :: 0 <= i < |es| ==> ExtraReasonOf(es[i]) == Success(rs[i])
  {
    MapResultSpec(ExtraReasonOf, es);
  }

  /** The `<extraports>` loop succeeds exactly when every summary can be built, and then
      keeps only the last one. */
  lemma LastExtraPortsSpec(es: seq<Element>)
    ensures LastExtraPorts(es).Success? <==> forall i :: 0 <= i < |es| ==> ExtraPortsOf(es[i]).Success?
    ensures LastExtraPorts(es).Success? ==>
      LastExtraPorts(es).value == if es == [] then None else Some(ExtraPortsOf(Last(es)).value)
  {
    MapResultSpec(ExtraPortsOf, es);
    if es != [] && LastExtraPorts(es).Success? {
      var all := MapResult(ExtraPortsOf, es).value;
      assert ExtraPortsOf(es[|es| - 1]) == Success(all[|all| - 1]);
    }
  }

  function OsMatchOf(e: Element): OsMatch {
    OsMatch(Get(e, "name", "Unknown"), Get(e, "accuracy", "0"))
  }

  function HopOf(e: Element): Hop {
    Hop(Get(e, "ttl", ""), Get(e, "host", ""), Get(e, "ipaddr", ""), Get(e, "time", ""))
  }

  /** The `<port>` children of the host's `<ports>` element (none when it has none). */
  function PortElems(e: Element): seq<Element> {
    match Find(e, "ports")
    case None => []
    case Some(ports) => FindAll(ports, "port")
  }

  function ExtraPortsElems(e: Element): seq<Element> {
    match Find(e, "ports")
    case None => []
    case Some(ports) => FindAll(ports, "extraports")
  }

  /** What `_parse_host` returns for a `<host>` element, or the error it raises. */
  function HostOf(e: Element): Result<Host, Error> {
    var extra :- LastExtraPorts(ExtraPortsElems(e));
    Success(HostRecord(e, extra))
  }

  /** The record `_parse_host` fills once its extra-ports summary is known. */
  function HostRecord(e: Element, extra: Option<ExtraPorts>): Host {
    var status := Find(e, "status");
    var address := Find(e, "address");
    var names := Find(e, "hostnames");
    var os := Find(e, "os");
    var trace := Find(e, "trace");
    var ports := Map(PortOf, PortElems(e));
    Host(
      if status.Some? then Get(status.value, "state", "unknown") else "unknown",
      if status.Some? then Get(status.value, "reason", "") else "",
      if address.Some? then Get(address.value, "addr", "N/A") else "N/A",
      if address.Some? then Get(address.value, "addrtype", "ipv4") else "ipv4",
      if names.Some? then HostnamesOf(FindAll(names.value, "hostname")) else [],
      ports, StatsOf(ports), extra,
      if os.Some? then Map(OsMatchOf, FindAll(os.value, "osmatch")) else [],
      if trace.Some? then Map(HopOf, FindAll(trace.value, "hop")) else [])
  }

  /** Missing `<status>` and `<address>` read as the fixed defaults. */
  lemma HostDefaults(e: Element)
    requires HostOf(e).Success?
    ensures var h := HostOf(e).value;
      && (Find(e, "status").None? ==> h.state == "unknown" && h.reason == "")
      && (Find(e, "address").None? ==> h.addr == "N/A" && h.addrtype == "ipv4")
      && (Find(e, "hostnames").None? ==> h.hostnames == [])
      && (Find(e, "os").None? ==> h.os == [])
      && (Find(e, "trace").None? ==> h.trace == [])
  {
  }

  /** A present `<status>` or `<address>` with an attribute missing reads that attribute's
      default. */
  lemma HostAttributeDefaults(e: Element)
    requires HostOf(e).Success?
    ensures var h := HostOf(e).value; var st := Find(e, "status"); var ad := Find(e, "address");
      && (st.Some? && "state" !in st.value.attrib ==> h.state == "unknown")
      && (st.Some? && "reason" !in st.value.attrib ==> h.reason == "")
      && (ad.Some? && "addr" !in ad.value.attrib ==> h.addr == "N/A")
      && (ad.Some? && "addrtype" !in ad.value.attrib ==> h.addrtype == "ipv4")
      && (st.Some? ==> h.state == Get(st.value, "state", "unknown"))
      && (ad.Some? ==> h.addr == Get(ad.value, "addr", "N/A"))
  {
  }

  /** A host without `<ports>` has no ports, zero counters and no extra-ports summary. */
  lemma HostWithoutPorts(e: Element)
    requires Find(e, "ports").None?
    ensures HostOf(e).Success?
    ensures var h := HostOf(e).value;
      h.ports == [] && h.portStats == NoPorts && h.extraports.None?
  {
  }

  /** The counters of a parsed host agree with its port list, bucket by bucket, and add up to
      the number of ports. */
  lemma HostStats(e: Element)
    requires HostOf(e).Success?
    ensures var h := HostOf(e).value;
      && h.portStats.open + h.portStats.closed + h.portStats.filtered + h.portStats.other == |h.ports|
      && forall b :: Count(h.portStats, b) == |PortsIn(h.ports, b)|
  {
    StatsCountBuckets(HostOf(e).value.ports);
  }

  /** An `<extraports>` summary fails exactly when its own count or one of its reasons'
      counts is not an integer. */
  lemma ExtraPortsFails(x: Element)
    ensures ExtraPortsOf(x).Failure? <==>
      CountOf(x).Failure? || exists y :: y in FindAll(x, "extrareasons") && CountOf(y).Failure?
  {
    var ys := FindAll(x, "extrareasons");
    ReasonsOfSpec(ys);
    if CountOf(x).Success? {
      if ReasonsOf(ys).Failure? {
        var j :| 0 <= j < |ys| && ExtraReasonOf(ys[j]).Failure?;
        assert ys[j] in ys;
      } else {
        forall y | y in ys ensures CountOf(y).Success? {
          var j :| 0 <= j < |ys| && ys[j] == y;
          assert ExtraReasonOf(ys[j]).Success?;
        }
      }
    }
  }

  /** Parsing a host raises only on a count that is not an integer, in an `<extraports>`
      element or one of its `<extrareasons>`; everything else missing is defaulted. */
  lemma HostFailsOnlyOnCounts(e: Element)
    ensures HostOf(e).Failure? <==>
      exists x :: x in ExtraPortsElems(e) &&
        (CountOf(x).Failure? || exists y :: y in FindAll(x, "extrareasons") && CountOf(y).Failure?)
  {
    var xs := ExtraPortsElems(e);
    LastExtraPortsSpec(xs);
    assert HostOf(e).Failure? <==> LastExtraPorts(xs).Failure?;
    if LastExtraPorts(xs).Failure? {
      var i :| 0 <= i < |xs| && ExtraPortsOf(xs[i]).Failure?;
      ExtraPortsFails(xs[i]);
      assert xs[i] in xs;
    } else {
      forall x | x in xs
        ensures CountOf(x).Success? && forall y :: y in FindAll(x, "extrareasons") ==> CountOf(y).Success?
      {
        var i :| 0 <= i < |xs| && xs[i] == x;
        ExtraPortsFails(xs[i]);
      }
    }
  }

  // ---------------------------------------------------------------- parse_xml

  /** The hosts `parse_xml` has appended when it stops, and the error that stopped it. */
  function ParseHosts(hs: seq<Element>): (seq<Host>, Option<Error>) {
    MapUntilError(HostOf, hs)
  }

  /** `parse_xml` stops at the first host that raises; the hosts before it have been
      appended, one record per `<host>`, in document order; without an error every host is. */
  lemma ParseHostsSpec(hs: seq<Element>)
    ensures |ParseHosts(hs).0| <= |hs|
    ensures forall i :: 0 <= i < |ParseHosts(hs).0| ==> HostOf(hs[i]) == Success(ParseHosts(hs).0[i])
    ensures ParseHosts(hs).1.None? ==> |ParseHosts(hs).0| == |hs|
    ensures ParseHosts(hs).1.Some? ==>
      |ParseHosts(hs).0| < |hs| && HostOf(hs[|ParseHosts(hs).0|]) == Failure(ParseHosts(hs).1.value)
  {
    MapUntilErrorSpec(HostOf, hs);
  }

  // ---------------------------------------------------------------- the loops

  /** `_parse_port`. */
  method ParsePort(e: Element) returns (p: Port)
    ensures p == PortOf(e)
  {
    var protocol := Get(e, "protocol", "tcp");
    var portid := Get(e, "portid", "unknown");
    var state, stateReason;
    var stateElem := Find(e, "state");
    if stateElem.Some? {
      state := Get(stateElem.value, "state", "unknown");
      stateReason := Get(stateElem.value, "reason", "");
    } else {
      state, stateReason := "unknown", "";
    }
    var service, product, version, extrainfo, detectionMethod, conf;
    var serviceElem := Find(e, "service");
    if serviceElem.Some? {
      var s := serviceElem.value;
      service, product, version := Get(s, "name", "unknown"), Get(s, "product", ""), Get(s, "version", "");
      extrainfo, detectionMethod, conf := Get(s, "extrainfo", ""), Get(s, "method", ""), Get(s, "conf", "0");
    } else {
      service, product, version, extrainfo, detectionMethod, conf := "unknown", "", "", "", "", "0";
    }
    var scriptElems := FindAll(e, "script");
    var scripts: seq<Script> := [];
    for i := 0 to |scriptElems|
      invariant scripts == Map(ScriptOf, scriptElems[..i])
    {
      MapPrefix(ScriptOf, scriptElems, i);
      scripts := scripts + [Script(Get(scriptElems[i], "id", ""), Get(scriptElems[i], "output", ""))];
    }
    assert scriptElems[..|scriptElems|] == scriptElems;
    p := Port(protocol, portid, state, stateReason, service, product, version, extrainfo,
              detectionMethod, conf, scripts);
  }

  /** The loop body of `_parse_host` over one `<extraports>` element. */
  method ParseExtraPorts(x: Element) returns (r: Result<ExtraPorts, Error>)
    ensures r == ExtraPortsOf(x)
  {
    var count := 0;
    if "count" in x.attrib {
      var n := ParseInt(x.attrib["count"]);
      if n.None? {
        return Failure(InvalidIntLiteral(x.attrib["count"]));
      }
      count := n.value;
    }
    var reasons :- ParseReasons(FindAll(x, "extrareasons"));
    r := Success(ExtraPorts(Get(x, "state", "unknown"), count, reasons));
  }

  /** The inner loop over `<extrareasons>`. */
  method ParseReasons(reasonElems: seq<Element>) returns (r: Result<seq<ExtraReason>, Error>)
    ensures r == ReasonsOf(reasonElems)
  {
    var reasons: seq<ExtraReason> := [];
    for j := 0 to |reasonElems|
      invariant MapResult(ExtraReasonOf, reasonElems[..j]) == Success(reasons)
    {
      var y := reasonElems[j];
      var c := CountOf(y);
      if c.Failure? {
        MapResultStops(ExtraReasonOf, reasonElems, j);
        return Failure(c.error);
      }
      MapResultStep(ExtraReasonOf, reasonElems, j);
      reasons := reasons + [ExtraReason(Get(y, "reason", ""), c.value)];
    }
    assert reasonElems[..|reasonElems|] == reasonElems;
    r := Success(reasons);
  }

  /** The `# Hostnames` block of `_parse_host`. */
  method ParseHostnames(names: Element) returns (hostnames: seq<Hostname>)
    ensures hostnames == HostnamesOf(FindAll(names, "hostname"))
  {
    var hs := FindAll(names, "hostname");
    hostnames := [];
    for i := 0 to |hs|
      invariant hostnames == HostnamesOf(hs[..i])
    {
      assert DropLast(hs[..i + 1]) == hs[..i];
      var name := Get(hs[i], "name", "");
      if name != "" {
        hostnames := hostnames + [Hostname(name, Get(hs[i], "type", ""))];
      }
    }
    assert hs[..|hs|] == hs;
  }

  /** The `<port>` loop of `_parse_host`: each port is parsed, appended and counted. */
  method ParsePortList(portElems: seq<Element>) returns (ports: seq<Port>, stats: PortStats)
    ensures ports == Map(PortOf, portElems) && stats == StatsOf(ports)
  {
    ports, stats := [], NoPorts;
    for i := 0 to |portElems|
      invariant ports == Map(PortOf, portElems[..i])
      invariant stats == StatsOf(ports)
    {
      MapPrefix(PortOf, portElems, i);
      var p := ParsePort(portElems[i]);
      ghost var before, counted := ports, stats;
      ports := ports + [p];
      if p.state == "open" {
        stats := stats.(open := stats.open + 1);
      } else if p.state == "closed" {
        stats := stats.(closed := stats.closed + 1);
      } else if p.state == "filtered" {
        stats := stats.(filtered := stats.filtered + 1);
      } else {
        stats := stats.(other := stats.other + 1);
      }
      BumpCases(counted, p.state);
      assert DropLast(ports) == before && Last(ports) == p;
    }
    assert portElems[..|portElems|] == portElems;
  }

  /** The `<extraports>` loop of `_parse_host`: each summary is built, the last one kept. */
  method ParseExtraPortsList(extraElems: seq<Element>) returns (extra: Result<Option<ExtraPorts>, Error>)
    ensures extra == LastExtraPorts(extraElems)
  {
    var kept: Option<ExtraPorts> := None;
    ghost var built: seq<ExtraPorts> := [];
    for i := 0 to |extraElems|
      invariant MapResult(ExtraPortsOf, extraElems[..i]) == Success(built)
      invariant kept == if built == [] then None else Some(Last(built))
    {
      var x := ParseExtraPorts(extraElems[i]);
      if x.Failure? {
        MapResultStops(ExtraPortsOf, extraElems, i);
        return Failure(x.error);
      }
      MapResultStep(ExtraPortsOf, extraElems, i);
      built := built + [x.value];
      kept := Some(x.value);
    }
    assert extraElems[..|extraElems|] == extraElems;
    extra := Success(kept);
  }

  /** The `# OS detection` loop: one entry per `<osmatch>`, in document order. */
  method ParseOs(osElem: Element) returns (os: seq<OsMatch>)
    ensures os == Map(OsMatchOf, FindAll(osElem, "osmatch"))
  {
    var ms := FindAll(osElem, "osmatch");
    os := [];
    for i := 0 to |ms|
      invariant os == Map(OsMatchOf, ms[..i])
    {
      MapPrefix(OsMatchOf, ms, i);
      os := os + [OsMatch(Get(ms[i], "name", "Unknown"), Get(ms[i], "accuracy", "0"))];
    }
    assert ms[..|ms|] == ms;
  }

  /** The `# Traceroute` loop: one entry per `<hop>`, in document order. */
  method ParseTrace(traceElem: Element) returns (trace: seq<Hop>)
    ensures trace == Map(HopOf, FindAll(traceElem, "hop"))
  {
    var hops := FindAll(traceElem, "hop");
    trace := [];
    for i := 0 to |hops|
      invariant trace == Map(HopOf, hops[..i])
    {
      MapPrefix(HopOf, hops, i);
      var h := hops[i];
      trace := trace + [Hop(Get(h, "ttl", ""), Get(h, "host", ""), Get(h, "ipaddr", ""), Get(h, "time", ""))];
    }
    assert hops[..|hops|] == hops;
  }

  /** `_parse_host`: fills the record field by field, counting port states as it goes. */
  method ParseHost(e: Element) returns (r: Result<Host, Error>)
    ensures r == HostOf(e)
  {
    var status := Find(e, "status");
    var state := if status.Some? then Get(status.value, "state", "unknown") else "unknown";
    var reason := if status.Some? then Get(status.value, "reason", "") else "";
    var address := Find(e, "address");
    var addr := if address.Some? then Get(address.value, "addr", "N/A") else "N/A";
    var addrtype := if address.Some? then Get(address.value, "addrtype", "ipv4") else "ipv4";

    var hostnames: seq<Hostname> := [];
    var names := Find(e, "hostnames");
    if names.Some? {
      hostnames := ParseHostnames(names.value);
    }

    var ports, stats := ParsePortList(PortElems(e));
    var extra := ParseExtraPortsList(ExtraPortsElems(e));
    if extra.Failure? {
      return Failure(extra.error);
    }

    var os: seq<OsMatch> := [];
    var osElem := Find(e, "os");
    if osElem.Some? {
      os := ParseOs(osElem.value);
    }

    var trace: seq<Hop> := [];
    var traceElem := Find(e, "trace");
    if traceElem.Some? {
      trace := ParseTrace(traceElem.value);
    }

    r := Success(Host(state, reason, addr, addrtype, hostnames, ports, stats, extra.value, os, trace));
  }

  /** The `for host in root.findall('host')` loop of `parse_xml`: the hosts parsed, in
      document order, up to the first one that raises, and that error. */
  method ParseHostList(hs: seq<Element>) returns (parsed: seq<Host>, err: Option<Error>)
    ensures (parsed, err) == ParseHosts(hs)
  {
    parsed := [];
    for i := 0 to |hs|
      invariant ParseHosts(hs[..i]) == (parsed, None)
    {
      var host := ParseHost(hs[i]);
      if host.Failure? {
        MapUntilErrorStops(HostOf, hs, i);
        return parsed, Some(host.error);
      }
      MapUntilErrorStep(HostOf, hs, i);
      parsed := parsed + [host.value];
    }
    assert hs[..|hs|] == hs;
    err := None;
  }
}
