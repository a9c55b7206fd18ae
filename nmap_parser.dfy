/** `NmapXMLParser`: the parsed tree's root, the host records `parse_xml` appends, and the
    report `_build_report` renders from them. */
module NmapParser {
  import opened Wrappers
  import opened Seqs
  import opened Text
  import opened ElementTree
  import opened NmapHosts
  import opened NmapReport

  class NmapXMLParser {
    /** The file name shown in the report header. */
    const xmlFile: string
    /** The root of the tree `ET.parse(xml_file)` returns. */
    const root: Element
    var hosts: seq<Host>

    /** `__init__` up to `self.parse_xml()`: the tree is already parsed, no host is read yet. */
    constructor (xmlFile: string, root: Element)
      ensures this.xmlFile == xmlFile && this.root == root && hosts == []
    {
      this.xmlFile := xmlFile;
      this.root := root;
      hosts := [];
    }

    /** `parse_xml`: appends one record per `<host>` child of the root, in document order,
        until a host raises; that error is returned. */
    method ParseXml() returns (err: Option<Error>)
      modifies this
      ensures hosts == old(hosts) + ParseHosts(FindAll(root, "host")).0
      ensures err == ParseHosts(FindAll(root, "host")).1
    {
      var parsed;
      parsed, err := ParseHostList(FindAll(root, "host"));
      hosts := hosts + parsed;
    }

    /** `_build_report`: the header, every host numbered from 1, the summary and a closing
        rule, joined with newlines; a host whose ports cannot be sorted raises. */
    method BuildReport(generated: string) returns (r: Result<string, Error>)
      ensures r == ReportText(xmlFile, generated, root, hosts)
    {
      var lines := ReportHeader(xmlFile, generated, root, |hosts|);
      var body :- FormatHosts();
      lines := lines + body + SummaryLines(hosts) + [Rule];
      r := Success(Join(lines, "\n"));
    }

    /** The `for i, host in enumerate(self.hosts, 1)` loop of `_build_report`. */
    method FormatHosts() returns (r: Result<seq<string>, Error>)
      ensures r == HostsLines(hosts)
    {
      var lines := [];
      for i := 0 to |hosts|
        invariant ConcatNumbered(HostLines, hosts[..i]) == Success(lines)
      {
        var hostLines := FormatHost(hosts[i], i + 1);
        if hostLines.Failure? {
          ConcatNumberedStops(HostLines, hosts, i);
          return Failure(hostLines.error);
        }
        assert DropLast(hosts[..i + 1]) == hosts[..i];
        lines := lines + hostLines.value;
      }
      assert hosts[..|hosts|] == hosts;
      r := Success(lines);
    }
  }

  /** `NmapXMLParser(xml_file)` on a parsed tree: the object exists only when every host
      parses, and then holds one record per `<host>`. */
  method Load(xmlFile: string, root: Element) returns (r: Result<NmapXMLParser, Error>)
    ensures r.Success? <==> ParseHosts(FindAll(root, "host")).1.None?
    ensures r.Failure? ==> r.error == ParseHosts(FindAll(root, "host")).1.value
    ensures r.Success? ==>
      && fresh(r.value) && r.value.xmlFile == xmlFile && r.value.root == root
      && r.value.hosts == ParseHosts(FindAll(root, "host")).0
      && |r.value.hosts| == |FindAll(root, "host")|
  {
    var parser := new NmapXMLParser(xmlFile, root);
    var err := parser.ParseXml();
    if err.Some? {
      return Failure(err.value);
    }
    ParseHostsSpec(FindAll(root, "host"));
    r := Success(parser);
  }
}
