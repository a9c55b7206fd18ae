/** `Logs`: the log pane that streams a scan's output. The subprocess is its sequence of
    output lines (already decoded) and its exit code; the pane is the sequence of lines
    written to it. */
module Logs {
  import opened Seqs
  import opened Text

  /** The `len(script_names) <= 25` guard lets the list grow to this many names. */
  const MaxScripts: nat := 26

  /** A stripped line opens a script's description when the line before it is non-empty
      and it starts with `Categories:`; the name is that line before. */
  predicate IsHeader(lastLine: string, line: string) {
    lastLine != "" && StartsWith(line, "Categories:")
  }

  /** The line `stream_process` writes once the process has exited. */
  function FinishedLine(returncode: int): string {
    "Process finished with code " + IntToString(returncode)
  }

  /** What `last_line` holds when line `k` is read: the line before it, `""` at first. */
  function LastLine(ls: seq<string>, k: nat): string
    requires k <= |ls|
  {
    if k == 0 then "" else ls[k - 1]
  }

  /** Every name the classifier would record without its guard, over stripped lines. */
  function Detections(ls: seq<string>): seq<string> {
    if ls == [] then []
    else
      var k := |ls| - 1;
      Detections(DropLast(ls)) + (if IsHeader(LastLine(ls, k), ls[k]) then [LastLine(ls, k)] else [])
  }

  /** The names `scripts_stream_process` returns for this output. */
  function ScriptNames(output: seq<string>): seq<string> {
    Take(Detections(Map(Strip, output)), MaxScripts)
  }

  /** Line `k` is a header read after a non-empty line; the first line never is one. */
  predicate HeaderAt(ls: seq<string>, k: int) {
    1 <= k < |ls| && IsHeader(ls[k - 1], ls[k])
  }

  /** Reading one more line records at most one name: the line before it, when it is a
      header. */
  lemma DetectionsSnoc(ls: seq<string>, line: string)
    ensures Detections(ls + [line])
      == Detections(ls) + if HeaderAt(ls + [line], |ls|) then [Last(ls)] else []
  {
    var now := ls + [line];
    assert DropLast(now) == ls;
    assert now[|ls|] == line;
    if ls != [] {
      assert now[|ls| - 1] == Last(ls);
    }
  }

  /** Every header after the first line records the line before it. */
  lemma {:induction false} DetectionsComplete(ls: seq<string>, k: int)
    requires HeaderAt(ls, k)
    ensures ls[k - 1] in Detections(ls)
    decreases |ls|
  {
    var init := DropLast(ls);
    DetectionsSnoc(init, Last(ls));
    assert init + [Last(ls)] == ls;
    if k < |ls| - 1 {
      assert HeaderAt(init, k) by {
        assert init[k - 1] == ls[k - 1] && init[k] == ls[k];
      }
      DetectionsComplete(init, k);
    }
  }

  /** Every recorded name is the line before some header, and the first line never
      records anything. */
  lemma {:induction false} DetectionsSound(ls: seq<string>, x: string)
    requires x in Detections(ls)
    ensures exists k :: HeaderAt(ls, k) && x == ls[k - 1]
    decreases |ls|
  {
    var init := DropLast(ls);
    DetectionsSnoc(init, Last(ls));
    assert init + [Last(ls)] == ls;
    if x in Detections(init) {
      DetectionsSound(init, x);
      var k :| HeaderAt(init, k) && x == init[k - 1];
      assert ls[k - 1] == init[k - 1] && ls[k] == init[k];
      assert HeaderAt(ls, k);
    } else {
      assert HeaderAt(ls, |ls| - 1);
    }
  }

  /** Reading more lines only appends names: earlier detections are never revised. */
  lemma {:induction false} DetectionsPrefix(ls: seq<string>, more: seq<string>)
    ensures Detections(ls) <= Detections(ls + more)
    decreases |more|
  {
    if more != [] {
      var init := ls + DropLast(more);
      DetectionsPrefix(ls, DropLast(more));
      DetectionsSnoc(init, Last(more));
      assert init + [Last(more)] == ls + more;
    } else {
      assert ls + more == ls;
    }
  }

  /** The first line never records a name, whatever it says. */
  lemma FirstLineNeverRecords(line: string)
    ensures Detections([line]) == []
  {
    DetectionsSnoc([], line);
    assert [] + [line] == [line];
  }

  /** The guard caps the list at 26 names: the names are all detections while there are
      fewer than 26, and the first 26 otherwise. */
  lemma ScriptNamesBound(output: seq<string>)
    ensures var d := Detections(Map(Strip, output));
      ScriptNames(output) == if |d| < 26 then d else d[..26]
  {
  }

  /** Further output only appends names, and once 26 are held nothing changes. */
  lemma ScriptNamesGrow(output: seq<string>, more: seq<string>)
    ensures ScriptNames(output) <= ScriptNames(output + more)
    ensures |ScriptNames(output)| == 26 ==> ScriptNames(output + more) == ScriptNames(output)
  {
    var ls := Map(Strip, output);
    var ms := Map(Strip, more);
    MapConcat(Strip, output, more);
    DetectionsPrefix(ls, ms);
    TakePrefix(Detections(ls), Detections(ls + ms), MaxScripts);
  }

  /** `last_line` moves on at every line, header lines included, so a header right after a
      header records the first header. */
  lemma HeaderAfterHeader()
    ensures ScriptNames(["alpha", "Categories: x", "Categories: y"]) == ["alpha", "Categories: x"]
  {
    var ls := ["alpha", "Categories: x", "Categories: y"];
    StripClean("alpha");
    StripClean("Categories: x");
    StripClean("Categories: y");
    assert Map(Strip, ls) == ls;
    assert DropLast(ls) == ["alpha", "Categories: x"];
    assert DropLast(DropLast(ls)) == ["alpha"];
    assert DropLast(["alpha"]) == [];
  }

  /** A name is recorded for every header that follows a non-empty line, in input order. */
  lemma TwoScripts()
    ensures ScriptNames(["alpha", "Categories: x", "beta", "Categories: y"]) == ["alpha", "beta"]
  {
    var ls := ["alpha", "Categories: x", "beta", "Categories: y"];
    StripClean("alpha");
    StripClean("Categories: x");
    StripClean("beta");
    StripClean("Categories: y");
    assert Map(Strip, ls) == ls;
    assert !StartsWith("beta", "Categories:");
    assert DropLast(ls) == ["alpha", "Categories: x", "beta"];
    assert DropLast(DropLast(ls)) == ["alpha", "Categories: x"];
    assert DropLast(["alpha", "Categories: x"]) == ["alpha"];
    assert DropLast(["alpha"]) == [];
  }

  /** One turn of the loop: the guarded append keeps the names equal to the first 26
      detections, and `last_line` moves on to the line just read. */
  lemma ClassifyStep(seen: seq<string>, line: string, names: seq<string>, lastLine: string)
    requires names == Take(Detections(seen), MaxScripts)
    requires lastLine == LastLine(seen, |seen|)
    ensures Take(Detections(seen + [line]), MaxScripts)
      == if IsHeader(lastLine, line) && |names| <= 25 then names + [lastLine] else names
    ensures line == LastLine(seen + [line], |seen| + 1)
  {
    var now := seen + [line];
    var d := Detections(seen);
    DetectionsSnoc(seen, line);
    assert now[|seen|] == line;
    if seen != [] && IsHeader(lastLine, line) {
      assert now[|seen| - 1] == lastLine;
      assert HeaderAt(now, |seen|);
      assert Detections(now) == d + [lastLine];
      TakeSnoc(d, lastLine, MaxScripts);
    } else {
      assert !HeaderAt(now, |seen|);
      assert Detections(now) == d;
    }
  }

  class Logs {
    /** The lines written to the pane, oldest first. */
    var sink: seq<string>

    constructor ()
      ensures sink == []
    {
      sink := [];
    }

    /** `stream_process`: every output line is written stripped, in arrival order, and one
        closing line with the exit code follows. */
    method StreamProcess(output: seq<string>, returncode: int)
      modifies this
      ensures sink == old(sink) + Map(Strip, output) + [FinishedLine(returncode)]
    {
      ghost var stripped := Map(Strip, output);
      ghost var start := sink;
      for i := 0 to |output|
        invariant sink == start + stripped[..i]
      {
        var decoded := Strip(output[i]);
        AppendNext(start, stripped, i);
        sink := sink + [decoded];
      }
      assert stripped[..|output|] == stripped;
      sink := sink + [FinishedLine(returncode)];
    }

    /** `scripts_stream_process`: the same stream as `stream_process` (its closing line starts
        with a newline), and the names of up to 26 scripts found on the way. */
    method ScriptsStreamProcess(output: seq<string>, returncode: int) returns (scriptNames: seq<string>)
      modifies this
      ensures sink == old(sink) + Map(Strip, output) + ["\n" + FinishedLine(returncode)]
      ensures scriptNames == ScriptNames(output)
    {
      ghost var stripped := Map(Strip, output);
      ghost var start := sink;
      ghost var seen: seq<string> := [];
      scriptNames := [];
      var lastLine := "";
      for i := 0 to |output|
        invariant seen == stripped[..i]
        invariant sink == start + seen
        invariant lastLine == LastLine(seen, i)
        invariant scriptNames == Take(Detections(seen), MaxScripts)
      {
        var line := Strip(output[i]);
        PrefixSnoc(stripped, i);
        ClassifyStep(seen, line, scriptNames, lastLine);
        sink := sink + [line];
        seen := seen + [line];
        if IsHeader(lastLine, line) && |scriptNames| <= 25 {
          scriptNames := scriptNames + [lastLine];
        }
        lastLine := line;
      }
      assert stripped[..|output|] == stripped;
      sink := sink + ["\n" + FinishedLine(returncode)];
    }
  }
}
