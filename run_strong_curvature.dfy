/** The run stage: hands each entry of the convergence records to the
    curvature solver, merges the solver's max_R, peak_R2 and violations into
    the entry, and writes the merged records both as JSON lines and as a
    one-line-per-run text summary. */
module RunStrongCurvature {
  import opened Values
  import opened Text

  /** The keys the merge takes from the solver, in the order it writes them. */
  const SolverKeys: seq<string> := ["max_R", "peak_R2", "violations"]

  /** run_solver: the solver subprocess, given a parameter value. None stands
      for a failed subprocess or output that is not JSON. */
  type Solver = Value -> Option<Value>

  function RunSolver(solve: Solver, params: Value): Result<Value> {
    match solve(params)
    case Some(diag) => Ok(diag)
    case None => Err(SolverError)
  }

  /** `entry.get('parameters', entry)` */
  function SolverInput(entry: Dict): Value {
    GetOr(entry, "parameters", Obj(entry))
  }

  /** `{**e, 'max_R': m, 'peak_R2': p, 'violations': v}` */
  function WithSolverValues(e: Dict, m: Value, p: Value, v: Value): Dict {
    Put(Put(Put(e, "max_R", m), "peak_R2", p), "violations", v)
  }

  /** One pass of main's loop: `{**entry, 'max_R': diag['max_R'], 'peak_R2':
      diag['peak_R2'], 'violations': diag['violations']}`. */
  function MergeEntry(entry: Value, solve: Solver): Result<Dict> {
    if !entry.Obj? then Err(AttributeError)
    else
      var diag :- RunSolver(solve, SolverInput(entry.fields));
      var maxR :- Subscript(diag, "max_R");
      var peakR2 :- Subscript(diag, "peak_R2");
      var violations :- Subscript(diag, "violations");
      Ok(WithSolverValues(entry.fields, maxR, peakR2, violations))
  }

  /** `[k]` when the entry lacks k, else nothing: what the merge appends
      for k. */
  function Missing(entry: Dict, k: string): seq<string> {
    if HasKey(entry, k) then [] else [k]
  }

  /** The merged dict keeps the entry's keys in place and appends the
      missing solver keys, in the order max_R, peak_R2, violations. */
  lemma WithSolverValuesKeys(e: Dict, m: Value, p: Value, v: Value)
    ensures Keys(WithSolverValues(e, m, p, v))
      == Keys(e) + Missing(e, "max_R") + Missing(e, "peak_R2") + Missing(e, "violations")
  {
    var r1 := Put(e, "max_R", m);
    var r2 := Put(r1, "peak_R2", p);
    PutMissing(e, "max_R", m, "peak_R2");
    PutMissing(e, "max_R", m, "violations");
    PutMissing(r1, "peak_R2", p, "violations");
    PutMissing(r2, "violations", v, "max_R");
  }

  /** One write appends the key when it is missing, and leaves whether
      another key is missing as it was. */
  lemma PutMissing(d: Dict, k: string, v: Value, k': string)
    requires k != k'
    ensures Keys(Put(d, k, v)) == Keys(d) + Missing(d, k)
    ensures Missing(Put(d, k, v), k') == Missing(d, k')
  {
    assert Get(Put(d, k, v), k') == Get(d, k');
  }

  /** The solver keys hold the given values and every other key keeps the
      entry's value. */
  lemma WithSolverValuesGet(e: Dict, m: Value, p: Value, v: Value)
    ensures var r := WithSolverValues(e, m, p, v);
      && Get(r, "max_R") == Some(m) && Get(r, "peak_R2") == Some(p) && Get(r, "violations") == Some(v)
      && forall k :: k !in SolverKeys ==> Get(r, k) == Get(e, k)
  {
    var r1 := Put(e, "max_R", m);
    var r2 := Put(r1, "peak_R2", p);
    assert Get(r2, "max_R") == Some(m);
  }

  /** A dict stays a dict: no key twice. */
  lemma WithSolverValuesDistinct(e: Dict, m: Value, p: Value, v: Value)
    requires DistinctKeys(e)
    ensures DistinctKeys(WithSolverValues(e, m, p, v))
  {
  }

  /** A merged record is the entry with the solver's three values written in
      (the solver being given the entry's parameters, or the entry itself
      when it has none); nothing else the solver returns is copied. */
  lemma MergeEntryShape(entry: Value, solve: Solver, r: Dict)
    requires MergeEntry(entry, solve) == Ok(r)
    ensures entry.Obj? && solve(SolverInput(entry.fields)).Some?
    ensures var diag := solve(SolverInput(entry.fields)).value;
      && Subscript(diag, "max_R").Ok? && Subscript(diag, "peak_R2").Ok? && Subscript(diag, "violations").Ok?
      && r == WithSolverValues(entry.fields, Subscript(diag, "max_R").value, Subscript(diag, "peak_R2").value, Subscript(diag, "violations").value)
  {
  }

  /** The merge of an entry raises exactly when the entry is not a dict, the
      solver fails, or the solver's output lacks one of the three keys. */
  lemma MergeEntryFails(entry: Value, solve: Solver)
    ensures MergeEntry(entry, solve).Err? <==>
      || !entry.Obj?
      || solve(SolverInput(entry.fields)).None?
      || Subscript(solve(SolverInput(entry.fields)).value, "max_R").Err?
      || Subscript(solve(SolverInput(entry.fields)).value, "peak_R2").Err?
      || Subscript(solve(SolverInput(entry.fields)).value, "violations").Err?
    ensures !entry.Obj? ==> MergeEntry(entry, solve) == Err(AttributeError)
    ensures entry.Obj? && solve(SolverInput(entry.fields)).None? ==> MergeEntry(entry, solve) == Err(SolverError)
  {
  }

  function MergeWith(solve: Solver): Value -> Result<Dict> {
    entry => MergeEntry(entry, solve)
  }

  /** main's loop over the convergence records. */
  function Merge(conv: seq<Value>, solve: Solver): Result<seq<Dict>> {
    MapAll(conv, MergeWith(solve))
  }

  /** One merged record per entry, in entry order, none left out; the loop
      raises exactly when some entry's merge raises. */
  lemma MergeOnePerEntry(conv: seq<Value>, solve: Solver)
    ensures Merge(conv, solve).Ok? <==> forall i :: 0 <= i < |conv| ==> MergeEntry(conv[i], solve).Ok?
    ensures Merge(conv, solve).Ok? ==>
      && |Merge(conv, solve).value| == |conv|
      && forall i :: 0 <= i < |conv| ==> MergeEntry(conv[i], solve) == Ok(Merge(conv, solve).value[i])
  {
    MapAllOk(conv, MergeWith(solve));
  }

  /** main's loop as the script runs it. */
  method MergeRuns(conv: seq<Value>, solve: Solver) returns (r: Result<seq<Dict>>)
    ensures r == Merge(conv, solve)
  {
    var results: seq<Dict> := [];
    var i := 0;
    while i < |conv|
      invariant 0 <= i <= |conv|
      invariant Merge(conv[..i], solve) == Ok(results)
    {
      assert conv[..i + 1][..i] == conv[..i];
      var merged := MergeEntry(conv[i], solve);
      if merged.Err? {
        MapAllOk(conv[..i], MergeWith(solve));
        forall j | 0 <= j < i ensures MergeWith(solve)(conv[j]).Ok? {
          assert conv[..i][j] == conv[j];
        }
        MapAllFirstError(conv, MergeWith(solve), i);
        return Err(merged.error);
      }
      results := results + [merged.value];
      i := i + 1;
    }
    assert conv[..i] == conv;
    return Ok(results);
  }

  // ------------------------------------------------------------- summary

  /** The items the summary line lists: every item but 'violations'. */
  function ReportedFields(d: Dict): (r: Dict)
    ensures forall p :: p in r <==> p in d && p.0 != "violations"
  {
    if d == [] then []
    else (if d[0].0 == "violations" then [] else [d[0]]) + ReportedFields(d[1..])
  }

  /** The listed items keep the dict's order. */
  lemma {:induction false} ReportedFieldsAppend(a: Dict, b: Dict)
    ensures ReportedFields(a + b) == ReportedFields(a) + ReportedFields(b)
  {
    if a == [] {
      assert a + b == b;
    } else {
      assert (a + b)[1..] == a[1..] + b;
      ReportedFieldsAppend(a[1..], b);
    }
  }

  /** `f"{k}={v}"` for each listed item. */
  function SpecItems(d: Dict, show: Value -> string): seq<string> {
    var fields := ReportedFields(d);
    seq(|fields|, i requires 0 <= i < |fields| => fields[i].0 + "=" + show(fields[i].1))
  }

  /** One summary line: `run: <specs>, max_R: <max_R>, peak_R2: <peak_R2>`;
      `e['max_R']` and `e['peak_R2']` raise KeyError when missing. */
  function SummaryLine(d: Dict, show: Value -> string): (r: Result<string>)
    ensures r.Ok? <==> HasKey(d, "max_R") && HasKey(d, "peak_R2")
    ensures !HasKey(d, "max_R") ==> r == Err(KeyError("max_R"))
    ensures HasKey(d, "max_R") && !HasKey(d, "peak_R2") ==> r == Err(KeyError("peak_R2"))
  {
    var specs := Join(SpecItems(d, show), ", ");
    var maxR :- Lookup(d, "max_R");
    var peakR2 :- Lookup(d, "peak_R2");
    Ok("run: " + specs + ", max_R: " + show(maxR) + ", peak_R2: " + show(peakR2))
  }

  /** The line's tail after the listed items. */
  function Extremes(d: Dict, show: Value -> string): string {
    ", max_R: " + show(GetOr(d, "max_R", Null)) + ", peak_R2: " + show(GetOr(d, "peak_R2", Null))
  }

  /** A line starts with `run: `, then lists the items, and ends with the
      two extremes. */
  lemma SummaryLineShape(d: Dict, show: Value -> string)
    requires SummaryLine(d, show).Ok?
    ensures var line := SummaryLine(d, show).value;
      && |line| >= 5 + |Extremes(d, show)|
      && line[..5] == "run: "
      && line[|line| - |Extremes(d, show)|..] == Extremes(d, show)
      && line[5..|line| - |Extremes(d, show)|] == Join(SpecItems(d, show), ", ")
  {
    var specs := Join(SpecItems(d, show), ", ");
    var line := SummaryLine(d, show).value;
    assert line == "run: " + specs + Extremes(d, show);
  }

  function LineOf(show: Value -> string): Dict -> Result<string> {
    d => SummaryLine(d, show)
  }

  /** to_asciimath: one line per entry joined by newlines. */
  function Summary(entries: seq<Dict>, show: Value -> string): Result<string> {
    var lines :- MapAll(entries, LineOf(show));
    Ok(Join(lines, "\n"))
  }

  /** to_asciimath as the script runs it. */
  method ToAsciiMath(entries: seq<Dict>, show: Value -> string) returns (r: Result<string>)
    ensures r == Summary(entries, show)
  {
    var lines: seq<string> := [];
    var i := 0;
    while i < |entries|
      invariant 0 <= i <= |entries|
      invariant MapAll(entries[..i], LineOf(show)) == Ok(lines)
    {
      assert entries[..i + 1][..i] == entries[..i];
      var line := SummaryLine(entries[i], show);
      if line.Err? {
        MapAllOk(entries[..i], LineOf(show));
        forall j | 0 <= j < i ensures LineOf(show)(entries[j]).Ok? {
          assert entries[..i][j] == entries[j];
        }
        MapAllFirstError(entries, LineOf(show), i);
        return Err(line.error);
      }
      lines := lines + [line.value];
      i := i + 1;
    }
    assert entries[..i] == entries;
    return Ok(Join(lines, "\n"));
  }

  /** The summary raises exactly when some entry lacks max_R or peak_R2; an
      empty list gives the empty text. */
  lemma SummaryFails(entries: seq<Dict>, show: Value -> string)
    ensures Summary(entries, show).Ok? <==>
      forall i :: 0 <= i < |entries| ==> HasKey(entries[i], "max_R") && HasKey(entries[i], "peak_R2")
    ensures entries == [] ==> Summary(entries, show) == Ok("")
  {
    MapAllOk(entries, LineOf(show));
  }

  /** Every key of the dict, and the rendering of every value, is free of
      newlines. */
  predicate OneLineItems(d: Dict, show: Value -> string) {
    forall j :: 0 <= j < |d| ==> '\n' !in d[j].0 && '\n' !in show(d[j].1)
  }

  /** A rendered value of the dict stays on one line. */
  lemma ShownValueOneLine(d: Dict, k: string, show: Value -> string)
    requires OneLineItems(d, show) && HasKey(d, k)
    ensures '\n' !in show(Get(d, k).value)
  {
    var j :| 0 <= j < |d| && d[j] == (k, Get(d, k).value);
  }

  /** A line stays on one line when the items it lists (every item but
      violations) have keys and renderings without a newline. */
  lemma SummaryLineAvoidsNewline(d: Dict, show: Value -> string)
    requires SummaryLine(d, show).Ok?
    requires OneLineItems(ReportedFields(d), show)
    ensures '\n' !in SummaryLine(d, show).value
  {
    var items := SpecItems(d, show);
    var fields := ReportedFields(d);
    forall i | 0 <= i < |items| ensures '\n' !in items[i] {
      assert '\n' !in "=";
    }
    JoinAvoids(items, ", ", '\n');
    ReportedFieldsGet(d, "max_R");
    ReportedFieldsGet(d, "peak_R2");
    ShownValueOneLine(fields, "max_R", show);
    ShownValueOneLine(fields, "peak_R2", show);
    assert '\n' !in "run: " && '\n' !in ", max_R: " && '\n' !in ", peak_R2: ";
  }

  /** When every entry's listed keys and rendered values are on one line,
      the summary of n >= 1 entries has exactly n lines, line i summarising
      entry i; no entries give a single empty line. */
  lemma SummaryLineCount(entries: seq<Dict>, show: Value -> string)
    requires Summary(entries, show).Ok?
    ensures entries == [] ==> Split(Summary(entries, show).value, '\n') == [""]
    ensures entries != [] && (forall i :: 0 <= i < |entries| ==> OneLineItems(ReportedFields(entries[i]), show)) ==>
      var lines := Split(Summary(entries, show).value, '\n');
      && |lines| == |entries|
      && forall i :: 0 <= i < |entries| ==> SummaryLine(entries[i], show) == Ok(lines[i])
  {
    var f := LineOf(show);
    MapAllOk(entries, f);
    var lines := MapAll(entries, f).value;
    if entries != [] && forall i :: 0 <= i < |entries| ==> OneLineItems(ReportedFields(entries[i]), show) {
      forall i | 0 <= i < |lines| ensures '\n' !in lines[i] {
        assert f(entries[i]) == SummaryLine(entries[i], show);
        SummaryLineAvoidsNewline(entries[i], show);
      }
      SplitJoin(lines, '\n');
    }
  }

  // ----------------------------------------------------------- the script

  /** main: merge every entry, then write the merged records and their
      summary. */
  function RunStage(conv: seq<Value>, solve: Solver, show: Value -> string): Result<Artifacts> {
    var results :- Merge(conv, solve);
    var text :- Summary(results, show);
    Ok(Artifacts(seq(|results|, i requires 0 <= i < |results| => Obj(results[i])), text))
  }

  /** main's write loop: one JSON record per merged dict, in order. */
  method WriteRecords(results: seq<Dict>) returns (records: seq<Value>)
    ensures |records| == |results|
    ensures forall i :: 0 <= i < |results| ==> records[i] == Obj(results[i])
  {
    records := [];
    for i := 0 to |results|
      invariant |records| == i
      invariant forall k :: 0 <= k < i ==> records[k] == Obj(results[k])
    {
      records := records + [Obj(results[i])];
    }
  }

  method RunAndSummarize(conv: seq<Value>, solve: Solver, show: Value -> string) returns (r: Result<Artifacts>)
    ensures r == RunStage(conv, solve, show)
  {
    var merged := MergeRuns(conv, solve);
    if merged.Err? {
      return Err(merged.error);
    }
    var results := merged.value;
    var records := WriteRecords(results);
    assert records == seq(|results|, i requires 0 <= i < |results| => Obj(results[i]));
    var text := ToAsciiMath(results, show);
    if text.Err? {
      return Err(text.error);
    }
    return Ok(Artifacts(records, text.value));
  }

  /** A merged record always has max_R and peak_R2, so the stage fails only
      when the merge does, and then writes one record per entry. */
  lemma RunStageFailsOnlyInMerge(conv: seq<Value>, solve: Solver, show: Value -> string)
    ensures RunStage(conv, solve, show).Ok? <==> Merge(conv, solve).Ok?
    ensures RunStage(conv, solve, show).Ok? ==> |RunStage(conv, solve, show).value.records| == |conv|
  {
    MergeOnePerEntry(conv, solve);
    if Merge(conv, solve).Ok? {
      var results := Merge(conv, solve).value;
      forall i | 0 <= i < |results| ensures HasKey(results[i], "max_R") && HasKey(results[i], "peak_R2") {
        MergeEntryShape(conv[i], solve, results[i]);
        var diag := solve(SolverInput(conv[i].fields)).value;
        WithSolverValuesGet(conv[i].fields, Subscript(diag, "max_R").value, Subscript(diag, "peak_R2").value, Subscript(diag, "violations").value);
      }
      SummaryFails(results, show);
    }
  }

  /** Every item other than violations is listed as `k=v`. */
  lemma SpecItemListed(d: Dict, k: string, v: Value, show: Value -> string)
    requires (k, v) in d && k != "violations"
    ensures k + "=" + show(v) in SpecItems(d, show)
  {
    var fields := ReportedFields(d);
    var i :| 0 <= i < |fields| && fields[i] == (k, v);
    assert SpecItems(d, show)[i] == k + "=" + show(v);
  }

  /** Leaving out violations changes no other key's value. */
  lemma {:induction false} ReportedFieldsGet(d: Dict, k: string)
    requires k != "violations"
    ensures Get(ReportedFields(d), k) == Get(d, k)
  {
    if d != [] {
      ReportedFieldsGet(d[1..], k);
      var rest := ReportedFields(d[1..]);
      if d[0].0 == k {
        assert ReportedFields(d) == [d[0]] + rest;
        assert IndexOf(ReportedFields(d), k) == 0;
      } else {
        assert Get(d, k) == Get(d[1..], k) by {
          assert IndexOf(d, k) == 1 + IndexOf(d[1..], k);
        }
        if d[0].0 == "violations" {
          assert ReportedFields(d) == [] + rest;
          assert [] + rest == rest;
        } else {
          var rf := [d[0]] + rest;
          assert ReportedFields(d) == rf;
          assert rf[1..] == rest;
          assert IndexOf(rf, k) == 1 + IndexOf(rest, k);
        }
      }
    }
  }

  /** violations is never listed. */
  lemma ReportedFieldsOmitViolations(d: Dict)
    ensures !HasKey(ReportedFields(d), "violations")
  {
  }

  /** The listed items of a merged record hold max_R and peak_R2 with the
      solver's values and never
      violations. */
  lemma MergedLineListsExtremes(entry: Value, solve: Solver, r: Dict)
    requires MergeEntry(entry, solve) == Ok(r)
    ensures var diag := solve(SolverInput(entry.fields)).value;
      && Get(ReportedFields(r), "max_R") == Some(Subscript(diag, "max_R").value)
      && Get(ReportedFields(r), "peak_R2") == Some(Subscript(diag, "peak_R2").value)
      && !HasKey(ReportedFields(r), "violations")
  {
    MergeEntryShape(entry, solve, r);
    var diag := solve(SolverInput(entry.fields)).value;
    var m, p, v := Subscript(diag, "max_R").value, Subscript(diag, "peak_R2").value, Subscript(diag, "violations").value;
    assert r == WithSolverValues(entry.fields, m, p, v);
    WithSolverValuesGet(entry.fields, m, p, v);
    assert Get(r, "max_R") == Some(m) && Get(r, "peak_R2") == Some(p);
    ReportedFieldsGet(r, "max_R");
    ReportedFieldsGet(r, "peak_R2");
    ReportedFieldsOmitViolations(r);
  }
}
