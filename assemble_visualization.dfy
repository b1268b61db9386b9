/** The assemble stage: turns the merged diagnostic records of a set of runs
    into a list of events (a constraint violation when a reported magnitude
    exceeds the threshold, and one curvature peak per run), then writes that
    one list twice: as one JSON record per event and as a text timeline. */
module AssembleVisualization {
  import opened Values
  import opened Text

  /** detect_events' default R2_thresh, 1e-6. */
  const DefaultThreshold: real := 0.000001

  datatype EventKind = ConstraintViolation | PeakR

  /** An event dict {'event': ..., 'time': ..., 'params': ...}. */
  datatype Event = Event(kind: EventKind, time: Value, params: Value)

  function KindName(kind: EventKind): string {
    match kind
    case ConstraintViolation => "constraint_violation"
    case PeakR => "peak_R"
  }

  // ------------------------------------------------- scanning violations

  /** The element unpacks into (t, val) and val compares but is not above
      the threshold: the scan moves on. */
  predicate Quiet(e: Value, thresh: real) {
    Unpack2(e).Ok? && GreaterThan(Unpack2(e).value.1, thresh) == Ok(false)
  }

  /** The element unpacks into (t, val) and val is strictly above the
      threshold: the scan stops with t. */
  predicate Fires(e: Value, thresh: real) {
    Unpack2(e).Ok? && GreaterThan(Unpack2(e).value.1, thresh) == Ok(true)
  }

  /** The exception an element raises when it neither fires nor is quiet. */
  function Raised(e: Value, thresh: real): PyError
    requires !Quiet(e, thresh) && !Fires(e, thresh)
  {
    if Unpack2(e).Err? then Unpack2(e).error else GreaterThan(Unpack2(e).value.1, thresh).error
  }

  /** `for t, val in items: if val > thresh: ...; break`: the time of the
      first pair whose value is above the threshold, None when there is
      none, or the exception the first bad element raises. */
  function FirstViolation(items: seq<Value>, thresh: real): Result<Option<Value>>
  {
    if items == [] then Ok(None)
    else
      var pair :- Unpack2(items[0]);
      var above :- GreaterThan(pair.1, thresh);
      if above then Ok(Some(pair.0)) else FirstViolation(items[1..], thresh)
  }

  /** The scan reports the first firing element, whatever follows it. */
  lemma {:induction false} FirstViolationFiresAt(items: seq<Value>, thresh: real, j: nat)
    requires j < |items| && Fires(items[j], thresh)
    requires forall k :: 0 <= k < j ==> Quiet(items[k], thresh)
    ensures FirstViolation(items, thresh) == Ok(Some(Unpack2(items[j]).value.0))
  {
    if j > 0 {
      FirstViolationFiresAt(items[1..], thresh, j - 1);
    }
  }

  /** The scan raises at the first bad element, whatever follows it. */
  lemma {:induction false} FirstViolationFailsAt(items: seq<Value>, thresh: real, j: nat)
    requires j < |items| && !Quiet(items[j], thresh) && !Fires(items[j], thresh)
    requires forall k :: 0 <= k < j ==> Quiet(items[k], thresh)
    ensures FirstViolation(items, thresh) == Err(Raised(items[j], thresh))
  {
    if j > 0 {
      FirstViolationFailsAt(items[1..], thresh, j - 1);
    }
  }

  /** The scan finds nothing exactly when every element is a quiet pair. */
  lemma {:induction false} FirstViolationNone(items: seq<Value>, thresh: real)
    ensures FirstViolation(items, thresh) == Ok(None) <==> forall k :: 0 <= k < |items| ==> Quiet(items[k], thresh)
  {
    if items != [] {
      FirstViolationNone(items[1..], thresh);
      if Quiet(items[0], thresh) {
        forall k | 0 < k < |items| && Quiet(items[1..][k - 1], thresh) ensures Quiet(items[k], thresh) {
        }
      }
    }
  }

  /** Once the scan has stopped (a firing pair or an exception), later
      elements are never looked at; if it ran through, the next elements
      decide. */
  lemma {:induction false} FirstViolationPrefix(items: seq<Value>, rest: seq<Value>, thresh: real)
    ensures FirstViolation(items + rest, thresh)
      == if FirstViolation(items, thresh) == Ok(None) then FirstViolation(rest, thresh) else FirstViolation(items, thresh)
  {
    if items == [] {
      assert items + rest == rest;
    } else {
      assert (items + rest)[1..] == items[1..] + rest;
      FirstViolationPrefix(items[1..], rest, thresh);
    }
  }

  /** The comparison is strict: a pair whose value equals the threshold, or
      is below it, is quiet, and only a value above it fires. With
      FirstViolationFiresAt and FirstViolationNone this holds at any position
      of the scan. */
  lemma ThresholdIsStrict(t: Value, val: real, thresh: real)
    ensures Quiet(Arr([t, Num(val)]), thresh) <==> val <= thresh
    ensures Fires(Arr([t, Num(val)]), thresh) <==> val > thresh
  {
  }

  // ------------------------------------------------------ events per run

  /** `run.get('parameters', {})` */
  function Params(run: Dict): Value {
    GetOr(run, "parameters", Obj([]))
  }

  /** The violation scan of one run: `run.get('violations', [])` iterated
      pair by pair. */
  function ViolationScan(run: Dict, thresh: real): Result<Option<Value>> {
    var items :- Iterate(GetOr(run, "violations", Arr([])));
    FirstViolation(items, thresh)
  }

  /** The events one run contributes: at most one constraint violation, then
      always one peak_R event; `run.get` raises AttributeError when the run
      is not a dict. */
  function RunEvents(run: Value, thresh: real): (r: Result<seq<Event>>)
    ensures r.Ok? <==> run.Obj? && ViolationScan(run.fields, thresh).Ok?
    ensures !run.Obj? ==> r == Err(AttributeError)
    ensures run.Obj? && ViolationScan(run.fields, thresh).Err? ==> r == Err(ViolationScan(run.fields, thresh).error)
    ensures r.Ok? ==> var found := ViolationScan(run.fields, thresh).value;
      && |r.value| == (if found.Some? then 2 else 1)
      && r.value[|r.value| - 1] == Event(PeakR, GetOr(run.fields, "time_of_max_R", Null), Params(run.fields))
      && (found.Some? ==> r.value[0] == Event(ConstraintViolation, found.value, Params(run.fields)))
  {
    if !run.Obj? then Err(AttributeError)
    else
      var found :- ViolationScan(run.fields, thresh);
      var params := Params(run.fields);
      var peak := Event(PeakR, GetOr(run.fields, "time_of_max_R", Null), params);
      match found
      case None => Ok([peak])
      case Some(t) => Ok([Event(ConstraintViolation, t, params), peak])
  }

  /** The defaults detect_events falls back on when a field is missing. */
  lemma MissingFieldDefaults(run: Dict, thresh: real)
    ensures !HasKey(run, "violations") ==> RunEvents(Obj(run), thresh) == Ok([Event(PeakR, GetOr(run, "time_of_max_R", Null), Params(run))])
    ensures !HasKey(run, "parameters") ==> Params(run) == Obj([])
    ensures !HasKey(run, "time_of_max_R") && RunEvents(Obj(run), thresh).Ok? ==>
      var evs := RunEvents(Obj(run), thresh).value; evs[|evs| - 1].time == Null
  {
  }

  // --------------------------------------------------------- all the runs

  function EventsOf(thresh: real): Value -> Result<seq<Event>> {
    run => RunEvents(run, thresh)
  }

  /** detect_events: each run's block of events, in run order. */
  function Detect(diagnostics: seq<Value>, thresh: real): Result<seq<Event>> {
    var blocks :- MapAll(diagnostics, EventsOf(thresh));
    Ok(Concat(blocks))
  }

  /** Adding a run at the end adds its block at the end, or its exception
      when the earlier runs raised none. */
  lemma DetectSnoc(d: seq<Value>, run: Value, thresh: real)
    ensures Detect(d + [run], thresh)
      == if Detect(d, thresh).Err? then Detect(d, thresh)
         else if RunEvents(run, thresh).Err? then Err(RunEvents(run, thresh).error)
         else Ok(Detect(d, thresh).value + RunEvents(run, thresh).value)
  {
    var f := EventsOf(thresh);
    assert (d + [run])[..|d|] == d;
    assert f(run) == RunEvents(run, thresh);
    var m := MapAll(d, f);
    if m.Ok? && f(run).Ok? {
      assert MapAll(d + [run], f) == Ok(m.value + [f(run).value]);
      assert (m.value + [f(run).value])[..|m.value|] == m.value;
    }
  }

  /** Detection raises the exception of the first run that raises one. */
  lemma DetectStopsAt(d: seq<Value>, i: nat, thresh: real)
    requires i < |d|
    requires Detect(d[..i], thresh).Ok? && RunEvents(d[i], thresh).Err?
    ensures Detect(d, thresh) == Err(RunEvents(d[i], thresh).error)
  {
    var f := EventsOf(thresh);
    assert MapAll(d[..i], f).Ok?;
    MapAllOk(d[..i], f);
    forall j | 0 <= j < i ensures f(d[j]).Ok? {
      assert d[..i][j] == d[j];
    }
    MapAllFirstError(d, f, i);
  }

  /** Detection is compositional: the events of two lists of runs are the
      events of the first followed by those of the second. */
  lemma {:induction false} DetectAppend(a: seq<Value>, b: seq<Value>, thresh: real)
    ensures Detect(a + b, thresh).Ok? <==> Detect(a, thresh).Ok? && Detect(b, thresh).Ok?
    ensures Detect(a + b, thresh).Ok? ==>
      Detect(a + b, thresh).value == Detect(a, thresh).value + Detect(b, thresh).value
  {
    if b == [] {
      assert a + b == a;
    } else {
      var b0 := b[..|b| - 1];
      var last := b[|b| - 1];
      assert a + b == (a + b0) + [last];
      assert b == b0 + [last];
      DetectAppend(a, b0, thresh);
      DetectSnoc(a + b0, last, thresh);
      DetectSnoc(b0, last, thresh);
    }
  }

  /** One run alone gives exactly its own block. */
  lemma DetectOne(run: Value, thresh: real)
    ensures Detect([run], thresh) == RunEvents(run, thresh)
  {
    DetectSnoc([], run, thresh);
    assert [] + [run] == [run];
    assert Detect([], thresh) == Ok([]);
    var r := RunEvents(run, thresh);
    if r.Ok? {
      assert [] + r.value == r.value;
    }
  }

  /** detect_events as the script runs it: a loop over the runs, each run
      handled by the loop body below. */
  method DetectEvents(diagnostics: seq<Value>, thresh: real) returns (r: Result<seq<Event>>)
    ensures r == Detect(diagnostics, thresh)
  {
    var events: seq<Event> := [];
    var i := 0;
    while i < |diagnostics|
      invariant 0 <= i <= |diagnostics|
      invariant Detect(diagnostics[..i], thresh) == Ok(events)
    {
      DetectSnoc(diagnostics[..i], diagnostics[i], thresh);
      assert diagnostics[..i] + [diagnostics[i]] == diagnostics[..i + 1];
      var next := AppendRunEvents(events, diagnostics[i], thresh);
      if next.Err? {
        DetectStopsAt(diagnostics, i, thresh);
        return Err(next.error);
      }
      events := next.value;
      i := i + 1;
    }
    assert diagnostics[..i] == diagnostics;
    return Ok(events);
  }

  /** The body of detect_events' outer loop for one run: the inner loop over
      the violation pairs, which appends a constraint violation and breaks at
      the first pair above the threshold, then the peak_R event. */
  method AppendRunEvents(events: seq<Event>, run: Value, thresh: real) returns (r: Result<seq<Event>>)
    ensures r == if RunEvents(run, thresh).Err? then Err(RunEvents(run, thresh).error)
                 else Ok(events + RunEvents(run, thresh).value)
  {
    if !run.Obj? {
      return Err(AttributeError);
    }
    var params := GetOr(run.fields, "parameters", Obj([]));
    var iterated := Iterate(GetOr(run.fields, "violations", Arr([])));
    if iterated.Err? {
      return Err(iterated.error);
    }
    var items := iterated.value;
    var out := events;
    ghost var found: Option<Value> := None;
    ghost var block: seq<Event> := [];
    var j := 0;
    while j < |items|
      invariant 0 <= j <= |items|
      invariant FirstViolation(items[j..], thresh) == FirstViolation(items, thresh)
      invariant out == events && found == None && block == []
    {
      var pair := Unpack2(items[j]);
      if pair.Err? {
        return Err(pair.error);
      }
      var (t, val) := pair.value;
      var above := GreaterThan(val, thresh);
      if above.Err? {
        return Err(above.error);
      }
      if above.value {
        out := out + [Event(ConstraintViolation, t, params)];
        found := Some(t);
        block := [Event(ConstraintViolation, t, params)];
        break;
      }
      assert items[j..][1..] == items[j + 1..];
      j := j + 1;
    }
    assert ViolationScan(run.fields, thresh) == Ok(found);
    assert out == events + block;
    var peak := Event(PeakR, GetOr(run.fields, "time_of_max_R", Null), params);
    if found.Some? {
      assert block + [peak] == [Event(ConstraintViolation, found.value, params), peak];
    } else {
      assert block + [peak] == [peak];
    }
    assert RunEvents(run, thresh) == Ok(block + [peak]);
    out := out + [peak];
    assert out == events + (block + [peak]);
    return Ok(out);
  }

  // -------------------------------------------------------------- counting

  function Count(events: seq<Event>, kind: EventKind): nat {
    if events == [] then 0
    else Count(events[..|events| - 1], kind) + (if events[|events| - 1].kind == kind then 1 else 0)
  }

  lemma {:induction false} CountAppend(a: seq<Event>, b: seq<Event>, kind: EventKind)
    ensures Count(a + b, kind) == Count(a, kind) + Count(b, kind)
  {
    if b == [] {
      assert a + b == a;
    } else {
      assert (a + b)[..|a + b| - 1] == a + b[..|b| - 1];
      CountAppend(a, b[..|b| - 1], kind);
    }
  }

  /** The run is a dict whose scan found a pair above the threshold. */
  predicate HasViolation(run: Value, thresh: real) {
    run.Obj? && ViolationScan(run.fields, thresh) != Ok(None) && ViolationScan(run.fields, thresh).Ok?
  }

  /** How many runs have a pair above the threshold. */
  function ViolatingRuns(d: seq<Value>, thresh: real): (n: nat)
    ensures n <= |d|
  {
    if d == [] then 0
    else ViolatingRuns(d[..|d| - 1], thresh) + (if HasViolation(d[|d| - 1], thresh) then 1 else 0)
  }

  /** The counts within one run's block. */
  lemma BlockCounts(run: Value, thresh: real)
    requires RunEvents(run, thresh).Ok?
    ensures var block := RunEvents(run, thresh).value;
      && Count(block, PeakR) == 1
      && Count(block, ConstraintViolation) == (if HasViolation(run, thresh) then 1 else 0)
      && |block| == 1 + Count(block, ConstraintViolation)
  {
    var block := RunEvents(run, thresh).value;
    assert Count([], PeakR) == 0 && Count([], ConstraintViolation) == 0;
    if |block| == 2 {
      assert block[..1] == [block[0]] && [block[0]][..0] == [];
      assert Count([block[0]], PeakR) == 0 && Count([block[0]], ConstraintViolation) == 1;
    } else {
      assert block[..0] == [];
    }
  }

  /** Exactly one peak_R event per run, one constraint violation per run
      that has a pair above the threshold, and no other event. */
  lemma {:induction false} EventCounts(d: seq<Value>, thresh: real, evs: seq<Event>)
    requires Detect(d, thresh) == Ok(evs)
    ensures Count(evs, PeakR) == |d|
    ensures Count(evs, ConstraintViolation) == ViolatingRuns(d, thresh)
    ensures |evs| == |d| + ViolatingRuns(d, thresh)
  {
    if d != [] {
      var init, run := d[..|d| - 1], d[|d| - 1];
      assert init + [run] == d;
      DetectSnoc(init, run, thresh);
      var a, b := Detect(init, thresh).value, RunEvents(run, thresh).value;
      assert evs == a + b;
      EventCounts(init, thresh, a);
      BlockCounts(run, thresh);
      CountAppend(a, b, PeakR);
      CountAppend(a, b, ConstraintViolation);
      var v := if HasViolation(run, thresh) then 1 else 0;
      assert ViolatingRuns(d, thresh) == ViolatingRuns(init, thresh) + v;
      assert |b| == 1 + v;
    }
  }

  /** Hence between n and 2n events for n runs. */
  lemma EventCountBounds(d: seq<Value>, thresh: real, evs: seq<Event>)
    requires Detect(d, thresh) == Ok(evs)
    ensures |d| <= |evs| <= 2 * |d|
  {
    EventCounts(d, thresh, evs);
  }

  // ------------------------------------------------------------ rendering

  /** One timeline line: `- at t=<time>: <event> for params <params>`, where
      show is Python's str() of a value. */
  function TimelineLine(e: Event, show: Value -> string): string {
    "- at t=" + show(e.time) + ": " + KindName(e.kind) + " for params " + show(e.params)
  }

  /** The header line, then one line per event in event order. */
  function TimelineLines(events: seq<Event>, show: Value -> string): (lines: seq<string>)
    ensures |lines| == |events| + 1 && lines[0] == "timeline:"
    ensures forall i :: 0 <= i < |events| ==> lines[i + 1] == TimelineLine(events[i], show)
  {
    ["timeline:"] + seq(|events|, i requires 0 <= i < |events| => TimelineLine(events[i], show))
  }

  /** to_am_timeline's text: the lines joined by newlines. */
  function Timeline(events: seq<Event>, show: Value -> string): string {
    Join(TimelineLines(events, show), "\n")
  }

  lemma TimelineLinesSnoc(events: seq<Event>, e: Event, show: Value -> string)
    ensures TimelineLines(events + [e], show) == TimelineLines(events, show) + [TimelineLine(e, show)]
  {
    var a, b := TimelineLines(events + [e], show), TimelineLines(events, show) + [TimelineLine(e, show)];
    assert |a| == |b|;
    forall i | 0 <= i < |a| ensures a[i] == b[i] {
      if 0 < i <= |events| {
        assert (events + [e])[i - 1] == events[i - 1];
      }
    }
  }

  /** to_am_timeline: appends one line per event after the header, then
      joins. */
  method ToAmTimeline(events: seq<Event>, show: Value -> string) returns (text: string)
    ensures text == Timeline(events, show)
  {
    var lines := ["timeline:"];
    for i := 0 to |events|
      invariant lines == TimelineLines(events[..i], show)
    {
      assert events[..i + 1] == events[..i] + [events[i]];
      TimelineLinesSnoc(events[..i], events[i], show);
      lines := lines + [TimelineLine(events[i], show)];
    }
    assert events[..|events|] == events;
    text := Join(lines, "\n");
  }

  /** Every event's time and params render without a newline. */
  predicate OneLineEach(events: seq<Event>, show: Value -> string) {
    forall i :: 0 <= i < |events| ==> '\n' !in show(events[i].time) && '\n' !in show(events[i].params)
  }

  lemma LineAvoidsNewline(e: Event, show: Value -> string)
    requires '\n' !in show(e.time) && '\n' !in show(e.params)
    ensures '\n' !in TimelineLine(e, show)
  {
    assert '\n' !in "- at t=" && '\n' !in ": " && '\n' !in " for params ";
    assert '\n' !in KindName(e.kind);
  }

  /** The timeline starts with `timeline:`; when every event's time and
      params render on one line, its lines are the header and one line per
      event, in order, with no trailing newline. */
  lemma TimelineShape(events: seq<Event>, show: Value -> string)
    ensures |Timeline(events, show)| >= 9 && Timeline(events, show)[..9] == "timeline:"
    ensures OneLineEach(events, show) ==> Split(Timeline(events, show), '\n') == TimelineLines(events, show)
  {
    var lines := TimelineLines(events, show);
    JoinStartsWithFirst(lines, "\n");
    if OneLineEach(events, show) {
      forall i | 0 <= i < |lines| ensures '\n' !in lines[i] {
        if i > 0 {
          LineAvoidsNewline(events[i - 1], show);
        }
      }
      SplitJoin(lines, '\n');
    }
  }

  // ----------------------------------------------------------- the script

  /** `json.dumps(ev)` is left abstract: the record is the event dict. */
  function EventRecord(e: Event): Value {
    Obj([("event", Str(KindName(e.kind))), ("time", e.time), ("params", e.params)])
  }

  /** main: detect once, then write the records and the timeline from the
      same event list. */
  function Assemble(diagnostics: seq<Value>, show: Value -> string): Result<Artifacts> {
    var events :- Detect(diagnostics, DefaultThreshold);
    Ok(Artifacts(seq(|events|, i requires 0 <= i < |events| => EventRecord(events[i])), Timeline(events, show)))
  }

  method AssembleOutputs(diagnostics: seq<Value>, show: Value -> string) returns (r: Result<Artifacts>)
    ensures r == Assemble(diagnostics, show)
  {
    var detected := DetectEvents(diagnostics, DefaultThreshold);
    if detected.Err? {
      return Err(detected.error);
    }
    var events := detected.value;
    var records := [];
    for i := 0 to |events|
      invariant records == seq(i, k requires 0 <= k < i => EventRecord(events[k]))
    {
      records := records + [EventRecord(events[i])];
    }
    var text := ToAmTimeline(events, show);
    return Ok(Artifacts(records, text));
  }

  /** The two outputs agree: record i is event i and, when the events render
      on one line each, the timeline has one line more than there are
      records (its header) and line i + 1 renders the event of record i. */
  lemma OutputsAgree(diagnostics: seq<Value>, show: Value -> string)
    requires Assemble(diagnostics, show).Ok?
    ensures var out := Assemble(diagnostics, show).value;
      var events := Detect(diagnostics, DefaultThreshold).value;
      && |out.records| == |events|
      && forall i :: 0 <= i < |events| ==> out.records[i] == EventRecord(events[i])
    ensures var out := Assemble(diagnostics, show).value;
      var events := Detect(diagnostics, DefaultThreshold).value;
      var lines := Split(out.text, '\n');
      OneLineEach(events, show) ==>
        && |lines| == |out.records| + 1
        && lines[0] == "timeline:"
        && forall i :: 0 <= i < |events| ==> lines[i + 1] == TimelineLine(events[i], show)
  {
    TimelineShape(Detect(diagnostics, DefaultThreshold).value, show);
  }

  // ------------------------------------------------------------- examples

  /** A run without violations gives a single peak_R event; its params are
      {} because the record has no 'parameters' key, and its time is None. */
  lemma MinkowskiExample()
    ensures Detect([Obj([("name", Str("Minkowski")), ("max_R", Num(0.0)), ("peak_R2", Num(0.0)), ("violations", Arr([]))])], DefaultThreshold)
      == Ok([Event(PeakR, Null, Obj([]))])
  {
    var run := Obj([("name", Str("Minkowski")), ("max_R", Num(0.0)), ("peak_R2", Num(0.0)), ("violations", Arr([]))]);
    DetectOne(run, DefaultThreshold);
  }

  /** A pair above the threshold gives a violation at its time, then the
      peak. */
  lemma PairAboveThresholdExample()
    ensures Detect([Obj([("name", Str("X")), ("violations", Arr([Arr([Num(1.0), Num(0.001)])])), ("max_R", Num(2.0))])], DefaultThreshold)
      == Ok([Event(ConstraintViolation, Num(1.0), Obj([])), Event(PeakR, Null, Obj([]))])
  {
    var run := Obj([("name", Str("X")), ("violations", Arr([Arr([Num(1.0), Num(0.001)])])), ("max_R", Num(2.0))]);
    DetectOne(run, DefaultThreshold);
  }

  /** solver.py's fallback for an unknown test type reports its violation
      as a message string. The pair unpacking rejects a message with
      ValueError, except a two-character one, which unpacks into two
      characters and then fails the comparison with TypeError. */
  lemma MessageViolationRaises(msg: string, rest: seq<Value>)
    ensures Detect([Obj([("violations", Arr([Str(msg)] + rest))])], DefaultThreshold)
      == Err(if |msg| == 2 then TypeError else ValueError)
  {
    var items := [Str(msg)] + rest;
    FirstViolationFailsAt(items, DefaultThreshold, 0);
    DetectOne(Obj([("violations", Arr(items))]), DefaultThreshold);
  }
}
