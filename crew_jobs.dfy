/**
 * The job bookkeeping of app.py: `submit_requirements` creates a job record,
 * `run_crew_background` drives it from "starting" to "completed" or
 * "error", and `get_status` / `get_results` look records up.
 *
 * The two module-level dictionaries `crew_status` and `crew_results` are the
 * fields of a `JobRegistry`. The background thread is modelled as a method
 * that runs to completion; the crew libraries it calls are the abstract
 * `Collaborators`.
 */
module CrewJobs {
  import opened Wrappers
  import opened PyText
  import CrewReport
  import JsonValues

  // ---------------------------------------------------------------------
  // Job records

  datatype Status = Starting | Running | Completed | Error

  /** The text stored in the record's 'status' entry. */
  function StatusName(s: Status): (r: string)
    ensures r != []
  {
    match s
    case Starting => "starting"
    case Running => "running"
    case Completed => "completed"
    case Error => "error"
  }

  /** A record of `crew_status`; `None` is Python's None. */
  datatype JobRecord = JobRecord(
    status: Status,
    progress: nat,
    currentTask: string,
    results: Option<string>,
    error: Option<string>)

  /** The record `submit_requirements` creates. */
  const InitialRecord := JobRecord(Starting, 0, "Initializing...", None, None)

  /** The four form fields, as passed to the crew and to the formatter. */
  datatype Inputs = Inputs(requirements: string, carType: string, budget: string, state: string)

  // ---------------------------------------------------------------------
  // The executor as a sequence of record states

  /** What the crew's `kickoff` does: return a result, or raise with a message. */
  datatype Outcome = Returned(output: CrewReport.CrewOutput) | Raised(message: string)

  /**
   * How the import cascade ends: a crew class is imported; every module it
   * tries raises `ImportError`, and the cascade raises again with the last
   * message behind a prefix; or some other exception (a module body that
   * raises while it is imported, a status `print` that fails) leaves the
   * cascade unchanged.
   */
  datatype ImportOutcome =
    | Imported
    | NoCrewModule(lastError: string)
    | ImportRaised(message: string)

  /** The message of the exception that leaves a failed import cascade. */
  function ImportFailure(i: ImportOutcome): string
    requires !i.Imported?
  {
    match i
    case NoCrewModule(e) => "Failed to import any CrewAI module: " + e
    case ImportRaised(m) => m
  }

  /**
   * The behaviour of the code the executor calls but that is not modelled:
   * how the import cascade ends, whether building the crew raises (with
   * its message), what `kickoff` does, and whether formatting raises.
   */
  datatype Collaborators = Collaborators(
    imports: ImportOutcome,
    createError: Option<string>,
    kickoff: Outcome,
    formatterRaises: bool)

  /** The raw fallback when formatting fails: `str(result) if result else "No results generated"`. */
  function Fallback(out: CrewReport.CrewOutput): string {
    match out
    case Falsy => "No results generated"
    case Truthy(t) => t
  }

  /** The message of the exception that ends the run, if one does. */
  function Failure(c: Collaborators): (r: Option<string>)
    ensures r == None <==> c.imports == Imported && c.createError == None && c.kickoff.Returned?
    ensures c.imports.ImportRaised? ==> r == Some(c.imports.message)
  {
    if !c.imports.Imported? then Some(ImportFailure(c.imports))
    else if c.createError.Some? then Some("Failed to create crew: " + c.createError.value)
    else if c.kickoff.Raised? then Some("Crew execution failed: " + c.kickoff.message)
    else None
  }

  /** The text stored as the results of a run that gets past `kickoff`. */
  function Stored(c: Collaborators, inputs: Inputs, date: string): string
    requires c.kickoff.Returned?
  {
    var out := c.kickoff.output;
    if c.formatterRaises then Fallback(out)
    else CrewReport.Report(out, inputs.requirements, inputs.carType, inputs.budget, inputs.state, date)
  }

  /**
   * The `try`/`except` around `format_crew_results`: the formatted report,
   * or, when formatting raises, the raw output or "No results generated".
   * This is the executable step the executor runs: it calls the
   * `FormatCrewResults` method, whose loops are proved separately, and
   * `Stored` is its specification, which the contracts of the run use.
   */
  method ResultText(c: Collaborators, inputs: Inputs, date: string) returns (text: string)
    requires c.kickoff.Returned?
    ensures text == Stored(c, inputs, date)
  {
    var out := c.kickoff.output;
    if c.formatterRaises {
      text := Fallback(out);
    } else {
      text := CrewReport.FormatCrewResults(out, inputs.requirements, inputs.carType, inputs.budget,
                                           inputs.state, date);
    }
  }

  /** The record after `progress = p` and then `current_task = task`. */
  function Advanced(r: JobRecord, p: nat, task: string): JobRecord {
    r.(progress := p, currentTask := task)
  }

  /** The records written when a phase starts: progress, then task. */
  function AdvanceSteps(r: JobRecord, p: nat, task: string): seq<JobRecord> {
    [r.(progress := p), Advanced(r, p, task)]
  }

  /** The record after the outer `except` ran with message `msg`. */
  function Failed(r: JobRecord, msg: string): JobRecord {
    r.(status := Error, error := Some(msg), currentTask := "Error: " + msg)
  }

  /** The records written by the outer `except`: status, then error, then task. */
  function FailSteps(r: JobRecord, msg: string): seq<JobRecord> {
    var e1 := r.(status := Error);
    var e2 := e1.(error := Some(msg));
    [e1, e2, Failed(r, msg)]
  }

  /** The record after a run completed with results `text`. */
  function Done(r: JobRecord, text: string): JobRecord {
    r.(status := Completed, progress := 100, currentTask := "Analysis complete!", results := Some(text))
  }

  /** The records written on completion: status, progress, task, then results. */
  function DoneSteps(r: JobRecord, text: string): seq<JobRecord> {
    var d1 := r.(status := Completed);
    var d2 := d1.(progress := 100);
    var d3 := d2.(currentTask := "Analysis complete!");
    [d1, d2, d3, Done(r, text)]
  }

  /** The record once the third phase, researching the market, has started. */
  function Researching(r0: JobRecord): JobRecord {
    var start := r0.(status := Running);
    var analyzing := Advanced(start, 10, "Analyzing requirements...");
    var creating := Advanced(analyzing, 20, "Creating AI crew...");
    Advanced(creating, 30, "Researching vehicle market...")
  }

  /**
   * The successive values of `crew_status[session_id]` while
   * `run_crew_background` runs from record `r0` up to the end of `kickoff`:
   * one entry per field it assigns, in the order it assigns them,
   * including the error handler's when something raised.
   */
  function StartTrace(r0: JobRecord, c: Collaborators): seq<JobRecord> {
    var start := r0.(status := Running);
    var analyzing := Advanced(start, 10, "Analyzing requirements...");
    var creating := Advanced(analyzing, 20, "Creating AI crew...");
    var researching := Advanced(creating, 30, "Researching vehicle market...");
    if !c.imports.Imported? then
      [start] + AdvanceSteps(start, 10, "Analyzing requirements...")
      + FailSteps(analyzing, Failure(c).value)
    else if c.createError.Some? then
      [start] + AdvanceSteps(start, 10, "Analyzing requirements...")
      + AdvanceSteps(analyzing, 20, "Creating AI crew...")
      + FailSteps(creating, Failure(c).value)
    else if c.kickoff.Raised? then
      [start] + AdvanceSteps(start, 10, "Analyzing requirements...")
      + AdvanceSteps(analyzing, 20, "Creating AI crew...")
      + AdvanceSteps(creating, 30, "Researching vehicle market...")
      + FailSteps(researching, Failure(c).value)
    else
      [start] + AdvanceSteps(start, 10, "Analyzing requirements...")
      + AdvanceSteps(analyzing, 20, "Creating AI crew...")
      + AdvanceSteps(creating, 30, "Researching vehicle market...")
  }

  /**
   * The successive values of `crew_status[session_id]` during a whole
   * run from `r0`; `text` is what the formatting step yields when the run
   * gets that far.
   */
  function RunTrace(r0: JobRecord, c: Collaborators, text: string): seq<JobRecord> {
    if Failure(c) == None then StartTrace(r0, c) + DoneSteps(Researching(r0), text)
    else StartTrace(r0, c)
  }

  /** The last element of a non-empty sequence. */
  function Last<T>(s: seq<T>): T
    requires |s| >= 1
  {
    s[|s| - 1]
  }

  // ---------------------------------------------------------------------
  // Properties of a run

  /** The progress values a job can show. */
  predicate IsProgressValue(p: nat) {
    p == 0 || p == 10 || p == 20 || p == 30 || p == 100
  }

  /** How far along the status order a status is. */
  function StatusRank(s: Status): nat {
    match s
    case Starting => 0
    case Running => 1
    case Completed => 2
    case Error => 2
  }

  predicate IsTerminal(s: Status) {
    s == Completed || s == Error
  }

  /**
   * One state change of the record moves forward: the new progress is one
   * of 0, 10, 20, 30, 100 and not below the old one, the status does not
   * move back, a starting record moves to running (never straight to an
   * end), and a terminal status stays the same.
   */
  predicate Step(a: JobRecord, b: JobRecord) {
    && IsProgressValue(b.progress)
    && a.progress <= b.progress
    && StatusRank(a.status) <= StatusRank(b.status)
    && (a.status == Starting ==> b.status == Running)
    && (IsTerminal(a.status) ==> b.status == a.status)
  }

  /** Every state change along `t` moves forward. */
  predicate MovesForward(t: seq<JobRecord>) {
    forall i :: 0 <= i < |t| - 1 ==> Step(t[i], t[i + 1])
  }

  /**
   * Along a trace that moves forward, progress never decreases, and every
   * progress after a valid one is again one of 0, 10, 20, 30, 100.
   */
  lemma {:induction false} ProgressMonotone(t: seq<JobRecord>, i: int, j: int)
    requires MovesForward(t)
    requires 0 <= i <= j < |t|
    ensures t[i].progress <= t[j].progress
    ensures IsProgressValue(t[i].progress) ==> IsProgressValue(t[j].progress)
    decreases j - i
  {
    if i < j {
      assert Step(t[i], t[i + 1]);
      ProgressMonotone(t, i + 1, j);
    }
  }

  /** Gluing two traces that move forward and share their joint state. */
  lemma GlueForward(s: seq<JobRecord>, u: seq<JobRecord>)
    requires |s| >= 1 && MovesForward(s) && MovesForward([Last(s)] + u)
    ensures MovesForward(s + u)
  {
    var w := [Last(s)] + u;
    forall i | 0 <= i < |s + u| - 1 ensures Step((s + u)[i], (s + u)[i + 1]) {
      if i >= |s| - 1 {
        assert (s + u)[i] == w[i - |s| + 1] && (s + u)[i + 1] == w[i - |s| + 2];
      }
    }
  }

  lemma Forward2(a: JobRecord, b: JobRecord)
    requires Step(a, b)
    ensures MovesForward([a, b])
  {
  }

  /** Prepending a state that steps to the head keeps a trace moving forward. */
  lemma ConsForward(a: JobRecord, t: seq<JobRecord>)
    requires |t| >= 1 && Step(a, t[0]) && MovesForward(t)
    ensures MovesForward([a] + t)
  {
    Forward2(a, t[0]);
    GlueForward([a, t[0]], t[1..]);
    assert [a, t[0]] + t[1..] == [a] + t;
  }

  lemma AdvanceForward(r: JobRecord, p: nat, task: string)
    requires IsProgressValue(p) && r.progress <= p && r.status == Running
    ensures MovesForward([r] + AdvanceSteps(r, p, task))
  {
    var t := AdvanceSteps(r, p, task);
    Forward2(t[0], t[1]);
    assert [t[0], t[1]] == t;
    ConsForward(r, t);
  }

  lemma FailStepsForward(r: JobRecord, msg: string)
    requires IsProgressValue(r.progress) && r.status == Running
    ensures MovesForward([r] + FailSteps(r, msg))
    ensures Last([r] + FailSteps(r, msg)) == Failed(r, msg)
  {
    var t := FailSteps(r, msg);
    Forward2(t[1], t[2]);
    assert [t[1], t[2]] == t[1..];
    ConsForward(t[0], t[1..]);
    assert [t[0]] + t[1..] == t;
    ConsForward(r, t);
  }

  lemma DoneStepsForward(r: JobRecord, text: string)
    requires IsProgressValue(r.progress) && r.progress <= 100 && r.status == Running
    ensures MovesForward([r] + DoneSteps(r, text))
    ensures Last([r] + DoneSteps(r, text)) == Done(r, text)
  {
    var t := DoneSteps(r, text);
    Forward2(t[2], t[3]);
    assert [t[2], t[3]] == t[2..];
    ConsForward(t[1], t[2..]);
    assert [t[1]] + t[2..] == t[1..];
    ConsForward(t[0], t[1..]);
    assert [t[0]] + t[1..] == t;
    ConsForward(r, t);
  }

  /** Extending a trace by the records of a phase that starts from its last record. */
  lemma PhaseForward(s: seq<JobRecord>, p: nat, task: string)
    requires |s| >= 1 && MovesForward(s)
    requires IsProgressValue(p) && Last(s).progress <= p && Last(s).status == Running
    ensures MovesForward(s + AdvanceSteps(Last(s), p, task))
    ensures Last(s + AdvanceSteps(Last(s), p, task)) == Advanced(Last(s), p, task)
  {
    AdvanceForward(Last(s), p, task);
    GlueForward(s, AdvanceSteps(Last(s), p, task));
  }

  /**
   * A job started from the record `submit_requirements` creates moves
   * forward: progress only through 0, 10, 20, 30, 100 and never down,
   * status from starting to running to completed or error, and the
   * last state is terminal.
   */
  lemma RunMovesForward(c: Collaborators, text: string)
    ensures var t := [InitialRecord] + RunTrace(InitialRecord, c, text);
      && MovesForward(t)
      && IsTerminal(Last(t).status)
  {
    var start := InitialRecord.(status := Running);
    var analyzing := Advanced(start, 10, "Analyzing requirements...");
    var creating := Advanced(analyzing, 20, "Creating AI crew...");
    var researching := Advanced(creating, 30, "Researching vehicle market...");
    var s0 := [start];
    PhaseForward(s0, 10, "Analyzing requirements...");
    var s1 := s0 + AdvanceSteps(start, 10, "Analyzing requirements...");
    var run := RunTrace(InitialRecord, c, text);
    if !c.imports.Imported? {
      FailStepsForward(analyzing, Failure(c).value);
      GlueForward(s1, FailSteps(analyzing, Failure(c).value));
      assert run == s1 + FailSteps(analyzing, Failure(c).value);
    } else {
      PhaseForward(s1, 20, "Creating AI crew...");
      var s2 := s1 + AdvanceSteps(analyzing, 20, "Creating AI crew...");
      if c.createError.Some? {
        FailStepsForward(creating, Failure(c).value);
        GlueForward(s2, FailSteps(creating, Failure(c).value));
        assert run == s2 + FailSteps(creating, Failure(c).value);
      } else {
        PhaseForward(s2, 30, "Researching vehicle market...");
        var s3 := s2 + AdvanceSteps(creating, 30, "Researching vehicle market...");
        if c.kickoff.Raised? {
          FailStepsForward(researching, Failure(c).value);
          GlueForward(s3, FailSteps(researching, Failure(c).value));
          assert run == s3 + FailSteps(researching, Failure(c).value);
        } else {
          DoneStepsForward(researching, text);
          GlueForward(s3, DoneSteps(researching, text));
          assert StartTrace(InitialRecord, c) == s3;
        }
      }
    }
    ConsForward(InitialRecord, run);
  }

  /**
   * How a run ends: completed exactly when nothing raised, with progress
   * 100, the task "Analysis complete!" and the stored text as results;
   * otherwise in error with the exception's message, the task
   * "Error: " + message, and the results the record had before.
   */
  lemma RunOutcome(r0: JobRecord, c: Collaborators, text: string)
    ensures var last := Last(RunTrace(r0, c, text));
      && (last.status == Completed <==> Failure(c) == None)
      && (last.status == Completed ==>
            && last.progress == 100
            && last.currentTask == "Analysis complete!"
            && last.results == Some(text)
            && last.error == r0.error)
      && (last.status != Completed ==>
            && last.status == Error
            && last.error == Failure(c)
            && last.currentTask == "Error: " + Failure(c).value
            && last.results == r0.results)
  {
  }

  /**
   * A job started from a fresh record that fails keeps `results` None; one
   * that completes has results, whether or not formatting raised.
   */
  lemma FreshRunResults(c: Collaborators, text: string)
    ensures var last := Last(RunTrace(InitialRecord, c, text));
      && (last.status == Error ==> last.results == None && last.error.Some?)
      && (last.status == Completed ==> last.results.Some? && last.error == None)
  {
    RunOutcome(InitialRecord, c, text);
  }

  /**
   * The stored results of a formatted run hold the analysis transcript
   * verbatim, and so does the raw fallback.
   */
  lemma StoredKeepsTranscript(c: Collaborators, inputs: Inputs, date: string)
    requires c.kickoff.Returned? && c.kickoff.output.Truthy?
    ensures Contains(Stored(c, inputs, date), c.kickoff.output.text)
  {
    var t := c.kickoff.output.text;
    if c.formatterRaises {
      ContainsSelf(t);
    } else {
      CrewReport.ReportKeepsTranscript(t, inputs.requirements, inputs.carType, inputs.budget,
                                       inputs.state, date);
    }
  }

  // ---------------------------------------------------------------------
  // JSON views of records

  function OptionValue(o: Option<string>): JsonValues.PyValue {
    match o
    case None => JsonValues.PyNone
    case Some(s) => JsonValues.PyStr(s)
  }

  /** The record as the dict `crew_status[session_id]`. */
  function RecordValue(r: JobRecord): (v: JsonValues.PyValue)
    ensures JsonValues.Serializable(v)
  {
    var entries := [
      (JsonValues.PyStr("status"), JsonValues.PyStr(StatusName(r.status))),
      (JsonValues.PyStr("progress"), JsonValues.PyInt(r.progress)),
      (JsonValues.PyStr("current_task"), JsonValues.PyStr(r.currentTask)),
      (JsonValues.PyStr("results"), OptionValue(r.results)),
      (JsonValues.PyStr("error"), OptionValue(r.error))];
    assert forall i :: 0 <= i < |entries| ==> entries[i].0.PyStr? && JsonValues.IsScalar(entries[i].1);
    JsonValues.FlatDictSerializable(entries);
    JsonValues.PyDict(entries)
  }

  /** Serializing a record returns the record's dict unchanged. */
  lemma SerializedRecord(r: JobRecord)
    ensures JsonValues.MakeJsonSerializable(RecordValue(r)) == RecordValue(r)
  {
    JsonValues.ConvertedIsFixpoint(RecordValue(r));
  }

  // ---------------------------------------------------------------------
  // Responses

  /**
   * The answer to a submission: a started session, the error text of a
   * rejected request (HTTP 400), or the text of an exception the handler
   * caught (HTTP 500).
   */
  datatype SubmitResponse = Started(sessionId: string) | Rejected(error: string) | ServerError(error: string)

  /** The answer to a status query: the serialized record, or the error text (HTTP 404). */
  datatype StatusResponse = StatusFound(status: JsonValues.PyValue) | StatusMissing(error: string)

  /** The answer to a results query: results and serialized record, or the error text (HTTP 404). */
  datatype ResultsResponse =
    | ResultsFound(results: string, status: JsonValues.PyValue)
    | ResultsMissing(error: string)

  /** Python's `all([...])` over the four form fields: every one is non-empty. */
  predicate AllGiven(inputs: Inputs) {
    inputs.requirements != [] && inputs.carType != [] && inputs.budget != [] && inputs.state != []
  }

  /** The session id built from a timestamp text "YYYYmmdd_HHMMSS". */
  function SessionId(stamp: string): (id: string)
    ensures StartsWith(id, "session_") && |id| == 8 + |stamp|
  {
    "session_" + stamp
  }

  // ---------------------------------------------------------------------
  // Sequence bookkeeping

  lemma AppendAssoc<T>(h: seq<T>, a: seq<T>, b: seq<T>)
    ensures h + a + b == h + (a + b)
  {
  }

  lemma SnocTwo<T>(h: seq<T>, a: T, b: T)
    ensures h + [a] + [b] == h + [a, b]
  {
  }

  lemma SnocThree<T>(h: seq<T>, a: T, b: T, c: T)
    ensures h + [a] + [b] + [c] == h + [a, b, c]
  {
  }

  lemma SnocFour<T>(h: seq<T>, a: T, b: T, c: T, d: T)
    ensures h + [a] + [b] + [c] + [d] == h + [a, b, c, d]
  {
  }

  // ---------------------------------------------------------------------
  // Job entries

  /**
   * One dict `crew_status[session_id]`, which the executor updates entry
   * by entry. `history` holds every value the record has had, oldest first.
   */
  class JobEntry {
    var status: Status
    var progress: nat
    var currentTask: string
    var results: Option<string>
    var error: Option<string>
    ghost var history: seq<JobRecord>

    /** The entry's current content. */
    function Value(): JobRecord
      reads this
    {
      JobRecord(status, progress, currentTask, results, error)
    }

    ghost predicate Valid()
      reads this
    {
      |history| >= 1 && Last(history) == Value()
    }

    /** The record `submit_requirements` creates. */
    constructor ()
      ensures Valid() && Value() == InitialRecord && history == [InitialRecord]
    {
      status, progress, currentTask, results, error := Starting, 0, "Initializing...", None, None;
      history := [InitialRecord];
    }

    /** One assignment `crew_status[session_id]['status'] = s`, recorded in the history. */
    method SetStatus(s: Status)
      requires Valid()
      modifies this
      ensures Valid() && Value() == old(Value()).(status := s) && history == old(history) + [Value()]
    {
      status := s;
      history := history + [Value()];
    }

    /** One assignment to `'progress'`, recorded in the history. */
    method SetProgress(p: nat)
      requires Valid()
      modifies this
      ensures Valid() && Value() == old(Value()).(progress := p) && history == old(history) + [Value()]
    {
      progress := p;
      history := history + [Value()];
    }

    /** One assignment to `'current_task'`, recorded in the history. */
    method SetTask(task: string)
      requires Valid()
      modifies this
      ensures Valid() && Value() == old(Value()).(currentTask := task) && history == old(history) + [Value()]
    {
      currentTask := task;
      history := history + [Value()];
    }

    /** One assignment to `'results'`, recorded in the history. */
    method SetResults(text: string)
      requires Valid()
      modifies this
      ensures Valid() && Value() == old(Value()).(results := Some(text)) && history == old(history) + [Value()]
    {
      results := Some(text);
      history := history + [Value()];
    }

    /** One assignment to `'error'`, recorded in the history. */
    method SetError(msg: string)
      requires Valid()
      modifies this
      ensures Valid() && Value() == old(Value()).(error := Some(msg)) && history == old(history) + [Value()]
    {
      error := Some(msg);
      history := history + [Value()];
    }

    /** The start of a phase: `progress = p`, then `current_task = task`. */
    method Advance(p: nat, task: string)
      requires Valid()
      modifies this
      ensures Valid() && Value() == Advanced(old(Value()), p, task)
      ensures history == old(history) + AdvanceSteps(old(Value()), p, task)
    {
      ghost var h := history;
      SetProgress(p);
      ghost var x := Value();
      SetTask(task);
      SnocTwo(h, x, Value());
    }

    /** The outer `except`: status 'error', the message, and the task "Error: " + message. */
    method Fail(msg: string)
      requires Valid()
      modifies this
      ensures Valid() && Value() == Failed(old(Value()), msg)
      ensures history == old(history) + FailSteps(old(Value()), msg)
    {
      ghost var h := history;
      SetStatus(Error);
      ghost var x := Value();
      SetError(msg);
      ghost var y := Value();
      SetTask("Error: " + msg);
      SnocThree(h, x, y, Value());
    }

    /**
     * `run_crew_background` up to the end of `kickoff`: status 'running'
     * and the three phases, each of which may raise; an exception ends
     * in the error handler. `reached` says whether `kickoff` returned.
     */
    method Start(c: Collaborators) returns (reached: bool)
      requires Valid()
      modifies this
      ensures Valid()
      ensures reached <==> Failure(c) == None
      ensures reached ==> Value() == Researching(old(Value()))
      ensures history == old(history) + StartTrace(old(Value()), c)
    {
      ghost var h0 := history;
      ghost var r := Value();
      SetStatus(Running);
      ghost var done := [Value()];
      r := Value();
      Advance(10, "Analyzing requirements...");
      AppendAssoc(h0, done, AdvanceSteps(r, 10, "Analyzing requirements..."));
      done, r := done + AdvanceSteps(r, 10, "Analyzing requirements..."), Value();
      if !c.imports.Imported? {
        Fail(ImportFailure(c.imports));
        AppendAssoc(h0, done, FailSteps(r, Failure(c).value));
        return false;
      }
      Advance(20, "Creating AI crew...");
      AppendAssoc(h0, done, AdvanceSteps(r, 20, "Creating AI crew..."));
      done, r := done + AdvanceSteps(r, 20, "Creating AI crew..."), Value();
      if c.createError.Some? {
        Fail("Failed to create crew: " + c.createError.value);
        AppendAssoc(h0, done, FailSteps(r, Failure(c).value));
        return false;
      }
      Advance(30, "Researching vehicle market...");
      AppendAssoc(h0, done, AdvanceSteps(r, 30, "Researching vehicle market..."));
      done, r := done + AdvanceSteps(r, 30, "Researching vehicle market..."), Value();
      if c.kickoff.Raised? {
        Fail("Crew execution failed: " + c.kickoff.message);
        AppendAssoc(h0, done, FailSteps(r, Failure(c).value));
        return false;
      }
      reached := true;
    }

    /** Completion: status 'completed', progress 100, the task "Analysis complete!", the results. */
    method Finish(text: string)
      requires Valid()
      modifies this
      ensures Valid() && Value() == Done(old(Value()), text)
      ensures history == old(history) + DoneSteps(old(Value()), text)
    {
      ghost var h := history;
      SetStatus(Completed);
      ghost var x := Value();
      SetProgress(100);
      ghost var y := Value();
      SetTask("Analysis complete!");
      ghost var z := Value();
      SetResults(text);
      SnocFour(h, x, y, z, Value());
    }
  }

  // ---------------------------------------------------------------------
  // The registry

  class JobRegistry {
    /** `crew_status`: session id to job record. */
    var crewStatus: map<string, JobEntry>
    /** `crew_results`: session id to the text a completed run stored. */
    var crewResults: map<string, string>

    /**
     * Every record is well formed, each session has a record of its own
     * (two ids never share one), and results are only stored for sessions
     * that have a record.
     */
    ghost predicate Valid()
      reads this, crewStatus.Values
    {
      && (forall id :: id in crewStatus ==> crewStatus[id].Valid())
      && (forall a, b :: a in crewStatus && b in crewStatus && a != b ==> crewStatus[a] != crewStatus[b])
      && crewResults.Keys <= crewStatus.Keys
    }

    constructor ()
      ensures Valid()
      ensures crewStatus == map[] && crewResults == map[]
    {
      crewStatus := map[];
      crewResults := map[];
    }

    /**
     * `submit_requirements`: `envError` is what the environment check
     * reported, `stamp` the current time as text, and `threadError` the
     * message of an exception `thread.start()` raises, if any. An existing
     * record under the same id is replaced by a new one. The record is
     * written before the thread starts, so a failed start answers 500 and
     * leaves the record at "starting" with nothing to advance it.
     */
    method Submit(envError: Option<string>, inputs: Inputs, stamp: string, threadError: Option<string>)
      returns (r: SubmitResponse)
      requires Valid()
      modifies this
      ensures Valid()
      ensures envError.Some? ==> r == Rejected(envError.value)
      ensures envError.None? && !AllGiven(inputs) ==> r == Rejected("All fields are required")
      ensures envError.None? && AllGiven(inputs) && threadError.None? ==> r == Started(SessionId(stamp))
      ensures envError.None? && AllGiven(inputs) && threadError.Some? ==> r == ServerError(threadError.value)
      ensures r.Rejected? ==> crewStatus == old(crewStatus)
      ensures !r.Rejected? ==>
        && envError.None? && AllGiven(inputs)
        && crewStatus.Keys == old(crewStatus.Keys) + {SessionId(stamp)}
        && fresh(crewStatus[SessionId(stamp)])
        && crewStatus[SessionId(stamp)].Value() == InitialRecord
        && crewStatus[SessionId(stamp)].history == [InitialRecord]
        && (forall other :: other in old(crewStatus) && other != SessionId(stamp) ==>
              crewStatus[other] == old(crewStatus[other]))
      ensures crewResults == old(crewResults)
    {
      if envError.Some? {
        return Rejected(envError.value);
      }
      if !AllGiven(inputs) {
        return Rejected("All fields are required");
      }
      var id := SessionId(stamp);
      var job := new JobEntry();
      crewStatus := crewStatus[id := job];
      if threadError.Some? {
        return ServerError(threadError.value);
      }
      r := Started(id);
    }

    /**
     * `run_crew_background` for session `id`, run to its end: the record
     * goes through `RunTrace`, and a run that completes stores its text
     * in `crewResults`.
     */
    method RunJob(id: string, c: Collaborators, inputs: Inputs, date: string)
      requires Valid() && id in crewStatus
      modifies this, crewStatus[id]
      ensures Valid()
      ensures crewStatus == old(crewStatus)
      ensures var job := crewStatus[id];
        var text := if c.kickoff.Returned? then Stored(c, inputs, date) else "";
        && job.history == old(job.history) + RunTrace(old(job.Value()), c, text)
        && (Failure(c) == None ==> crewResults == old(crewResults)[id := text])
      ensures Failure(c) != None ==> crewResults == old(crewResults)
      ensures forall o :: o in crewStatus && o != id ==>
        crewStatus[o].Value() == old(crewStatus[o].Value()) && crewStatus[o].history == old(crewStatus[o].history)
    {
      var job := crewStatus[id];
      ghost var h0 := job.history;
      ghost var r0 := job.Value();
      var reached := job.Start(c);
      if reached {
        var text := ResultText(c, inputs, date);
        StoreResult(id, text);
        AppendAssoc(h0, StartTrace(r0, c), DoneSteps(Researching(r0), text));
      }
    }

    /**
     * The end of a run that gets past `kickoff`: the text goes into
     * `crew_results`, and the record is marked completed with the text as
     * its results.
     */
    method StoreResult(id: string, text: string)
      requires Valid() && id in crewStatus
      modifies this, crewStatus[id]
      ensures Valid() && crewStatus == old(crewStatus)
      ensures crewResults == old(crewResults)[id := text]
      ensures crewStatus[id].history == old(crewStatus[id].history) + DoneSteps(old(crewStatus[id].Value()), text)
      ensures forall o :: o in crewStatus && o != id ==>
        crewStatus[o].Value() == old(crewStatus[o].Value()) && crewStatus[o].history == old(crewStatus[o].history)
    {
      crewResults := crewResults[id := text];
      crewStatus[id].Finish(text);
    }

    /** `get_status`: the serialized record, or "Session not found". */
    function GetStatus(id: string): (r: StatusResponse)
      reads this, crewStatus.Values
      ensures r.StatusMissing? <==> id !in crewStatus
      ensures r.StatusMissing? ==> r.error == "Session not found"
      ensures r.StatusFound? ==> r.status == RecordValue(crewStatus[id].Value())
    {
      if id !in crewStatus then StatusMissing("Session not found")
      else
        SerializedRecord(crewStatus[id].Value());
        StatusFound(JsonValues.MakeJsonSerializable(RecordValue(crewStatus[id].Value())))
    }

    /**
     * `get_results`: the stored text with the serialized record (an empty
     * dict when there is no record), or "Results not found".
     */
    function GetResults(id: string): (r: ResultsResponse)
      reads this, crewStatus.Values
      ensures r.ResultsMissing? <==> id !in crewResults
      ensures r.ResultsMissing? ==> r.error == "Results not found"
      ensures r.ResultsFound? ==> r.results == crewResults[id]
      ensures r.ResultsFound? && id in crewStatus ==> r.status == RecordValue(crewStatus[id].Value())
      ensures r.ResultsFound? && id !in crewStatus ==> r.status == JsonValues.PyDict([])
    {
      if id !in crewResults then ResultsMissing("Results not found")
      else
        var status := if id in crewStatus then RecordValue(crewStatus[id].Value()) else JsonValues.PyDict([]);
        JsonValues.ConvertedIsFixpoint(status);
        ResultsFound(crewResults[id], JsonValues.MakeJsonSerializable(status))
    }
  }
}
