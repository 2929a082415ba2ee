/** The run recovery ledger (tools/build_param_lab_run_recovery.py): one task history summed up
    twice, by run and by candidate, and the risk read off a candidate's attempts. */
module Recovery {
  import opened Sequences
  import opened Dictionaries
  import opened Numbers
  import Text

  datatype ExitCode = NoCode | IntCode(n: int) | TextCode(text: string)

  datatype Metrics = Metrics(parseStatus: string, htmlReportExists: bool, reportExists: bool, evidenceSource: string)

  /** `metrics` is `None` for a missing or empty object. */
  datatype Task = Task(candidateId: string, status: string, metrics: Option<Metrics>, exitCode: ExitCode)

  datatype Result = Result(runId: string, candidateId: string, status: string, metrics: Option<Metrics>)

  /** The counts a status document's summary carries. */
  datatype Summary = Summary(parsed: int, attempted: int, ready: int, selected: int)

  datatype Doc = Doc(runId: string, generatedAt: string, runTerminal: bool, tasks: seq<Task>, summary: Summary)

  datatype State = Parsed | Missing | Malformed | Pending | WaitingReport

  function RunId(d: Doc): string {
    if d.runId != "" then d.runId else if d.generatedAt != "" then d.generatedAt else "unknown_run"
  }

  /** A run is known by its id, without one by when it was generated, and without either as unknown. */
  lemma RunIdMeans(d: Doc)
    ensures d.runId != "" ==> RunId(d) == d.runId
    ensures d.runId == "" ==> RunId(d) == RunId(d.(runId := if d.generatedAt == "" then "unknown_run" else d.generatedAt))
    ensures RunId(d) != ""
  {
  }

  // ---------------------------------------------------------------- the result index

  type Index = Dict<(string, string), Result>

  predicate HasReport(r: Result) {
    r.metrics.Some? && r.metrics.value.reportExists
  }

  function ResultKey(r: Result): (string, string) {
    (r.runId, r.candidateId)
  }

  function ResultIndex(rows: seq<Result>): Index {
    if rows == [] then [] else
      var index, r := ResultIndex(rows[..|rows| - 1]), rows[|rows| - 1];
      var previous := Find(index, ResultKey(r));
      if ResultKey(r) == ("", "") then index
      else if previous.None? || (HasReport(r) && !HasReport(previous.value)) then Put(index, ResultKey(r), r)
      else index
  }

  method BuildResultIndex(rows: seq<Result>) returns (index: Index)
    ensures index == ResultIndex(rows)
  {
    index := [];
    for i := 0 to |rows|
      invariant index == ResultIndex(rows[..i])
    {
      assert rows[..i + 1][..i] == rows[..i];
      var key := ResultKey(rows[i]);
      if key == ("", "") {
        continue;
      }
      var previous := Find(index, key);
      if previous.None? || (HasReport(rows[i]) && !HasReport(previous.value)) {
        index := Put(index, key, rows[i]);
      }
    }
    assert rows[..|rows|] == rows;
  }

  /** Row `i` is the first of its key with a report, or the first of its key when none has one. */
  ghost predicate Chosen(rows: seq<Result>, i: int) {
    && 0 <= i < |rows|
    && forall j :: 0 <= j < |rows| && ResultKey(rows[j]) == ResultKey(rows[i]) ==>
         (HasReport(rows[j]) ==> HasReport(rows[i]))
         && (j < i ==> HasReport(rows[i]) && !HasReport(rows[j]))
  }

  lemma {:induction false} IndexPrefersReports(rows: seq<Result>, key: (string, string))
    requires key != ("", "")
    ensures Find(ResultIndex(rows), key).None? <==> forall i :: 0 <= i < |rows| ==> ResultKey(rows[i]) != key
    ensures Find(ResultIndex(rows), key).Some? ==>
      exists i :: Chosen(rows, i) && ResultKey(rows[i]) == key && Find(ResultIndex(rows), key).value == rows[i]
  {
    if rows != [] {
      var n := |rows| - 1;
      var front := rows[..n];
      IndexPrefersReports(front, key);
      var index := ResultIndex(front);
      FindPut(index, ResultKey(rows[n]), rows[n], key);
      if Find(index, key).Some? {
        var i :| Chosen(front, i) && ResultKey(front[i]) == key && Find(index, key).value == front[i];
        assert forall j :: 0 <= j < n ==> rows[j] == front[j];
        if ResultKey(rows[n]) == key && HasReport(rows[n]) && !HasReport(front[i]) {
          assert Chosen(rows, n);
        } else {
          assert Chosen(rows, i);
        }
      } else {
        assert forall j :: 0 <= j < n ==> ResultKey(rows[j]) == ResultKey(front[j]) != key;
        if ResultKey(rows[n]) == key {
          assert Chosen(rows, n);
        }
      }
    }
  }

  // ---------------------------------------------------------------- the state of one attempt

  /** `report_state_from_task`. */
  function ReportState(task: Task, result: Option<Result>): (s: State)
    ensures !s.WaitingReport?
  {
    var status := Text.Upper(if result.Some? && result.value.status != "" then result.value.status else task.status);
    var found := if result.Some? && result.value.metrics.Some? then result.value.metrics else task.metrics;
    var metrics := if found.Some? then found.value else Metrics("", false, false, "");
    var parseStatus := Text.Upper(metrics.parseStatus);
    var reportExists := metrics.reportExists && metrics.evidenceSource != "agent_artifacts";
    if status in {"TERMINAL_EXIT_NONZERO_REPORT_MISSING", "REPORT_MISSING_AFTER_RUN", "REPORT_MISSING", "PENDING_REPORT"}
    then Missing
    else if status == "REPORT_FOUND_UNPARSED" || parseStatus == "REPORT_FOUND_UNPARSED" then Malformed
    else if ("PARSED" <= status || "PARSED" <= parseStatus) && metrics.htmlReportExists then Parsed
    else if reportExists && parseStatus == "" then Parsed
    else if parseStatus in {"PENDING_REPORT", "REPORT_MISSING"} then Missing
    else if (task.exitCode.IntCode? && task.exitCode.n != 0)
            || (task.exitCode.TextCode? && task.exitCode.text !in {"", "None"}) then Missing
    else Pending
  }

  /** What is known of an attempt: the status and the parse status in force, in upper case, whether
      there is an HTML report, whether there is a report that is not made of agent artifacts, and
      whether the terminal left with an exit code. */
  datatype Evidence = Evidence(status: string, parseStatus: string, html: bool, native: bool, exited: bool)

  function EvidenceOf(task: Task, result: Option<Result>): Evidence {
    var status := if result == None || result.value.status == "" then task.status else result.value.status;
    var metrics := if result == None || result.value.metrics == None then task.metrics else result.value.metrics;
    Evidence(Text.Upper(status), if metrics == None then "" else Text.Upper(metrics.value.parseStatus),
             metrics != None && metrics.value.htmlReportExists,
             metrics != None && metrics.value.reportExists && metrics.value.evidenceSource != "agent_artifacts",
             task.exitCode != NoCode && task.exitCode !in {IntCode(0), TextCode(""), TextCode("None")})
  }

  /** The status itself says that there is no report. */
  predicate DeclaredMissing(e: Evidence) {
    e.status in {"PENDING_REPORT", "REPORT_MISSING", "REPORT_MISSING_AFTER_RUN", "TERMINAL_EXIT_NONZERO_REPORT_MISSING"}
  }

  predicate DeclaredUnparsed(e: Evidence) {
    "REPORT_FOUND_UNPARSED" in {e.status, e.parseStatus}
  }

  /** An HTML report some status calls parsed, or a native report without a parse status. */
  predicate Readable(e: Evidence) {
    (e.html && ("PARSED" <= e.status || "PARSED" <= e.parseStatus)) || (e.native && e.parseStatus == "")
  }

  /** A report should be there: one is awaited or called missing, or the terminal has left. */
  predicate Overdue(e: Evidence) {
    e.parseStatus in {"PENDING_REPORT", "REPORT_MISSING"} || e.exited
  }

  /** The state of an attempt, by its evidence: a status that declares the report missing settles it,
      then a mark as unparsed, then a readable report; without any it is missing if overdue. */
  lemma {:induction false} StateByEvidence(task: Task, result: Option<Result>)
    ensures var s, e := ReportState(task, result), EvidenceOf(task, result);
      && (s.Parsed? <==> Readable(e) && !DeclaredMissing(e) && !DeclaredUnparsed(e))
      && (s.Malformed? <==> DeclaredUnparsed(e) && !DeclaredMissing(e))
      && (s.Missing? <==> DeclaredMissing(e) || (Overdue(e) && !DeclaredUnparsed(e) && !Readable(e)))
      && (s.Pending? <==> !DeclaredMissing(e) && !DeclaredUnparsed(e) && !Readable(e) && !Overdue(e))
  {
    assert Text.Upper("") == "";
    hide Text.Upper;
  }

  /** A readable report backs the attempt: an HTML report, or a report that does not come from agent
      artifacts and carries no parse status; and it is not marked as unparsed. */
  predicate Reported(task: Task, result: Option<Result>) {
    var found := if result.Some? && result.value.metrics.Some? then result.value.metrics else task.metrics;
    && found.Some?
    && (found.value.htmlReportExists
        || (found.value.reportExists && found.value.evidenceSource != "agent_artifacts"
            && found.value.parseStatus == ""))
    && Text.Upper(found.value.parseStatus) != "REPORT_FOUND_UNPARSED"
  }

  lemma {:induction false} ParsedNeedsAReport(task: Task, result: Option<Result>)
    requires ReportState(task, result).Parsed?
    ensures Reported(task, result)
  {
  }

  predicate NotRunYet(task: Task, runTerminal: bool) {
    !runTerminal && Text.Upper(task.status) == "CONFIG_READY"
  }

  /** The state as the run rows count it. */
  function StateInRun(task: Task, result: Option<Result>, runTerminal: bool): State {
    if NotRunYet(task, runTerminal) then Pending else ReportState(task, result)
  }

  /** `report_state_for_run_task`: the state as the candidate rows count it. */
  function StateOfCandidate(task: Task, result: Option<Result>, runTerminal: bool): State {
    if NotRunYet(task, runTerminal) then WaitingReport else
      var state := ReportState(task, result);
      if state.Pending? then WaitingReport else state
  }

  predicate NonzeroExit(code: ExitCode) {
    (code.IntCode? && code.n != 0) || (code.TextCode? && code.text !in {"", "0"})
  }

  // ---------------------------------------------------------------- histories

  /** One task of one run, as both summaries see it. */
  datatype Attempt = Attempt(id: string, runId: string, inRun: State, state: State, nonzero: bool)

  function AttemptOf(d: Doc, task: Task, index: Index): Attempt {
    var result := Find(index, (RunId(d), task.candidateId));
    Attempt(task.candidateId, RunId(d), StateInRun(task, result, d.runTerminal),
            StateOfCandidate(task, result, d.runTerminal), NonzeroExit(task.exitCode))
  }

  function AttemptsOf(d: Doc, index: Index): seq<Attempt> {
    seq(|d.tasks|, i requires 0 <= i < |d.tasks| => AttemptOf(d, d.tasks[i], index))
  }

  function History(docs: seq<Doc>, index: Index): seq<Attempt> {
    if docs == [] then [] else History(docs[..|docs| - 1], index) + AttemptsOf(docs[|docs| - 1], index)
  }

  function ById(id: string): Attempt -> bool {
    (a: Attempt) => a.id == id
  }

  function InRun(s: State): Attempt -> bool {
    (a: Attempt) => a.inRun == s
  }

  function Count(p: Attempt -> bool, h: seq<Attempt>): nat {
    |Filter(p, h)|
  }

  lemma CountAppend(p: Attempt -> bool, h: seq<Attempt>, a: Attempt)
    ensures Count(p, h + [a]) == Count(p, h) + if p(a) then 1 else 0
  {
    FilterAppend(p, h, a);
  }

  lemma CountConcat(p: Attempt -> bool, a: seq<Attempt>, b: seq<Attempt>)
    ensures Count(p, a + b) == Count(p, a) + Count(p, b)
  {
    FilterConcat(p, a, b);
  }

  // ---------------------------------------------------------------- by run

  datatype RunRow = RunRow(runId: string, parsed: int, missing: nat, malformed: nat, pending: nat,
                           retryCount: nat, taskCount: int)

  /** The largest number of earlier attempts any attempt of `h` had, `before` included. */
  function RetryMax(before: seq<Attempt>, h: seq<Attempt>): nat {
    if h == [] then 0 else
      var front, a := h[..|h| - 1], h[|h| - 1];
      Max(RetryMax(before, front), if a.id == "" then 0 else Count(ById(a.id), before + front))
  }

  function RunRowOf(d: Doc, index: Index, before: seq<Attempt>): RunRow {
    var own := AttemptsOf(d, index);
    if own == [] then
      RunRow(RunId(d), d.summary.parsed, NonNegative(d.summary.attempted - d.summary.parsed), 0,
             NonNegative(d.summary.ready), 0, d.summary.selected)
    else
      RunRow(RunId(d), Count(InRun(Parsed), own), Count(InRun(Missing), own), Count(InRun(Malformed), own),
             Count(InRun(Pending), own), RetryMax(before, own), |own|)
  }

  function RunRows(docs: seq<Doc>, index: Index): seq<RunRow> {
    if docs == [] then [] else
      var front := docs[..|docs| - 1];
      RunRows(front, index) + [RunRowOf(docs[|docs| - 1], index, History(front, index))]
  }

  function CountAt(m: map<string, nat>, k: string): nat {
    if k in m then m[k] else 0
  }

  lemma NoAttempts(before: seq<Attempt>, p: Attempt -> bool)
    ensures Count(p, []) == 0 && RetryMax(before, []) == 0
  {
  }

  method BuildRunRows(docs: seq<Doc>, index: Index) returns (rows: seq<RunRow>)
    ensures rows == RunRows(docs, index)
  {
    rows := [];
    var attemptCounter: map<string, nat> := map[];
    forall id { NoAttempts([], ById(id)); }
    hide Count, RetryMax, ReportState, NotRunYet, Find, Filter;
    for i := 0 to |docs|
      invariant rows == RunRows(docs[..i], index)
      invariant forall id :: id != "" ==> CountAt(attemptCounter, id) == Count(ById(id), History(docs[..i], index))
    {
      var d := docs[i];
      ghost var before, own := History(docs[..i], index), AttemptsOf(d, index);
      assert docs[..i + 1][..i] == docs[..i];
      var parsed: int, missing: int, malformed: nat, pending: int := 0, 0, 0, 0;
      var retry: nat := 0;
      assert before + own[..0] == before && own[..0] == [];
      forall s { NoAttempts(before, InRun(s)); }
      for j := 0 to |d.tasks|
        invariant parsed == Count(InRun(Parsed), own[..j]) && missing == Count(InRun(Missing), own[..j])
        invariant malformed == Count(InRun(Malformed), own[..j]) && pending == Count(InRun(Pending), own[..j])
        invariant retry == RetryMax(before, own[..j])
        invariant forall id :: id != "" ==> CountAt(attemptCounter, id) == Count(ById(id), before + own[..j])
      {
        var task := d.tasks[j];
        NextAttempt(before, own, j);
        if task.candidateId != "" {
          attemptCounter := attemptCounter[task.candidateId := CountAt(attemptCounter, task.candidateId) + 1];
          retry := Max(retry, NonNegative(attemptCounter[task.candidateId] - 1));
        }
        var result := Find(index, (RunId(d), task.candidateId));
        var state := if NotRunYet(task, d.runTerminal) then Pending else ReportState(task, result);
        if state == Parsed {
          parsed := parsed + 1;
        } else if state == Missing {
          missing := missing + 1;
        } else if state == Malformed {
          malformed := malformed + 1;
        } else {
          pending := pending + 1;
        }
      }
      assert own[..|d.tasks|] == own;
      if |d.tasks| == 0 {
        parsed := d.summary.parsed;
        missing := d.summary.attempted - parsed;
        pending := d.summary.ready;
      }
      rows := rows + [RunRow(RunId(d), parsed, NonNegative(missing), malformed, NonNegative(pending), retry,
                             if |d.tasks| != 0 then |d.tasks| else d.summary.selected)];
    }
    assert docs[..|docs|] == docs;
  }

  lemma {:induction false} NextAttempt(before: seq<Attempt>, own: seq<Attempt>, j: nat)
    requires j < |own|
    ensures forall s :: Count(InRun(s), own[..j + 1]) == Count(InRun(s), own[..j]) + if own[j].inRun == s then 1 else 0
    ensures forall id :: Count(ById(id), before + own[..j + 1])
                         == Count(ById(id), before + own[..j]) + if own[j].id == id then 1 else 0
    ensures RetryMax(before, own[..j + 1])
            == Max(RetryMax(before, own[..j]), if own[j].id == "" then 0 else Count(ById(own[j].id), before + own[..j]))
  {
    hide Count;
    assert own[..j + 1] == own[..j] + [own[j]];
    assert before + own[..j + 1] == (before + own[..j]) + [own[j]];
    forall s { CountAppend(InRun(s), own[..j], own[j]); }
    forall id { CountAppend(ById(id), before + own[..j], own[j]); }
  }

  // ---------------------------------------------------------------- by candidate

  datatype Candidate = Candidate(attempts: nat, parsed: nat, waiting: nat, missing: nat, malformed: nat, nonzero: nat,
                                 runIds: seq<string>, latest: Option<State>)

  const NewCandidate := Candidate(0, 0, 0, 0, 0, 0, [], None)

  function AddAttempt(c: Candidate, a: Attempt): Candidate {
    var counted := c.(attempts := c.attempts + 1, runIds := c.runIds + [a.runId], latest := Some(a.state),
                      nonzero := c.nonzero + if a.nonzero then 1 else 0);
    match a.state
    case Parsed => counted.(parsed := c.parsed + 1)
    case Missing => counted.(missing := c.missing + 1)
    case Malformed => counted.(malformed := c.malformed + 1)
    case _ => counted.(waiting := c.waiting + 1)
  }

  function RowAt(d: Dict<string, Candidate>, id: string): Candidate {
    var found := Find(d, id);
    if found.Some? then found.value else NewCandidate
  }

  function Drilldown(h: seq<Attempt>): Dict<string, Candidate> {
    if h == [] then [] else
      var d, a := Drilldown(h[..|h| - 1]), h[|h| - 1];
      if a.id == "" then d else Put(d, a.id, AddAttempt(RowAt(d, a.id), a))
  }

  /** One candidate's row, from its own attempts alone. */
  function Digest(h: seq<Attempt>): Candidate {
    if h == [] then NewCandidate else AddAttempt(Digest(h[..|h| - 1]), h[|h| - 1])
  }

  method CountAttempt(before: Candidate, ghost a: Attempt, runId: string, nonzero: bool, state: State)
    returns (row: Candidate)
    requires a.runId == runId && a.nonzero == nonzero && a.state == state
    ensures row == AddAttempt(before, a)
  {
    row := before.(attempts := before.attempts + 1, runIds := before.runIds + [runId]);
    if nonzero {
      row := row.(nonzero := row.nonzero + 1);
    }
    row := row.(latest := Some(state));
    match state {
      case Parsed => row := row.(parsed := row.parsed + 1);
      case Missing => row := row.(missing := row.missing + 1);
      case Malformed => row := row.(malformed := row.malformed + 1);
      case _ => row := row.(waiting := row.waiting + 1);
    }
  }

  lemma {:induction false} DrilldownNext(before: seq<Attempt>, own: seq<Attempt>, j: nat)
    requires j < |own|
    ensures var d, a := Drilldown(before + own[..j]), own[j];
      Drilldown(before + own[..j + 1]) == if a.id == "" then d else Put(d, a.id, AddAttempt(RowAt(d, a.id), a))
  {
    hide AddAttempt, Put, Find;
    assert before + own[..j + 1] == (before + own[..j]) + [own[j]];
  }

  method BuildCandidateDrilldown(docs: seq<Doc>, index: Index) returns (rows: Dict<string, Candidate>)
    ensures rows == Drilldown(History(docs, index))
  {
    rows := [];
    assert Drilldown(History([], index)) == [];
    hide StateOfCandidate, Find, Put, NonzeroExit, AddAttempt, RowAt, Drilldown;
    for i := 0 to |docs|
      invariant rows == Drilldown(History(docs[..i], index))
    {
      var d := docs[i];
      ghost var before, own := History(docs[..i], index), AttemptsOf(d, index);
      assert docs[..i + 1][..i] == docs[..i] && before + own[..0] == before;
      for j := 0 to |d.tasks|
        invariant rows == Drilldown(before + own[..j])
      {
        DrilldownNext(before, own, j);
        var task := d.tasks[j];
        if task.candidateId == "" {
          continue;
        }
        var result := Find(index, (RunId(d), task.candidateId));
        var state := StateOfCandidate(task, result, d.runTerminal);
        var row := CountAttempt(RowAt(rows, task.candidateId), own[j], RunId(d), NonzeroExit(task.exitCode), state);
        rows := Put(rows, task.candidateId, row);
      }
      assert own[..|d.tasks|] == own;
    }
    assert docs[..|docs|] == docs;
  }

  lemma NothingDrilled(id: string)
    ensures Find(Drilldown([]), id) == None && Filter(ById(id), []) == []
  {
  }

  /** A candidate has a row exactly when it has an attempt, and the row digests its attempts. */
  lemma {:induction false} DrilldownIsPerCandidate(h: seq<Attempt>, id: string)
    requires id != ""
    ensures Find(Drilldown(h), id)
            == if Filter(ById(id), h) == [] then None else Some(Digest(Filter(ById(id), h)))
  {
    hide AddAttempt, Filter, Put, Digest, Find, ById;
    if h == [] {
      NothingDrilled(id);
    } else {
      DigestNothing();
      var front, a := h[..|h| - 1], h[|h| - 1];
      DrilldownIsPerCandidate(front, id);
      OwnAttempts(front, a, id);
      var d := Drilldown(front);
      assert h == front + [a];
      if a.id != "" {
        FindPut(d, a.id, AddAttempt(RowAt(d, a.id), a), id);
      }
    }
  }

  lemma DigestNothing()
    ensures Digest([]) == NewCandidate
  {
  }

  lemma {:induction false} OwnAttempts(front: seq<Attempt>, a: Attempt, id: string)
    ensures var own, now := Filter(ById(id), front), Filter(ById(id), front + [a]);
      if a.id == id then now != [] && Digest(now) == AddAttempt(Digest(own), a) else now == own
  {
    hide AddAttempt;
    var own := Filter(ById(id), front);
    FilterAppend(ById(id), front, a);
    assert (own + [a])[..|own|] == own && own + [] == own;
  }

  function CountOf(c: Candidate, s: State): nat {
    match s
    case Parsed => c.parsed
    case Missing => c.missing
    case Malformed => c.malformed
    case _ => c.waiting
  }

  /** How the candidate rows name a run row's state. */
  function Shown(s: State): State {
    if s.Pending? then WaitingReport else s
  }

  function ShownAs(s: State): Attempt -> bool {
    (a: Attempt) => Shown(a.state) == Shown(s)
  }

  lemma AttemptAdds(c: Candidate, a: Attempt, s: State)
    ensures CountOf(AddAttempt(c, a), s) == CountOf(c, s) + if ShownAs(s)(a) then 1 else 0
    ensures AddAttempt(c, a).attempts == c.attempts + 1
    ensures AddAttempt(c, a).nonzero == c.nonzero + if a.nonzero then 1 else 0
    ensures AddAttempt(c, a).latest == Some(a.state)
    ensures AddAttempt(c, a).runIds == c.runIds + [a.runId]
  {
  }

  lemma {:induction false} DigestCounts(h: seq<Attempt>, s: State)
    ensures CountOf(Digest(h), s) == Count(ShownAs(s), h)
    ensures Digest(h).attempts == |h|
    ensures Digest(h).latest == if h == [] then None else Some(h[|h| - 1].state)
  {
    hide Count, AddAttempt, CountOf, ShownAs, Digest;
    if h == [] {
      NoAttempts([], ShownAs(s));
      DigestNothing();
      NothingCounted(s);
    } else {
      DigestLast(h);
      var front, a := h[..|h| - 1], h[|h| - 1];
      DigestCounts(front, s);
      assert h == front + [a];
      CountAppend(ShownAs(s), front, a);
      AttemptAdds(Digest(front), a, s);
      ShownAsMeans(a, s);
    }
  }

  lemma NothingCounted(s: State)
    ensures CountOf(NewCandidate, s) == 0
  {
  }

  lemma DigestLast(h: seq<Attempt>)
    requires h != []
    ensures Digest(h) == AddAttempt(Digest(h[..|h| - 1]), h[|h| - 1])
  {
    hide AddAttempt;
  }

  lemma ShownAsMeans(a: Attempt, s: State)
    ensures ShownAs(s)(a) <==> Shown(a.state) == Shown(s)
  {
  }

  // ---------------------------------------------------------------- the two summaries agree

  function RunCountOf(r: RunRow, s: State): int {
    match s
    case Parsed => r.parsed
    case Missing => r.missing
    case Malformed => r.malformed
    case _ => r.pending
  }

  function RunTotal(rows: seq<RunRow>, f: RunRow -> int): int {
    if rows == [] then 0 else RunTotal(rows[..|rows| - 1], f) + f(rows[|rows| - 1])
  }

  function CandidateTotal(d: Dict<string, Candidate>, f: Candidate -> int): int {
    if d == [] then 0 else f(d[0].value) + CandidateTotal(d[1..], f)
  }

  /** What documents without tasks add to the run rows, out of their summaries. */
  function TasklessTotal(docs: seq<Doc>, index: Index, f: RunRow -> int): int {
    if docs == [] then 0 else
      var d := docs[|docs| - 1];
      TasklessTotal(docs[..|docs| - 1], index, f) + if d.tasks == [] then f(RunRowOf(d, index, [])) else 0
  }

  function Anonymous(p: Attempt -> bool): Attempt -> bool {
    (a: Attempt) => a.id == "" && p(a)
  }

  function Named(p: Attempt -> bool): Attempt -> bool {
    (a: Attempt) => a.id != "" && p(a)
  }

  lemma {:induction false} NamedOrAnonymous(p: Attempt -> bool, h: seq<Attempt>)
    ensures Count(p, h) == Count(Named(p), h) + Count(Anonymous(p), h)
  {
    if h == [] {
    } else {
      hide Count;
      var front, a := h[..|h| - 1], h[|h| - 1];
      NamedOrAnonymous(p, front);
      assert h == front + [a];
      CountAppend(p, front, a);
      CountAppend(Named(p), front, a);
      CountAppend(Anonymous(p), front, a);
    }
  }

  lemma CandidateTotalPut(d: Dict<string, Candidate>, id: string, c: Candidate, f: Candidate -> int)
    ensures CandidateTotal(Put(d, id, c), f)
            == CandidateTotal(d, f) + f(c) - if Find(d, id).Some? then f(Find(d, id).value) else 0
  {
  }

  /** `f` is zero on a new row, and an attempt adds one to it exactly when `p` holds of it. */
  ghost predicate Counts(f: Candidate -> int, p: Attempt -> bool) {
    f(NewCandidate) == 0 && forall c, a :: f(AddAttempt(c, a)) == f(c) + if p(a) then 1 else 0
  }

  lemma {:induction false} DrilldownTotal(h: seq<Attempt>, f: Candidate -> int, p: Attempt -> bool)
    requires Counts(f, p)
    ensures CandidateTotal(Drilldown(h), f) == Count(Named(p), h)
  {
    if h == [] {
      NoAttempts([], Named(p));
    } else {
      hide Count;
      var front, a := h[..|h| - 1], h[|h| - 1];
      DrilldownTotal(front, f, p);
      assert h == front + [a];
      CountAppend(Named(p), front, a);
      var d := Drilldown(front);
      CandidateTotalPut(d, a.id, AddAttempt(RowAt(d, a.id), a), f);
    }
  }

  /** `f` counts the attempts of a run that satisfy `p`, whenever the run has attempts. */
  ghost predicate RunCounts(f: RunRow -> int, p: Attempt -> bool, index: Index) {
    forall d, before :: AttemptsOf(d, index) != [] ==>
      f(RunRowOf(d, index, before)) == Count(p, AttemptsOf(d, index))
  }

  lemma {:induction false} RunRowsTotal(docs: seq<Doc>, index: Index, f: RunRow -> int, p: Attempt -> bool)
    requires RunCounts(f, p, index)
    ensures RunTotal(RunRows(docs, index), f) == Count(p, History(docs, index)) + TasklessTotal(docs, index, f)
  {
    NoAttempts([], p);
    if docs != [] {
      hide Count, RunRowOf;
      var front, d := docs[..|docs| - 1], docs[|docs| - 1];
      RunRowsTotal(front, index, f, p);
      CountConcat(p, History(front, index), AttemptsOf(d, index));
      var rows := RunRows(front, index);
      assert (rows + [RunRowOf(d, index, History(front, index))])[..|rows|] == rows;
      if d.tasks == [] {
        TasklessRow(d, index, History(front, index));
        NoAttempts([], p);
      }
    }
  }

  lemma TasklessRow(d: Doc, index: Index, before: seq<Attempt>)
    requires d.tasks == []
    ensures AttemptsOf(d, index) == [] && RunRowOf(d, index, before) == RunRowOf(d, index, [])
  {
  }

  lemma {:induction false} HistoryShows(docs: seq<Doc>, index: Index)
    ensures forall i :: 0 <= i < |History(docs, index)| ==>
      var a := History(docs, index)[i];
      !a.inRun.WaitingReport? && a.state == Shown(a.inRun)
  {
    if docs != [] {
      HistoryShows(docs[..|docs| - 1], index);
      hide ReportState, NotRunYet, Find;
      var own := AttemptsOf(docs[|docs| - 1], index);
      assert forall i :: 0 <= i < |own| ==> !own[i].inRun.WaitingReport? && own[i].state == Shown(own[i].inRun);
    }
  }

  lemma {:induction false} SameCounts(h: seq<Attempt>, p: Attempt -> bool, q: Attempt -> bool)
    requires forall i :: 0 <= i < |h| ==> p(h[i]) == q(h[i])
    ensures Count(p, h) == Count(q, h)
  {
    if h != [] {
      SameCounts(h[1..], p, q);
    }
  }

  function StateTotal(s: State): RunRow -> int {
    (r: RunRow) => RunCountOf(r, s)
  }

  /** For every task history, each run total is the candidate total, plus the tasks without a
      candidate id, plus what documents without tasks report in their summaries. */
  lemma {:induction false} TotalsReconcile(docs: seq<Doc>, index: Index, s: State)
    requires !s.WaitingReport?
    ensures var h := History(docs, index);
      RunTotal(RunRows(docs, index), StateTotal(s))
      == CandidateTotal(Drilldown(h), (c: Candidate) => CountOf(c, s)) + Count(Anonymous(InRun(s)), h)
         + TasklessTotal(docs, index, StateTotal(s))
  {
    hide Count, AddAttempt, AttemptsOf, History, Drilldown, RunRows;
    var h := History(docs, index);
    var f := (c: Candidate) => CountOf(c, s);
    RunRowsTotal(docs, index, StateTotal(s), InRun(s));
    NamedOrAnonymous(InRun(s), h);
    HistoryShows(docs, index);
    SameCounts(h, Named(InRun(s)), Named(ShownAs(s)));
    forall c, a { AttemptAdds(c, a, s); }
    DrilldownTotal(h, f, ShownAs(s));
  }

  function Any(): Attempt -> bool {
    (a: Attempt) => true
  }

  lemma CountAny(h: seq<Attempt>)
    ensures Count(Any(), h) == |h|
  {
    FilterAll(Any(), h);
  }

  function Tasks(): RunRow -> int {
    (r: RunRow) => r.taskCount
  }

  /** The same for the number of tasks and attempts. */
  lemma {:induction false} TaskCountsReconcile(docs: seq<Doc>, index: Index)
    ensures var h := History(docs, index);
      RunTotal(RunRows(docs, index), Tasks())
      == CandidateTotal(Drilldown(h), (c: Candidate) => c.attempts) + Count(Anonymous(Any()), h)
         + TasklessTotal(docs, index, Tasks())
  {
    hide Count, AddAttempt, History, Drilldown, RunRows;
    var h := History(docs, index);
    var f := (c: Candidate) => c.attempts;
    forall c, a { AttemptAdds(c, a, Parsed); }
    forall d, before | AttemptsOf(d, index) != []
      ensures Tasks()(RunRowOf(d, index, before)) == Count(Any(), AttemptsOf(d, index)) {
      CountAny(AttemptsOf(d, index));
    }
    RunRowsTotal(docs, index, Tasks(), Any());
    NamedOrAnonymous(Any(), h);
    DrilldownTotal(h, f, Any());
  }

  // ---------------------------------------------------------------- the largest retry count

  function RetryUsed(c: Candidate): nat {
    NonNegative(c.attempts - 1)
  }

  function MaxRetryOfRuns(rows: seq<RunRow>): nat {
    if rows == [] then 0 else Max(MaxRetryOfRuns(rows[..|rows| - 1]), rows[|rows| - 1].retryCount)
  }

  function MaxRetryOfCandidates(d: Dict<string, Candidate>): nat {
    if d == [] then 0 else Max(RetryUsed(d[0].value), MaxRetryOfCandidates(d[1..]))
  }

  lemma RetryMaxNothing(before: seq<Attempt>)
    ensures RetryMax(before, []) == 0
  {
  }

  lemma RetryMaxLast(before: seq<Attempt>, h: seq<Attempt>)
    requires h != []
    ensures var front, a := h[..|h| - 1], h[|h| - 1];
      RetryMax(before, h) == Max(RetryMax(before, front), if a.id == "" then 0 else Count(ById(a.id), before + front))
  {
  }

  lemma {:induction false} RetryMaxConcat(before: seq<Attempt>, a: seq<Attempt>, b: seq<Attempt>)
    ensures RetryMax(before, a + b) == Max(RetryMax(before, a), RetryMax(before + a, b))
  {
    hide Count, RetryMax;
    if b == [] {
      assert a + b == a;
      RetryMaxNothing(before + a);
    } else {
      var n := |b| - 1;
      RetryMaxConcat(before, a, b[..n]);
      RetryMaxLast(before, a + b);
      RetryMaxLast(before + a, b);
      assert (a + b)[..|a + b| - 1] == a + b[..n];
      assert before + (a + b[..n]) == (before + a) + b[..n];
    }
  }

  lemma {:induction false} MaxRetryByRun(docs: seq<Doc>, index: Index)
    ensures MaxRetryOfRuns(RunRows(docs, index)) == RetryMax([], History(docs, index))
  {
    if docs != [] {
      hide Count, AttemptsOf;
      var front, d := docs[..|docs| - 1], docs[|docs| - 1];
      MaxRetryByRun(front, index);
      var h, rows, row := History(front, index), RunRows(front, index), RunRowOf(d, index, History(front, index));
      RetryMaxConcat([], h, AttemptsOf(d, index));
      assert [] + h == h;
      assert (rows + [row])[..|rows|] == rows;
      assert row.retryCount == RetryMax(h, AttemptsOf(d, index));
    }
  }

  lemma {:induction false} MaxRetryPut(d: Dict<string, Candidate>, id: string, c: Candidate)
    requires Find(d, id).Some? ==> RetryUsed(Find(d, id).value) <= RetryUsed(c)
    ensures MaxRetryOfCandidates(Put(d, id, c)) == Max(MaxRetryOfCandidates(d), RetryUsed(c))
  {
    if d != [] && d[0].key != id {
      MaxRetryPut(d[1..], id, c);
    }
  }

  lemma {:induction false} MaxRetryByCandidate(h: seq<Attempt>)
    ensures MaxRetryOfCandidates(Drilldown(h)) == RetryMax([], h)
  {
    if h != [] {
      hide AddAttempt, Filter;
      var front, a := h[..|h| - 1], h[|h| - 1];
      MaxRetryByCandidate(front);
      assert [] + front == front;
      if a.id != "" {
        var d := Drilldown(front);
        DrilldownIsPerCandidate(front, a.id);
        DigestCounts(Filter(ById(a.id), front), Parsed);
        AttemptAdds(RowAt(d, a.id), a, Parsed);
        MaxRetryPut(d, a.id, AddAttempt(RowAt(d, a.id), a));
      }
    }
  }

  /** Whatever the history, the largest retry count of any run is the largest number of retries
      any candidate has used. */
  lemma {:induction false} LargestRetriesAgree(docs: seq<Doc>, index: Index)
    ensures MaxRetryOfRuns(RunRows(docs, index)) == MaxRetryOfCandidates(Drilldown(History(docs, index)))
  {
    MaxRetryByRun(docs, index);
    MaxRetryByCandidate(History(docs, index));
  }

  /** Every document has tasks and every task names a candidate. */
  predicate Complete(docs: seq<Doc>) {
    forall i :: 0 <= i < |docs| ==>
      docs[i].tasks != [] && forall j :: 0 <= j < |docs[i].tasks| ==> docs[i].tasks[j].candidateId != ""
  }

  lemma {:induction false} CompleteHistory(docs: seq<Doc>, index: Index, f: RunRow -> int)
    requires Complete(docs)
    ensures TasklessTotal(docs, index, f) == 0
    ensures forall i :: 0 <= i < |History(docs, index)| ==> History(docs, index)[i].id != ""
  {
    if docs != [] {
      CompleteHistory(docs[..|docs| - 1], index, f);
    }
  }

  lemma NoneCounted(p: Attempt -> bool, h: seq<Attempt>)
    requires forall i :: 0 <= i < |h| ==> !p(h[i])
    ensures Count(p, h) == 0
  {
    FilterNone(p, h);
  }

  /** On complete histories the two summaries agree on every total. */
  lemma {:induction false} SummariesAgree(docs: seq<Doc>, index: Index, s: State)
    requires Complete(docs) && !s.WaitingReport?
    ensures var h := History(docs, index);
      && RunTotal(RunRows(docs, index), StateTotal(s))
         == CandidateTotal(Drilldown(h), (c: Candidate) => CountOf(c, s))
      && RunTotal(RunRows(docs, index), Tasks()) == CandidateTotal(Drilldown(h), (c: Candidate) => c.attempts)
  {
    hide Count, AddAttempt, AttemptsOf, History, Drilldown, RunRows, CandidateTotal, RunTotal;
    TotalsReconcile(docs, index, s);
    TaskCountsReconcile(docs, index);
    CompleteHistory(docs, index, StateTotal(s));
    CompleteHistory(docs, index, Tasks());
    NoneCounted(Anonymous(InRun(s)), History(docs, index));
    NoneCounted(Anonymous(Any()), History(docs, index));
  }

  // ---------------------------------------------------------------- the rows, task by task

  /** One task of one document. */
  datatype Job = Job(doc: Doc, task: Task)

  function JobsOf(d: Doc): seq<Job> {
    seq(|d.tasks|, i requires 0 <= i < |d.tasks| => Job(d, d.tasks[i]))
  }

  function Jobs(docs: seq<Doc>): seq<Job> {
    if docs == [] then [] else Jobs(docs[..|docs| - 1]) + JobsOf(docs[|docs| - 1])
  }

  function EvidenceFor(j: Job, index: Index): Evidence {
    EvidenceOf(j.task, Find(index, (RunId(j.doc), j.task.candidateId)))
  }

  /** Only configured, in a run that starts no terminal. */
  predicate OnlyConfigured(j: Job) {
    Text.Upper(j.task.status) == "CONFIG_READY" && !j.doc.runTerminal
  }

  predicate JobParsed(j: Job, index: Index) {
    var e := EvidenceFor(j, index);
    !OnlyConfigured(j) && Readable(e) && !DeclaredMissing(e) && !DeclaredUnparsed(e)
  }

  predicate JobMalformed(j: Job, index: Index) {
    var e := EvidenceFor(j, index);
    !OnlyConfigured(j) && DeclaredUnparsed(e) && !DeclaredMissing(e)
  }

  predicate JobMissing(j: Job, index: Index) {
    var e := EvidenceFor(j, index);
    !OnlyConfigured(j) && (DeclaredMissing(e) || (Overdue(e) && !DeclaredUnparsed(e) && !Readable(e)))
  }

  predicate JobOpen(j: Job, index: Index) {
    var e := EvidenceFor(j, index);
    OnlyConfigured(j) || (!DeclaredMissing(e) && !DeclaredUnparsed(e) && !Readable(e) && !Overdue(e))
  }

  lemma {:induction false} AttemptByEvidence(d: Doc, task: Task, index: Index)
    ensures var a, j := AttemptOf(d, task, index), Job(d, task);
      && (a.inRun.Parsed? <==> JobParsed(j, index)) && (a.state.Parsed? <==> JobParsed(j, index))
      && (a.inRun.Malformed? <==> JobMalformed(j, index)) && (a.state.Malformed? <==> JobMalformed(j, index))
      && (a.inRun.Missing? <==> JobMissing(j, index)) && (a.state.Missing? <==> JobMissing(j, index))
      && (a.inRun.Pending? <==> JobOpen(j, index)) && (a.state.WaitingReport? <==> JobOpen(j, index))
      && !a.state.Pending?
  {
    hide Text.Upper, Find, EvidenceOf, ReportState, Readable, DeclaredMissing, DeclaredUnparsed, Overdue;
    StateByEvidence(task, Find(index, (RunId(d), task.candidateId)));
  }

  /** A run's row, task by task: each of its tasks is counted once, by the evidence for it; a run
      without tasks repeats its summary. */
  lemma {:induction false} RunRowByEvidence(docs: seq<Doc>, index: Index, i: nat)
    requires i < |docs|
    ensures |RunRows(docs, index)| == |docs|
    ensures var row, d := RunRows(docs, index)[i], docs[i];
      && row.runId == RunId(d)
      && (d.tasks == [] ==>
            row.parsed == d.summary.parsed && row.missing == NonNegative(d.summary.attempted - d.summary.parsed)
            && row.malformed == 0 && row.pending == NonNegative(d.summary.ready) && row.taskCount == d.summary.selected)
      && (d.tasks != [] ==>
            && row.taskCount == |d.tasks|
            && row.parsed == |Filter((j: Job) => JobParsed(j, index), JobsOf(d))|
            && row.missing == |Filter((j: Job) => JobMissing(j, index), JobsOf(d))|
            && row.malformed == |Filter((j: Job) => JobMalformed(j, index), JobsOf(d))|
            && row.pending == |Filter((j: Job) => JobOpen(j, index), JobsOf(d))|)
  {
    hide Filter, AttemptOf, JobParsed, JobMissing, JobMalformed, JobOpen, History, RetryMax;
    RowOfRun(docs, index, i);
    var d := docs[i];
    var own, jobs := AttemptsOf(d, index), JobsOf(d);
    forall j | 0 <= j < |own|
      ensures (own[j].inRun.Parsed? <==> JobParsed(jobs[j], index))
        && (own[j].inRun.Missing? <==> JobMissing(jobs[j], index))
        && (own[j].inRun.Malformed? <==> JobMalformed(jobs[j], index))
        && (own[j].inRun.Pending? <==> JobOpen(jobs[j], index)) {
      AttemptByEvidence(d, d.tasks[j], index);
    }
    FilterAlike(InRun(Parsed), (j: Job) => JobParsed(j, index), own, jobs);
    FilterAlike(InRun(Missing), (j: Job) => JobMissing(j, index), own, jobs);
    FilterAlike(InRun(Malformed), (j: Job) => JobMalformed(j, index), own, jobs);
    FilterAlike(InRun(Pending), (j: Job) => JobOpen(j, index), own, jobs);
  }

  lemma {:induction false} RowOfRun(docs: seq<Doc>, index: Index, i: nat)
    requires i < |docs|
    ensures |RunRows(docs, index)| == |docs|
    ensures RunRows(docs, index)[i] == RunRowOf(docs[i], index, History(docs[..i], index))
  {
    hide RunRowOf, History;
    var n := |docs| - 1;
    if i < n {
      RowOfRun(docs[..n], index, i);
      assert docs[..n][..i] == docs[..i];
    } else if n > 0 {
      RowOfRun(docs[..n], index, 0);
    }
  }

  lemma {:induction false} HistoryOfJobs(docs: seq<Doc>, index: Index)
    ensures |History(docs, index)| == |Jobs(docs)|
    ensures forall i :: 0 <= i < |Jobs(docs)| ==>
      History(docs, index)[i] == AttemptOf(Jobs(docs)[i].doc, Jobs(docs)[i].task, index)
  {
    hide AttemptOf;
    if docs != [] {
      HistoryOfJobs(docs[..|docs| - 1], index);
    }
  }

  /** A run's retry count is the largest number of earlier attempts, of earlier runs or of its own, that
      any of its tasks' candidates had. */
  lemma {:induction false} RetryCountMeans(docs: seq<Doc>, index: Index, i: nat)
    requires i < |docs|
    ensures |RunRows(docs, index)| == |docs|
    ensures var row, before, own := RunRows(docs, index)[i], History(docs[..i], index), AttemptsOf(docs[i], index);
      && (forall j :: 0 <= j < |own| && own[j].id != "" ==> Count(ById(own[j].id), before + own[..j]) <= row.retryCount)
      && (row.retryCount > 0 ==>
            exists j :: 0 <= j < |own| && own[j].id != "" && row.retryCount == Count(ById(own[j].id), before + own[..j]))
  {
    hide History, AttemptsOf, Count, RetryMax;
    RowOfRun(docs, index, i);
    var before, own := History(docs[..i], index), AttemptsOf(docs[i], index);
    RetryMaxNothing(before);
    RetryMaxMeans(before, own);
    assert own == [] ==> RunRows(docs, index)[i].retryCount == 0;
  }

  lemma {:induction false} RetryMaxMeans(before: seq<Attempt>, h: seq<Attempt>)
    ensures forall j :: 0 <= j < |h| && h[j].id != "" ==> Count(ById(h[j].id), before + h[..j]) <= RetryMax(before, h)
    ensures RetryMax(before, h) > 0 ==>
      exists j :: 0 <= j < |h| && h[j].id != "" && RetryMax(before, h) == Count(ById(h[j].id), before + h[..j])
  {
    hide Count, RetryMax;
    if h == [] {
      RetryMaxNothing(before);
    } else {
      var front, a := h[..|h| - 1], h[|h| - 1];
      RetryMaxMeans(before, front);
      RetryMaxLast(before, h);
      assert forall j :: 0 <= j < |front| ==> h[j] == front[j] && h[..j] == front[..j];
    }
  }

  /** The jobs of one candidate. */
  function Of(id: string): Job -> bool {
    (j: Job) => j.task.candidateId == id
  }

  lemma {:induction false} OwnHistory(docs: seq<Doc>, index: Index, id: string)
    ensures var own, jobs := Filter(ById(id), History(docs, index)), Filter(Of(id), Jobs(docs));
      |own| == |jobs| && forall i :: 0 <= i < |own| ==> own[i] == AttemptOf(jobs[i].doc, jobs[i].task, index)
  {
    hide AttemptOf;
    HistoryOfJobs(docs, index);
    assert forall j: Job :: AttemptOf(j.doc, j.task, index).id == j.task.candidateId by {
      forall j: Job { IdOfAttempt(j.doc, j.task, index); }
    }
    FilterMapped(id, History(docs, index), Jobs(docs), index);
  }

  lemma IdOfAttempt(d: Doc, task: Task, index: Index)
    ensures AttemptOf(d, task, index).id == task.candidateId && AttemptOf(d, task, index).runId == RunId(d)
    ensures AttemptOf(d, task, index).nonzero <==> task.exitCode !in {NoCode, IntCode(0), TextCode(""), TextCode("0")}
  {
  }

  lemma {:induction false} FilterMapped(id: string, h: seq<Attempt>, jobs: seq<Job>, index: Index)
    requires |h| == |jobs| && forall i :: 0 <= i < |h| ==> h[i] == AttemptOf(jobs[i].doc, jobs[i].task, index)
    ensures var own, mine := Filter(ById(id), h), Filter(Of(id), jobs);
      |own| == |mine| && forall i :: 0 <= i < |own| ==> own[i] == AttemptOf(mine[i].doc, mine[i].task, index)
  {
    hide AttemptOf;
    if h != [] {
      FilterMapped(id, h[1..], jobs[1..], index);
      IdOfAttempt(jobs[0].doc, jobs[0].task, index);
    }
  }

  /** A candidate's row, task by task: it counts the candidate's own tasks, of all runs, each once by
      the evidence for it, lists their runs in order, and its latest state is that of the last. */
  lemma {:induction false} CandidateRowByEvidence(docs: seq<Doc>, index: Index, id: string)
    requires id != ""
    ensures var found, jobs := Find(Drilldown(History(docs, index)), id), Filter(Of(id), Jobs(docs));
      && (found.None? <==> jobs == [])
      && (found.Some? ==> var row := found.value;
            && row.attempts == |jobs|
            && row.parsed == |Filter((j: Job) => JobParsed(j, index), jobs)|
            && row.missing == |Filter((j: Job) => JobMissing(j, index), jobs)|
            && row.malformed == |Filter((j: Job) => JobMalformed(j, index), jobs)|
            && row.waiting == |Filter((j: Job) => JobOpen(j, index), jobs)|
            && row.nonzero == |Filter(LeftWithError, jobs)|
            && row.runIds == seq(|jobs|, i requires 0 <= i < |jobs| => RunId(jobs[i].doc))
            && (row.latest == Some(Parsed) <==> JobParsed(jobs[|jobs| - 1], index)))
  {
    hide Filter, AttemptOf, JobParsed, JobMissing, JobMalformed, JobOpen, History, Drilldown, Digest, Find, Jobs;
    var own, jobs := Filter(ById(id), History(docs, index)), Filter(Of(id), Jobs(docs));
    DrilldownIsPerCandidate(History(docs, index), id);
    OwnHistory(docs, index, id);
    DigestByEvidence(own, jobs, index);
  }

  lemma {:induction false} DigestByEvidence(own: seq<Attempt>, jobs: seq<Job>, index: Index)
    requires |own| == |jobs| && forall i :: 0 <= i < |own| ==> own[i] == AttemptOf(jobs[i].doc, jobs[i].task, index)
    ensures var row := Digest(own);
      && row.attempts == |jobs|
      && row.parsed == |Filter((j: Job) => JobParsed(j, index), jobs)|
      && row.missing == |Filter((j: Job) => JobMissing(j, index), jobs)|
      && row.malformed == |Filter((j: Job) => JobMalformed(j, index), jobs)|
      && row.waiting == |Filter((j: Job) => JobOpen(j, index), jobs)|
      && row.nonzero == |Filter(LeftWithError, jobs)|
      && row.runIds == seq(|jobs|, i requires 0 <= i < |jobs| => RunId(jobs[i].doc))
      && (jobs != [] ==> (row.latest == Some(Parsed) <==> JobParsed(jobs[|jobs| - 1], index)))
  {
    hide Filter, AttemptOf, JobParsed, JobMissing, JobMalformed, JobOpen, Digest, RunId;
    forall i | 0 <= i < |own|
      ensures (own[i].state.Parsed? <==> JobParsed(jobs[i], index))
        && (own[i].state.Missing? <==> JobMissing(jobs[i], index))
        && (own[i].state.Malformed? <==> JobMalformed(jobs[i], index))
        && (own[i].state.WaitingReport? <==> JobOpen(jobs[i], index))
        && !own[i].state.Pending? && own[i].runId == RunId(jobs[i].doc) && (own[i].nonzero <==> LeftWithError(jobs[i])) {
      AttemptByEvidence(jobs[i].doc, jobs[i].task, index);
      IdOfAttempt(jobs[i].doc, jobs[i].task, index);
    }
    hide LeftWithError;
    DigestCounts(own, Parsed);
    DigestCounts(own, Missing);
    DigestCounts(own, Malformed);
    DigestCounts(own, WaitingReport);
    DigestLists(own);
    FilterAlike(ShownAs(Parsed), (j: Job) => JobParsed(j, index), own, jobs);
    FilterAlike(ShownAs(Missing), (j: Job) => JobMissing(j, index), own, jobs);
    FilterAlike(ShownAs(Malformed), (j: Job) => JobMalformed(j, index), own, jobs);
    FilterAlike(ShownAs(WaitingReport), (j: Job) => JobOpen(j, index), own, jobs);
    FilterAlike((a: Attempt) => a.nonzero, LeftWithError, own, jobs);
  }

  /** The terminal left with an exit code that is neither 0 nor "0". */
  predicate LeftWithError(j: Job) {
    j.task.exitCode !in {NoCode, TextCode(""), IntCode(0), TextCode("0")}
  }

  lemma {:induction false} DigestLists(h: seq<Attempt>)
    ensures Digest(h).runIds == seq(|h|, i requires 0 <= i < |h| => h[i].runId)
    ensures Digest(h).nonzero == Count((a: Attempt) => a.nonzero, h)
  {
    hide Count, AddAttempt, Digest;
    if h == [] {
      NoAttempts([], (a: Attempt) => a.nonzero);
      DigestNothing();
    } else {
      var front, a := h[..|h| - 1], h[|h| - 1];
      DigestLists(front);
      DigestLast(h);
      AttemptAdds(Digest(front), a, Parsed);
      assert h == front + [a];
      CountAppend((a: Attempt) => a.nonzero, front, a);
    }
  }

  // ---------------------------------------------------------------- risk

  datatype Level = Green | Yellow | Red {
    function Rank(): nat { if Green? then 0 else if Yellow? then 1 else 2 }
  }

  datatype Risk = Risk(level: Level, score: int, reason: string)

  function RetryRemaining(c: Candidate, budget: int): nat {
    NonNegative(budget - RetryUsed(c))
  }

  /** `risk_for_candidate`. */
  function RiskFor(c: Candidate, budget: int): Risk {
    var retryUsed := RetryUsed(c);
    var exhausted := retryUsed >= budget && c.parsed == 0;
    if c.latest == Some(Parsed) then Risk(Green, 10 + c.parsed, "parsed_latest")
    else if c.malformed > 0 || c.nonzero > 0 || c.missing > 0 || exhausted then
      Risk(Red,
           100 + c.malformed * 20 + c.nonzero * 15 + c.missing * 12 + NonNegative(retryUsed - budget + 1) * 10,
           if c.malformed > 0 then "malformed" else if c.nonzero > 0 then "terminal_nonzero"
           else if c.missing > 0 then "missing_after_run" else "retry_budget_exhausted")
    else if c.waiting >= 2 || retryUsed > 0 then
      Risk(Yellow, 50 + c.waiting * 5 + retryUsed * 4, "repeated_waiting_report")
    else Risk(Green, 10 + c.parsed, "within_retry_budget")
  }

  function LevelAfter(h: seq<Attempt>, budget: int): Level {
    RiskFor(Digest(h), budget).level
  }

  /** Risk falls exactly when a parsed report arrives at a candidate that is not green; no other
      attempt ever lowers the level, whatever came before. */
  lemma {:induction false} RiskFallsOnlyOnParse(h: seq<Attempt>, a: Attempt, budget: int)
    ensures LevelAfter(h + [a], budget).Rank() < LevelAfter(h, budget).Rank()
            <==> a.state.Parsed? && !LevelAfter(h, budget).Green?
  {
    assert (h + [a])[..|h|] == h;
  }

  /** A candidate's risk never falls without a report: whatever its history, an attempt that lowers the
      level has run and is backed by a readable report, in its result or in the task itself. */
  lemma {:induction false} RiskFallsOnlyOnAReport(h: seq<Attempt>, d: Doc, task: Task, index: Index, budget: int)
    requires LevelAfter(h + [AttemptOf(d, task, index)], budget).Rank() < LevelAfter(h, budget).Rank()
    ensures Reported(task, Find(index, (RunId(d), task.candidateId))) && !NotRunYet(task, d.runTerminal)
  {
    hide LevelAfter, ReportState, Reported, NotRunYet, Find;
    RiskFallsOnlyOnParse(h, AttemptOf(d, task, index), budget);
    ParsedNeedsAReport(task, Find(index, (RunId(d), task.candidateId)));
  }

  predicate Failed(a: Attempt) {
    a.state.Missing? || a.state.Malformed? || a.nonzero
  }

  lemma {:induction false} DigestFailures(h: seq<Attempt>)
    ensures var c := Digest(h);
      (c.malformed > 0 || c.nonzero > 0 || c.missing > 0) <==> exists i :: 0 <= i < |h| && Failed(h[i])
    ensures Digest(h).parsed == 0 <==> forall i :: 0 <= i < |h| ==> !h[i].state.Parsed?
  {
    hide Failed;
    if h != [] {
      var front, a := h[..|h| - 1], h[|h| - 1];
      DigestFailures(front);
      AddedFailure(Digest(front), a);
      hide AddAttempt;
      assert forall i :: 0 <= i < |front| ==> h[i] == front[i];
    }
  }

  lemma AddedFailure(c: Candidate, a: Attempt)
    ensures var d := AddAttempt(c, a);
      && ((d.malformed > 0 || d.nonzero > 0 || d.missing > 0)
          <==> (c.malformed > 0 || c.nonzero > 0 || c.missing > 0) || Failed(a))
      && (d.parsed == 0 <==> c.parsed == 0 && !a.state.Parsed?)
  {
  }

  /** Red, read off the attempts: the last one is not parsed, and either some attempt failed or
      the retry budget went by without one parsed report. */
  lemma {:induction false} RedMeans(h: seq<Attempt>, budget: int)
    requires h != []
    ensures LevelAfter(h, budget).Red? <==>
      !h[|h| - 1].state.Parsed?
      && ((exists i :: 0 <= i < |h| && Failed(h[i]))
          || (|h| - 1 >= budget && forall i :: 0 <= i < |h| ==> !h[i].state.Parsed?))
  {
    hide AddAttempt, Digest;
    DigestFailures(h);
    DigestCounts(h, Parsed);
  }

  /** Yellow, read off the attempts: more than one, none of which failed, the last not parsed, and
      either a parsed report or retries left. */
  lemma {:induction false} YellowMeans(h: seq<Attempt>, budget: int)
    requires h != []
    ensures LevelAfter(h, budget).Yellow? <==>
      && |h| >= 2 && !h[|h| - 1].state.Parsed?
      && (forall i :: 0 <= i < |h| ==> !Failed(h[i]))
      && (|h| - 1 < budget || exists i :: 0 <= i < |h| && h[i].state.Parsed?)
  {
    hide AddAttempt, Digest, Count;
    DigestFailures(h);
    DigestCounts(h, Parsed);
    DigestCounts(h, WaitingReport);
    CountAtMost(ShownAs(WaitingReport), h);
  }

  lemma CountAtMost(p: Attempt -> bool, h: seq<Attempt>)
    ensures Count(p, h) <= |h|
  {
  }

  /** The score counts the attempts: a red one 20 for each malformed report, 15 for each bad exit, 12 for
      each missing report and 10 for each retry from the last in the budget on, above 100; a yellow
      one 5 for each waiting attempt and 4 for each retry, above 50; a green one each parsed report,
      above 10. */
  lemma {:induction false} ScoreMeans(h: seq<Attempt>, budget: int)
    requires h != []
    ensures var risk := RiskFor(Digest(h), budget);
      risk.score ==
      if risk.level.Red? then
        100 + 20 * Count((a: Attempt) => a.state.Malformed?, h) + 15 * Count((a: Attempt) => a.nonzero, h)
        + 12 * Count((a: Attempt) => a.state.Missing?, h) + 10 * NonNegative(|h| - budget)
      else if risk.level.Yellow? then
        50 + 5 * Count((a: Attempt) => a.state.WaitingReport? || a.state.Pending?, h) + 4 * (|h| - 1)
      else 10 + Count((a: Attempt) => a.state.Parsed?, h)
  {
    hide AddAttempt, Digest, Count;
    DigestCounts(h, Parsed);
    DigestCounts(h, Missing);
    DigestCounts(h, Malformed);
    DigestCounts(h, WaitingReport);
    DigestLists(h);
    SameCount(ShownAs(Parsed), (a: Attempt) => a.state.Parsed?, h);
    SameCount(ShownAs(Missing), (a: Attempt) => a.state.Missing?, h);
    SameCount(ShownAs(Malformed), (a: Attempt) => a.state.Malformed?, h);
    SameCount(ShownAs(WaitingReport), (a: Attempt) => a.state.WaitingReport? || a.state.Pending?, h);
  }

  lemma SameCount(p: Attempt -> bool, q: Attempt -> bool, h: seq<Attempt>)
    requires forall a :: p(a) <==> q(a)
    ensures Count(p, h) == Count(q, h)
  {
    FilterAlike(p, q, h, h);
  }

  /** Without red, the reason is the last report if it parsed, then repeated waiting, then a budget that
      is not spent. */
  lemma {:induction false} CalmReasonMeans(h: seq<Attempt>, budget: int)
    requires h != [] && !LevelAfter(h, budget).Red?
    ensures var reason := RiskFor(Digest(h), budget).reason;
      && (reason == "parsed_latest" <==> h[|h| - 1].state.Parsed?)
      && (reason == "repeated_waiting_report" <==> !h[|h| - 1].state.Parsed? && |h| >= 2)
      && (reason == "within_retry_budget" <==> !h[|h| - 1].state.Parsed? && |h| == 1)
  {
    hide AddAttempt, Digest, Count;
    DigestCounts(h, WaitingReport);
    CountAtMost(ShownAs(WaitingReport), h);
  }

  /** A red candidate's reason is its worst failure: a malformed report, then a bad exit, then a missing
      report, and the spent budget only without any. */
  lemma {:induction false} ReasonMeans(h: seq<Attempt>, budget: int)
    requires LevelAfter(h, budget).Red?
    ensures var reason := RiskFor(Digest(h), budget).reason;
      && (reason == "malformed" <==> exists i :: 0 <= i < |h| && h[i].state.Malformed?)
      && (reason == "terminal_nonzero" <==>
            (forall i :: 0 <= i < |h| ==> !h[i].state.Malformed?) && exists i :: 0 <= i < |h| && h[i].nonzero)
      && (reason == "missing_after_run" <==>
            (forall i :: 0 <= i < |h| ==> !h[i].state.Malformed? && !h[i].nonzero)
            && exists i :: 0 <= i < |h| && h[i].state.Missing?)
      && (reason == "retry_budget_exhausted" <==> forall i :: 0 <= i < |h| ==> !Failed(h[i]))
  {
    hide AddAttempt, Digest;
    DigestKinds(h);
  }

  lemma {:induction false} DigestKinds(h: seq<Attempt>)
    ensures Digest(h).malformed > 0 <==> exists i :: 0 <= i < |h| && h[i].state.Malformed?
    ensures Digest(h).missing > 0 <==> exists i :: 0 <= i < |h| && h[i].state.Missing?
    ensures Digest(h).nonzero > 0 <==> exists i :: 0 <= i < |h| && h[i].nonzero
  {
    if h != [] {
      var front, a := h[..|h| - 1], h[|h| - 1];
      DigestKinds(front);
      AddedKinds(Digest(front), a);
      hide AddAttempt;
      assert forall i :: 0 <= i < |front| ==> h[i] == front[i];
    }
  }

  lemma AddedKinds(c: Candidate, a: Attempt)
    ensures var d := AddAttempt(c, a);
      && (d.malformed > 0 <==> c.malformed > 0 || a.state.Malformed?)
      && (d.missing > 0 <==> c.missing > 0 || a.state.Missing?)
      && (d.nonzero > 0 <==> c.nonzero > 0 || a.nonzero)
  {
  }

  /** What is used of the retry budget and what remains of it make up the budget. */
  lemma {:induction false} RetryBudgetAddsUp(docs: seq<Doc>, index: Index, id: string, budget: nat)
    requires id != ""
    requires Filter(ById(id), History(docs, index)) != []
    ensures var row := Find(Drilldown(History(docs, index)), id);
      && row.Some? && RetryUsed(row.value) == Count(ById(id), History(docs, index)) - 1
      && RetryRemaining(row.value, budget) + (if RetryUsed(row.value) < budget then RetryUsed(row.value) else budget) == budget
  {
    DrilldownIsPerCandidate(History(docs, index), id);
    DigestCounts(Filter(ById(id), History(docs, index)), Parsed);
  }
}
