/** The tester execution gate (tools/auto_tester_window_guard.py) and the writer of its timed
    lock (Dashboard/dashboard_server.js).  Times are microseconds on the clock of `TesterWindow`. */
module Authorization {
  import opened Sequences
  import opened TesterWindow
  import opened Blockers
  import opened Text

  /** A JSON value where the guard tests `is True`, or membership in `(False, None)`, which in
      Python also holds of zero. */
  datatype Flag = Absent | Yes | No | Zero | Other {
    predicate Harmless() { Absent? || No? || Zero? }
  }

  datatype TaskCap = NoCap | Cap(n: int) | BadCap

  datatype Lock = Lock(purpose: string, authorized: Flag, testerOnly: Flag, allowRunTerminal: Flag,
                       livePresetMutation: Flag, allowOutsideWindow: Flag,
                       createdAt: Option<int>, expiresAt: Option<int>,
                       runtimeDir: string, hfmRoot: string, maxTasks: TaskCap)

  const EmptyLock := Lock("", Absent, Absent, Absent, Absent, Absent, None, None, "", "", NoCap)

  datatype LockFile = NoFile | Unreadable | Readable(lock: Lock)

  const LOCK_PURPOSE := "PARAM_LAB_STRATEGY_TESTER_ONLY"

  // ---------------------------------------------------------------- the lock

  /** `validate_authorization_lock`; directories are given in resolved, lower-case form. */
  function LockBlockers(file: LockFile, now: int, runtimeDir: string, hfmRoot: string,
                        maxTasks: Option<int>, outside: bool): seq<string> {
    var lock := if file.Readable? then file.lock else EmptyLock;
    Block(file.NoFile?, "authorization_lock_missing")
    + Block(!file.Readable?, "authorization_lock_unreadable")
    + Block(lock.purpose != LOCK_PURPOSE, "authorization_lock_wrong_purpose")
    + Block(!lock.authorized.Yes?, "authorization_lock_not_authorized")
    + Block(!lock.testerOnly.Yes?, "authorization_lock_not_tester_only")
    + Block(!lock.allowRunTerminal.Yes?, "authorization_lock_run_terminal_not_allowed")
    + Block(!lock.livePresetMutation.Harmless(), "authorization_lock_allows_live_preset_mutation")
    + Block(outside && !lock.allowOutsideWindow.Yes?, "outside_window_override_not_locked")
    + Block(lock.createdAt.Some? && lock.createdAt.value > now + 2 * MINUTE, "authorization_lock_created_in_future")
    + Block(lock.expiresAt.None?, "authorization_lock_missing_expiry")
    + Block(lock.expiresAt.Some? && lock.expiresAt.value <= now, "authorization_lock_expired")
    + Block(lock.runtimeDir != "" && lock.runtimeDir != runtimeDir, "authorization_lock_runtime_dir_mismatch")
    + Block(lock.hfmRoot != "" && lock.hfmRoot != hfmRoot, "authorization_lock_hfm_root_mismatch")
    + Block(maxTasks.Some? && lock.maxTasks.Cap? && lock.maxTasks.n < maxTasks.value, "authorization_lock_max_tasks_too_low")
    + Block(maxTasks.Some? && lock.maxTasks.BadCap?, "authorization_lock_max_tasks_invalid")
  }

  /** `value` is the parsed option, `None` when it is not a number. */
  function ClampTasks(value: Option<int>): int {
    if value.None? then 8 else if value.value < 1 then 1 else if value.value > 12 then 12 else value.value
  }

  function ClampMinutes(value: Option<int>): int {
    if value.None? then 90 else if value.value < 15 then 15 else if value.value > 180 then 180 else value.value
  }

  /** A number is moved to the nearest one allowed, so that an allowed one stays as it is. */
  lemma ClampsAreNearest(n: int)
    ensures 15 <= ClampMinutes(Some(n)) <= 180 && 1 <= ClampTasks(Some(n)) <= 12
    ensures forall u :: 15 <= u <= 180 ==> Distance(n, ClampMinutes(Some(n))) <= Distance(n, u)
    ensures forall u :: 1 <= u <= 12 ==> Distance(n, ClampTasks(Some(n))) <= Distance(n, u)
    ensures ClampMinutes(None) == 90 && ClampTasks(None) == 8
  {
  }

  function Distance(a: int, b: int): nat {
    if a < b then b - a else a - b
  }

  /** The dashboard's clock has millisecond grain. */
  function Millis(t: int): int { t - t % 1000 }

  function WrittenLock(minutes: Option<int>, maxTasks: Option<int>, now: int, runtimeDir: string, hfmRoot: string): Lock {
    Lock(LOCK_PURPOSE, Yes, Yes, Yes, No, No, Some(Millis(now)), Some(Millis(now) + ClampMinutes(minutes) * MINUTE),
         runtimeDir, hfmRoot, Cap(ClampTasks(maxTasks)))
  }

  /** What the writer grants: a fresh lock passes without the override exactly until its clamped
      expiry (and from two minutes before it was made), for its own directories and up to its
      clamped number of tasks; with the override it never passes. */
  lemma {:induction false} FreshLockPasses(minutes: Option<int>, cap: Option<int>, written: int, lockRuntime: string,
      lockRoot: string, now: int, runtimeDir: string, hfmRoot: string, maxTasks: Option<int>, outside: bool)
    ensures LockBlockers(Readable(WrittenLock(minutes, cap, written, lockRuntime, lockRoot)),
                         now, runtimeDir, hfmRoot, maxTasks, outside) == []
            <==>
            && !outside
            && Millis(written) - 2 * MINUTE <= now < Millis(written) + ClampMinutes(minutes) * MINUTE
            && lockRuntime in {"", runtimeDir} && lockRoot in {"", hfmRoot}
            && (maxTasks.None? || maxTasks.value <= ClampTasks(cap))
    ensures 15 <= ClampMinutes(minutes) <= 180 && 1 <= ClampTasks(cap) <= 12
  {
  }

  // ---------------------------------------------------------------- the queue

  /** `command` is the task's tester-only command, or else its config-only command. */
  datatype QueueTask = NotAnObject
                     | Task(candidateId: string, testerOnly: Flag, livePresetMutation: Flag,
                            runTerminalDefault: Flag, command: string)

  datatype Scheduler = Scheduler(present: bool, tasks: seq<QueueTask>, runTerminal: Flag, livePresetMutation: Flag)

  predicate AsksForTerminal(command: string) {
    Contains(Lower(command), "--run-terminal") || Contains(Lower(command), "-runterminal")
  }

  /** A command asks for the terminal if either spelling of the option stands anywhere in it, in
      whatever case. */
  lemma {:induction false} AsksForTerminalMeans(command: string)
    ensures AsksForTerminal(command) <==>
      || (exists before, after :: Lower(command) == before + "--run-terminal" + after)
      || (exists before, after :: Lower(command) == before + "-runterminal" + after)
  {
    ContainsMeans(Lower(command), "--run-terminal");
    ContainsMeans(Lower(command), "-runterminal");
  }

  function Prefixed(id: string, items: seq<string>): seq<string> {
    seq(|items|, i requires 0 <= i < |items| => (if id == "" then "unknown" else id) + ":" + items[i])
  }

  function TaskBlockers(t: QueueTask): seq<string> {
    if t.NotAnObject? then ["auto_scheduler_task_not_object"] else
      Prefixed(t.candidateId,
        Block(t.candidateId == "", "missing_candidate_id")
        + Block(!t.testerOnly.Yes?, "task_not_marked_tester_only")
        + Block(!t.livePresetMutation.Harmless(), "task_live_preset_mutation_enabled")
        + Block(!t.runTerminalDefault.Harmless(), "task_run_terminal_default_enabled")
        + Block(AsksForTerminal(t.command), "task_command_contains_run_terminal"))
  }

  predicate TesterOnlyTask(t: QueueTask) {
    t.Task? && t.candidateId != "" && t.testerOnly.Yes? && t.livePresetMutation.Harmless()
    && t.runTerminalDefault.Harmless() && !AsksForTerminal(t.command)
  }

  function AllTaskBlockers(tasks: seq<QueueTask>): seq<string> {
    if tasks == [] then [] else AllTaskBlockers(tasks[..|tasks| - 1]) + TaskBlockers(tasks[|tasks| - 1])
  }

  function SummaryBlockers(s: Scheduler): seq<string> {
    Block(!s.present, "auto_scheduler_missing")
    + Block(s.tasks == [], "auto_scheduler_queue_empty")
    + Block(!s.runTerminal.Harmless(), "auto_scheduler_run_terminal_enabled")
    + Block(!s.livePresetMutation.Harmless(), "auto_scheduler_live_preset_mutation_enabled")
  }

  function QueueBlockers(s: Scheduler): seq<string> {
    SummaryBlockers(s) + AllTaskBlockers(s.tasks)
  }

  /** `validate_scheduler_queue`. */
  method ValidateQueue(s: Scheduler) returns (blockers: seq<string>)
    ensures blockers == QueueBlockers(s)
  {
    hide TaskBlockers;
    blockers := [];
    if !s.present {
      blockers := blockers + ["auto_scheduler_missing"];
    }
    if s.tasks == [] {
      blockers := blockers + ["auto_scheduler_queue_empty"];
    }
    if !s.runTerminal.Harmless() {
      blockers := blockers + ["auto_scheduler_run_terminal_enabled"];
    }
    if !s.livePresetMutation.Harmless() {
      blockers := blockers + ["auto_scheduler_live_preset_mutation_enabled"];
    }
    ghost var head := SummaryBlockers(s);
    assert blockers == head;
    blockers := ValidateTasks(s.tasks, blockers);
  }

  method ValidateTasks(tasks: seq<QueueTask>, head: seq<string>) returns (blockers: seq<string>)
    ensures blockers == head + AllTaskBlockers(tasks)
  {
    hide TaskBlockers;
    blockers := head;
    for i := 0 to |tasks|
      invariant blockers == head + AllTaskBlockers(tasks[..i])
    {
      assert tasks[..i + 1][..i] == tasks[..i];
      blockers := blockers + TaskBlockers(tasks[i]);
    }
    assert tasks[..|tasks|] == tasks;
  }

  lemma {:induction false} TaskBlockersMean(t: QueueTask)
    ensures TaskBlockers(t) == [] <==> TesterOnlyTask(t)
  {
    hide AsksForTerminal;
  }

  lemma {:induction false} NoTaskBlockers(tasks: seq<QueueTask>)
    ensures AllTaskBlockers(tasks) == [] <==> forall i :: 0 <= i < |tasks| ==> TesterOnlyTask(tasks[i])
  {
    hide TaskBlockers, TesterOnlyTask;
    if tasks != [] {
      var front, last := tasks[..|tasks| - 1], tasks[|tasks| - 1];
      NoTaskBlockers(front);
      TaskBlockersMean(last);
      assert forall i :: 0 <= i < |front| ==> tasks[i] == front[i];
    }
  }

  /** A non-empty queue of tester-only tasks. */
  predicate TesterOnlyQueue(tasks: seq<QueueTask>) {
    tasks != [] && forall i :: 0 <= i < |tasks| ==> TesterOnlyTask(tasks[i])
  }

  /** The queue passes exactly when it is a non-empty list of tester-only tasks and its summary
      turns nothing on. */
  lemma {:induction false} QueuePasses(s: Scheduler)
    ensures QueueBlockers(s) == [] <==>
      s.present && TesterOnlyQueue(s.tasks) && s.runTerminal.Harmless() && s.livePresetMutation.Harmless()
  {
    hide TesterOnlyTask, AllTaskBlockers;
    NoTaskBlockers(s.tasks);
  }

  // ---------------------------------------------------------------- the live session

  /** The live dashboard snapshot; position counts are per symbol and per strategy. */
  datatype Snapshot = Snapshot(exists_: bool, readable: bool, timestamp: Option<int>, openTrades: nat,
                               symbolPositions: seq<int>, strategyPositions: seq<int>, margin: real,
                               account: string, server: string, connected: Flag, terminalConnected: Flag,
                               accountAuthorized: Flag, killSwitch: Flag, tradeStatus: string)

  function Sum(s: seq<int>): int {
    if s == [] then 0 else s[0] + Sum(s[1..])
  }

  /** Counts that are not negative sum to nothing only if each of them is nothing. */
  lemma {:induction false} NothingInSum(s: seq<int>)
    requires forall i :: 0 <= i < |s| ==> s[i] >= 0
    ensures Sum(s) <= 0 <==> forall i :: 0 <= i < |s| ==> s[i] == 0
    ensures Sum(s) >= 0
  {
    if s != [] {
      NothingInSum(s[1..]);
      assert forall i :: 1 <= i < |s| ==> s[i] == s[1..][i - 1];
    }
  }

  predicate RiskyStatus(upperStatus: string) {
    || Contains(upperStatus, "ERROR") || Contains(upperStatus, "FAIL") || Contains(upperStatus, "PANIC")
    || Contains(upperStatus, "KILL") || Contains(upperStatus, "UNAUTHORIZED") || Contains(upperStatus, "DISCONNECTED")
  }

  /** `validate_live_session_compatibility`; `tradeStatus` is already upper case. */
  function LiveBlockers(s: Snapshot, now: int, maxAge: int, login: string, server: string): seq<string> {
    Block(!s.exists_, "live_dashboard_snapshot_missing")
    + Block(!s.readable, "live_dashboard_snapshot_unreadable")
    + Block(s.timestamp.None?, "live_dashboard_timestamp_missing")
    + Block(s.timestamp.Some? && maxAge > 0 && now - s.timestamp.value > maxAge * MINUTE, "live_dashboard_snapshot_stale")
    + Block(s.openTrades > 0, "open_live_positions_present")
    + Block(Sum(s.symbolPositions) > 0, "symbol_open_positions_present")
    + Block(Sum(s.strategyPositions) > 0, "strategy_open_positions_present")
    + Block(s.margin > 0.01, "live_account_margin_in_use")
    + Block(login != "" && s.account != "" && login != s.account, "live_account_number_mismatch")
    + Block(login != "" && s.account == "", "live_account_number_missing")
    + Block(server != "" && s.server != "" && s.server != server, "live_account_server_mismatch")
    + Block(server != "" && s.server == "", "live_account_server_missing")
    + Block(!s.connected.Yes?, "live_runtime_not_connected")
    + Block(!s.terminalConnected.Yes?, "live_terminal_not_connected")
    + Block(!s.accountAuthorized.Yes?, "live_account_not_authorized")
    + Block(s.killSwitch.Yes?, "live_pilot_kill_switch_active")
    + Block(RiskyStatus(s.tradeStatus), "live_trade_status_incompatible")
  }

  // ---------------------------------------------------------------- the gate

  datatype Machine = Machine(terminalExists: bool, profileRootExists: bool, runtimeDirExists: bool, repoRootExists: bool)

  /** Everything one evaluation is given besides the clock and the lock file. */
  datatype Inputs = Inputs(scheduler: Scheduler, snapshot: Snapshot, machine: Machine, runtimeDir: string, hfmRoot: string,
                           maxTasks: Option<int>, outside: bool, login: string, server: string, maxAge: int)

  function MachineBlockers(m: Machine): seq<string> {
    Block(!m.terminalExists, "terminal64_missing")
    + Block(!m.profileRootExists, "tester_profile_root_missing")
    + Block(!m.runtimeDirExists, "runtime_dir_missing")
    + Block(!m.repoRootExists, "repo_root_missing")
  }

  /** `evaluate_execution_gate`: the terminal may run when nothing blocks. */
  function GateBlockers(file: LockFile, now: int, x: Inputs): seq<string> {
    var outsideLocked := file.Readable? && file.lock.allowOutsideWindow in {Yes, Other};
    LockBlockers(file, now, x.runtimeDir, x.hfmRoot, x.maxTasks, x.outside)
    + QueueBlockers(x.scheduler)
    + LiveBlockers(x.snapshot, now, x.maxAge, x.login, x.server)
    + MachineBlockers(x.machine)
    + Block(!x.outside && !GuardOpen(now), "outside_strategy_tester_window")
    + Block(x.outside && !outsideLocked, "outside_window_override_not_locked")
  }

  predicate CanRunTerminal(file: LockFile, now: int, x: Inputs) {
    GateBlockers(file, now, x) == []
  }

  /** No live position is open, as far as the snapshot's lists and sums tell. */
  predicate NoOpenPositions(s: Snapshot) {
    s.openTrades == 0 && Sum(s.symbolPositions) <= 0 && Sum(s.strategyPositions) <= 0 && s.margin <= 0.01
  }

  /** The lock grants what is asked: it is authorized for tester runs only, alive now, and covers the
      directories, the number of tasks and any override. */
  predicate Grants(lock: Lock, now: int, runtimeDir: string, hfmRoot: string, maxTasks: Option<int>, outside: bool) {
    && lock.purpose == LOCK_PURPOSE && lock.authorized.Yes? && lock.testerOnly.Yes? && lock.allowRunTerminal.Yes?
    && lock.livePresetMutation.Harmless() && (outside ==> lock.allowOutsideWindow.Yes?)
    && (lock.createdAt.Some? ==> lock.createdAt.value <= now + 2 * MINUTE)
    && lock.expiresAt.Some? && now < lock.expiresAt.value
    && lock.runtimeDir in {"", runtimeDir} && lock.hfmRoot in {"", hfmRoot}
    && (maxTasks.Some? ==> lock.maxTasks.NoCap? || (lock.maxTasks.Cap? && maxTasks.value <= lock.maxTasks.n))
  }

  lemma {:induction false} LockPasses(file: LockFile, now: int, runtimeDir: string, hfmRoot: string,
                                      maxTasks: Option<int>, outside: bool)
    ensures LockBlockers(file, now, runtimeDir, hfmRoot, maxTasks, outside) == [] <==>
      file.Readable? && Grants(file.lock, now, runtimeDir, hfmRoot, maxTasks, outside)
  {
  }

  /** The live session is at rest: its snapshot carries a time no more than `maxAge` minutes ago (any
      future time passes), no position is open, account and server are the expected ones where
      any are expected, and it is connected, authorized, not stopped and in no risky status. */
  predicate AtRest(s: Snapshot, now: int, maxAge: int, login: string, server: string) {
    && s.exists_ && s.readable && NoOpenPositions(s)
    && s.timestamp.Some? && (maxAge > 0 ==> now - s.timestamp.value <= maxAge * MINUTE)
    && (login != "" ==> s.account == login) && (server != "" ==> s.server == server)
    && s.connected.Yes? && s.terminalConnected.Yes? && s.accountAuthorized.Yes?
    && !s.killSwitch.Yes? && !RiskyStatus(s.tradeStatus)
  }

  lemma {:induction false} LivePasses(s: Snapshot, now: int, maxAge: int, login: string, server: string)
    ensures LiveBlockers(s, now, maxAge, login, server) == [] <==> AtRest(s, now, maxAge, login, server)
  {
    hide RiskyStatus, Sum;
  }

  /** The gate opens exactly when a readable lock grants what is asked, the queue is a non-empty list
      of tester-only tasks whose summary turns nothing on, the live session is at rest, the machine
      has what it needs and, unless overridden, the tester window is open. */
  lemma {:induction false} GateOpensExactly(file: LockFile, now: int, x: Inputs)
    ensures CanRunTerminal(file, now, x) <==>
      && file.Readable? && Grants(file.lock, now, x.runtimeDir, x.hfmRoot, x.maxTasks, x.outside)
      && x.scheduler.present && TesterOnlyQueue(x.scheduler.tasks)
      && x.scheduler.runTerminal.Harmless() && x.scheduler.livePresetMutation.Harmless()
      && AtRest(x.snapshot, now, x.maxAge, x.login, x.server)
      && x.machine == Machine(true, true, true, true)
      && (x.outside || GuardOpen(now))
  {
    hide GuardOpen, TesterOnlyQueue, LockBlockers, QueueBlockers, LiveBlockers, AtRest;
    QueuePasses(x.scheduler);
    LockPasses(file, now, x.runtimeDir, x.hfmRoot, x.maxTasks, x.outside);
    LivePasses(x.snapshot, now, x.maxAge, x.login, x.server);
  }

  /** What an open gate guarantees about its inputs, whatever the lock file holds. */
  lemma {:induction false} OpenGateMeans(file: LockFile, now: int, x: Inputs)
    requires CanRunTerminal(file, now, x)
    ensures file.Readable? && Grants(file.lock, now, x.runtimeDir, x.hfmRoot, x.maxTasks, x.outside)
    ensures x.outside || GuardOpen(now)
    ensures TesterOnlyQueue(x.scheduler.tasks)
    ensures AtRest(x.snapshot, now, x.maxAge, x.login, x.server)
  {
    hide GuardOpen, TesterOnlyQueue, GateBlockers, AtRest, Grants;
    GateOpensExactly(file, now, x);
  }

  // ---------------------------------------------------------------- runs

  datatype Event =
    | Write(minutes: Option<int>, maxTasks: Option<int>, runtimeDir: string, hfmRoot: string)
    | Delete
    | Tick(us: nat)

  datatype World = World(file: LockFile, now: int)

  function Step(w: World, e: Event): World {
    match e
    case Write(minutes, maxTasks, runtimeDir, hfmRoot) =>
      w.(file := Readable(WrittenLock(minutes, maxTasks, w.now, runtimeDir, hfmRoot)))
    case Delete => w.(file := NoFile)
    case Tick(us) => w.(now := w.now + us)
  }

  function Exec(start: int, events: seq<Event>): World {
    if events == [] then World(NoFile, start) else Step(Exec(start, events[..|events| - 1]), events[|events| - 1])
  }

  /** Event `i` wrote the lock that is there now, and no later than now. */
  ghost predicate WrittenBy(start: int, events: seq<Event>, i: int) {
    && 0 <= i < |events| && events[i].Write?
    && var w, e := Exec(start, events[..i]), events[i];
      && w.now <= Exec(start, events).now
      && Exec(start, events).file == Readable(WrittenLock(e.minutes, e.maxTasks, w.now, e.runtimeDir, e.hfmRoot))
  }

  lemma {:induction false} LockHasWriter(start: int, events: seq<Event>)
    ensures Exec(start, events).file.NoFile? || exists i :: WrittenBy(start, events, i)
  {
    hide WrittenLock;
    if events != [] {
      var n := |events| - 1;
      var front, e := events[..n], events[n];
      LockHasWriter(start, front);
      if e.Write? {
        assert WrittenBy(start, events, n);
      } else if !e.Delete? && !Exec(start, front).file.NoFile? {
        var i :| WrittenBy(start, front, i);
        assert front[..i] == events[..i];
        assert WrittenBy(start, events, i);
      }
    }
  }

  /** Authorization is bounded: however locks are written and deleted, the gate opens only if some
      write happened in the last 180 minutes, by a lock still inside its own clamped minutes; the
      tester window is open; the queue is tester-only and the live session at rest.  A
      dashboard lock never opens the gate outside the window. */
  lemma {:induction false} AuthorizationIsBounded(start: int, events: seq<Event>, x: Inputs)
    requires CanRunTerminal(Exec(start, events).file, Exec(start, events).now, x)
    ensures var now := Exec(start, events).now;
      exists i :: WrittenBy(start, events, i)
                  && Exec(start, events[..i]).now <= now < Exec(start, events[..i]).now + 180 * MINUTE
                  && now < Exec(start, events[..i]).now + ClampMinutes(events[i].minutes) * MINUTE
    ensures !x.outside && GuardOpen(Exec(start, events).now)
    ensures TesterOnlyQueue(x.scheduler.tasks)
    ensures AtRest(x.snapshot, Exec(start, events).now, x.maxAge, x.login, x.server)
  {
    hide GuardOpen, TesterOnlyQueue, GateBlockers, AtRest;
    var w := Exec(start, events);
    OpenGateMeans(w.file, w.now, x);
    LockHasWriter(start, events);
    var i :| WrittenBy(start, events, i);
    var written := Exec(start, events[..i]).now;
    assert Millis(written) <= written;
    assert w.now < written + ClampMinutes(events[i].minutes) * MINUTE <= written + 180 * MINUTE;
  }
}
