// The scheduler plugin: the `task`, `schedule`, `modify` and `cron` commands.
// The task scheduler itself is not part of this model: every call a command
// makes on it is recorded as an `Effect`, in order, and every answer it gives
// (the id `add_task` returns, the boolean of `start_task`, ...) is an input.

module SchedulerPlugin {
  import opened Wrappers
  import Text

  const PluginName := "scheduler"

  /** A getopt option: the flag as written and its argument ("" for a bare flag). */
  type Opt = (string, string)

  /** The `str()` of a value of the task-info dict, with its Python truthiness. */
  datatype Shown = Shown(text: string, truthy: bool)

  /** The dict `get_task_info` answers. */
  datatype TaskInfo = TaskInfo(
    name: string, id: string, state: string, periodic: bool, interval: string,
    delay: Shown, runCount: string, maxRuns: Shown, lastRun: Shown,
    plugin: Shown, description: Shown)

  /** A task object as `list_tasks` returns it; `state` is its state's enum name. */
  datatype TaskSummary = TaskSummary(id: string, name: string, state: string, periodic: bool, runCount: string)

  // ---------------------------------------------------------------------------
  // format_task_info, format_task_list

  /** A detail line: a field and its value, indented by two spaces. */
  function Detail(field: string, value: string): string {
    "  " + field + ": " + value
  }

  predicate Indented(lines: seq<string>) {
    forall k :: 0 <= k < |lines| ==> Text.StartsWith(lines[k], "  ")
  }

  lemma DetailIndented(field: string, value: string)
    ensures Text.StartsWith(Detail(field, value), "  ")
  {
    assert Detail(field, value)[..2] == "  ";
  }

  lemma OptionalIndented(present: bool, field: string, value: string)
    ensures Indented(Text.Optional(present, Detail(field, value)))
  {
    DetailIndented(field, value);
  }

  lemma IndentedConcat(a: seq<string>, b: seq<string>)
    requires Indented(a) && Indented(b)
    ensures Indented(a + b)
  {
    forall k | 0 <= k < |a + b| ensures Text.StartsWith((a + b)[k], "  ") {
      if k < |a| { assert (a + b)[k] == a[k]; } else { assert (a + b)[k] == b[k - |a|]; }
    }
  }

  function Title(t: TaskInfo): string {
    "Task: " + t.name + " (ID: " + t.id + ")"
  }

  /** The details shown above the run count. */
  function InfoDetails(t: TaskInfo): seq<string> {
    [Detail("State", t.state), Detail("Type", if t.periodic then "Periodic" else "One-time")]
    + Text.Optional(t.periodic, Detail("Interval", t.interval + "s"))
    + Text.Optional(t.delay.truthy, Detail("Initial Delay", t.delay.text + "s"))
  }

  /** The details shown below the run count. */
  function InfoTrailer(t: TaskInfo): seq<string> {
    Text.Optional(t.maxRuns.truthy, Detail("Max Runs", t.maxRuns.text))
    + Text.Optional(t.lastRun.truthy, Detail("Last Run", t.lastRun.text))
    + Text.Optional(t.plugin.truthy, Detail("Plugin", t.plugin.text))
    + Text.Optional(t.description.truthy, Detail("Description", t.description.text))
  }

  /** The lines `format_task_info` collects before joining them. */
  function InfoLines(t: TaskInfo): seq<string> {
    [Title(t)] + InfoDetails(t) + ["Run Count: " + t.runCount] + InfoTrailer(t)
  }

  function FormatTaskInfo(t: TaskInfo): string {
    Text.Join(InfoLines(t), "\n")
  }

  /** Where the unindented run-count line sits. */
  function RunCountLine(t: TaskInfo): nat {
    3 + Text.Present(t.periodic) + Text.Present(t.delay.truthy)
  }

  lemma DetailsIndented(t: TaskInfo)
    ensures Indented(InfoDetails(t)) && Indented(InfoTrailer(t))
  {
    DetailIndented("State", t.state);
    DetailIndented("Type", if t.periodic then "Periodic" else "One-time");
    OptionalIndented(t.periodic, "Interval", t.interval + "s");
    OptionalIndented(t.delay.truthy, "Initial Delay", t.delay.text + "s");
    IndentedConcat([Detail("State", t.state), Detail("Type", if t.periodic then "Periodic" else "One-time")],
                   Text.Optional(t.periodic, Detail("Interval", t.interval + "s")));
    IndentedConcat([Detail("State", t.state), Detail("Type", if t.periodic then "Periodic" else "One-time")]
                   + Text.Optional(t.periodic, Detail("Interval", t.interval + "s")),
                   Text.Optional(t.delay.truthy, Detail("Initial Delay", t.delay.text + "s")));
    OptionalIndented(t.maxRuns.truthy, "Max Runs", t.maxRuns.text);
    OptionalIndented(t.lastRun.truthy, "Last Run", t.lastRun.text);
    OptionalIndented(t.plugin.truthy, "Plugin", t.plugin.text);
    OptionalIndented(t.description.truthy, "Description", t.description.text);
    var m, l, p := Text.Optional(t.maxRuns.truthy, Detail("Max Runs", t.maxRuns.text)),
                   Text.Optional(t.lastRun.truthy, Detail("Last Run", t.lastRun.text)),
                   Text.Optional(t.plugin.truthy, Detail("Plugin", t.plugin.text));
    IndentedConcat(m, l);
    IndentedConcat(m + l, p);
    IndentedConcat(m + l + p, Text.Optional(t.description.truthy, Detail("Description", t.description.text)));
  }

  /** One line per field that is always shown or is truthy, in a fixed order;
      every line but the title and the run count is indented by two spaces. */
  lemma TaskInfoLayout(t: TaskInfo)
    ensures |InfoLines(t)| == 4 + Text.Present(t.periodic) + Text.Present(t.delay.truthy)
      + Text.Present(t.maxRuns.truthy) + Text.Present(t.lastRun.truthy)
      + Text.Present(t.plugin.truthy) + Text.Present(t.description.truthy)
    ensures InfoLines(t)[0] == "Task: " + t.name + " (ID: " + t.id + ")"
    ensures InfoLines(t)[1] == "  State: " + t.state
    ensures InfoLines(t)[2] == "  Type: " + if t.periodic then "Periodic" else "One-time"
    ensures t.periodic ==> InfoLines(t)[3] == "  Interval: " + t.interval + "s"
    ensures InfoLines(t)[RunCountLine(t)] == "Run Count: " + t.runCount
    ensures forall k :: 0 < k < |InfoLines(t)| && k != RunCountLine(t) ==> Text.StartsWith(InfoLines(t)[k], "  ")
  {
    var d, tr := InfoDetails(t), InfoTrailer(t);
    var lines := InfoLines(t);
    assert |d| == RunCountLine(t) - 1;
    DetailsIndented(t);
    forall k | 0 < k < |lines| && k != RunCountLine(t)
      ensures Text.StartsWith(lines[k], "  ")
    {
      if k <= |d| {
        assert lines[k] == d[k - 1];
      } else {
        assert lines[k] == tr[k - |d| - 2];
      }
    }
  }

  /** Fields without a newline in their text: each one stays on its own line. */
  predicate SingleLine(t: TaskInfo) {
    && '\n' !in t.name && '\n' !in t.id && '\n' !in t.state && '\n' !in t.interval
    && '\n' !in t.delay.text && '\n' !in t.runCount && '\n' !in t.maxRuns.text
    && '\n' !in t.lastRun.text && '\n' !in t.plugin.text && '\n' !in t.description.text
  }

  predicate NoNewlines(lines: seq<string>) {
    forall k :: 0 <= k < |lines| ==> '\n' !in lines[k]
  }

  lemma NoNewlinesConcat(a: seq<string>, b: seq<string>)
    requires NoNewlines(a) && NoNewlines(b)
    ensures NoNewlines(a + b)
  {
    forall k | 0 <= k < |a + b| ensures '\n' !in (a + b)[k] {
      if k < |a| { assert (a + b)[k] == a[k]; } else { assert (a + b)[k] == b[k - |a|]; }
    }
  }

  lemma LinesSplit(lines: seq<string>)
    requires |lines| >= 1 && NoNewlines(lines)
    ensures Text.Split(Text.Join(lines, "\n"), "\n") == lines
  {
    forall k | 0 <= k < |lines| ensures !Text.Contains(lines[k], "\n") {
      Text.ContainsChar(lines[k], '\n');
    }
    Text.SplitJoin(lines, "\n");
  }

  lemma DetailsSingleLine(t: TaskInfo)
    requires SingleLine(t)
    ensures NoNewlines(InfoDetails(t))
  {
    var d2 := [Detail("State", t.state), Detail("Type", if t.periodic then "Periodic" else "One-time")];
    var i := Text.Optional(t.periodic, Detail("Interval", t.interval + "s"));
    var y := Text.Optional(t.delay.truthy, Detail("Initial Delay", t.delay.text + "s"));
    assert NoNewlines(d2) && NoNewlines(i) && NoNewlines(y);
    NoNewlinesConcat(d2, i);
    NoNewlinesConcat(d2 + i, y);
  }

  lemma TrailerSingleLine(t: TaskInfo)
    requires SingleLine(t)
    ensures NoNewlines(InfoTrailer(t))
  {
    var m, l, p := Text.Optional(t.maxRuns.truthy, Detail("Max Runs", t.maxRuns.text)),
                   Text.Optional(t.lastRun.truthy, Detail("Last Run", t.lastRun.text)),
                   Text.Optional(t.plugin.truthy, Detail("Plugin", t.plugin.text));
    var q := Text.Optional(t.description.truthy, Detail("Description", t.description.text));
    assert NoNewlines(m) && NoNewlines(l) && NoNewlines(p) && NoNewlines(q);
    NoNewlinesConcat(m, l);
    NoNewlinesConcat(m + l, p);
    NoNewlinesConcat(m + l + p, q);
  }

  /** Splitting the reply at newlines gives back exactly the lines. */
  lemma TaskInfoSplits(t: TaskInfo)
    requires SingleLine(t)
    ensures Text.Split(FormatTaskInfo(t), "\n") == InfoLines(t)
  {
    var d, tr := InfoDetails(t), InfoTrailer(t);
    var title, count := [Title(t)], ["Run Count: " + t.runCount];
    DetailsSingleLine(t);
    TrailerSingleLine(t);
    assert NoNewlines(title) && NoNewlines(count);
    NoNewlinesConcat(title, d);
    NoNewlinesConcat(title + d, count);
    NoNewlinesConcat(title + d + count, tr);
    LinesSplit(InfoLines(t));
  }

  function TaskLine(t: TaskSummary): string {
    "ID: " + t.id + ", Name: " + t.name + ", State: " + t.state
      + ", Type: " + (if t.periodic then "Periodic" else "Once") + ", Runs: " + t.runCount
  }

  function FormatTaskList(tasks: seq<TaskSummary>): string {
    if tasks == [] then "No tasks found"
    else Text.Join(seq(|tasks|, k requires 0 <= k < |tasks| => TaskLine(tasks[k])), "\n")
  }

  predicate SummaryOneLine(t: TaskSummary) {
    '\n' !in t.id + t.name + t.state + t.runCount
  }

  /** No tasks gives the fixed notice; otherwise one line per task, in order. */
  lemma TaskListLines(tasks: seq<TaskSummary>)
    requires forall k :: 0 <= k < |tasks| ==> SummaryOneLine(tasks[k])
    ensures tasks == [] ==> FormatTaskList(tasks) == "No tasks found"
    ensures tasks != [] ==> |Text.Split(FormatTaskList(tasks), "\n")| == |tasks|
    ensures tasks != [] ==> forall k :: 0 <= k < |tasks| ==>
      Text.Split(FormatTaskList(tasks), "\n")[k] == TaskLine(tasks[k])
  {
    if tasks != [] {
      var lines := seq(|tasks|, k requires 0 <= k < |tasks| => TaskLine(tasks[k]));
      assert NoNewlines(lines) by {
        forall k | 0 <= k < |lines| ensures '\n' !in lines[k] {
          assert SummaryOneLine(tasks[k]);
        }
      }
      LinesSplit(lines);
    }
  }

  // ---------------------------------------------------------------------------
  // the callbacks

  datatype Callback =
    | PeriodicMessage(target: string, message: string)
    | Reminder(target: string, nickname: string, message: string)
    | Heartbeat(target: string)
    | Placeholder

  /** What one run of a callback sends, given the wall-clock time as `HH:MM:SS`;
      the countdown's placeholder sends nothing. */
  function Fire(cb: Callback, clock: string): (sent: Option<(string, string)>)
    ensures sent.None? <==> cb.Placeholder?
    ensures sent.Some? ==> sent.value.0 == cb.target
    ensures (cb.PeriodicMessage? || cb.Reminder?) ==> Text.Contains(sent.value.1, cb.message)
    ensures cb.Reminder? ==> Text.StartsWith(sent.value.1, cb.nickname + ": ")
  {
    match cb
    case PeriodicMessage(target, message) =>
      Text.ContainsInfix("[" + clock + "] ", message, "");
      assert "[" + clock + "] " + message + "" == "[" + clock + "] " + message;
      Some((target, "[" + clock + "] " + message))
    case Reminder(target, nickname, message) =>
      Text.ContainsInfix(nickname + ": Reminder - ", message, "");
      assert nickname + ": Reminder - " + message + "" == nickname + ": Reminder - " + message;
      assert (nickname + ": Reminder - " + message)[..|nickname + ": "|] == nickname + ": ";
      Some((target, nickname + ": Reminder - " + message))
    case Heartbeat(target) => Some((target, "♥ Heartbeat at " + clock))
    case Placeholder => None
  }

  // ---------------------------------------------------------------------------
  // countdown_callback

  /** The one-element list a countdown task closes over. */
  class CountHolder {
    var count: int

    constructor (from: int)
      ensures count == from
    {
      count := from;
    }
  }

  /** What one run of the countdown sends, and whether it stops its task. */
  datatype Tick = Tick(message: string, stop: bool)

  const Complete := "Countdown complete!"

  /** One run of the countdown from `count`: the tick and the next count. */
  function CountdownStep(count: int): (Tick, int) {
    if count > 0 then (Tick("Countdown: " + Text.IntToString(count), false), count - 1)
    else (Tick(Complete, true), count)
  }

  method CountdownCallback(holder: CountHolder) returns (tick: Tick)
    modifies holder
    ensures (tick, holder.count) == CountdownStep(old(holder.count))
    ensures old(holder.count) >= 0 ==> holder.count >= 0
  {
    if holder.count > 0 {
      tick := Tick("Countdown: " + Text.IntToString(holder.count), false);
      holder.count := holder.count - 1;
    } else {
      tick := Tick(Complete, true);
    }
  }

  /** The ticks of `runs` successive runs starting from `count`. */
  function Ticks(count: int, runs: nat): seq<Tick>
    decreases runs
  {
    if runs == 0 then [] else [CountdownStep(count).0] + Ticks(CountdownStep(count).1, runs - 1)
  }

  /** The ticks that count down from `n` to 1. */
  function Counting(n: nat): (r: seq<Tick>)
    ensures |r| == n
  {
    seq(n, k requires 0 <= k < n => Tick("Countdown: " + Text.NatToString(n - k), false))
  }

  /** A countdown from `n`, run the `n + 1` times its task allows, says
      n, n-1, ..., 1 and then completes; only the last run stops the task. */
  lemma {:induction false} CountdownRuns(n: nat)
    ensures Ticks(n, n + 1) == Counting(n) + [Tick(Complete, true)]
    decreases n
  {
    if n > 0 {
      CountdownRuns(n - 1);
      assert Counting(n) == [Tick("Countdown: " + Text.NatToString(n), false)] + Counting(n - 1);
    } else {
      assert Ticks(0, 1) == [Tick(Complete, true)] + Ticks(0, 0);
    }
  }

  /** A countdown from zero or below completes on every run. */
  lemma {:induction false} CountdownFromNothing(count: int, runs: nat)
    requires count <= 0
    ensures forall k :: 0 <= k < |Ticks(count, runs)| ==> Ticks(count, runs)[k] == Tick(Complete, true)
    ensures |Ticks(count, runs)| == runs
    decreases runs
  {
    if runs > 0 {
      CountdownFromNothing(count, runs - 1);
    }
  }

  // ---------------------------------------------------------------------------
  // what the commands do

  /** An `add_task` call; `plugin_name` is always the plugin's own name. `delay`
      and `maxRuns` are None where the command leaves the argument out. */
  datatype TaskRequest = TaskRequest(
    name: string, callback: Callback, interval: real, periodic: bool,
    delay: Option<real>, maxRuns: Option<int>, description: string, autoStart: bool)

  datatype Effect =
    | Reply(text: string)
    /** "Invalid value: " followed by the ValueError message of the conversion that refused the argument. */
    | InvalidValue(conversion: Conversion, arg: string)
    | AddTask(request: TaskRequest)
    /** The countdown's callback replaced by one over a fresh holder. */
    | BindCountdown(id: string, target: string, from: int)
    | StartTask(id: string)
    | StopTask(id: string)
    | PauseTask(id: string)
    | ResumeTask(id: string)
    | RemoveTask(id: string)
    | StopAllTasks
    | GetTaskInfo(id: string)
    | ListTasks(plugin: Option<string>, state: Option<string>)
    | ModifyTask(id: string, interval: Option<real>, maxRuns: Option<int>, description: Option<string>)

  predicate CallsScheduler(e: Effect) {
    !e.Reply? && !e.InvalidValue?
  }

  predicate OnlyReplies(effects: seq<Effect>) {
    forall k :: 0 <= k < |effects| ==> !CallsScheduler(effects[k])
  }

  /** The argument of the last option among `flags`. */
  function LastArg(opts: seq<Opt>, flags: set<string>): (r: Option<string>)
    ensures r.Some? ==> exists k :: 0 <= k < |opts| && opts[k].0 in flags && opts[k].1 == r.value
    ensures r.None? ==> forall k :: 0 <= k < |opts| ==> opts[k].0 !in flags
    decreases |opts|
  {
    if opts == [] then None
    else if opts[|opts| - 1].0 in flags then Some(opts[|opts| - 1].1)
    else
      var r := LastArg(opts[..|opts| - 1], flags);
      assert forall k :: 0 <= k < |opts| - 1 ==> opts[..|opts| - 1][k] == opts[k];
      r
  }

  lemma LastArgStep(opts: seq<Opt>, flags: set<string>, i: nat)
    requires i < |opts|
    ensures LastArg(opts[..i + 1], flags)
      == if opts[i].0 in flags then Some(opts[i].1) else LastArg(opts[..i], flags)
  {
    assert opts[..i + 1][..i] == opts[..i];
  }

  /** `custom_name or default`. */
  function OrDefault(name: Option<string>, default: string): string {
    if name.Some? && name.value != "" then name.value else default
  }

  /** `float(arg)`, where `parse` is Python's float conversion. */
  function FloatOr(parse: string -> Option<real>, arg: Option<string>, default: real): real {
    if arg.Some? && parse(arg.value).Some? then parse(arg.value).value else default
  }

  /**
   * The conversion an option's argument goes through, which decides the
   * ValueError message: `float` says "could not convert string to float",
   * `int` says "invalid literal for int() with base 10".
   */
  datatype Conversion = ToFloat | ToInt

  /** Only the run limit is converted with `int`; the interval and the delay with `float`. */
  function ConversionOf(flag: string): Conversion {
    if flag in MaxRunsFlags then ToInt else ToFloat
  }

  function IntOf(arg: Option<string>): Option<int> {
    if arg.Some? then Text.ParseInt(arg.value) else None
  }

  const IntervalFlags: set<string> := {"-i", "--interval"}
  const DelayFlags: set<string> := {"-d", "--delay"}
  const MaxRunsFlags: set<string> := {"-m", "--max-runs"}
  const NameFlags: set<string> := {"-n", "--name"}
  const NoStartFlags: set<string> := {"--no-start"}
  const DescriptionFlags: set<string> := {"-D", "--description"}

  // ---------------------------------------------------------------------------
  // command_schedule

  datatype ScheduleOptions = ScheduleOptions(
    interval: real, delay: real, maxRuns: Option<int>, name: Option<string>, autoStart: bool)

  /** An option whose conversion raises ValueError. */
  predicate BadScheduleOption(o: Opt, parse: string -> Option<real>) {
    (o.0 in IntervalFlags + DelayFlags && parse(o.1).None?)
    || (o.0 in MaxRunsFlags && Text.ParseInt(o.1).None?)
  }

  /** The options once every one has converted: the last of each kind wins,
      the others keep their defaults (60 s, no delay, no limit, started). */
  function ScheduleSettings(opts: seq<Opt>, parse: string -> Option<real>): ScheduleOptions {
    ScheduleOptions(
      FloatOr(parse, LastArg(opts, IntervalFlags), 60.0),
      FloatOr(parse, LastArg(opts, DelayFlags), 0.0),
      IntOf(LastArg(opts, MaxRunsFlags)),
      LastArg(opts, NameFlags),
      LastArg(opts, NoStartFlags).None?)
  }

  /** None of the first `n` options raises. */
  predicate NoneBad(opts: seq<Opt>, n: nat, parse: string -> Option<real>)
    requires n <= |opts|
  {
    forall j :: 0 <= j < n ==> !BadScheduleOption(opts[j], parse)
  }

  lemma NoneBadStep(opts: seq<Opt>, i: nat, parse: string -> Option<real>)
    requires i < |opts| && NoneBad(opts, i, parse) && !BadScheduleOption(opts[i], parse)
    ensures NoneBad(opts, i + 1, parse)
  {
    forall j | 0 <= j < i + 1
      ensures !BadScheduleOption(opts[j], parse)
    {
      if j < i {
        assert !BadScheduleOption(opts[j], parse);
      }
    }
  }

  /** The option loop of `command_schedule`: Err carries the conversion and
      the argument that raised, the first bad one. */
  method ScheduleOptionLoop(opts: seq<Opt>, parse: string -> Option<real>) returns (r: Result<ScheduleOptions, (Conversion, string)>)
    ensures r.Ok? <==> forall k :: 0 <= k < |opts| ==> !BadScheduleOption(opts[k], parse)
    ensures r.Ok? ==> r.value == ScheduleSettings(opts, parse)
    ensures r.Err? ==> exists k :: (0 <= k < |opts| && BadScheduleOption(opts[k], parse)
      && r.error == (ConversionOf(opts[k].0), opts[k].1)
      && forall j :: 0 <= j < k ==> !BadScheduleOption(opts[j], parse))
  {
    var settings := ScheduleOptions(60.0, 0.0, None, None, true);
    var i := 0;
    while i < |opts|
      invariant 0 <= i <= |opts|
      invariant NoneBad(opts, i, parse)
      invariant settings == ScheduleSettings(opts[..i], parse)
    {
      var next := ScheduleOption(settings, opts[i], parse);
      if next.Err? {
        return Err(next.error);
      }
      ScheduleSettingsStep(opts, parse, i);
      NoneBadStep(opts, i, parse);
      settings := next.value;
      i := i + 1;
    }
    assert opts[..i] == opts;
    return Ok(settings);
  }

  /** The body of the option loop: one option applied to the settings so far. */
  method ScheduleOption(settings: ScheduleOptions, o: Opt, parse: string -> Option<real>)
    returns (r: Result<ScheduleOptions, (Conversion, string)>)
    ensures r.Err? <==> BadScheduleOption(o, parse)
    ensures r.Err? ==> r.error == (ConversionOf(o.0), o.1)
    ensures r.Ok? ==> r.value == ScheduleUpdate(settings, o, parse)
  {
    var flag, arg := o.0, o.1;
    r := Ok(settings);
    if flag in IntervalFlags {
      var f := parse(arg);
      if f.None? { return Err((ToFloat, arg)); }
      r := Ok(settings.(interval := f.value));
    } else if flag in DelayFlags {
      var f := parse(arg);
      if f.None? { return Err((ToFloat, arg)); }
      r := Ok(settings.(delay := f.value));
    } else if flag in MaxRunsFlags {
      var n := Text.ParseInt(arg);
      if n.None? { return Err((ToInt, arg)); }
      r := Ok(settings.(maxRuns := n));
    } else if flag in NameFlags {
      r := Ok(settings.(name := Some(arg)));
    } else if flag == "--no-start" {
      r := Ok(settings.(autoStart := false));
    }
  }

  /** What a converted option sets. */
  function ScheduleUpdate(before: ScheduleOptions, o: Opt, parse: string -> Option<real>): ScheduleOptions
    requires !BadScheduleOption(o, parse)
  {
    var flag, arg := o.0, o.1;
    if flag in IntervalFlags then before.(interval := parse(arg).value)
    else if flag in DelayFlags then before.(delay := parse(arg).value)
    else if flag in MaxRunsFlags then before.(maxRuns := Text.ParseInt(arg))
    else if flag in NameFlags then before.(name := Some(arg))
    else if flag == "--no-start" then before.(autoStart := false)
    else before
  }

  /** One more option that converts updates only its own setting. */
  lemma ScheduleSettingsStep(opts: seq<Opt>, parse: string -> Option<real>, i: nat)
    requires i < |opts| && !BadScheduleOption(opts[i], parse)
    ensures ScheduleSettings(opts[..i + 1], parse) == ScheduleUpdate(ScheduleSettings(opts[..i], parse), opts[i], parse)
  {
    LastArgStep(opts, IntervalFlags, i);
    LastArgStep(opts, DelayFlags, i);
    LastArgStep(opts, MaxRunsFlags, i);
    LastArgStep(opts, NameFlags, i);
    LastArgStep(opts, NoStartFlags, i);
  }

  const ScheduleUsage := "Usage: schedule TYPE [OPTIONS] TASK_ARGS"

  /** The reply once `add_task` has answered `id` ("" for a falsy answer). */
  function Outcome(id: string, autoStart: bool): Effect {
    if id != "" then Reply("Task " + (if autoStart then "started" else "created (not started)") + ": " + id)
    else Reply("Failed to create task")
  }

  function ScheduleMessage(o: ScheduleOptions, taskArgs: seq<string>, target: string, id: string): seq<Effect> {
    if taskArgs == [] then [Reply("Provide a message to send")]
    else
      var message := Text.Join(taskArgs, " ");
      [AddTask(TaskRequest(OrDefault(o.name, "periodic-msg-" + target), PeriodicMessage(target, message),
                           o.interval, true, Some(o.delay), o.maxRuns,
                           "Periodic message: " + Text.Prefix(message, 30) + "...", o.autoStart)),
       Outcome(id, o.autoStart)]
  }

  function ScheduleReminder(o: ScheduleOptions, taskArgs: seq<string>, target: string, nickname: string, id: string): seq<Effect> {
    if taskArgs == [] then [Reply("Provide a reminder message")]
    else
      var message := Text.Join(taskArgs, " ");
      var delay := if o.delay == 0.0 then o.interval else o.delay;
      [AddTask(TaskRequest(OrDefault(o.name, "reminder-" + nickname), Reminder(target, nickname, message),
                           delay, false, Some(delay), None,
                           "Reminder: " + Text.Prefix(message, 30) + "...", o.autoStart)),
       Outcome(id, o.autoStart)]
  }

  function ScheduleHeartbeat(o: ScheduleOptions, target: string, id: string): seq<Effect> {
    [AddTask(TaskRequest(OrDefault(o.name, "heartbeat-" + target), Heartbeat(target),
                         o.interval, true, Some(o.delay), o.maxRuns,
                         "Periodic heartbeat for testing", o.autoStart)),
     Outcome(id, o.autoStart)]
  }

  /** The `add_task` request of a countdown from `n`. */
  function CountdownTask(o: ScheduleOptions, n: int): TaskRequest {
    TaskRequest(OrDefault(o.name, "countdown-" + Text.IntToString(n)), Placeholder,
                1.0, true, Some(o.delay), Some(n + 1), "Countdown from " + Text.IntToString(n), false)
  }

  function ScheduleCountdown(o: ScheduleOptions, taskArgs: seq<string>, target: string, id: string): seq<Effect> {
    if taskArgs == [] then [Reply("Provide a countdown number")]
    else if Text.ParseInt(taskArgs[0]).None? then [Reply("Invalid countdown number")]
    else
      var n := Text.ParseInt(taskArgs[0]).value;
      var add := AddTask(CountdownTask(o, n));
      if id == "" then [add, Outcome(id, o.autoStart)]
      else if o.autoStart then [add, BindCountdown(id, target, n), StartTask(id), Outcome(id, o.autoStart)]
      else [add, BindCountdown(id, target, n), Outcome(id, o.autoStart)]
  }

  const TaskTypes: set<string> := {"message", "reminder", "heartbeat", "countdown"}

  /** The effects of `command_schedule` of type `kind` once its options are read. */
  function Schedule(kind: string, o: ScheduleOptions, taskArgs: seq<string>,
                    target: string, nickname: string, id: string): seq<Effect> {
    if kind == "message" then ScheduleMessage(o, taskArgs, target, id)
    else if kind == "reminder" then ScheduleReminder(o, taskArgs, target, nickname, id)
    else if kind == "heartbeat" then ScheduleHeartbeat(o, target, id)
    else if kind == "countdown" then ScheduleCountdown(o, taskArgs, target, id)
    else [Reply("Unknown task type: " + kind)]
  }

  /** `command_schedule`; `parsed` is what getopt makes of the arguments after the type. */
  method CommandSchedule(args: seq<string>, parsed: Result<(seq<Opt>, seq<string>), string>,
                         parse: string -> Option<real>, target: string, nickname: string, id: string)
    returns (effects: seq<Effect>)
    ensures args == [] ==> effects == [Reply(ScheduleUsage)]
    ensures args != [] && parsed.Err? ==> effects == [Reply("Invalid option: " + parsed.error)]
    ensures args != [] && parsed.Ok? && (forall k :: 0 <= k < |parsed.value.0| ==> !BadScheduleOption(parsed.value.0[k], parse))
      ==> effects == Schedule(Text.Lower(args[0]), ScheduleSettings(parsed.value.0, parse), parsed.value.1, target, nickname, id)
    ensures args != [] && parsed.Ok? && (exists k :: 0 <= k < |parsed.value.0| && BadScheduleOption(parsed.value.0[k], parse))
      ==> exists k :: (0 <= k < |parsed.value.0| && BadScheduleOption(parsed.value.0[k], parse)
        && (forall j :: 0 <= j < k ==> !BadScheduleOption(parsed.value.0[j], parse))
        && effects == [InvalidValue(ConversionOf(parsed.value.0[k].0), parsed.value.0[k].1)])
  {
    if args == [] {
      return [Reply(ScheduleUsage)];
    }
    if parsed.Err? {
      return [Reply("Invalid option: " + parsed.error)];
    }
    var opts, taskArgs := parsed.value.0, parsed.value.1;
    var settings := ScheduleOptionLoop(opts, parse);
    if settings.Err? {
      return [InvalidValue(settings.error.0, settings.error.1)];
    }
    effects := Schedule(Text.Lower(args[0]), settings.value, taskArgs, target, nickname, id);
  }

  /** At most the first effect adds a task. */
  predicate AddsFirstOnly(e: seq<Effect>) {
    forall k :: 1 <= k < |e| ==> !e[k].AddTask?
  }

  /** Every known type adds exactly one task, as its first step, unless an
      argument is missing; an unknown type adds none. */
  lemma ScheduleAddsOnce(kind: string, o: ScheduleOptions, taskArgs: seq<string>,
                         target: string, nickname: string, id: string)
    ensures AddsFirstOnly(Schedule(kind, o, taskArgs, target, nickname, id))
    ensures Schedule(kind, o, taskArgs, target, nickname, id)[0].AddTask? <==>
      kind in TaskTypes && (kind == "heartbeat" || taskArgs != [])
        && (kind == "countdown" ==> Text.ParseInt(taskArgs[0]).Some?)
    ensures kind !in TaskTypes ==>
      Schedule(kind, o, taskArgs, target, nickname, id) == [Reply("Unknown task type: " + kind)]
    ensures kind != "heartbeat" && taskArgs == [] ==> OnlyReplies(Schedule(kind, o, taskArgs, target, nickname, id))
  {
    var e := Schedule(kind, o, taskArgs, target, nickname, id);
    if kind == "message" {
      assert e == ScheduleMessage(o, taskArgs, target, id);
    } else if kind == "reminder" {
      assert e == ScheduleReminder(o, taskArgs, target, nickname, id);
    } else if kind == "heartbeat" {
      assert e == ScheduleHeartbeat(o, target, id);
    } else if kind == "countdown" {
      assert e == ScheduleCountdown(o, taskArgs, target, id);
    } else {
      assert kind !in TaskTypes;
    }
  }

  /** A countdown from N ticks once a second, allows N + 1 runs and is never
      started by `add_task`; its callback is a placeholder until it is bound. */
  lemma CountdownRequest(o: ScheduleOptions, taskArgs: seq<string>, target: string, id: string)
    requires taskArgs != [] && Text.ParseInt(taskArgs[0]).Some?
    ensures var n, e := Text.ParseInt(taskArgs[0]).value, ScheduleCountdown(o, taskArgs, target, id);
      e[0].AddTask? && e[0].request.interval == 1.0 && e[0].request.periodic
      && e[0].request.maxRuns == Some(n + 1) && !e[0].request.autoStart
      && e[0].request.callback == Placeholder
  {
    var n := Text.ParseInt(taskArgs[0]).value;
    assert ScheduleCountdown(o, taskArgs, target, id)[0] == AddTask(CountdownTask(o, n));
  }

  /** The callback is bound first and only then, when asked, is the task
      started; a task that was not created gets neither. */
  lemma CountdownWiring(o: ScheduleOptions, taskArgs: seq<string>, target: string, id: string)
    requires taskArgs != [] && Text.ParseInt(taskArgs[0]).Some?
    ensures var n, e := Text.ParseInt(taskArgs[0]).value, ScheduleCountdown(o, taskArgs, target, id);
      (id != "" ==> e[1] == BindCountdown(id, target, n))
      && (StartTask(id) in e <==> id != "" && o.autoStart)
      && (id == "" ==> OnlyReplies(e[1..]))
      && e[|e| - 1] == Outcome(id, o.autoStart)
  {
    var n, e := Text.ParseInt(taskArgs[0]).value, ScheduleCountdown(o, taskArgs, target, id);
    var add := e[0];
    if id == "" {
      assert e == [add, Outcome(id, o.autoStart)];
      assert e[1..] == [Outcome(id, o.autoStart)];
    } else if o.autoStart {
      assert e == [add, BindCountdown(id, target, n), StartTask(id), Outcome(id, o.autoStart)];
      assert e[2] == StartTask(id);
    } else {
      assert e == [add, BindCountdown(id, target, n), Outcome(id, o.autoStart)];
    }
  }

  /** A reminder runs once, after its delay, which is the interval when no
      delay was given; the delay is also the task's interval. */
  lemma ReminderOneShot(o: ScheduleOptions, taskArgs: seq<string>, target: string, nickname: string, id: string)
    requires taskArgs != []
    ensures var r := ScheduleReminder(o, taskArgs, target, nickname, id)[0].request;
      !r.periodic && r.maxRuns.None?
      && r.delay == Some(if o.delay == 0.0 then o.interval else o.delay)
      && r.interval == r.delay.value
      && r.callback == Reminder(target, nickname, Text.Join(taskArgs, " "))
  {
  }

  /** A custom name wins over the generated one unless it is empty. */
  lemma ScheduleNames(o: ScheduleOptions, taskArgs: seq<string>, target: string, id: string)
    requires taskArgs != []
    ensures var r := ScheduleMessage(o, taskArgs, target, id)[0].request;
      (o.name.Some? && o.name.value != "" ==> r.name == o.name.value)
      && (o.name.None? || o.name == Some("") ==> r.name == "periodic-msg-" + target)
  {
  }

  /** The arguments `LastArg` finds in `-i first -i second -m runs`. */
  lemma ExampleLastArgs(first: string, second: string, runs: string)
    ensures var opts := [("-i", first), ("-i", second), ("-m", runs)];
      LastArg(opts, IntervalFlags) == Some(second) && LastArg(opts, MaxRunsFlags) == Some(runs)
      && LastArg(opts, DelayFlags) == None && LastArg(opts, NameFlags) == None && LastArg(opts, NoStartFlags) == None
  {
    var opts := [("-i", first), ("-i", second), ("-m", runs)];
    assert opts[..2] == [("-i", first), ("-i", second)];
    assert opts[..2][..1] == [("-i", first)];
    assert opts[..2][..1][..0] == [];
  }

  /** `schedule message -i 30 -i 5 -m 2 hi`: the last interval wins and the others keep their defaults. */
  lemma LastIntervalWins(first: string, second: string, runs: string, parse: string -> Option<real>)
    requires parse(second).Some?
    ensures ScheduleSettings([("-i", first), ("-i", second), ("-m", runs)], parse)
      == ScheduleOptions(parse(second).value, 0.0, Text.ParseInt(runs), None, true)
  {
    ExampleLastArgs(first, second, runs);
  }

  // ---------------------------------------------------------------------------
  // command_modify

  datatype Modification = Modification(interval: Option<real>, maxRuns: Option<int>, description: Option<string>)

  predicate BadModifyOption(o: Opt, parse: string -> Option<real>) {
    (o.0 in IntervalFlags && parse(o.1).None?) || (o.0 in MaxRunsFlags && Text.ParseInt(o.1).None?)
  }

  /** A positive run limit, or no change for zero and below. */
  function PositiveRuns(n: Option<int>): (r: Option<int>)
    ensures r.Some? <==> n.Some? && n.value > 0
    ensures r.Some? ==> r == n
  {
    if n.Some? && n.value > 0 then n else None
  }

  function Modifications(opts: seq<Opt>, parse: string -> Option<real>): Modification {
    var interval := LastArg(opts, IntervalFlags);
    Modification(
      if interval.Some? then parse(interval.value) else None,
      PositiveRuns(IntOf(LastArg(opts, MaxRunsFlags))),
      LastArg(opts, DescriptionFlags))
  }

  /** The option loop of `command_modify`: Err carries the first argument that raised. */
  method ModifyOptionLoop(opts: seq<Opt>, parse: string -> Option<real>) returns (r: Result<Modification, (Conversion, string)>)
    ensures r.Ok? <==> forall k :: 0 <= k < |opts| ==> !BadModifyOption(opts[k], parse)
    ensures r.Ok? ==> r.value == Modifications(opts, parse)
    ensures r.Err? ==> exists k :: (0 <= k < |opts| && BadModifyOption(opts[k], parse)
      && r.error == (ConversionOf(opts[k].0), opts[k].1)
      && forall j :: 0 <= j < k ==> !BadModifyOption(opts[j], parse))
  {
    var m := Modification(None, None, None);
    var i := 0;
    while i < |opts|
      invariant 0 <= i <= |opts|
      invariant forall j :: 0 <= j < i ==> !BadModifyOption(opts[j], parse)
      invariant m == Modifications(opts[..i], parse)
    {
      var next := ModifyOption(m, opts[i], parse);
      if next.Err? {
        assert (ConversionOf(opts[i].0), opts[i].1) == next.error && BadModifyOption(opts[i], parse);
        return Err(next.error);
      }
      ModificationsStep(opts, parse, i);
      m := next.value;
      i := i + 1;
    }
    assert opts[..i] == opts;
    return Ok(m);
  }

  /** The body of the option loop: one option applied to the changes so far. */
  method ModifyOption(m: Modification, o: Opt, parse: string -> Option<real>) returns (r: Result<Modification, (Conversion, string)>)
    ensures r.Err? <==> BadModifyOption(o, parse)
    ensures r.Err? ==> r.error == (ConversionOf(o.0), o.1)
    ensures r.Ok? ==> r.value == ModifyUpdate(m, o, parse)
  {
    var flag, arg := o.0, o.1;
    r := Ok(m);
    if flag in IntervalFlags {
      var f := parse(arg);
      if f.None? { return Err((ToFloat, arg)); }
      r := Ok(m.(interval := f));
    } else if flag in MaxRunsFlags {
      var n := Text.ParseInt(arg);
      if n.None? { return Err((ToInt, arg)); }
      r := Ok(m.(maxRuns := if n.value > 0 then n else None));
    } else if flag in DescriptionFlags {
      r := Ok(m.(description := Some(arg)));
    }
  }

  /** What a converted option changes. */
  function ModifyUpdate(before: Modification, o: Opt, parse: string -> Option<real>): Modification {
    var flag, arg := o.0, o.1;
    if flag in IntervalFlags then before.(interval := parse(arg))
    else if flag in MaxRunsFlags then before.(maxRuns := PositiveRuns(Text.ParseInt(arg)))
    else if flag in DescriptionFlags then before.(description := Some(arg))
    else before
  }

  /** One more option that converts updates only its own field. */
  lemma ModificationsStep(opts: seq<Opt>, parse: string -> Option<real>, i: nat)
    requires i < |opts| && !BadModifyOption(opts[i], parse)
    ensures Modifications(opts[..i + 1], parse) == ModifyUpdate(Modifications(opts[..i], parse), opts[i], parse)
  {
    LastArgStep(opts, IntervalFlags, i);
    LastArgStep(opts, MaxRunsFlags, i);
    LastArgStep(opts, DescriptionFlags, i);
  }

  predicate NoChange(m: Modification) {
    m.interval.None? && m.maxRuns.None? && m.description.None?
  }

  /** The effects of `command_modify` on task `id`; `modified` is what `modify_task` answers. */
  function Modify(id: string, m: Modification, modified: bool): seq<Effect> {
    if NoChange(m) then [Reply("No modifications specified")]
    else [ModifyTask(id, m.interval, m.maxRuns, m.description),
          Reply(if modified then "Modified task " + id else "Failed to modify task " + id)]
  }

  method CommandModify(args: seq<string>, parsed: Result<seq<Opt>, string>, parse: string -> Option<real>, modified: bool)
    returns (effects: seq<Effect>)
    ensures args == [] ==> effects == [Reply("Usage: modify TASK_ID [OPTIONS]")]
    ensures args != [] && parsed.Err? ==> effects == [Reply("Invalid option: " + parsed.error)]
    ensures args != [] && parsed.Ok? && (forall k :: 0 <= k < |parsed.value| ==> !BadModifyOption(parsed.value[k], parse))
      ==> effects == Modify(args[0], Modifications(parsed.value, parse), modified)
    ensures args != [] && parsed.Ok? && (exists k :: 0 <= k < |parsed.value| && BadModifyOption(parsed.value[k], parse))
      ==> exists k :: (0 <= k < |parsed.value| && BadModifyOption(parsed.value[k], parse)
        && (forall j :: 0 <= j < k ==> !BadModifyOption(parsed.value[j], parse))
        && effects == [InvalidValue(ConversionOf(parsed.value[k].0), parsed.value[k].1)])
  {
    if args == [] {
      return [Reply("Usage: modify TASK_ID [OPTIONS]")];
    }
    if parsed.Err? {
      return [Reply("Invalid option: " + parsed.error)];
    }
    var m := ModifyOptionLoop(parsed.value, parse);
    if m.Err? {
      return [InvalidValue(m.error.0, m.error.1)];
    }
    effects := Modify(args[0], m.value, modified);
  }

  /** `modify_task` is called exactly when some field changes, and a run limit
      of zero or below is never passed on. */
  lemma ModifyOnlyWithChanges(id: string, m: Modification, modified: bool)
    requires m.maxRuns.Some? ==> m.maxRuns.value > 0
    ensures NoChange(m) <==> OnlyReplies(Modify(id, m, modified))
    ensures !NoChange(m) ==> Modify(id, m, modified)[0] == ModifyTask(id, m.interval, m.maxRuns, m.description)
    ensures forall k :: 0 <= k < |Modify(id, m, modified)| && Modify(id, m, modified)[k].ModifyTask? ==>
      (Modify(id, m, modified)[k].maxRuns.Some? ==> Modify(id, m, modified)[k].maxRuns.value > 0)
  {
    if !NoChange(m) {
      assert CallsScheduler(Modify(id, m, modified)[0]);
    }
  }

  /** The run limit the options ask for is positive, or absent. */
  lemma ModificationRunsPositive(opts: seq<Opt>, parse: string -> Option<real>)
    ensures var m := Modifications(opts, parse); m.maxRuns.Some? ==> m.maxRuns.value > 0
  {
  }

  /** `modify t1 -m 0` alone changes nothing and never reaches the scheduler. */
  lemma ZeroRunsChangeNothing(parse: string -> Option<real>, modified: bool)
    ensures Modifications([("-m", "0")], parse) == Modification(None, None, None)
    ensures Modify("t1", Modifications([("-m", "0")], parse), modified) == [Reply("No modifications specified")]
  {
    Text.ParseIntDigit('0');
    assert "0" == ['0'];
    assert LastArg([("-m", "0")], MaxRunsFlags) == Some("0");
  }

  // ---------------------------------------------------------------------------
  // command_cron

  /** The presets, in the dict's order, with their periods in seconds. */
  const PresetNames: seq<string> := ["minutely", "hourly", "daily"]
  const Presets: map<string, nat> := map["minutely" := 60, "hourly" := 3600, "daily" := 86400]

  const UnknownPreset := "Unknown preset. Available: minutely, hourly, daily"

  lemma PresetsListed()
    ensures "Unknown preset. Available: " + Text.Join(PresetNames, ", ") == UnknownPreset
    ensures forall p :: p in Presets <==> p in PresetNames
  {
    assert Text.Join(PresetNames, ", ") == "minutely" + ", " + ("hourly" + ", " + "daily");
  }

  /** The effects once preset, name option and message words are known;
      `id` is what `add_task` answers. */
  function Cron(preset: string, name: Option<string>, words: seq<string>, target: string, id: string): seq<Effect>
    requires preset in Presets
  {
    if words == [] then [Reply("Provide a message")]
    else
      var message := Text.Join(words, " ");
      [AddTask(TaskRequest(OrDefault(name, preset + "-" + target), PeriodicMessage(target, message),
                           Presets[preset] as real, true, None, None,
                           Text.Capitalize(preset) + " message: " + Text.Prefix(message, 20) + "...", true)),
       Reply(if id != "" then "Created " + preset + " task: " + id + " (every " + Text.NatToString(Presets[preset]) + "s)"
             else "Failed to create task")]
  }

  /** The option loop of `command_cron`. */
  method CronName(opts: seq<Opt>) returns (name: Option<string>)
    ensures name == LastArg(opts, NameFlags)
  {
    name := None;
    var i := 0;
    while i < |opts|
      invariant 0 <= i <= |opts|
      invariant name == LastArg(opts[..i], NameFlags)
    {
      LastArgStep(opts, NameFlags, i);
      if opts[i].0 in NameFlags {
        name := Some(opts[i].1);
      }
      i := i + 1;
    }
    assert opts[..i] == opts;
  }

  /** `command_cron`; the preset is checked before getopt runs. */
  method CommandCron(args: seq<string>, parsed: Result<(seq<Opt>, seq<string>), string>, target: string, id: string)
    returns (effects: seq<Effect>)
    ensures args == [] ==> effects == [Reply("Usage: cron PRESET [OPTIONS] MESSAGE")]
    ensures args != [] && Text.Lower(args[0]) !in Presets ==> effects == [Reply(UnknownPreset)]
    ensures args != [] && Text.Lower(args[0]) in Presets && parsed.Err? ==> effects == [Reply("Invalid option: " + parsed.error)]
    ensures args != [] && Text.Lower(args[0]) in Presets && parsed.Ok? ==>
      effects == Cron(Text.Lower(args[0]), LastArg(parsed.value.0, NameFlags), parsed.value.1, target, id)
  {
    if args == [] {
      return [Reply("Usage: cron PRESET [OPTIONS] MESSAGE")];
    }
    var preset := Text.Lower(args[0]);
    if preset !in Presets {
      PresetsListed();
      return [Reply("Unknown preset. Available: " + Text.Join(PresetNames, ", "))];
    }
    if parsed.Err? {
      return [Reply("Invalid option: " + parsed.error)];
    }
    var name := CronName(parsed.value.0);
    effects := Cron(preset, name, parsed.value.1, target, id);
  }

  /** A cron task repeats at its preset's period for ever, starts at once and
      has no initial delay; without a message nothing is scheduled. */
  lemma CronSchedules(preset: string, name: Option<string>, words: seq<string>, target: string, id: string)
    requires preset in Presets
    ensures words == [] ==> OnlyReplies(Cron(preset, name, words, target, id))
    ensures words != [] ==> var r := Cron(preset, name, words, target, id)[0].request;
      r.periodic && r.autoStart && r.delay.None? && r.maxRuns.None?
      && r.interval == Presets[preset] as real
      && (preset == "minutely" ==> r.interval == 60.0)
      && (preset == "hourly" ==> r.interval == 3600.0)
      && (preset == "daily" ==> r.interval == 86400.0)
      && r.callback == PeriodicMessage(target, Text.Join(words, " "))
  {
  }

  // ---------------------------------------------------------------------------
  // command_task

  /** What the scheduler answers to the call a subcommand makes. */
  datatype Answers = Answers(
    accepted: bool,            // start/stop/pause/resume/remove succeeded
    info: Option<TaskInfo>,     // get_task_info (None for a falsy answer)
    taskName: string,           // the started task's name
    tasks: seq<TaskSummary>,    // list_tasks
    states: set<string>)        // the names of the TaskState enum

  const StateFlags: set<string> := {"-s", "--state"}
  const PluginFlags: set<string> := {"-p", "--plugin"}

  predicate BadState(o: Opt, states: set<string>) {
    o.0 in StateFlags && Text.Upper(o.1) !in states
  }

  function StateFilter(opts: seq<Opt>): Option<string> {
    var s := LastArg(opts, StateFlags);
    if s.Some? then Some(Text.Upper(s.value)) else None
  }

  /** The option loop of `task list`: Err carries the first unknown state. */
  method ListFilters(opts: seq<Opt>, states: set<string>) returns (r: Result<(Option<string>, Option<string>), string>)
    ensures r.Ok? <==> forall k :: 0 <= k < |opts| ==> !BadState(opts[k], states)
    ensures r.Ok? ==> r.value == (LastArg(opts, PluginFlags), StateFilter(opts))
    ensures r.Err? ==> exists k :: (0 <= k < |opts| && BadState(opts[k], states) && r.error == opts[k].1
      && forall j :: 0 <= j < k ==> !BadState(opts[j], states))
  {
    var plugin: Option<string> := None;
    var state: Option<string> := None;
    var i := 0;
    while i < |opts|
      invariant 0 <= i <= |opts|
      invariant forall j :: 0 <= j < i ==> !BadState(opts[j], states)
      invariant plugin == LastArg(opts[..i], PluginFlags) && state == StateFilter(opts[..i])
    {
      LastArgStep(opts, PluginFlags, i);
      LastArgStep(opts, StateFlags, i);
      var (flag, arg) := opts[i];
      if flag in PluginFlags {
        plugin := Some(arg);
      } else if flag in StateFlags {
        if Text.Upper(arg) !in states {
          return Err(arg);
        }
        state := Some(Text.Upper(arg));
      }
      i := i + 1;
    }
    assert opts[..i] == opts;
    return Ok((plugin, state));
  }

  /** Subcommands that act on one task. */
  const TaskVerbs: set<string> := {"info", "start", "stop", "pause", "resume", "remove"}

  /** The call that each one-task subcommand makes. */
  function VerbCall(sub: string, id: string): Effect
    requires sub in TaskVerbs
  {
    match sub
    case "info" => GetTaskInfo(id)
    case "start" => StartTask(id)
    case "stop" => StopTask(id)
    case "pause" => PauseTask(id)
    case "resume" => ResumeTask(id)
    case _ => RemoveTask(id)
  }

  function Past(sub: string): string {
    match sub
    case "stop" => "stopped"
    case "pause" => "paused"
    case "resume" => "resumed"
    case _ => "removed"
  }

  /** The reply to a state-changing subcommand, given whether the scheduler accepted it. */
  function VerbReply(sub: string, id: string, a: Answers): string
    requires sub in TaskVerbs - {"info"}
  {
    if !a.accepted then
      if sub == "remove" then "Failed to remove task " + id else "Failed to " + sub + " task: " + id
    else if sub == "start" then "Task started: ID: " + id + ", Name: " + a.taskName
    else "Task " + Past(sub) + ": " + id
  }

  /** The effects of a one-task subcommand on `id`. */
  function TaskVerb(sub: string, id: string, a: Answers): seq<Effect>
    requires sub in TaskVerbs
  {
    if sub == "info" then
      [GetTaskInfo(id), Reply(if a.info.Some? then FormatTaskInfo(a.info.value) else "Task not found: " + id)]
    else [VerbCall(sub, id), Reply(VerbReply(sub, id, a))]
  }

  /** `command_task`; `listed` is what getopt makes of the arguments of `task list`. */
  method CommandTask(args: seq<string>, listed: Result<seq<Opt>, string>, a: Answers) returns (effects: seq<Effect>)
    ensures args == [] ==> effects == [Reply("Usage: task SUBCOMMAND [OPTIONS]")]
    ensures args != [] && Text.Lower(args[0]) in TaskVerbs ==>
      effects == if |args| == 1 then [Reply("Usage: task " + Text.Lower(args[0]) + " TASK_ID")]
                 else TaskVerb(Text.Lower(args[0]), args[1], a)
    ensures args != [] && Text.Lower(args[0]) == "stopall" ==> effects == [StopAllTasks, Reply("Stopped all tasks")]
    ensures args != [] && Text.Lower(args[0]) == "list" && listed.Err? ==> effects == [Reply("Invalid option: " + listed.error)]
    ensures args != [] && Text.Lower(args[0]) == "list" && listed.Ok? ==>
      if forall k :: 0 <= k < |listed.value| ==> !BadState(listed.value[k], a.states)
      then effects == [ListTasks(LastArg(listed.value, PluginFlags), StateFilter(listed.value)), Reply(FormatTaskList(a.tasks))]
      else exists k :: (0 <= k < |listed.value| && BadState(listed.value[k], a.states)
        && (forall j :: 0 <= j < k ==> !BadState(listed.value[j], a.states))
        && effects == [Reply("Invalid state: " + listed.value[k].1)])
    ensures args != [] && Text.Lower(args[0]) !in TaskVerbs + {"stopall", "list"} ==>
      effects == [Reply("Unknown subcommand: " + Text.Lower(args[0]))]
  {
    if args == [] {
      return [Reply("Usage: task SUBCOMMAND [OPTIONS]")];
    }
    var sub := Text.Lower(args[0]);
    if sub == "list" {
      if listed.Err? {
        return [Reply("Invalid option: " + listed.error)];
      }
      var filters := ListFilters(listed.value, a.states);
      if filters.Err? {
        return [Reply("Invalid state: " + filters.error)];
      }
      effects := [ListTasks(filters.value.0, filters.value.1), Reply(FormatTaskList(a.tasks))];
    } else if sub in TaskVerbs {
      if |args| == 1 {
        return [Reply("Usage: task " + sub + " TASK_ID")];
      }
      effects := TaskVerb(sub, args[1], a);
    } else if sub == "stopall" {
      effects := [StopAllTasks, Reply("Stopped all tasks")];
    } else {
      effects := [Reply("Unknown subcommand: " + sub)];
    }
  }

  /** A state-changing subcommand makes its own call on the named task, then
      replies once; the reply reports a failure exactly when the scheduler
      refused. */
  lemma TaskVerbCalls(sub: string, id: string, a: Answers)
    requires sub in TaskVerbs - {"info"}
    ensures TaskVerb(sub, id, a) == [VerbCall(sub, id), Reply(VerbReply(sub, id, a))]
    ensures VerbCall(sub, id).id == id
    ensures Text.StartsWith(VerbReply(sub, id, a), "Failed to " + sub + " task") <==> !a.accepted
  {
    var r := VerbReply(sub, id, a);
    var p := "Failed to " + sub + " task";
    if a.accepted {
      assert r[0] == 'T';
      assert p[0] == 'F';
    } else if sub == "remove" {
      assert r == p + " " + id;
      assert r[..|p|] == p;
    } else {
      assert r == p + ": " + id;
      assert r[..|p|] == p;
    }
  }

  /** `task info` answers with the task's details, or says it is absent. */
  lemma TaskInfoReply(id: string, a: Answers)
    ensures TaskVerb("info", id, a)[0] == GetTaskInfo(id)
    ensures a.info.None? ==> TaskVerb("info", id, a)[1] == Reply("Task not found: " + id)
    ensures a.info.Some? && SingleLine(a.info.value) ==>
      Text.Split(TaskVerb("info", id, a)[1].text, "\n") == InfoLines(a.info.value)
  {
    if a.info.Some? && SingleLine(a.info.value) {
      TaskInfoSplits(a.info.value);
    }
  }
}
