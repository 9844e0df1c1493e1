/**
 * The web front end's job status (app.py): the global `current_job_status`
 * dictionary, the `/run` admission check, the start and the two terminal
 * transitions of `run_lead_generation`, and the step-to-status mapping of
 * `update_status`.
 */
module AppStatus {
  import opened Wrappers
  import opened Str
  import AppFilenames

  /** A progress step as the crew reports it. Each field is one `hasattr` probe:
      `None` when the step has no such attribute (or, for `agent` and `task`,
      when the attribute is falsy). `agent` holds the agent's role and `task`
      its task's description. */
  datatype Step = Step(
    agent: Option<string>,
    task: Option<string>,
    tool: Option<string>,
    thought: Option<string>,
    text: Option<string>)

  /** The five entries of `current_job_status`. */
  datatype Status = Status(
    isRunning: bool,
    currentAgent: Option<string>,
    currentTask: Option<string>,
    error: Option<string>,
    csvPath: Option<string>)

  const AgentMarker: string := "Agent:"
  const MissingCsvMessage: string := "CSV file was not created successfully"
  const DownloadsUrl: string := "/static/downloads/"

  /** The status when the server starts. */
  const Idle: Status := Status(false, None, None, None, None)

  /** The status once a run has started. */
  const Starting: Status := Status(true, Some("Initializing"), Some("Setting up environment"), None, None)

  /** No run is active with an error or a file, and no error comes with a file. */
  predicate Consistent(s: Status)
  {
    !(s.error.Some? && s.csvPath.Some?) &&
    (s.isRunning ==> s.error.None? && s.csvPath.None?)
  }

  // ---------------------------------------------------------------------------
  // update_status

  /** The agent name after the first "Agent:" of a step's text, up to the next newline, trimmed. */
  function AgentFromText(text: string): string
    requires Contains(text, AgentMarker)
  {
    SplitContains(text, AgentMarker);
    Strip(Split(Split(text, AgentMarker)[1], "\n")[0])
  }

  /** The agent entry after a step: the step's role, else a name found in its text, else unchanged. */
  function AgentAfter(step: Step, current: Option<string>): Option<string>
  {
    if step.agent.Some? then Some(step.agent.value)
    else if step.text.Some? && Contains(step.text.value, AgentMarker) then Some(AgentFromText(step.text.value))
    else current
  }

  /** A tool name for display: underscores become spaces, then title case. */
  function ToolLabel(tool: string): string
  {
    Title(Replace(tool, "_", " "))
  }

  /** The trimmed first line of a task description. */
  function FirstLine(description: string): string
  {
    Strip(Split(description, "\n")[0])
  }

  /** The current-task entry a step produces. */
  function TaskLine(step: Step): string
  {
    if step.task.Some? then
      var first := FirstLine(step.task.value);
      if step.tool.Some? && step.tool.value != "" then first + " (Using " + ToolLabel(step.tool.value) + ")"
      else first
    else if step.thought.Some? then "Thinking: " + Take(step.thought.value, 100) + "..."
    else if step.text.Some? then "Processing: " + Take(step.text.value, 100) + "..."
    else "Processing task"
  }

  /** The status after `update_status(step)`. */
  function AfterStep(s: Status, step: Step): Status
  {
    s.(currentAgent := AgentAfter(step, s.currentAgent), currentTask := Some(TaskLine(step)))
  }

  /** The status after a sequence of steps, in order. */
  function AfterSteps(s: Status, steps: seq<Step>): Status
  {
    if steps == [] then s else AfterStep(AfterSteps(s, steps[..|steps| - 1]), steps[|steps| - 1])
  }

  /** The status at the end of `run_lead_generation`: the crew's error, or the
      file's presence, decides between the error and the success transition. */
  function Finish(s: Status, csvFilename: string, crewError: Option<string>, csvExists: bool): Status
  {
    if crewError.Some? then Failed(s, crewError.value)
    else if csvExists then
      s.(csvPath := Some(DownloadsUrl + csvFilename), isRunning := false,
         currentAgent := Some("Completed"), currentTask := Some("Task finished - CSV file ready for download"))
    else Failed(s, MissingCsvMessage)
  }

  /** The error transition. */
  function Failed(s: Status, message: string): Status
  {
    s.(error := Some(message), isRunning := false, currentAgent := Some("Error"), currentTask := Some("Error: " + message))
  }

  /** A whole run: start, the crew's steps, then the terminal transition. */
  function RunResult(query: string, timestamp: string, steps: seq<Step>, crewError: Option<string>, csvExists: bool): Status
  {
    Finish(AfterSteps(Starting, steps), AppFilenames.CsvFilename(AppFilenames.SafeQuery(query), timestamp), crewError, csvExists)
  }

  /** The agent half of `update_status`: the step's role, else a name found in its text. */
  method AgentUpdate(step: Step, current: Option<string>) returns (agent: Option<string>)
    ensures agent == AgentAfter(step, current)
  {
    agent := current;
    if step.agent.Some? {
      agent := Some(step.agent.value);
    } else if step.text.Some? && Contains(step.text.value, AgentMarker) {
      agent := Some(AgentFromText(step.text.value));
    }
  }

  /** The current-task half of `update_status`. */
  method TaskDescription(step: Step) returns (taskDesc: string)
    ensures taskDesc == TaskLine(step)
  {
    if step.task.Some? {
      taskDesc := FirstLine(step.task.value);
      if step.tool.Some? && step.tool.value != "" {
        taskDesc := taskDesc + " (Using " + ToolLabel(step.tool.value) + ")";
      }
    } else if step.thought.Some? {
      taskDesc := "Thinking: " + Take(step.thought.value, 100) + "...";
    } else if step.text.Some? {
      taskDesc := "Processing: " + Take(step.text.value, 100) + "...";
    } else {
      taskDesc := "Processing task";
    }
  }

  // ---------------------------------------------------------------------------
  // The global status dictionary

  class JobStatus {
    var isRunning: bool
    var currentAgent: Option<string>
    var currentTask: Option<string>
    var error: Option<string>
    var csvPath: Option<string>

    function Snapshot(): Status
      reads this
    {
      Status(isRunning, currentAgent, currentTask, error, csvPath)
    }

    constructor()
      ensures Snapshot() == Idle
    {
      isRunning := false;
      currentAgent := None;
      currentTask := None;
      error := None;
      csvPath := None;
    }

    /** `update_status(step)` */
    method UpdateStatus(step: Step)
      modifies this
      ensures Snapshot() == AfterStep(old(Snapshot()), step)
    {
      currentAgent := AgentUpdate(step, currentAgent);
      var taskDesc := TaskDescription(step);
      currentTask := Some(taskDesc);
    }

    /** `run_lead_generation`: the crew's progress arrives as `steps`, then it
        either raises `crewError` or finishes, and `csvExists` says whether the
        output file is there afterwards. */
    method RunLeadGeneration(query: string, timestamp: string, steps: seq<Step>, crewError: Option<string>, csvExists: bool)
      modifies this
      ensures Snapshot() == RunResult(query, timestamp, steps, crewError, csvExists)
    {
      isRunning := true;
      error := None;
      csvPath := None;
      currentAgent := Some("Initializing");
      currentTask := Some("Setting up environment");

      var safeQuery := AppFilenames.SafeQuery(query);
      var csvFilename := AppFilenames.CsvFilename(safeQuery, timestamp);

      for i := 0 to |steps|
        invariant Snapshot() == AfterSteps(Starting, steps[..i])
      {
        UpdateStatus(steps[i]);
        assert steps[..i + 1][..i] == steps[..i];
      }
      assert steps[..|steps|] == steps;

      var message := "";
      var failed := false;
      if crewError.Some? {
        message, failed := crewError.value, true;
      } else if csvExists {
        csvPath := Some(DownloadsUrl + csvFilename);
        isRunning := false;
        currentAgent := Some("Completed");
        currentTask := Some("Task finished - CSV file ready for download");
      } else {
        message, failed := MissingCsvMessage, true;
      }
      if failed {
        error := Some(message);
        isRunning := false;
        currentAgent := Some("Error");
        currentTask := Some("Error: " + message);
      }
    }

    /** The `/run` route: rejected while a run is active, otherwise the run goes ahead. */
    method Run(query: string, timestamp: string, steps: seq<Step>, crewError: Option<string>, csvExists: bool)
      returns (accepted: bool)
      modifies this
      ensures accepted == !old(isRunning)
      ensures !accepted ==> Snapshot() == old(Snapshot())
      ensures accepted ==> Snapshot() == RunResult(query, timestamp, steps, crewError, csvExists)
    {
      if isRunning {
        return false;
      }
      accepted := true;
      RunLeadGeneration(query, timestamp, steps, crewError, csvExists);
    }
  }

  // ---------------------------------------------------------------------------
  // Lemmas

  /** Steps only ever touch the agent and task entries. */
  lemma {:induction false} StepsKeepRunEntries(s: Status, steps: seq<Step>)
    ensures AfterSteps(s, steps).isRunning == s.isRunning
    ensures AfterSteps(s, steps).error == s.error
    ensures AfterSteps(s, steps).csvPath == s.csvPath
    ensures steps != [] ==> AfterSteps(s, steps).currentTask.Some?
    decreases |steps|
  {
    if steps != [] {
      StepsKeepRunEntries(s, steps[..|steps| - 1]);
    }
  }

  /** Every transition keeps the status consistent, and a finished run is never running. */
  lemma TransitionsConsistent(s: Status, step: Step, csvFilename: string, crewError: Option<string>, csvExists: bool)
    requires Consistent(s)
    ensures Consistent(Idle) && Consistent(Starting)
    ensures Consistent(AfterStep(s, step))
    ensures s.isRunning ==> Consistent(Finish(s, csvFilename, crewError, csvExists))
    ensures !Finish(s, csvFilename, crewError, csvExists).isRunning
  {
  }

  /** How a run ends: never running; a download path exactly when the crew
      finished and the file exists, and then the path is the downloads URL of
      the file name built from the query; otherwise the error message, in the
      task entry too. */
  lemma RunOutcome(query: string, timestamp: string, steps: seq<Step>, crewError: Option<string>, csvExists: bool)
    ensures var r := RunResult(query, timestamp, steps, crewError, csvExists);
      && !r.isRunning
      && Consistent(r)
      && (r.csvPath.Some? <==> crewError.None? && csvExists)
      && (r.csvPath.Some? ==>
            r.csvPath.value == "/" + AppFilenames.OutputFile(AppFilenames.CsvFilename(AppFilenames.SafeQuery(query), timestamp)))
      && (r.error.Some? <==> r.csvPath.None?)
      && (crewError.Some? ==> r.error == crewError && r.currentTask == Some("Error: " + crewError.value))
      && (crewError.None? && !csvExists ==> r.error == Some(MissingCsvMessage))
  {
    StepsKeepRunEntries(Starting, steps);
  }

  /** The step's own agent wins over any name in its text. */
  lemma AgentRoleFirst(step: Step, current: Option<string>)
    requires step.agent.Some?
    ensures AgentAfter(step, current) == step.agent
  {
  }

  /** The agent found in a text is what sits between the first "Agent:" and the
      next newline, trimmed. */
  lemma AgentBetween(x: string, y: string, z: string)
    requires !Contains(x, AgentMarker) && !Contains(y, AgentMarker) && '\n' !in y
    ensures Contains(x + AgentMarker + y + "\n" + z, AgentMarker)
    ensures AgentFromText(x + AgentMarker + y + "\n" + z) == Strip(y)
  {
    var w := y + "\n" + z;
    assert x + AgentMarker + y + "\n" + z == x + AgentMarker + w;
    MarkerSplit(x, w);
    LineBeforeNewline(y, z);
  }

  /** The text after the first "Agent:" of `x + "Agent:" + w`, up to the next one, is `w`'s first part. */
  lemma MarkerSplit(x: string, w: string)
    requires !Contains(x, AgentMarker)
    ensures Contains(x + AgentMarker + w, AgentMarker)
    ensures |Split(x + AgentMarker + w, AgentMarker)| >= 2
    ensures Split(x + AgentMarker + w, AgentMarker)[1] == Split(w, AgentMarker)[0]
  {
    var sep := AgentMarker;
    NoStraddle(x, sep + w, sep);
    SplitAtSeparator(x, w, sep);
    assert StartsWith((x + sep + w)[|x|..], sep);
  }

  /** A line free of "Agent:" and of newlines is the first line of the first part. */
  lemma LineBeforeNewline(y: string, z: string)
    requires !Contains(y, AgentMarker) && '\n' !in y
    ensures Split(Split(y + "\n" + z, AgentMarker)[0], "\n")[0] == y
  {
    var sep := AgentMarker;
    var w := y + "\n" + z;
    NoStraddle(y, "\n" + z, sep);
    assert w == y + ("\n" + z);
    SplitHead(y, "\n" + z, sep);
    assert NoMatchWithin("\n", z, sep) by {
      if |sep| <= |"\n" + z| {
        assert ("\n" + z)[..|sep|][0] == '\n' != sep[0];
      }
    }
    SplitHead("\n", z, sep);
    var after := Split(z, sep)[0];
    assert Split(w, sep)[0] == y + ['\n'] + after;
    SplitWordThenSep(y, after, '\n');
  }

  /** A tool label keeps the tool's length, shows each `_` as a space, keeps
      other non-letters, and capitalises exactly the letters that start a run of letters. */
  lemma ToolLabelAt(tool: string)
    ensures |ToolLabel(tool)| == |tool|
    ensures forall i | 0 <= i < |tool| && tool[i] == '_' :: ToolLabel(tool)[i] == ' '
    ensures forall i | 0 <= i < |tool| && tool[i] != '_' && !IsLetter(tool[i]) :: ToolLabel(tool)[i] == tool[i]
    ensures forall i | 0 < i < |tool| && IsLetter(tool[i]) && IsLetter(tool[i - 1]) ::
      ToolLabel(tool)[i] == LowerChar(tool[i])
    ensures forall i | 0 <= i < |tool| && IsLetter(tool[i]) && (i == 0 || !IsLetter(tool[i - 1])) ::
      ToolLabel(tool)[i] == UpperChar(tool[i])
  {
    var spaced := Replace(tool, "_", " ");
    ReplaceCharAt(tool, '_', ' ');
    assert spaced == Replace(tool, ['_'], [' ']);
    assert ToolLabel(tool) == TitleFrom(spaced, false);
    forall i | 0 <= i < |tool|
      ensures tool[i] == '_' ==> TitleFrom(spaced, false)[i] == ' '
      ensures tool[i] != '_' && !IsLetter(tool[i]) ==> TitleFrom(spaced, false)[i] == tool[i]
      ensures IsLetter(tool[i]) ==>
        TitleFrom(spaced, false)[i] == if i > 0 && IsLetter(tool[i - 1]) then LowerChar(tool[i]) else UpperChar(tool[i])
    {
      TitleAt(spaced, false, i);
      assert spaced[i] == if tool[i] == '_' then ' ' else tool[i];
      if i > 0 {
        assert spaced[i - 1] == if tool[i - 1] == '_' then ' ' else tool[i - 1];
      }
    }
  }

  /** A description whose first line is already trimmed shows that line, with
      the tool's label when a tool is named. */
  lemma TaskFromDescription(line: string, rest: string, tool: Option<string>, thought: Option<string>, text: Option<string>)
    requires IsStripped(line) && '\n' !in line
    ensures var r := TaskLine(Step(None, Some(line + "\n" + rest), tool, thought, text));
      r == if tool.Some? && tool.value != "" then line + " (Using " + ToolLabel(tool.value) + ")" else line
  {
    assert line + "\n" + rest == line + ['\n'] + rest;
    SplitWordThenSep(line, rest, '\n');
    StripStripped(line);
  }

  /** Without a task the entry falls back to the thought, then the text, then a
      fixed message, cut to 100 characters of the source. */
  lemma TaskFallbacks(step: Step)
    requires step.task.None?
    ensures step.thought.Some? ==>
      TaskLine(step) == "Thinking: " + Take(step.thought.value, 100) + "..." && |TaskLine(step)| <= 113
    ensures step.thought.None? && step.text.Some? ==>
      TaskLine(step) == "Processing: " + Take(step.text.value, 100) + "..." && |TaskLine(step)| <= 115
    ensures step.thought.None? && step.text.None? ==> TaskLine(step) == "Processing task"
  {
  }
}
