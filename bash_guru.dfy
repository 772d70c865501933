/**
 * The bash server: a command executor that keeps a bounded history of
 * completed commands, the history view, and the pure advice helpers
 * (tips, script templates, command optimisation hints).
 *
 * The subprocess is not run: the caller supplies what it did (a RunOutcome).
 */
module BashGuru {
  import opened Common
  import opened BashTexts

  /** Capacity of the module-level command history. */
  const MaxHistory: nat := 50

  /** What the spawned shell process did. */
  datatype RunOutcome =
    | Completed(stdout: string, stderr: string, returnCode: int)  // communicate() returned in time
    | TimedOut                                                   // wait_for raised TimeoutError
    | Failed(message: string)                                    // any other exception, text of str(e)

  /** The dictionary `execute_command` returns. */
  datatype CommandResult =
    | Finished(command: string, stdout: string, stderr: string, exitCode: int, success: bool, workingDir: string)
    | Errored(command: string, error: string)  // the "success": False dictionaries without stdout or exit code
  {
    /** `result.get('success')`. */
    predicate Succeeded() { Finished? && success }

    /** `result.get('stderr')`, with a missing key read as the empty text. */
    function StderrText(): string { if Finished? then stderr else "" }
  }

  /** `working_dir or os.getcwd()`: an absent or empty directory falls back to the current one. */
  function EffectiveDir(workingDir: Option<string>, cwd: string): (d: string)
    ensures workingDir.Some? && workingDir.value != "" ==> d == workingDir.value
    ensures workingDir.None? || workingDir.value == "" ==> d == cwd
  {
    if workingDir.Some? && workingDir.value != "" then workingDir.value else cwd
  }

  function TimeoutMessage(timeout: int): string
  {
    "Command timed out after " + IntToString(timeout) + " seconds"
  }

  /** The record `execute_command` returns for a given outcome of the process. */
  function ResultOf(command: string, workingDir: Option<string>, timeout: int, cwd: string,
                    outcome: RunOutcome): (r: CommandResult)
    ensures r.command == command
    ensures r.Succeeded() <==> outcome.Completed? && outcome.returnCode == 0
    ensures r.Finished? <==> outcome.Completed?
    ensures outcome.Completed? ==>
      r.stdout == outcome.stdout && r.stderr == outcome.stderr && r.exitCode == outcome.returnCode
      && r.workingDir == EffectiveDir(workingDir, cwd)
    ensures outcome.TimedOut? ==> r.error == TimeoutMessage(timeout)
    ensures outcome.Failed? ==> r.error == outcome.message
  {
    match outcome
    case Completed(out, err, code) =>
      Finished(command, out, err, code, code == 0, EffectiveDir(workingDir, cwd))
    case TimedOut => Errored(command, TimeoutMessage(timeout))
    case Failed(msg) => Errored(command, msg)
  }

  /** The history after the eviction step that precedes every run. */
  function Evicted(h: seq<CommandResult>): (e: seq<CommandResult>)
    ensures |h| >= MaxHistory ==> e == h[1..]
    ensures |h| < MaxHistory ==> e == h
  {
    if |h| >= MaxHistory then h[1..] else h
  }

  /**
   * The history after one `execute_command`: the oldest entry is dropped
   * first when the history is full, and the record is appended only when
   * the process completed.
   */
  function NextHistory(h: seq<CommandResult>, r: CommandResult, completed: bool): (h': seq<CommandResult>)
    ensures |h| <= MaxHistory ==> |h'| <= MaxHistory
    ensures completed ==> |h'| > 0 && h'[|h'| - 1] == r && h'[..|h'| - 1] == Evicted(h)
    ensures !completed ==> h' == Evicted(h)
    ensures !completed && |h| >= MaxHistory ==> |h'| == |h| - 1
  {
    Evicted(h) + if completed then [r] else []
  }

  /** Only completed runs are recorded. */
  ghost predicate Recorded(r: CommandResult)
  {
    r.Finished? && r.success == (r.exitCode == 0)
  }

  /** The module-level state of the bash server. */
  class Shell {
    var history: seq<CommandResult>

    ghost predicate Valid()
      reads this
    {
      |history| <= MaxHistory && forall i :: 0 <= i < |history| ==> Recorded(history[i])
    }

    constructor ()
      ensures Valid() && history == []
    {
      history := [];
    }

    /** `BashGuru.execute_command`, with the process's behaviour supplied as `outcome`. */
    method ExecuteCommand(command: string, workingDir: Option<string>, timeout: int, cwd: string,
                          outcome: RunOutcome) returns (r: CommandResult)
      requires Valid()
      modifies this
      ensures Valid()
      ensures r == ResultOf(command, workingDir, timeout, cwd, outcome)
      ensures history == NextHistory(old(history), r, outcome.Completed?)
    {
      if |history| >= MaxHistory {
        history := history[1..];
      }
      r := ResultOf(command, workingDir, timeout, cwd, outcome);
      if outcome.Completed? {
        history := history + [r];
      }
    }

    /**
     * `shell_script`: the script is run as `bash <path>` with the given
     * timeout (the tool's default is 60 seconds); `scriptPath` is the
     * temporary file the caller wrote.
     */
    method ShellScript(scriptPath: string, workingDir: Option<string>, timeout: int, cwd: string,
                       outcome: RunOutcome) returns (r: CommandResult)
      requires Valid()
      modifies this
      ensures Valid()
      ensures r == ResultOf("bash " + scriptPath, workingDir, timeout, cwd, outcome)
      ensures history == NextHistory(old(history), r, outcome.Completed?)
    {
      r := ExecuteCommand("bash " + scriptPath, workingDir, timeout, cwd, outcome);
    }

    /** `shell_history(last_n)`: the text built line by line from the recent records. */
    method ShellHistory(lastN: int) returns (text: string)
      ensures text == RenderHistory(Recent(history, lastN))
    {
      var recent := Recent(history, lastN);
      var lines: seq<string> := [];
      var i := 0;
      while i < |recent|
        invariant 0 <= i <= |recent|
        invariant lines == HistoryLines(recent[..i], 1)
      {
        HistoryLinesAppend(recent[..i], recent[i], 1);
        assert recent[..i + 1] == recent[..i] + [recent[i]];
        lines := lines + EntryLines(i + 1, recent[i]);
        i := i + 1;
      }
      assert recent[..i] == recent;
      text := if lines != [] then Join(lines, "\n") else "No command history yet";
    }
  }

  /** Python's `h[k:]` for any integer `k`, negative counting from the end. */
  function SliceFrom<T>(h: seq<T>, k: int): seq<T>
  {
    if k >= 0 then (if k <= |h| then h[k..] else [])
    else (if -k <= |h| then h[|h| + k..] else h)
  }

  /** `h[-n:] if len(h) > n else h`, the records `shell_history` shows. */
  function Recent<T>(h: seq<T>, n: int): (r: seq<T>)
    ensures 0 < n < |h| ==> |r| == n && forall i :: 0 <= i < n ==> r[i] == h[|h| - n + i]
    ensures n >= |h| ==> r == h
    ensures n == 0 ==> r == h
    ensures n < 0 ==> r == if -n <= |h| then h[-n..] else []
  {
    if |h| > n then SliceFrom(h, -n) else h
  }

  /** `"✓" if cmd.get('success') else "✗"`. */
  function StatusMark(r: CommandResult): string
  {
    if r.Succeeded() then "✓" else "✗"
  }

  function HeaderLine(i: nat, r: CommandResult): string
  {
    NatToString(i) + ". [" + StatusMark(r) + "] " + r.command
  }

  /** An error line follows a record that failed and has some standard error. */
  predicate HasErrorLine(r: CommandResult)
  {
    !r.Succeeded() && r.StderrText() != ""
  }

  function ErrorLine(r: CommandResult): string
  {
    "   Error: " + Take(r.StderrText(), 100) + "..."
  }

  /** The lines one record contributes, numbered `i`. */
  function EntryLines(i: nat, r: CommandResult): seq<string>
  {
    [HeaderLine(i, r)] + if HasErrorLine(r) then [ErrorLine(r)] else []
  }

  /** The lines of `recent`, numbered from `first`. */
  function HistoryLines(recent: seq<CommandResult>, first: nat): seq<string>
    decreases |recent|
  {
    if recent == [] then [] else EntryLines(first, recent[0]) + HistoryLines(recent[1..], first + 1)
  }

  /** The history text: the placeholder for nothing, else the lines joined, the first record's header first. */
  function RenderHistory(recent: seq<CommandResult>): (text: string)
    ensures recent == [] ==> text == "No command history yet"
    ensures recent != [] ==>
      |text| >= |HeaderLine(1, recent[0])| && text[..|HeaderLine(1, recent[0])|] == HeaderLine(1, recent[0])
  {
    var lines := HistoryLines(recent, 1);
    assert recent != [] ==> lines[0] == HeaderLine(1, recent[0]);
    if lines != [] then Join(lines, "\n") else "No command history yet"
  }

  lemma {:induction false} HistoryLinesAppend(s: seq<CommandResult>, r: CommandResult, first: nat)
    ensures HistoryLines(s + [r], first) == HistoryLines(s, first) + EntryLines(first + |s|, r)
    decreases |s|
  {
    if s == [] {
      assert [r][1..] == [];
    } else {
      assert (s + [r])[1..] == s[1..] + [r];
      HistoryLinesAppend(s[1..], r, first + 1);
    }
  }

  /** `line` is the header line of `r` numbered `i`, or its error line. */
  predicate LineOf(line: string, i: nat, r: CommandResult)
  {
    line == HeaderLine(i, r) || (HasErrorLine(r) && line == ErrorLine(r))
  }

  /** Every record has its numbered header line, and a failed record with standard error its error line. */
  lemma {:induction false} HistoryLinesComplete(recent: seq<CommandResult>, first: nat, j: nat)
    requires j < |recent|
    ensures HeaderLine(first + j, recent[j]) in HistoryLines(recent, first)
    ensures HasErrorLine(recent[j]) ==> ErrorLine(recent[j]) in HistoryLines(recent, first)
    decreases |recent|
  {
    var head := EntryLines(first, recent[0]);
    var tail := HistoryLines(recent[1..], first + 1);
    assert HistoryLines(recent, first) == head + tail;
    if j > 0 {
      HistoryLinesComplete(recent[1..], first + 1, j - 1);
      assert recent[1..][j - 1] == recent[j];
      assert first + 1 + (j - 1) == first + j;
    } else {
      assert head[0] == HeaderLine(first, recent[0]);
      assert HasErrorLine(recent[0]) ==> head[1] == ErrorLine(recent[0]);
    }
  }

  /** No line of the history text is anything but a header or an error line of some record. */
  lemma {:induction false} HistoryLinesSound(recent: seq<CommandResult>, first: nat, line: string)
    requires line in HistoryLines(recent, first)
    ensures exists j :: 0 <= j < |recent| && LineOf(line, first + j, recent[j])
    decreases |recent|
  {
    var head := EntryLines(first, recent[0]);
    var tail := HistoryLines(recent[1..], first + 1);
    assert HistoryLines(recent, first) == head + tail;
    if line in head {
      assert LineOf(line, first + 0, recent[0]);
    } else {
      assert line in tail;
      HistoryLinesSound(recent[1..], first + 1, line);
      var k :| 0 <= k < |recent[1..]| && LineOf(line, first + 1 + k, recent[1..][k]);
      assert recent[1..][k] == recent[k + 1];
      assert LineOf(line, first + (k + 1), recent[k + 1]);
    }
  }

  /** The placeholder text appears exactly when there is nothing to show. */
  lemma EmptyHistoryText(recent: seq<CommandResult>)
    ensures RenderHistory(recent) == "No command history yet" <==> recent == []
  {
    if recent != [] {
      var t := RenderHistory(recent);
      assert t[0] == HeaderLine(1, recent[0])[0];
      assert '0' <= t[0] <= '9';
    }
  }

  // ---------------------------------------------------------------- tips

  /** The topics of the tip table, in declaration order. */
  const TipTopics: seq<string> :=
    ["performance", "arrays", "strings", "loops", "files", "best_practices", "shortcuts"]

  /** The tip texts, position by position with `TipTopics`. */
  const TipTexts: seq<string> :=
    [PerformanceTip, ArraysTip, StringsTip, LoopsTip, FilesTip, BestPracticesTip, ShortcutsTip]

  /** The position of `key` among `keys`, the first one if it repeats. */
  function IndexOf(keys: seq<string>, key: string): (r: Option<nat>)
    ensures r.None? <==> key !in keys
    ensures r.Some? ==> r.value < |keys| && keys[r.value] == key && key !in keys[..r.value]
  {
    if keys == [] then None
    else if keys[0] == key then Some(0)
    else match IndexOf(keys[1..], key)
      case None => None
      case Some(i) => Some(i + 1)
  }

  /**
   * `BashGuru.get_bash_tip`: `tips.get(topic, <the unknown-topic message>)`.
   * A known topic gives its own tip; an unknown one names itself and lists
   * the seven topics in declaration order.
   */
  function GetBashTip(topic: string): (tip: string)
    ensures forall i :: 0 <= i < |TipTopics| && TipTopics[i] == topic ==> tip == TipTexts[i]
    ensures topic !in TipTopics ==> tip == "Topic '" + topic + "' not found. Available: " + Join(TipTopics, ", ")
  {
    TipTopicsDistinct();
    match IndexOf(TipTopics, topic)
    case Some(i) => TipTexts[i]
    case None => "Topic '" + topic + "' not found. Available: " + Join(TipTopics, ", ")
  }

  lemma TipTopicsDistinct()
    ensures forall i, j :: 0 <= i < j < |TipTopics| ==> TipTopics[i] != TipTopics[j]
  {
    assert forall i :: 0 <= i < |TipTopics| ==> TipTopics[i][0] in "pasflb";
    assert TipTopics[2][1] != TipTopics[6][1];
    assert TipTopics[3][1] != TipTopics[4][1];
  }

  lemma TopicListSpelled()
    ensures Join(TipTopics, ", ") == TopicList
  {
    var ks := TipTopics;
    assert Join(ks[6..], ", ") == "shortcuts";
    assert Join(ks[5..], ", ") == "best_practices" + ", " + Join(ks[6..], ", ");
    assert Join(ks[4..], ", ") == "files" + ", " + Join(ks[5..], ", ");
    assert Join(ks[3..], ", ") == "loops" + ", " + Join(ks[4..], ", ");
    assert Join(ks[2..], ", ") == "strings" + ", " + Join(ks[3..], ", ");
    assert Join(ks[1..], ", ") == "arrays" + ", " + Join(ks[2..], ", ");
  }

  /** The topics as `", ".join(tips.keys())` spells them. */
  const TopicList: string := "performance" + ", " + "arrays" + ", " + "strings" + ", " + "loops" + ", "
    + "files" + ", " + "best_practices" + ", " + "shortcuts"

  // ---------------------------------------------------------- templates

  /** The template names in declaration order. */
  const TemplateKeys: seq<string> := ["backup", "monitor", "default"]

  /** The template-choosing loop of `create_script`. */
  method SelectTemplate(purpose: string) returns (key: string)
    ensures key == "backup" <==> Contains(Lower(purpose), "backup")
    ensures key == "monitor" <==> !Contains(Lower(purpose), "backup") && Contains(Lower(purpose), "monitor")
    ensures key == "default" <==> !Contains(Lower(purpose), "backup") && !Contains(Lower(purpose), "monitor")
  {
    var lowered := Lower(purpose);
    key := "default";
    var i := 0;
    while i < |TemplateKeys|
      invariant 0 <= i <= |TemplateKeys|
      invariant key == "default"
      invariant forall j :: 0 <= j < i ==> !Contains(lowered, TemplateKeys[j])
    {
      if Contains(lowered, TemplateKeys[i]) {
        key := TemplateKeys[i];
        break;
      }
      i := i + 1;
    }
    assert TemplateKeys[0] == "backup" && TemplateKeys[1] == "monitor" && TemplateKeys[2] == "default";
    assert "backup" != "monitor" && "backup" != "default";
    assert "monitor" != "default" by { assert "monitor"[0] != "default"[0]; }
  }

  /**
   * `templates[key].format(purpose=...)`. The backup and default templates
   * hold unescaped `${...}` fields that `str.format` rejects; only the
   * monitor template formats, to its own text.
   */
  function FormatTemplate(key: string, purpose: string): (r: Result<string>)
    ensures r.Ok? <==> key == "monitor"
    ensures r.Ok? ==> r.value == MonitorTemplate
  {
    if key == "monitor" then Ok(MonitorTemplate)
    else if key == "backup" then Raised("Replacement index 1 out of range for positional args tuple")
    else Raised("'BASH_SOURCE'")
  }

  /**
   * `create_script`. `absolutePath` is what `Path(filename).absolute()` gives;
   * writing and chmod-ing the file are not modelled.
   */
  method CreateScript(purpose: string, filename: Option<string>, absolutePath: string)
    returns (r: Result<string>)
    ensures r.Ok? <==> !Contains(Lower(purpose), "backup") && Contains(Lower(purpose), "monitor")
    ensures r.Ok? && (filename.None? || filename.value == "") ==> r.value == MonitorTemplate
    ensures r.Ok? && filename.Some? && filename.value != "" ==>
      r.value == "Script saved to " + absolutePath + "\n\n" + MonitorTemplate
  {
    var key := SelectTemplate(purpose);
    var script := FormatTemplate(key, purpose);
    if script.Raised? {
      return script;
    }
    if filename.Some? && filename.value != "" {
      r := Ok("Script saved to " + absolutePath + "\n\n" + script.value);
    } else {
      r := script;
    }
  }

  // ------------------------------------------------------- optimisation

  /** A substring test of `optimize_command`. */
  datatype Check = AllOf(needles: seq<string>) | AnyOf(needles: seq<string>)

  predicate Holds(c: Check, command: string)
  {
    match c
    case AllOf(ns) => forall i :: 0 <= i < |ns| ==> Contains(command, ns[i])
    case AnyOf(ns) => exists i :: 0 <= i < |ns| && Contains(command, ns[i])
  }

  datatype Rule = Rule(check: Check, advice: string)

  const CatGrepAdvice := "• Instead of 'cat file | grep pattern', use 'grep pattern file'"
  const BasenameAdvice := "• Instead of '$(basename $path)', use '${path##*/}' (pure bash)"
  const DirnameAdvice := "• Instead of '$(dirname $path)', use '${path%/*}' (pure bash)"
  const SleepAdvice := "• Instead of 'sleep 0.1', use 'read -t 0.1 <> <(:)' (built-in)"
  const BacktickAdvice := "• Replace backticks ` with $() for command substitution"
  const LsLoopAdvice := "• Instead of 'for i in $(ls)', use 'for i in *' (glob expansion)"

  /** The six checks of `optimize_command`, in the order they are made. */
  const Rules: seq<Rule> := [
    Rule(AllOf(["cat", "|", "grep"]), CatGrepAdvice),
    Rule(AllOf(["$(basename"]), BasenameAdvice),
    Rule(AllOf(["$(dirname"]), DirnameAdvice),
    Rule(AllOf(["sleep"]), SleepAdvice),
    Rule(AllOf(["`"]), BacktickAdvice),
    Rule(AnyOf(["for i in $(ls", "for i in `ls"]), LsLoopAdvice)
  ]

  /** The four lines given when no check holds. */
  const FallbackLines: seq<string> := [
    "Command looks good! Consider these general tips:",
    "• Use [[ ]] instead of [ ] for conditionals",
    "• Quote variables: \"$var\" instead of $var",
    "• Use built-ins when possible"
  ]

  /** The advice of the rules whose check holds, in rule order. */
  function Applicable(rules: seq<Rule>, command: string): seq<string>
  {
    if rules == [] then []
    else
      (if Holds(rules[0].check, command) then [rules[0].advice] else [])
      + Applicable(rules[1..], command)
  }

  /** The positions, counted from `base`, of the rules whose check holds. */
  function Hits(rules: seq<Rule>, command: string, base: nat): seq<nat>
  {
    if rules == [] then []
    else
      (if Holds(rules[0].check, command) then [base] else [])
      + Hits(rules[1..], command, base + 1)
  }

  /** Position k of the advice list is the advice of the rule at position `Hits[k]`. */
  lemma {:induction false} ApplicableByHits(rules: seq<Rule>, command: string, base: nat)
    ensures |Applicable(rules, command)| == |Hits(rules, command, base)|
    ensures forall k :: 0 <= k < |Hits(rules, command, base)| ==>
      base <= Hits(rules, command, base)[k] < base + |rules|
      && Applicable(rules, command)[k] == rules[Hits(rules, command, base)[k] - base].advice
    decreases |rules|
  {
    if rules != [] {
      var rest := rules[1..];
      ApplicableByHits(rest, command, base + 1);
      var hs, hr := Hits(rules, command, base), Hits(rest, command, base + 1);
      var a, ar := Applicable(rules, command), Applicable(rest, command);
      assert forall k :: 0 <= k < |hr| ==> rest[hr[k] - (base + 1)] == rules[hr[k] - base];
      if Holds(rules[0].check, command) {
        assert hs == [base] + hr && a == [rules[0].advice] + ar;
        assert forall k :: 0 < k < |hs| ==> hs[k] == hr[k - 1] && a[k] == ar[k - 1];
      }
    }
  }

  /** The positions in `Hits` increase: the advice keeps the order of the checks. */
  lemma {:induction false} HitsIncreasing(rules: seq<Rule>, command: string, base: nat)
    ensures forall k :: 0 <= k < |Hits(rules, command, base)| ==> base <= Hits(rules, command, base)[k]
    ensures forall k1, k2 :: 0 <= k1 < k2 < |Hits(rules, command, base)| ==>
      Hits(rules, command, base)[k1] < Hits(rules, command, base)[k2]
    decreases |rules|
  {
    if rules != [] {
      HitsIncreasing(rules[1..], command, base + 1);
      var hs, hr := Hits(rules, command, base), Hits(rules[1..], command, base + 1);
      if Holds(rules[0].check, command) {
        assert hs == [base] + hr;
        assert forall k :: 0 < k < |hs| ==> hs[k] == hr[k - 1];
      }
    }
  }

  /** A rule is among the `Hits` exactly when its check holds. */
  lemma {:induction false} HitsExactly(rules: seq<Rule>, command: string, base: nat)
    ensures forall j :: base <= j < base + |rules| ==>
      (j in Hits(rules, command, base) <==> Holds(rules[j - base].check, command))
    decreases |rules|
  {
    if rules != [] {
      var rest := rules[1..];
      HitsExactly(rest, command, base + 1);
      HitsIncreasing(rest, command, base + 1);
      assert forall j :: 0 <= j < |rest| ==> rest[j] == rules[j + 1];
      assert base !in Hits(rest, command, base + 1);
    }
  }

  lemma {:induction false} HitsEmpty(rules: seq<Rule>, command: string, base: nat)
    ensures Hits(rules, command, base) == [] <==> forall j :: 0 <= j < |rules| ==> !Holds(rules[j].check, command)
    ensures Applicable(rules, command) == [] <==> Hits(rules, command, base) == []
    decreases |rules|
  {
    if rules != [] {
      HitsEmpty(rules[1..], command, base + 1);
      assert forall j :: 0 < j < |rules| ==> rules[j] == rules[1..][j - 1];
    }
  }

  /** The lines `optimize_command` joins. */
  function OptimizeLines(command: string): seq<string>
  {
    var s := Applicable(Rules, command);
    ["Optimizations for: " + command, ""] + if s == [] then FallbackLines else s
  }

  /** `optimize_command`: the text opens with the command named on its own line, then an empty line. */
  function OptimizeCommand(command: string): (text: string)
    ensures var head := "Optimizations for: " + command + "\n" + "\n";
      |text| >= |head| && text[..|head|] == head
  {
    var lines := OptimizeLines(command);
    assert lines[..2] == ["Optimizations for: " + command, ""];
    assert |lines| > 2;
    assert lines[1..][0] == "" && |lines[1..]| > 1;
    JoinHead(lines, "\n");
    JoinHead(lines[1..], "\n");
    Join(lines, "\n")
  }

  /**
   * The reply opens with the command and an empty line; then come the
   * advice lines of the checks that hold, in check order, or, exactly when
   * no check holds, the four fallback lines.
   */
  lemma OptimizeLinesSpec(command: string)
    ensures OptimizeLines(command)[..2] == ["Optimizations for: " + command, ""]
    ensures (forall j :: 0 <= j < |Rules| ==> !Holds(Rules[j].check, command)) ==>
      OptimizeLines(command)[2..] == FallbackLines
    ensures (exists j :: 0 <= j < |Rules| && Holds(Rules[j].check, command)) ==>
      OptimizeLines(command)[2..] == Applicable(Rules, command) != []
  {
    HitsEmpty(Rules, command, 0);
    var s := Applicable(Rules, command);
    assert OptimizeLines(command) == ["Optimizations for: " + command, ""] + (if s == [] then FallbackLines else s);
  }
}
