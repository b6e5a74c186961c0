/** views/TerminalView.tsx: the command terminal. A submitted line is logged as a
    `command` entry and dispatched on its first space-separated word, lowercased: `help`
    logs the command list, `clear` wipes the log, `exec` sends the rest of the line to
    the model, and anything else sends the whole line.

    The model call is awaited, so a submission that reaches it is split at the `await`:
    `Submit` runs up to the call and `FinishExecute` logs how it settled. Entry ids
    (`crypto.randomUUID()`), the clock and the `API_KEY` environment variable are
    inputs. */
module Terminal {
  import opened Wrappers
  import opened Types
  import Text

  const HelpText: string :=
    "Available Commands:\n  help - Show this menu\n  clear - Wipe terminal history\n  exec <prompt> - Direct model execution using system environment"
  const KeyMissing: string := "Authentication failed: API_KEY is missing from environment."
  const NoOutput: string := "Execution complete. No output payload."
  const PanicPrefix: string := "Kernel Panic: "

  /** What `processCommand` does with a line. */
  datatype Action = ShowHelp | ClearLog | Execute(prompt: string)

  /** `processCommand`'s switch: `cmd.split(' ')`, the first piece lowercased selects. */
  function Dispatch(cmd: string): Action {
    var parts := Text.Split(cmd, ' ');
    match Text.ToLower(parts[0])
    case "help" => ShowHelp
    case "clear" => ClearLog
    case "exec" => Execute(Text.Join(parts[1..], " "))
    case _ => Execute(cmd)
  }

  /** The switch in terms of the line itself: the word before the first space selects,
      case-insensitively; `exec` runs the text after that space, and an unknown word runs
      the whole line. */
  lemma DispatchCases(cmd: string)
    ensures Dispatch(cmd) == ShowHelp <==> Text.ToLower(Text.BeforeFirst(cmd, ' ')) == "help"
    ensures Dispatch(cmd) == ClearLog <==> Text.ToLower(Text.BeforeFirst(cmd, ' ')) == "clear"
    ensures Text.ToLower(Text.BeforeFirst(cmd, ' ')) == "exec" ==> Dispatch(cmd) == Execute(Text.AfterFirst(cmd, ' '))
    ensures Text.ToLower(Text.BeforeFirst(cmd, ' ')) !in {"help", "clear", "exec"} ==> Dispatch(cmd) == Execute(cmd)
  {
    Text.SplitHeadTail(cmd, ' ');
  }

  /** The entry `executeAI` logs: an error when the key is missing (falsy) or the call
      fails, else the reply text, or a fixed note when the reply is empty. */
  function ExecutionEntry(apiKey: string, call: Outcome<string>): (r: (EntryType, string))
    ensures r.0 == Error <==> apiKey == "" || call.Rejected?
    ensures r.0 == Error ==> Text.StartsWith(r.1, PanicPrefix)
    ensures r.0 != Error ==> r.0 == Response && r.1 != ""
  {
    if apiKey == "" then (Error, PanicPrefix + KeyMissing)
    else match call
      case Resolved(text) => (Response, if text != "" then text else NoOutput)
      case Rejected(message) => (Error, PanicPrefix + message)
  }

  /** The log after a submission: either it grew at the end, or `clear` emptied it. */
  predicate AppendedOrCleared(before: seq<TerminalEntry>, after: seq<TerminalEntry>) {
    after == [] || (|before| <= |after| && after[..|before|] == before)
  }

  lemma Appended(before: seq<TerminalEntry>, e: TerminalEntry, extra: seq<TerminalEntry>)
    ensures AppendedOrCleared(before, before + [e] + extra)
  {
    assert (before + [e] + extra)[..|before|] == before;
  }

  class TerminalView {
    var entries: seq<TerminalEntry>
    var input: string
    var isExecuting: bool

    constructor()
      ensures entries == [] && input == "" && !isExecuting
    {
      entries, input, isExecuting := [], "", false;
    }

    method SetInput(text: string)
      modifies this
      ensures input == text && entries == old(entries) && isExecuting == old(isExecuting)
    {
      input := text;
    }

    /** `addEntry`: one entry at the end. */
    method AddEntry(kind: EntryType, content: string, id: string, now: int)
      modifies this
      ensures entries == old(entries) + [TerminalEntry(id, kind, content, now)]
      ensures input == old(input) && isExecuting == old(isExecuting)
    {
      entries := entries + [TerminalEntry(id, kind, content, now)];
    }

    /** `processCommand` up to the model call. `prompt` is what is sent to the model, if
        anything; `infoId` is the id of the help entry. */
    method ProcessCommand(cmd: string, infoId: string, now: int) returns (prompt: Option<string>)
      modifies this
      ensures input == old(input)
      ensures match Dispatch(cmd)
        case ShowHelp => entries == old(entries) + [TerminalEntry(infoId, Info, HelpText, now)] && prompt == None && isExecuting == old(isExecuting)
        case ClearLog => entries == [] && prompt == None && isExecuting == old(isExecuting)
        case Execute(p) => entries == old(entries) && prompt == Some(p) && isExecuting
    {
      match Dispatch(cmd) {
        case ShowHelp =>
          AddEntry(Info, HelpText, infoId, now);
          prompt := None;
        case ClearLog =>
          entries := [];
          prompt := None;
        case Execute(p) =>
          isExecuting := true;
          prompt := Some(p);
      }
    }

    /** `handleSubmit` up to the model call: an empty trimmed line or a line typed while
        executing is ignored; otherwise the trimmed line is logged as a command, the box
        cleared and the line processed. */
    method Submit(commandId: string, infoId: string, now: int) returns (prompt: Option<string>)
      modifies this
      ensures AppendedOrCleared(old(entries), entries)
      ensures Text.Trim(old(input)) == "" || old(isExecuting) ==>
        prompt == None && entries == old(entries) && input == old(input) && isExecuting == old(isExecuting)
      ensures Text.Trim(old(input)) != "" && !old(isExecuting) ==>
        var cmd := Text.Trim(old(input));
        var logged := old(entries) + [TerminalEntry(commandId, Command, cmd, now)];
        && input == ""
        && match Dispatch(cmd)
           case ShowHelp => entries == logged + [TerminalEntry(infoId, Info, HelpText, now)] && prompt == None && !isExecuting
           case ClearLog => entries == [] && prompt == None && !isExecuting
           case Execute(p) => entries == logged && prompt == Some(p) && isExecuting
    {
      var cmd := Text.Trim(input);
      if cmd == "" || isExecuting {
        return None;
      }
      AddEntry(Command, cmd, commandId, now);
      input := "";
      prompt := ProcessCommand(cmd, infoId, now);
      match Dispatch(cmd) {
        case ShowHelp => Appended(old(entries), TerminalEntry(commandId, Command, cmd, now), [TerminalEntry(infoId, Info, HelpText, now)]);
        case ClearLog =>
        case Execute(_) => Appended(old(entries), TerminalEntry(commandId, Command, cmd, now), []);
      }
    }

    /** `executeAI` after the call settles: one entry is logged and execution ends. */
    method FinishExecute(apiKey: string, call: Outcome<string>, id: string, now: int)
      modifies this
      ensures var (kind, content) := ExecutionEntry(apiKey, call);
        entries == old(entries) + [TerminalEntry(id, kind, content, now)]
      ensures !isExecuting && input == old(input)
    {
      var (kind, content) := ExecutionEntry(apiKey, call);
      AddEntry(kind, content, id, now);
      isExecuting := false;
    }
  }
}
