/**
 * Command routing of CommandManager.java: the permission gates, subcommand dispatch with the
 * root-handler fallback, and tab completion. Reflection is replaced by plain data: a command
 * class is its @Command metadata plus its declared methods, in the order reflection
 * (Class.getDeclaredMethods) returns them; "first" below always means first in that order.
 */
module Commands {
  import opened Wrappers
  import opened Ascii
  import opened JavaText
  import opened Context

  /** The fields of a class's @Command annotation. */
  datatype CommandInfo = CommandInfo(
    name: string,
    permission: string,
    allowConsole: bool,
    async: bool,
    description: string,
    usage: string)

  /** @SubCommand(name, permission), the permission defaulting to "". */
  datatype SubCommandInfo = SubCommandInfo(name: string, permission: string)

  function PlainSubCommand(name: string): (s: SubCommandInfo)
    ensures s.name == name && Allows({}, s.permission)
  {
    SubCommandInfo(name, "")
  }

  /**
   * One declared method of a command class: its name, whether it is public with the single
   * parameter CommandContext (the signature getMethod("execute", CommandContext.class) looks up),
   * and its @SubCommand and @TabComplete annotations, if any.
   */
  datatype MethodDecl = MethodDecl(
    name: string,
    isPublic: bool,
    takesContext: bool,
    subCommand: Option<SubCommandInfo>,
    tabComplete: Option<seq<string>>)

  datatype CommandClass = CommandClass(info: CommandInfo, methods: seq<MethodDecl>)

  /** executeCommand's choice: run on the calling thread, or hand to the scheduler's async worker. */
  datatype Mode = Sync | Async

  function ModeOf(async: bool): (m: Mode)
    ensures m == Async <==> async
  {
    if async then Async else Sync
  }

  /** What one call of execute does: send a message and stop, or run one handler method. */
  datatype Outcome =
    | Denied(message: string)
    | RunSubCommand(index: nat, mode: Mode)
    | RunRoot(index: nat, mode: Mode)
    | InvalidCommand

  const PlayersOnlyMessage: string := [Section] + "cThis command " + "can only be used " + "by players."

  const SubCommandNoPermissionBody: string := "cYou don't " + "have permission " + "to use this subcommand."
  const SubCommandNoPermissionTemplate: string := [Marker] + SubCommandNoPermissionBody
  const SubCommandNoPermissionMessage: string := [Section] + SubCommandNoPermissionBody

  const InvalidCommandBody: string := "cInvalid " + "command."
  const InvalidCommandTemplate: string := [Marker] + InvalidCommandBody
  const InvalidCommandMessage: string := [Section] + InvalidCommandBody

  /** The messages the sender receives for an outcome. */
  function Messages(o: Outcome): seq<string>
  {
    match o
    case Denied(m) => [m]
    case InvalidCommand => [InvalidCommandMessage]
    case _ => []
  }

  predicate RunsHandler(o: Outcome) {
    o.RunSubCommand? || o.RunRoot?
  }

  lemma SubCommandNoPermissionText()
    ensures Translate(SubCommandNoPermissionTemplate) == SubCommandNoPermissionMessage
  {
  }

  lemma InvalidCommandText()
    ensures Translate(InvalidCommandTemplate) == InvalidCommandMessage
  {
    TranslateLeadingMarker(InvalidCommandBody);
  }

  // ---------------------------------------------------------------------------------------------
  // Searching the declared methods

  /** The index of the first method, in reflection order, satisfying p: the for-loop with an early return. */
  function FirstWhere(ms: seq<MethodDecl>, p: MethodDecl -> bool): (r: Option<nat>)
    ensures r.Some? ==> r.value < |ms| && p(ms[r.value])
    ensures forall j :: 0 <= j < |ms| && (r.None? || j < r.value) ==> !p(ms[j])
  {
    if ms == [] then None
    else if p(ms[0]) then Some(0)
    else
      match FirstWhere(ms[1..], p)
      case None => None
      case Some(i) => Some(i + 1)
  }

  predicate IsSubCommandNamed(m: MethodDecl, name: string) {
    m.subCommand.Some? && EqualsIgnoreCase(m.subCommand.value.name, name)
  }

  /** The first @SubCommand, in reflection order, whose name equals name ignoring case. */
  function FindSubCommand(ms: seq<MethodDecl>, name: string): Option<nat>
  {
    FirstWhere(ms, m => IsSubCommandNamed(m, name))
  }

  predicate IsRootHandler(m: MethodDecl) {
    m.name == "execute" && m.isPublic && m.takesContext
  }

  /** getExecuteMethod: the public execute(CommandContext) method, or None (Java's null). */
  function GetExecuteMethod(ms: seq<MethodDecl>): (r: Option<nat>)
    ensures r.Some? <==> exists j :: 0 <= j < |ms| && IsRootHandler(ms[j])
    ensures r.Some? ==> r.value < |ms| && IsRootHandler(ms[r.value])
  {
    FirstWhere(ms, IsRootHandler)
  }

  // ---------------------------------------------------------------------------------------------
  // Dispatch, as functions of the sender's kind and permissions

  /** canExecute: the denial message the gates send, or None when both gates pass. */
  function Gate(info: CommandInfo, isPlayer: bool, perms: set<string>): (denial: Option<string>)
    ensures denial.None? <==> (info.allowConsole || isPlayer) && Allows(perms, info.permission)
    ensures !info.allowConsole && !isPlayer ==> denial == Some(PlayersOnlyMessage)
    ensures denial.Some? ==> denial.value == PlayersOnlyMessage || denial.value == NoPermissionMessage
  {
    if !info.allowConsole && !isPlayer then Some(PlayersOnlyMessage)
    else if !Allows(perms, info.permission) then Some(NoPermissionMessage)
    else None
  }

  /** executeSubCommand: None when no subcommand matches, otherwise what the matched one does. */
  function SubCommandStep(ms: seq<MethodDecl>, perms: set<string>, name: string, async: bool): (r: Option<Outcome>)
    ensures r.Some? <==> exists j :: 0 <= j < |ms| && IsSubCommandNamed(ms[j], name)
    ensures r.Some? ==> r.value.RunSubCommand? || r.value == Denied(SubCommandNoPermissionMessage)
    ensures r.Some? && r.value.RunSubCommand? ==>
      var i := r.value.index;
      i < |ms| && IsSubCommandNamed(ms[i], name) && Allows(perms, ms[i].subCommand.value.permission) &&
      (forall j :: 0 <= j < i ==> !IsSubCommandNamed(ms[j], name)) && r.value.mode == ModeOf(async)
    ensures r.Some? && r.value.Denied? ==>
      var i := FindSubCommand(ms, name).value;
      i < |ms| && IsSubCommandNamed(ms[i], name) && !Allows(perms, ms[i].subCommand.value.permission)
  {
    match FindSubCommand(ms, name)
    case None => None
    case Some(i) =>
      if !Allows(perms, ms[i].subCommand.value.permission) then Some(Denied(SubCommandNoPermissionMessage))
      else Some(RunSubCommand(i, ModeOf(async)))
  }

  /** The body of the registered command's execute, as the outcome it produces. */
  function Dispatch(cls: CommandClass, isPlayer: bool, perms: set<string>, args: seq<string>): (r: Outcome)
    ensures RunsHandler(r) ==> Gate(cls.info, isPlayer, perms).None?
    ensures r.RunSubCommand? ==>
      |args| > 0 && r.index < |cls.methods| && IsSubCommandNamed(cls.methods[r.index], args[0]) &&
      Allows(perms, cls.methods[r.index].subCommand.value.permission) && r.mode == ModeOf(cls.info.async)
    ensures r.RunRoot? ==>
      r.index < |cls.methods| && IsRootHandler(cls.methods[r.index]) && r.mode == ModeOf(cls.info.async)
    ensures r.Denied? ==>
      r.message == PlayersOnlyMessage || r.message == NoPermissionMessage || r.message == SubCommandNoPermissionMessage
    ensures r.InvalidCommand? ==> forall j :: 0 <= j < |cls.methods| ==> !IsRootHandler(cls.methods[j])
  {
    match Gate(cls.info, isPlayer, perms)
    case Some(m) => Denied(m)
    case None =>
      var step := if |args| > 0 then SubCommandStep(cls.methods, perms, args[0], cls.info.async) else None;
      if step.Some? then step.value
      else
        match GetExecuteMethod(cls.methods)
        case Some(i) => RunRoot(i, ModeOf(cls.info.async))
        case None => InvalidCommand
  }

  // ---------------------------------------------------------------------------------------------
  // Dispatch, over a sender whose outbox records what it is sent

  method CanExecute(sender: Sender, info: CommandInfo) returns (ok: bool)
    modifies sender
    ensures ok <==> Gate(info, sender.isPlayer, sender.perms).None?
    ensures !ok ==> sender.outbox == old(sender.outbox) + [Gate(info, sender.isPlayer, sender.perms).value]
    ensures ok ==> sender.outbox == old(sender.outbox)
  {
    if !info.allowConsole && !sender.isPlayer {
      sender.SendMessage(PlayersOnlyMessage);
      return false;
    }
    if info.permission != "" && !sender.HasPermission(info.permission) {
      sender.SendMessage(NoPermissionMessage);
      return false;
    }
    return true;
  }

  method ExecuteSubCommand(ms: seq<MethodDecl>, context: CommandContext, name: string, async: bool)
    returns (handled: bool, outcome: Outcome)
    modifies context.sender
    ensures handled == SubCommandStep(ms, context.sender.perms, name, async).Some?
    ensures handled ==> outcome == SubCommandStep(ms, context.sender.perms, name, async).value
    ensures context.sender.outbox == old(context.sender.outbox) + (if handled then Messages(outcome) else [])
  {
    outcome := InvalidCommand;
    var i := 0;
    while i < |ms|
      invariant 0 <= i <= |ms|
      invariant forall j :: 0 <= j < i ==> !IsSubCommandNamed(ms[j], name)
      invariant context.sender.outbox == old(context.sender.outbox)
    {
      var m := ms[i];
      if m.subCommand.Some? {
        var sub := m.subCommand.value;
        if EqualsIgnoreCase(sub.name, name) {
          assert FindSubCommand(ms, name) == Some(i);
          if sub.permission != "" && !context.sender.HasPermission(sub.permission) {
            SubCommandNoPermissionText();
            context.SendMessage(SubCommandNoPermissionTemplate);
            return true, Denied(SubCommandNoPermissionMessage);
          }
          return true, RunSubCommand(i, ModeOf(async));
        }
      }
      i := i + 1;
    }
    return false, outcome;
  }

  /**
   * The registered command's execute(sender, label, args); the label is unused. Handler runs are
   * recorded in the outcome rather than performed; the call is always reported as handled.
   */
  method Execute(cls: CommandClass, sender: Sender, args: seq<string>) returns (handled: bool, outcome: Outcome)
    modifies sender
    ensures handled
    ensures outcome == Dispatch(cls, sender.isPlayer, sender.perms, args)
    ensures sender.outbox == old(sender.outbox) + Messages(outcome)
  {
    var ok := CanExecute(sender, cls.info);
    if !ok {
      return true, Denied(Gate(cls.info, sender.isPlayer, sender.perms).value);
    }
    var context := new CommandContext(sender, args);
    if |args| > 0 {
      var done, o := ExecuteSubCommand(cls.methods, context, args[0], cls.info.async);
      if done {
        return true, o;
      }
    }
    var executeMethod := GetExecuteMethod(cls.methods);
    if executeMethod.Some? {
      outcome := RunRoot(executeMethod.value, ModeOf(cls.info.async));
    } else {
      InvalidCommandText();
      context.SendMessage(InvalidCommandTemplate);
      outcome := InvalidCommand;
    }
    return true, outcome;
  }

  // ---------------------------------------------------------------------------------------------
  // Properties of dispatch

  /** A console sender of a players-only command gets exactly the players-only message; nothing runs. */
  lemma ConsoleGate(cls: CommandClass, isPlayer: bool, perms: set<string>, args: seq<string>)
    requires !cls.info.allowConsole && !isPlayer
    ensures Dispatch(cls, isPlayer, perms, args) == Denied(PlayersOnlyMessage)
    ensures Messages(Dispatch(cls, isPlayer, perms, args)) == [PlayersOnlyMessage]
    ensures !RunsHandler(Dispatch(cls, isPlayer, perms, args))
  {
  }

  /** Passing the console gate but lacking the command permission gives one denial; nothing runs. */
  lemma PermissionGate(cls: CommandClass, isPlayer: bool, perms: set<string>, args: seq<string>)
    requires cls.info.allowConsole || isPlayer
    requires cls.info.permission != [] && cls.info.permission !in perms
    ensures Dispatch(cls, isPlayer, perms, args) == Denied(NoPermissionMessage)
    ensures Messages(Dispatch(cls, isPlayer, perms, args)) == [NoPermissionMessage]
    ensures !RunsHandler(Dispatch(cls, isPlayer, perms, args))
  {
  }

  /** A handler runs only when both gates pass. */
  lemma HandlersRunOnlyPastGates(cls: CommandClass, isPlayer: bool, perms: set<string>, args: seq<string>)
    requires RunsHandler(Dispatch(cls, isPlayer, perms, args))
    ensures cls.info.allowConsole || isPlayer
    ensures Allows(perms, cls.info.permission)
  {
  }

  /** Every call has exactly one effect: either one message and no handler, or one handler and no message. */
  lemma OneEffect(cls: CommandClass, isPlayer: bool, perms: set<string>, args: seq<string>)
    ensures var o := Dispatch(cls, isPlayer, perms, args);
      (|Messages(o)| == 1 && !RunsHandler(o)) || (Messages(o) == [] && RunsHandler(o))
  {
  }

  /**
   * A subcommand that runs is the first @SubCommand, in reflection order, whose name equals args[0] ignoring
   * case, the sender holds its permission, and it runs under the command's own async flag.
   */
  lemma FirstMatchWins(cls: CommandClass, isPlayer: bool, perms: set<string>, args: seq<string>, i: nat, mode: Mode)
    requires Dispatch(cls, isPlayer, perms, args) == RunSubCommand(i, mode)
    ensures |args| > 0 && i < |cls.methods|
    ensures IsSubCommandNamed(cls.methods[i], args[0])
    ensures forall j :: 0 <= j < i ==> !IsSubCommandNamed(cls.methods[j], args[0])
    ensures Allows(perms, cls.methods[i].subCommand.value.permission)
    ensures mode == ModeOf(cls.info.async)
  {
  }

  /**
   * Once the gates pass, a matched subcommand decides the outcome: it runs when its permission is
   * held, and otherwise the sender gets the subcommand denial; the root handler never runs.
   */
  lemma MatchedSubCommandDecides(cls: CommandClass, isPlayer: bool, perms: set<string>, args: seq<string>, i: nat)
    requires Gate(cls.info, isPlayer, perms).None?
    requires |args| > 0 && FindSubCommand(cls.methods, args[0]) == Some(i)
    ensures i < |cls.methods| && cls.methods[i].subCommand.Some?
    ensures Dispatch(cls, isPlayer, perms, args) ==
      if Allows(perms, cls.methods[i].subCommand.value.permission) then RunSubCommand(i, ModeOf(cls.info.async))
      else Denied(SubCommandNoPermissionMessage)
    ensures !Dispatch(cls, isPlayer, perms, args).RunRoot?
  {
  }

  /** With no arguments or no matching subcommand, the root handler runs if declared, else "Invalid command". */
  lemma RootFallback(cls: CommandClass, isPlayer: bool, perms: set<string>, args: seq<string>)
    requires Gate(cls.info, isPlayer, perms).None?
    requires |args| == 0 || FindSubCommand(cls.methods, args[0]).None?
    ensures var o := Dispatch(cls, isPlayer, perms, args);
      match GetExecuteMethod(cls.methods)
      case Some(i) => o == RunRoot(i, ModeOf(cls.info.async))
      case None => o == InvalidCommand && Messages(o) == [InvalidCommandMessage]
  {
  }

  /** Subcommand lookup looks at args[0] only up to case: equal-ignoring-case first tokens dispatch alike. */
  lemma DispatchIgnoresCase(cls: CommandClass, isPlayer: bool, perms: set<string>, a: seq<string>, b: seq<string>)
    requires |a| > 0 && |b| > 0 && EqualsIgnoreCase(a[0], b[0])
    ensures Dispatch(cls, isPlayer, perms, a) == Dispatch(cls, isPlayer, perms, b)
  {
  }

  /** "GIVE", "give" and "Give" select the same handler of a command declaring subcommand "give". */
  lemma GiveSpellings(cls: CommandClass, isPlayer: bool, perms: set<string>)
    ensures Dispatch(cls, isPlayer, perms, ["GIVE"]) == Dispatch(cls, isPlayer, perms, ["give"])
    ensures Dispatch(cls, isPlayer, perms, ["Give"]) == Dispatch(cls, isPlayer, perms, ["give"])
  {
    DispatchIgnoresCase(cls, isPlayer, perms, ["GIVE"], ["give"]);
    DispatchIgnoresCase(cls, isPlayer, perms, ["Give"], ["give"]);
  }

  // ---------------------------------------------------------------------------------------------
  // Completion

  /** a keeps some of b's elements, in b's order. */
  predicate IsSubsequence(a: seq<string>, b: seq<string>)
    decreases |b|
  {
    if b == [] then a == []
    else (a != [] && a[0] == b[0] && IsSubsequence(a[1..], b[1..])) || IsSubsequence(a, b[1..])
  }

  /**
   * r is what filtering xs by the typed input keeps: xs's order, and each entry that starts with
   * input ignoring case as often as it occurs in xs, and nothing else.
   */
  ghost predicate KeepsMatches(r: seq<string>, xs: seq<string>, input: string) {
    IsSubsequence(r, xs) &&
    forall x :: multiset(r)[x] == (if StartsWithIgnoreCase(x, input) then multiset(xs)[x] else 0)
  }

  /**
   * The stream filter name.toLowerCase().startsWith(input.toLowerCase()): keeps order, and keeps
   * every matching entry as often as it occurs.
   */
  function FilterPrefix(xs: seq<string>, input: string): (r: seq<string>)
    ensures IsSubsequence(r, xs)
    ensures forall x :: x in r <==> x in xs && StartsWithIgnoreCase(x, input)
    ensures forall x :: multiset(r)[x] == if StartsWithIgnoreCase(x, input) then multiset(xs)[x] else 0
  {
    if xs == [] then []
    else
      assert xs == [xs[0]] + xs[1..];
      if StartsWithIgnoreCase(xs[0], input) then [xs[0]] + FilterPrefix(xs[1..], input)
    else FilterPrefix(xs[1..], input)
  }

  /** The names of the @SubCommand methods, in reflection order. */
  function SubCommandNames(ms: seq<MethodDecl>): (names: seq<string>)
    ensures |names| <= |ms|
    ensures forall k :: 0 <= k < |names| ==>
      exists j :: 0 <= j < |ms| && ms[j].subCommand.Some? && ms[j].subCommand.value.name == names[k]
  {
    if ms == [] then []
    else
      assert forall j :: 0 <= j < |ms| - 1 ==> ms[1..][j] == ms[j + 1];
      (if ms[0].subCommand.Some? then [ms[0].subCommand.value.name] else []) + SubCommandNames(ms[1..])
  }

  /** A single method contributes its @SubCommand name, or nothing when it has none. */
  lemma SubCommandNamesOne(m: MethodDecl)
    ensures SubCommandNames([m]) == if m.subCommand.Some? then [m.subCommand.value.name] else []
  {
    assert [m][1..] == [];
  }

  /**
   * The list of a concatenation is the concatenation of the lists: with SubCommandNamesOne,
   * this pins the list down to one name per @SubCommand method, in reflection order.
   */
  lemma {:induction false} SubCommandNamesAppend(a: seq<MethodDecl>, b: seq<MethodDecl>)
    ensures SubCommandNames(a + b) == SubCommandNames(a) + SubCommandNames(b)
  {
    if a != [] {
      var head := if a[0].subCommand.Some? then [a[0].subCommand.value.name] else [];
      assert (a + b)[0] == a[0] && (a + b)[1..] == a[1..] + b;
      SubCommandNamesAppend(a[1..], b);
      calc {
        SubCommandNames(a + b);
        head + SubCommandNames(a[1..] + b);
        head + (SubCommandNames(a[1..]) + SubCommandNames(b));
        (head + SubCommandNames(a[1..])) + SubCommandNames(b);
        SubCommandNames(a) + SubCommandNames(b);
      }
    } else {
      assert a + b == b;
    }
  }

  /** A name is listed exactly when some declared method carries @SubCommand with that name. */
  lemma {:induction false} SubCommandNamesListed(ms: seq<MethodDecl>, x: string)
    ensures x in SubCommandNames(ms) <==>
      exists j :: 0 <= j < |ms| && ms[j].subCommand.Some? && ms[j].subCommand.value.name == x
  {
    if ms != [] {
      SubCommandNamesListed(ms[1..], x);
      var head := if ms[0].subCommand.Some? then [ms[0].subCommand.value.name] else [];
      assert SubCommandNames(ms) == head + SubCommandNames(ms[1..]);
      if exists j :: 0 <= j < |ms| && ms[j].subCommand.Some? && ms[j].subCommand.value.name == x {
        var j :| 0 <= j < |ms| && ms[j].subCommand.Some? && ms[j].subCommand.value.name == x;
        if j > 0 {
          assert ms[1..][j - 1] == ms[j];
        }
      }
      if x in SubCommandNames(ms[1..]) {
        var j :| 0 <= j < |ms[1..]| && ms[1..][j].subCommand.Some? && ms[1..][j].subCommand.value.name == x;
        assert ms[j + 1] == ms[1..][j];
      }
    }
  }

  /**
   * getSubCommandCompletions: the subcommand names, in reflection order, that start with input
   * ignoring case, each as often as it is declared.
   */
  function SubCommandCompletions(ms: seq<MethodDecl>, input: string): (r: seq<string>)
    ensures IsSubsequence(r, SubCommandNames(ms))
    ensures forall x :: x in r <==> x in SubCommandNames(ms) && StartsWithIgnoreCase(x, input)
    ensures forall x ::
      multiset(r)[x] == (if StartsWithIgnoreCase(x, input) then multiset(SubCommandNames(ms))[x] else 0)
  {
    FilterPrefix(SubCommandNames(ms), input)
  }

  predicate HasOptionAt(m: MethodDecl, index: int) {
    m.tabComplete.Some? && 0 <= index < |m.tabComplete.value|
  }

  /** The first @TabComplete method, in reflection order, whose options reach index. */
  function FindTabComplete(ms: seq<MethodDecl>, index: int): Option<nat>
  {
    FirstWhere(ms, m => HasOptionAt(m, index))
  }

  /**
   * Where the suggestions for one option come from: the online player names for "@players", the
   * material names for "@items" (both keywords ignoring case), otherwise the comma-separated list.
   */
  function OptionSource(option: string, players: seq<string>, items: seq<string>): (r: seq<string>)
    ensures EqualsIgnoreCase(option, "@players") ==> r == players
    ensures EqualsIgnoreCase(option, "@items") ==> r == items
    ensures !EqualsIgnoreCase(option, "@players") && !EqualsIgnoreCase(option, "@items") ==>
      r == Split(option, ',')
  {
    var key := Lower(option);
    if key == "@players" then players
    else if key == "@items" then items
    else Split(option, ',')
  }

  /** The suggestions an option gives for the token being typed. */
  function ResolveOption(option: string, input: string, players: seq<string>, items: seq<string>): (r: seq<string>)
    ensures IsSubsequence(r, OptionSource(option, players, items))
    ensures forall x :: x in r <==> x in OptionSource(option, players, items) && StartsWithIgnoreCase(x, input)
    ensures forall x ::
      multiset(r)[x] == (if StartsWithIgnoreCase(x, input) then multiset(OptionSource(option, players, items))[x] else 0)
  {
    FilterPrefix(OptionSource(option, players, items), input)
  }

  /**
   * The option at index of the first @TabComplete method, in reflection order, whose options
   * reach index; None when no method's options do.
   */
  function ChosenOption(ms: seq<MethodDecl>, index: int): (o: Option<string>)
    ensures o.None? <==> forall j :: 0 <= j < |ms| ==> !HasOptionAt(ms[j], index)
    ensures o.Some? ==>
      var i := FindTabComplete(ms, index).value;
      FindTabComplete(ms, index).Some? && i < |ms| && HasOptionAt(ms[i], index) &&
      o.value == ms[i].tabComplete.value[index]
  {
    match FindTabComplete(ms, index)
    case None => None
    case Some(i) => Some(ms[i].tabComplete.value[index])
  }

  /**
   * getTabCompleteOptions: position |args| - 2, token args[|args| - 1], and the first @TabComplete
   * whose options reach that position decides; args[0] is never consulted.
   */
  function TabCompleteOptions(ms: seq<MethodDecl>, args: seq<string>, players: seq<string>, items: seq<string>): (r: seq<string>)
    requires |args| >= 1
    ensures forall x :: x in r ==> StartsWithIgnoreCase(x, args[|args| - 1])
    ensures ChosenOption(ms, |args| - 2).None? ==> r == []
    ensures ChosenOption(ms, |args| - 2).Some? ==>
      KeepsMatches(r, OptionSource(ChosenOption(ms, |args| - 2).value, players, items), args[|args| - 1])
  {
    match ChosenOption(ms, |args| - 2)
    case None => []
    case Some(option) => ResolveOption(option, args[|args| - 1], players, items)
  }

  method GetTabCompleteOptions(ms: seq<MethodDecl>, args: seq<string>, players: seq<string>, items: seq<string>)
    returns (r: seq<string>)
    requires |args| >= 1
    ensures r == TabCompleteOptions(ms, args, players, items)
  {
    var index := |args| - 2;
    var input := args[|args| - 1];
    var i := 0;
    while i < |ms|
      invariant 0 <= i <= |ms|
      invariant forall j :: 0 <= j < i ==> !HasOptionAt(ms[j], index)
    {
      var m := ms[i];
      if m.tabComplete.Some? {
        var options := m.tabComplete.value;
        if index >= 0 && index < |options| {
          assert FindTabComplete(ms, index) == Some(i);
          var option := options[index];
          var key := Lower(option);
          if key == "@players" {
            return FilterPrefix(players, input);
          } else if key == "@items" {
            return FilterPrefix(items, input);
          }
          return FilterPrefix(Split(option, ','), input);
        }
      }
      i := i + 1;
    }
    return [];
  }

  /** The registered command's tabComplete(sender, alias, args). */
  method TabComplete(cls: CommandClass, args: seq<string>, players: seq<string>, items: seq<string>)
    returns (r: seq<string>)
    ensures |args| == 0 ==> r == []
    ensures |args| == 1 ==> r == SubCommandCompletions(cls.methods, args[0])
    ensures |args| > 1 ==> r == TabCompleteOptions(cls.methods, args, players, items)
  {
    if |args| == 1 {
      r := SubCommandCompletions(cls.methods, args[0]);
    } else if |args| > 1 {
      r := GetTabCompleteOptions(cls.methods, args, players, items);
    } else {
      r := [];
    }
  }

  // ---------------------------------------------------------------------------------------------
  // Properties of completion

  /** Every name offered for the first token is one that dispatch then finds as a subcommand. */
  lemma {:induction false} CompletedNamesDispatch(ms: seq<MethodDecl>, input: string, x: string)
    requires x in SubCommandCompletions(ms, input)
    ensures FindSubCommand(ms, x).Some?
  {
    SubCommandNamesListed(ms, x);
    var j :| 0 <= j < |ms| && ms[j].subCommand.Some? && ms[j].subCommand.value.name == x;
    EqualsIgnoreCaseEquivalence(x, x, x);
    assert IsSubCommandNamed(ms[j], x);
  }

  /** Beyond the first token, completion depends only on the number of tokens and the last one. */
  lemma CompletionIgnoresEarlierTokens(ms: seq<MethodDecl>, a: seq<string>, b: seq<string>, players: seq<string>, items: seq<string>)
    requires |a| == |b| >= 2 && a[|a| - 1] == b[|b| - 1]
    ensures TabCompleteOptions(ms, a, players, items) == TabCompleteOptions(ms, b, players, items)
  {
    var index, input := |a| - 2, a[|a| - 1];
    var expected := match ChosenOption(ms, index)
      case None => []
      case Some(option) => ResolveOption(option, input, players, items);
    assert TabCompleteOptions(ms, a, players, items) == expected;
    assert TabCompleteOptions(ms, b, players, items) == expected;
  }

  /** The keywords are recognised ignoring case and filter the injected player and item names. */
  lemma KeywordsIgnoreCase(option: string, input: string, players: seq<string>, items: seq<string>)
    ensures Lower(option) == "@players" ==> ResolveOption(option, input, players, items) == FilterPrefix(players, input)
    ensures Lower(option) == "@items" ==> ResolveOption(option, input, players, items) == FilterPrefix(items, input)
    ensures Lower(option) != "@players" && Lower(option) != "@items" ==>
      ResolveOption(option, input, players, items) == FilterPrefix(Split(option, ','), input)
  {
  }

  /** A comma-separated option offers, among the matching ones, exactly its separator-free parts. */
  lemma {:induction false} ListOptionParts(option: string, input: string, x: string, players: seq<string>, items: seq<string>)
    requires Lower(option) != "@players" && Lower(option) != "@items"
    requires x in ResolveOption(option, input, players, items)
    ensures ',' !in x && StartsWithIgnoreCase(x, input)
    ensures x in Fields(option, ',')
  {
    var parts := Split(option, ',');
    assert x in parts;
    var k :| 0 <= k < |parts| && parts[k] == x;
    if ',' in option {
      assert parts <= Fields(option, ',');
      assert Fields(option, ',')[k] == x;
    } else {
      FieldsOfPlain(option, ',');
    }
  }

  /** "sword,shield" splits into its two names. */
  lemma SwordShieldParts()
    ensures Split("sword" + [','] + "shield", ',') == ["sword", "shield"]
  {
    SplitPair("sword", ',', "shield");
  }

  /** Of the two names only "sword" starts with "sw". */
  lemma SwordShieldFiltered()
    ensures FilterPrefix(["sword", "shield"], "sw") == ["sword"]
  {
  }

  /** The completion example of a "give" command: subcommand "item" offering "sword,shield". */
  lemma SwordExample()
    ensures TabCompleteOptions(
      [MethodDecl("item", true, true, Some(PlainSubCommand("item")), Some(["sword,shield"]))],
      ["item", "sw"], [], []) == ["sword"]
  {
    var ms := [MethodDecl("item", true, true, Some(PlainSubCommand("item")), Some(["sword,shield"]))];
    var option := "sword" + [','] + "shield";
    assert option == "sword,shield";
    assert FindTabComplete(ms, 0) == Some(0);
    assert Lower(option) != "@players" && Lower(option) != "@items" by {
      assert Lower(option)[0] == 's';
    }
    SwordShieldParts();
    SwordShieldFiltered();
  }
}
