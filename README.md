# SANCF command routing, modelled in Dafny

SANCF is a small Bukkit framework: a plugin declares command classes carrying `@Command`
metadata, marks methods with `@SubCommand` and `@TabComplete`, and the framework registers one
Bukkit command per class. This project models the routing core of `CommandManager` and the
`CommandContext` handed to handlers:

- the two gates of `canExecute` (players-only commands, the command permission);
- subcommand dispatch: the first `@SubCommand` method, in reflection order, whose name equals `args[0]` ignoring case,
  its own permission, and the fallback to the root `execute(CommandContext)` handler or
  "Invalid command.";
- tab completion: subcommand names for the first token, and `@TabComplete` options
  (`@players`, `@items` or a comma-separated list) for later tokens;
- the context's bounds-safe argument access, the `&` to `§` colour translation, the
  "empty permission is allowed" rule and the fixed message templates.

Reflection is replaced by plain data. A command class is `CommandClass(info, methods)`: its
`@Command` fields and its declared methods, in the order `Class.getDeclaredMethods()` returns
them (the JVM fixes no particular order; the sequence stands for whatever order it gives), each with an optional
`@SubCommand` and an optional `@TabComplete`. A handler run is recorded as an `Outcome`
(`RunSubCommand(i, mode)` or `RunRoot(i, mode)`, with `mode` the `Sync`/`Async` choice of
`executeCommand`). The command sender is a `Sender` object whose `outbox` records every message
it is sent. Dispatch is proved against the specification function `Commands.Dispatch`, and the
loops of `executeSubCommand` and `getTabCompleteOptions` against `Commands.FirstWhere`.

Files: `wrappers.dfy` (Option), `ascii.dfy` (case folding), `java_text.dfy` (`String.split`),
`context.dfy` (`CommandContext`, the sender), `commands.dfy` (`CommandManager`).

Behaviour of the code that one might not expect, which the model follows:

- Completion beyond the first token never looks at `args[0]`. The first `@TabComplete` method, in
  reflection order, whose option array reaches position `|args| - 2` decides, whichever subcommand was typed.
- Of several subcommands with the same name ignoring case, the first one in reflection order wins.
- A subcommand runs under the root command's `async` flag; subcommands have no mode of their own.
- The code never reads aliases, so aliases are not modelled.

## Model

| member | source | states |
|---|---|---|
| `Commands.Execute` | src/main/java/dev/axis/base/CommandManager.java:47-62 | always returns true; the outcome is `Dispatch` of the sender's kind, permissions and args; the outbox gains exactly the outcome's messages |
| `Commands.CanExecute` | src/main/java/dev/axis/base/CommandManager.java:81-91 | passes exactly when `Gate` finds no denial; on failure sends exactly that one denial, on success sends nothing |
| `Commands.ConsoleGate` | src/main/java/dev/axis/base/CommandManager.java:48 | a non-player sender of a players-only command gets exactly "§cThis command can only be used by players."; no handler runs and the permission gate is not reached |
| `Commands.PermissionGate` | src/main/java/dev/axis/base/CommandManager.java:86-89 | past the console gate, a sender lacking a non-empty command permission gets exactly the no-permission message and no handler runs |
| `Commands.HandlersRunOnlyPastGates` | src/main/java/dev/axis/base/CommandManager.java:48 | a handler runs only if the sender passes the console gate and holds the command permission (or it is empty) |
| `Commands.OneEffect` | src/main/java/dev/axis/base/CommandManager.java:47-62 | every call either sends exactly one message and runs nothing, or runs exactly one handler and sends nothing |
| `Commands.ExecuteSubCommand` | src/main/java/dev/axis/base/CommandManager.java:93-108 | the loop reports handled exactly when some declared subcommand matches; the outcome and the one message sent are those of the first match |
| `Commands.FirstMatchWins` | src/main/java/dev/axis/base/CommandManager.java:94-103 | a subcommand that runs is the first one, in reflection order, whose name equals `args[0]` ignoring case, its permission is held, and it runs under the command's `async` flag |
| `Commands.MatchedSubCommandDecides` | src/main/java/dev/axis/base/CommandManager.java:98-103 | a matched subcommand runs if its permission is held and otherwise yields the subcommand denial; the root handler never runs |
| `Commands.RootFallback` | src/main/java/dev/axis/base/CommandManager.java:51-60 | with no args or no match, the root `execute` handler runs under the command's mode if declared, else exactly "§cInvalid command." is sent |
| `Commands.DispatchIgnoresCase` | src/main/java/dev/axis/base/CommandManager.java:97 | two argument lists whose first tokens are equal ignoring case dispatch to the same outcome |
| `Commands.GiveSpellings` | src/main/java/dev/axis/base/CommandManager.java:97 | "GIVE", "give" and "Give" dispatch alike for every command class |
| `Commands.FirstWhere` | src/main/java/dev/axis/base/CommandManager.java:94-107 | the result is the least index whose method passes the test, or None when none does |
| `Commands.GetExecuteMethod` | src/main/java/dev/axis/base/CommandManager.java:157-163 | found exactly when a public `execute(CommandContext)` is declared, and then names such a method |
| `Commands.Gate` | src/main/java/dev/axis/base/CommandManager.java:81-91 | no denial exactly when the sender is a player or the command allows the console, and the sender holds the command permission or it is empty; a console sender of a players-only command always gets the players-only text; any denial is one of the two fixed texts |
| `Commands.SubCommandStep` | src/main/java/dev/axis/base/CommandManager.java:93-108 | handled exactly when some subcommand name equals the token ignoring case; a run is of the first such method, whose permission is held, under the given mode; otherwise the subcommand denial, whose permission is not held |
| `Commands.Dispatch` | src/main/java/dev/axis/base/CommandManager.java:47-62 | a handler runs only past both gates; a subcommand run names a method matching `args[0]` whose permission is held; a root run names a public `execute(CommandContext)`; both run under the command's `async` flag; a denial is one of the three fixed texts; "Invalid command" only when no root handler is declared |
| `Commands.ModeOf` | src/main/java/dev/axis/base/CommandManager.java:173-179 | the handler is handed to the async worker exactly when the flag is set |
| `Commands.PlainSubCommand` | src/main/java/dev/axis/annotation/SubCommand.java:8-9 | a subcommand declared without a permission is allowed for every sender |
| `Commands.SubCommandNoPermissionText` | src/main/java/dev/axis/base/CommandManager.java:99 | the subcommand denial template is delivered as "§cYou don't have permission to use this subcommand." |
| `Commands.InvalidCommandText` | src/main/java/dev/axis/base/CommandManager.java:59 | the invalid-command template is delivered as "§cInvalid command." |
| `Commands.TabComplete` | src/main/java/dev/axis/base/CommandManager.java:64-72 | no args give no suggestions, one arg the subcommand-name completions, more args the `@TabComplete` options |
| `Commands.FilterPrefix` | src/main/java/dev/axis/base/CommandManager.java:114 | the result keeps the input's order, holds exactly the entries that start with the typed text ignoring case, and each of them as often as it occurs in the input |
| `Commands.SubCommandNames` | src/main/java/dev/axis/base/CommandManager.java:111-113 | no longer than the method list, and every listed name is the `@SubCommand` name of some declared method; `SubCommandNamesOne` and `SubCommandNamesAppend` pin the list down to one name per `@SubCommand` method in reflection order |
| `Commands.SubCommandNamesOne` | src/main/java/dev/axis/base/CommandManager.java:111-113 | a single method contributes its `@SubCommand` name, or nothing when it has none |
| `Commands.SubCommandNamesAppend` | src/main/java/dev/axis/base/CommandManager.java:111-113 | the names of two method lists put together are the first list's names followed by the second's, so the list holds one name per `@SubCommand` method in reflection order, repeats included |
| `Commands.SubCommandNamesListed` | src/main/java/dev/axis/base/CommandManager.java:111-113 | a name is listed exactly when some declared method carries `@SubCommand` with that name |
| `Commands.SubCommandCompletions` | src/main/java/dev/axis/base/CommandManager.java:110-116 | a subsequence of the subcommand names, holding every one and only those that start with the typed text ignoring case, each as often as it is declared |
| `Commands.CompletedNamesDispatch` | src/main/java/dev/axis/base/CommandManager.java:110-116 | every name offered for the first token is then found by subcommand dispatch |
| `Commands.OptionSource` | src/main/java/dev/axis/base/CommandManager.java:129-143 | an option equal to "@players" ignoring case gives the player names, one equal to "@items" ignoring case the item names, any other its comma split |
| `Commands.ResolveOption` | src/main/java/dev/axis/base/CommandManager.java:127-143 | the suggestions keep the source's order and are exactly its entries that start with the typed text ignoring case, repeated entries kept as often as they occur |
| `Commands.ChosenOption` | src/main/java/dev/axis/base/CommandManager.java:122-127 | None exactly when no `@TabComplete` method's options reach the position; otherwise the option at that position of the first method, in reflection order, whose options do |
| `Commands.TabCompleteOptions` | src/main/java/dev/axis/base/CommandManager.java:118-149 | every suggestion starts with the last token ignoring case; with no `@TabComplete` reaching position `|args| - 2` there are none; otherwise the first such method's option at that position decides, and the result keeps exactly the matching entries of that option's source, in order and with their repeats |
| `Commands.GetTabCompleteOptions` | src/main/java/dev/axis/base/CommandManager.java:118-149 | the loop returns the options of the first `@TabComplete` reaching the position, as `TabCompleteOptions` defines them |
| `Commands.CompletionIgnoresEarlierTokens` | src/main/java/dev/axis/base/CommandManager.java:119-120 | beyond the first token, suggestions depend only on the number of tokens and the last token, never on `args[0]` |
| `Commands.KeywordsIgnoreCase` | src/main/java/dev/axis/base/CommandManager.java:129-143 | "@players" and "@items" are recognised ignoring case and filter the player and item names; any other option filters its comma-separated parts |
| `Commands.ListOptionParts` | src/main/java/dev/axis/base/CommandManager.java:140-143 | a suggestion from a list option is comma-free, matches the typed text and is one of the option's fields |
| `Commands.SwordExample` | src/main/java/dev/axis/base/CommandManager.java:118-149 | subcommand "item" with options "sword,shield" and args ["item", "sw"] completes to ["sword"] |
| `JavaText.Split` | src/main/java/dev/axis/base/CommandManager.java:141 | parts hold no comma; without a comma the option itself, otherwise a prefix of its fields ending in a non-empty one, only empty fields dropped |
| `JavaText.Fields` | src/main/java/dev/axis/base/CommandManager.java:141 | at least one field, none containing the separator |
| `JavaText.DropTrailingEmpty` | src/main/java/dev/axis/base/CommandManager.java:141 | a prefix of the fields ending in a non-empty one; everything removed is empty |
| `JavaText.JoinFields` | src/main/java/dev/axis/base/CommandManager.java:141 | joining the fields with the separator gives back the string |
| `JavaText.FieldsJoin` | src/main/java/dev/axis/base/CommandManager.java:141 | cutting separator-free fields joined by the separator gives back those fields |
| `JavaText.FieldsAfterFirst` | src/main/java/dev/axis/base/CommandManager.java:141 | a separator-free first field is the first field of the split |
| `JavaText.FieldsOfPlain` | src/main/java/dev/axis/base/CommandManager.java:141 | a string without the separator is one field |
| `JavaText.SplitPair` | src/main/java/dev/axis/base/CommandManager.java:141 | two separator-free names, the second non-empty, joined by the separator split into those two |
| `Ascii.LowerChar` | src/main/java/dev/axis/base/CommandManager.java:114 | the result is never an upper-case letter; upper-case letters move 32 code points up ('A' to 'a'), all else is kept |
| `Ascii.Lower` | src/main/java/dev/axis/base/CommandManager.java:114 | same length, each character lower-cased in place |
| `Ascii.EqualsIgnoreCase` | src/main/java/dev/axis/base/CommandManager.java:97 | equal strings match, and matching strings have the same length |
| `Ascii.StartsWithIgnoreCase` | src/main/java/dev/axis/base/CommandManager.java:114 | holds exactly when the string is at least as long as the prefix and its first characters equal the prefix ignoring case |
| `Ascii.EqualsIgnoreCaseIffLower` | src/main/java/dev/axis/base/CommandManager.java:97 | equalsIgnoreCase holds exactly when the lower-cased strings are equal |
| `Ascii.EqualsIgnoreCaseEquivalence` | src/main/java/dev/axis/base/CommandManager.java:97 | equalsIgnoreCase is reflexive, symmetric and transitive |
| `Context.CommandContext.constructor` | src/main/java/dev/axis/base/CommandContext.java:10-13 | the context keeps the sender and the arguments it was given |
| `Context.CommandContext.GetArgs` | src/main/java/dev/axis/base/CommandContext.java:19-21 | the arguments are returned unchanged |
| `Context.CommandContext.GetArg` | src/main/java/dev/axis/base/CommandContext.java:23-28 | `args[i]` exactly when `0 <= i < |args|`, None otherwise; defined for every index |
| `Context.CommandContext.GetArgCount` | src/main/java/dev/axis/base/CommandContext.java:30-32 | equals the number of arguments, the indexes at which `GetArg` finds one |
| `Context.CommandContext.SendMessage` | src/main/java/dev/axis/base/CommandContext.java:34-36 | the sender receives exactly one message, the given one translated |
| `Context.Translate` | src/main/java/dev/axis/base/CommandContext.java:35 | same length; every `&` becomes `§`, every other character is kept |
| `Context.TranslateRemovesMarker` | src/main/java/dev/axis/base/CommandContext.java:35 | a translated message contains no `&` |
| `Context.TranslateKeepsPlain` | src/main/java/dev/axis/base/CommandContext.java:35 | a message without `&` is delivered as written |
| `Context.TranslateIdempotent` | src/main/java/dev/axis/base/CommandContext.java:35 | translating a translated message changes nothing |
| `Context.TranslateConcat` | src/main/java/dev/axis/base/CommandContext.java:47 | translation distributes over concatenation, so a template and its argument translate separately |
| `Context.TranslateLeadingMarker` | src/main/java/dev/axis/base/CommandContext.java:42-48 | a template that starts with `&` and has none after it is delivered with `§` in front |
| `Context.Allows` | src/main/java/dev/axis/base/CommandContext.java:39 | an empty permission is allowed for every permission set; any other exactly when the set holds it |
| `Context.CommandContext.HasPermission` | src/main/java/dev/axis/base/CommandContext.java:38-40 | an empty permission is held by every sender; any other exactly when the sender holds it |
| `Context.NoPermissionText` | src/main/java/dev/axis/base/CommandContext.java:42-44 | the no-permission template is delivered as "§cYou don't have permission to use this command." |
| `Context.UsagePrefixText` | src/main/java/dev/axis/base/CommandContext.java:46-48 | the usage template is delivered as "§cUsage: " |
| `Context.CommandContext.SendNoPermissionMessage` | src/main/java/dev/axis/base/CommandContext.java:42-44 | the sender receives exactly "§cYou don't have permission to use this command." |
| `Context.CommandContext.SendUsageMessage` | src/main/java/dev/axis/base/CommandContext.java:46-48 | the sender receives exactly "§cUsage: " followed by the usage text with its `&` translated |
| `Context.Sender.SendMessage` | src/main/java/dev/axis/base/CommandManager.java:83 | the sender's outbox gains exactly the text, unchanged |

## Left out

- Discovery and binding (`registerCommands`, `getCommandMap`, the body of `registerCommand`, the static `commands` map, `setCommandProperties`): host reflection and I/O. A command class is given as data instead.
- The thread hand-off in `executeCommand`: concurrency through the Bukkit scheduler. Only the `Sync`/`Async` choice is recorded. The async task is scheduled under `getPlugins()[0]`, which can be any plugin, outside `invokeMethod`'s `try`; `Commands.Execute`'s `ensures handled` assumes that hand-off does not throw (if the scheduler rejects the task, for example because that plugin is disabled, the exception escapes `execute`).
- `invokeMethod`: a reflective call whose exceptions are logged and swallowed. A run is recorded in the outcome; what a handler itself sends or changes is not modelled.
- `Bukkit.getOnlinePlayers()` and `Material.values()`: external enumerators, passed in as the `players` and `items` name sequences.
- The `label` and `alias` parameters of `execute` and `tabComplete`: the code never reads them.
- `getSender`: a plain accessor, modelled as the `sender` field.
- `Context.Sender.HasPermission`: Bukkit's own permission resolution (operators, defaults, attachments) is external and is modelled as membership in the sender's permission set.
- `Commands.GetExecuteMethod`: only the class's declared methods are searched; `getMethod` would also find a public `execute(CommandContext)` inherited from a superclass.
- `Ascii.Lower`: Unicode case mapping is not modelled; characters outside ASCII are left unchanged. The source's `toLowerCase()` uses the default locale; the model assumes a locale-neutral fold (under a Turkish locale `I` lower-cases to a dotless ı, so "@ITEMS" would not be recognised as a keyword).
- Method order: `Class.getDeclaredMethods()` returns methods in no order the JVM fixes. The model's method sequence stands for the order it does return, and the first-match results (subcommand lookup, the `@TabComplete` choice, `getExecuteMethod`) hold for whatever that order is.
- `SANCF.java`: a static plugin holder with a null check; its `register` calls a two-argument `registerCommand` that `CommandManager` does not declare, and it has no routing logic.
