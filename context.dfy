/**
 * The per-invocation context handed to command handlers (CommandContext.java) and the
 * command sender it wraps. The sender's received messages are recorded in an outbox.
 */
module Context {
  import opened Wrappers

  /** The colour marker written in message templates and the section sign the client reads as a colour code. */
  const Marker: char := '&'
  const Section: char := '§'

  /** "&cYou don't have permission to use this command." and the "§c…" text the sender receives. */
  const NoPermissionBody: string := "cYou don't " + "have permission " + "to use this command."
  const NoPermissionTemplate: string := [Marker] + NoPermissionBody
  const NoPermissionMessage: string := [Section] + NoPermissionBody

  /** "&cUsage: " and the "§cUsage: " the sender receives in front of the usage text. */
  const UsageBody: string := "cUsage: "
  const UsageTemplate: string := [Marker] + UsageBody
  const UsagePrefix: string := [Section] + UsageBody

  /** message.replace("&", "§"): every marker becomes a section sign, every other character stays. */
  function Translate(m: string): (r: string)
    ensures |r| == |m|
    ensures forall i :: 0 <= i < |m| ==> r[i] == (if m[i] == Marker then Section else m[i])
  {
    if m == [] then [] else [if m[0] == Marker then Section else m[0]] + Translate(m[1..])
  }

  /** A translated message holds no marker. */
  lemma TranslateRemovesMarker(m: string)
    ensures Marker !in Translate(m)
  {
  }

  /** A message without markers is delivered as written. */
  lemma TranslateKeepsPlain(m: string)
    requires Marker !in m
    ensures Translate(m) == m
  {
  }

  /** Translating an already translated message changes nothing. */
  lemma TranslateIdempotent(m: string)
    ensures Translate(Translate(m)) == Translate(m)
  {
  }

  /** Translation works character by character, so it distributes over concatenation. */
  lemma TranslateConcat(a: string, b: string)
    ensures Translate(a + b) == Translate(a) + Translate(b)
  {
  }

  /** Permission rule shared by the context and the dispatcher: an empty permission requires nothing. */
  predicate Allows(perms: set<string>, permission: string)
    ensures permission == [] ==> Allows(perms, permission)
    ensures permission != [] ==> (Allows(perms, permission) <==> permission in perms)
  {
    permission == [] || permission in perms
  }

  /** A Bukkit CommandSender: whether it is a player, the permissions it holds, the messages it received. */
  class Sender {
    const isPlayer: bool
    const perms: set<string>
    var outbox: seq<string>

    constructor (isPlayer: bool, perms: set<string>)
      ensures this.isPlayer == isPlayer && this.perms == perms && outbox == []
    {
      this.isPlayer := isPlayer;
      this.perms := perms;
      outbox := [];
    }

    /** The host's own permission check (CommandSender.hasPermission). */
    predicate HasPermission(permission: string) {
      permission in perms
    }

    /** CommandSender.sendMessage: the text is delivered as it is. */
    method SendMessage(text: string)
      modifies this
      ensures outbox == old(outbox) + [text]
    {
      outbox := outbox + [text];
    }
  }

  class CommandContext {
    const sender: Sender
    const args: seq<string>

    constructor (sender: Sender, args: seq<string>)
      ensures this.sender == sender && this.args == args
    {
      this.sender := sender;
      this.args := args;
    }

    /** The raw arguments, unchanged. */
    function GetArgs(): (r: seq<string>)
      ensures |r| == |args| && forall i :: 0 <= i < |r| ==> r[i] == args[i]
    {
      args
    }

    /** The argument at index, or None (Java's null) for any index outside the arguments; never fails. */
    function GetArg(index: int): (r: Option<string>)
      ensures r.Some? <==> 0 <= index < |args|
      ensures r.Some? ==> r.value == args[index]
    {
      if index < 0 || index >= |args| then None else Some(args[index])
    }

    function GetArgCount(): (n: nat)
      ensures n == |args|
      ensures forall i :: 0 <= i ==> (GetArg(i).Some? <==> i < n)
    {
      |args|
    }

    /** An empty permission is held by every sender; any other is decided by the sender. */
    predicate HasPermission(permission: string)
      ensures permission == [] ==> HasPermission(permission)
      ensures permission != [] ==> (HasPermission(permission) <==> sender.HasPermission(permission))
    {
      Allows(sender.perms, permission)
    }

    /** Delivers exactly one message: the given one with its colour markers translated. */
    method SendMessage(message: string)
      modifies sender
      ensures sender.outbox == old(sender.outbox) + [Translate(message)]
    {
      sender.SendMessage(Translate(message));
    }

    method SendNoPermissionMessage()
      modifies sender
      ensures sender.outbox == old(sender.outbox) + [NoPermissionMessage]
    {
      NoPermissionText();
      SendMessage(NoPermissionTemplate);
    }

    /** Sends "§cUsage: " followed by the usage text, whose own markers are translated too. */
    method SendUsageMessage(usage: string)
      modifies sender
      ensures sender.outbox == old(sender.outbox) + [UsagePrefix + Translate(usage)]
    {
      UsagePrefixText();
      TranslateConcat(UsageTemplate, usage);
      SendMessage(UsageTemplate + usage);
    }
  }

  /** A template that opens with the marker and has none after it gains a section sign in front. */
  lemma TranslateLeadingMarker(rest: string)
    requires Marker !in rest
    ensures Translate([Marker] + rest) == [Section] + rest
  {
  }

  /** The fixed no-permission template translates to the text the sender receives. */
  lemma NoPermissionText()
    ensures Translate(NoPermissionTemplate) == NoPermissionMessage
  {
  }

  lemma UsagePrefixText()
    ensures Translate(UsageTemplate) == UsagePrefix
  {
  }
}
