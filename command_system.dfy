/**
 * The slash-command layer of the chat (class CommandSystem): recognising a command, splitting
 * it into a lower-cased name and its arguments, dispatching it to the handler registered for
 * that name, and the `/roll` handler that ties the dice engine to the active character.
 *
 * Handlers other than `/roll` read and write the campaign database; here they are a parameter
 * `others`, and only the dispatch around them is modelled. The Flask session (active session
 * and character ids) and the character row read from the database are inputs (RollContext).
 */
module CommandSystem {
  import opened Wrappers
  import opened Ascii
  import opened Faces
  import opened IntelligentDice

  /** A handler's dict: an 'error' entry, or a message (with 'success' and, for a roll, 'roll_result'). */
  datatype Response =
    | ErrorReply(error: string)
    | Reply(success: bool, message: string, roll: Option<DiceRoll>)

  /** A handler either returns its dict or raises an exception with this text (`str(e)`). */
  datatype HandlerOutcome = Returned(response: Response) | Raised(text: string)

  /** `execute_command`'s result; Uncaught is the IndexError that `parse_command` raises for a lone "/". */
  datatype Execution = Responded(response: Response) | Uncaught

  /** What `parse_command` returns: (None, None), a (command, args) pair, or it raises. */
  datatype ParsedCommand = NotCommand | Command(name: string, args: string) | Crash

  /** The names the constructor registers in `self.commands`. */
  const KnownCommands: set<string> := {"campaign", "session", "npc", "location", "item", "roll", "help"}

  /** `is_command`: the stripped message starts with '/', that is, its first non-space character is '/'. */
  function IsCommand(message: string): (b: bool)
    ensures b <==> exists k :: 0 <= k < |message| && message[k] == '/' && forall j :: 0 <= j < k ==> IsSpace(message[j])
  {
    StripFirst(message);
    var m := Strip(message);
    |m| > 0 && m[0] == '/'
  }

  /**
   * `parse_command`: the stripped message without its '/' is split once on whitespace; the
   * first word, lower-cased, is the command and the rest ('' if none) the arguments. A message
   * that strips to "/" leaves nothing to split, and `parts[0]` raises.
   */
  function ParseCommand(message: string): (p: ParsedCommand)
    ensures p.NotCommand? <==> !IsCommand(message)
    ensures p.Crash? <==> Strip(message) == "/"
    ensures p.Command? ==> p.name != "" && p.name == Lower(p.name)
    ensures p.Command? ==> forall k :: 0 <= k < |p.name| ==> !IsSpace(p.name[k])
    ensures p.Command? ==> p.args == "" || (!IsSpace(p.args[0]) && !IsSpace(p.args[|p.args| - 1]))
    ensures p.Command? ==>
              var parts := SplitOnce(Strip(message)[1..]);
              parts.Parts? && p.name == Lower(parts.first) && p.args == parts.rest
  {
    var m := Strip(message);
    if |m| == 0 || m[0] != '/' then NotCommand else SplitCommand(m)
  }

  /** The split of a stripped message that starts with '/'. */
  function SplitCommand(m: string): (p: ParsedCommand)
    requires |m| > 0 && m[0] == '/' && !IsSpace(m[|m| - 1])
    ensures !p.NotCommand?
    ensures p.Crash? <==> |m| == 1
    ensures p.Command? ==> p.name != "" && p.name == Lower(p.name)
    ensures p.Command? ==> forall k :: 0 <= k < |p.name| ==> !IsSpace(p.name[k])
    ensures p.Command? ==> p.args == "" || (!IsSpace(p.args[0]) && !IsSpace(p.args[|p.args| - 1]))
    ensures p.Command? ==>
              var parts := SplitOnce(m[1..]);
              parts.Parts? && p.name == Lower(parts.first) && p.args == parts.rest
  {
    SplitAfterSlash(m);
    RestEndsStripped(m);
    match SplitOnce(m[1..])
    case NoParts =>
      Crash
    case Parts(first, rest) =>
      CommandWord(first);
      Command(Lower(first), rest)
  }

  /**
   * A command written as '/', a word, a space and stripped arguments is read back as that word,
   * lower-cased, and those arguments; with no arguments the trailing space is stripped away.
   */
  lemma ParseWrittenCommand(name: string, args: string)
    requires name != [] && forall k :: 0 <= k < |name| ==> !IsSpace(name[k])
    requires args == [] || (!IsSpace(args[0]) && !IsSpace(args[|args| - 1]))
    ensures ParseCommand("/" + name + " " + args) == Command(Lower(name), args)
  {
    var m := "/" + name + " " + args;
    if args == [] {
      assert m == ("/" + name) + " ";
      StripTrailingSpace("/" + name);
      assert ("/" + name)[1..] == name;
      SplitOnceOfWord(name);
    } else {
      assert m == "/" + (name + " " + args);
      StripUnpadded(m);
      assert m[1..] == name + " " + args;
      SplitOnceOfWords(name, args);
    }
  }

  /** The first word, lower-cased: still non-empty, free of whitespace, and lower-case. */
  lemma CommandWord(first: string)
    requires first != [] && forall k :: 0 <= k < |first| ==> !IsSpace(first[k])
    ensures var n := Lower(first); n != "" && n == Lower(n) && forall k :: 0 <= k < |n| ==> !IsSpace(n[k])
  {
    var n := Lower(first);
    assert forall k :: 0 <= k < |n| ==> Lower(n)[k] == n[k] && !IsSpace(n[k]);
  }

  /** After the '/' of a stripped command something is left to split unless the command is "/" alone. */
  lemma SplitAfterSlash(m: string)
    requires |m| > 0 && m[0] == '/' && !IsSpace(m[|m| - 1])
    ensures SplitOnce(m[1..]).NoParts? <==> |m| == 1
  {
    if |m| > 1 {
      assert m[1..][|m| - 2] == m[|m| - 1];
    }
  }

  /** What follows the command's first word ends where the stripped message does. */
  lemma RestEndsStripped(m: string)
    requires |m| > 0 && !IsSpace(m[|m| - 1])
    ensures var r := SplitOnce(m[1..]); r.Parts? ==> r.rest == [] || !IsSpace(r.rest[|r.rest| - 1])
  {
    var t := m[1..];
    var r := SplitOnce(t);
    if r.Parts? && r.rest != [] {
      assert r.rest[|r.rest| - 1] == t[|t| - 1] == m[|m| - 1];
    }
  }

  const InvalidFormatError: string := "Invalid command format"

  function UnknownCommandError(name: string): string {
    "Unknown command: /" + name + ". Type /help for available commands."
  }

  function HandlerError(text: string): string {
    "Error executing command: " + text
  }

  /** The `try`/`except` around the handler: a raised exception becomes an error reply with its text. */
  function Caught(outcome: HandlerOutcome): (r: Response)
    ensures outcome.Returned? ==> r == outcome.response
    ensures outcome.Raised? ==> r == ErrorReply(HandlerError(outcome.text))
  {
    match outcome
    case Returned(r) => r
    case Raised(text) => ErrorReply(HandlerError(text))
  }

  /**
   * `execute_command` with the registered handlers given as `handler(name, args)`: a message
   * that is not a command is an invalid format, an unregistered name is unknown, and an
   * exception a handler raises becomes an error reply; the lone "/" escapes uncaught.
   */
  function Execute(message: string, handler: (string, string) -> HandlerOutcome): (e: Execution)
    ensures e.Uncaught? <==> Strip(message) == "/"
    ensures !IsCommand(message) ==> e == Responded(ErrorReply(InvalidFormatError))
    ensures ParseCommand(message).Command? && ParseCommand(message).name !in KnownCommands ==>
              e == Responded(ErrorReply(UnknownCommandError(ParseCommand(message).name)))
    ensures ParseCommand(message).Command? && ParseCommand(message).name in KnownCommands ==>
              e == Responded(Caught(handler(ParseCommand(message).name, ParseCommand(message).args)))
  {
    match ParseCommand(message)
    case Crash => Uncaught
    case NotCommand => Responded(ErrorReply(InvalidFormatError))
    case Command(name, args) =>
      if name !in KnownCommands then Responded(ErrorReply(UnknownCommandError(name)))
      else Responded(Caught(handler(name, args)))
  }

  /** Only registered names reach a handler: two handler sets that agree on them execute every message alike. */
  lemma OnlyKnownCommandsReachHandlers(message: string, h1: (string, string) -> HandlerOutcome,
                                       h2: (string, string) -> HandlerOutcome)
    requires forall name, args :: name in KnownCommands ==> h1(name, args) == h2(name, args)
    ensures Execute(message, h1) == Execute(message, h2)
  {
  }

  // ---------------------------------------------------------------------------------------
  // `/roll` as written

  /**
   * command_system.py never imports the engine object `intelligent_dice`, so the first use of
   * it in `handle_roll_command` raises NameError with this text.
   */
  const MissingEngineError: string := "name 'intelligent_dice' is not defined"

  /** The registered handlers as written: `/roll` raises before it reads anything. */
  function AsWrittenHandlers(others: (string, string) -> HandlerOutcome): (string, string) -> HandlerOutcome {
    (name: string, args: string) => if name == "roll" then Raised(MissingEngineError) else others(name, args)
  }

  /** As written, every `/roll` command, whatever its arguments, answers with the NameError. */
  lemma AsWrittenRollAlwaysFails(message: string, others: (string, string) -> HandlerOutcome)
    requires ParseCommand(message).Command? && ParseCommand(message).name == "roll"
    ensures Execute(message, AsWrittenHandlers(others)) == Responded(ErrorReply(HandlerError(MissingEngineError)))
  {
    assert "roll" in KnownCommands;
  }

  // ---------------------------------------------------------------------------------------
  // `/roll` with the engine in scope

  /**
   * What `handle_roll_command` reads besides its arguments: the active session id, the active
   * character id, the row the database returns for it, and the dice stream.
   */
  datatype RollContext = RollContext(activeSession: Option<string>, characterId: Option<int>,
                                     row: Option<CharacterRow>, die: nat -> Face)

  const NoCharacterError: string := "No active character. Please create or link a character first."
  const CharacterNotFoundError: string := "Character not found."
  const NoSuggestionError: string :=
    "No previous roll suggestion found. Please specify what to roll (e.g., /roll Intelligence + Auspex)"

  function EmptyPoolError(description: string): string {
    "Cannot roll " + description + ". Dice pool is 0."
  }

  /** `get_active_session_id() or 'default'` */
  function SessionKey(ctx: RollContext): string {
    if Given(ctx.activeSession) then ctx.activeSession.value else "default"
  }

  /** `session.get('active_character_id')` is truthy. */
  predicate HasCharacter(ctx: RollContext) {
    ctx.characterId.Some? && ctx.characterId.value != 0
  }

  /** The reply of a roll: the pool line, then the engine's message. */
  function RollText(description: string, pool: int, hunger: int, r: DiceRoll): string {
    "🎲 **Rolling " + description + "**\n" +
    "Pool: " + IntToString(pool) + " dice | Hunger: " + IntToString(hunger) + "\n\n" + MessageOf(r)
  }

  /** The handler's reply and the suggestion cache after it. */
  datatype RollStep = RollStep(response: Response, entries: map<string, RollSpec>)

  /** Which roll is made: the explicit one, or the session's last suggestion (surge merged into it). */
  function RollDataFor(entries: map<string, RollSpec>, key: string, params: RollCommand): (d: Option<RollSpec>)
    ensures d.None? <==> params.useLastSuggested && key !in entries
    ensures d.Some? && !params.useLastSuggested ==> d.value == params.spec
    ensures d.Some? && params.useLastSuggested ==>
              d.value == entries[key].(bloodSurge := entries[key].bloodSurge || params.spec.bloodSurge)
  {
    if !params.useLastSuggested then Some(params.spec)
    else
      match Get(entries, key)
      case None => None
      case Some(last) => Some(if params.spec.bloodSurge then last.(bloodSurge := true) else last)
  }

  /** The cache after a roll: a surge asked for on a repeated roll is written into the cached suggestion. */
  function CacheAfter(entries: map<string, RollSpec>, key: string, params: RollCommand): (after: map<string, RollSpec>)
    ensures after.Keys == entries.Keys
    ensures forall k :: k in entries && k != key ==> after[k] == entries[k]
    ensures key in entries ==> after[key] == entries[key] || after[key] == entries[key].(bloodSurge := true)
    ensures key in entries && params.useLastSuggested ==>
              after[key] == RollDataFor(entries, key, params).value
    ensures !(params.useLastSuggested && params.spec.bloodSurge) ==> after == entries
  {
    if params.useLastSuggested && params.spec.bloodSurge && key in entries then
      entries[key := entries[key].(bloodSurge := true)]
    else entries
  }

  /**
   * `handle_roll_command` with the engine in scope. The suggestion dict is shared with the
   * cache, so merging a surge into it changes the cached suggestion too.
   */
  function RollStepOf(entries: map<string, RollSpec>, ctx: RollContext, args: string): (s: RollStep)
    ensures !HasCharacter(ctx) ==> s == RollStep(ErrorReply(NoCharacterError), entries)
    ensures HasCharacter(ctx) && ctx.row.None? ==> s == RollStep(ErrorReply(CharacterNotFoundError), entries)
    ensures s.entries.Keys == entries.Keys
    ensures forall k :: k in entries && k != SessionKey(ctx) ==> s.entries[k] == entries[k]
    ensures SessionKey(ctx) in entries ==>
              s.entries[SessionKey(ctx)] == entries[SessionKey(ctx)] ||
              s.entries[SessionKey(ctx)] == entries[SessionKey(ctx)].(bloodSurge := true)
    ensures s.response.Reply? ==> s.response.success && s.response.roll.Some?
  {
    var key := SessionKey(ctx);
    var params := ParsedRoll("/roll " + args);
    if !HasCharacter(ctx) then RollStep(ErrorReply(NoCharacterError), entries)
    else if ctx.row.None? then RollStep(ErrorReply(CharacterNotFoundError), entries)
    else
      var ch := ctx.row.value;
      match RollDataFor(entries, key, params)
      case None => RollStep(ErrorReply(NoSuggestionError), entries)
      case Some(data) =>
        var after := CacheAfter(entries, key, params);
        var pool := CalculateDicePool(ch, data);
        if pool.size == 0 then RollStep(ErrorReply(EmptyPoolError(pool.description)), after)
        else
          var hunger := Get(ch.columns, "hunger").GetOr(0);
          var r := RollDice(pool.size, hunger, 0, ctx.die);
          RollStep(Reply(true, RollText(pool.description, pool.size, hunger, r), Some(r)), after)
  }

  /** A roll that is made is the engine's roll of the computed pool, with the character's Hunger and no difficulty. */
  lemma RollUsesPoolAndHunger(entries: map<string, RollSpec>, ctx: RollContext, args: string)
    requires RollStepOf(entries, ctx, args).response.Reply?
    ensures ctx.row.Some?
    ensures var params := ParsedRoll("/roll " + args);
            var data := RollDataFor(entries, SessionKey(ctx), params);
            var pool := CalculateDicePool(ctx.row.value, data.value);
            data.Some? && pool.size != 0 &&
            RollStepOf(entries, ctx, args).response.roll ==
              Some(RollDice(pool.size, Get(ctx.row.value.columns, "hunger").GetOr(0), 0, ctx.die))
  {
  }

  /**
   * A negative pool is not refused (only 0 is): it reaches the engine, whose early return
   * reports "Dice pool is 0 or negative" inside a successful reply.
   */
  lemma NegativePoolIsReportedAsRoll(entries: map<string, RollSpec>, ctx: RollContext, args: string)
    requires HasCharacter(ctx) && ctx.row.Some?
    requires var data := RollDataFor(entries, SessionKey(ctx), ParsedRoll("/roll " + args));
             data.Some? && CalculateDicePool(ctx.row.value, data.value).size < 0
    ensures var s := RollStepOf(entries, ctx, args);
            s.response.Reply? && s.response.success && s.response.roll == Some(PoolTooSmall)
  {
  }

  /**
   * Surges stick: once "/roll + blood surge" has repeated a suggestion, the cached suggestion
   * carries the surge, so a later plain "/roll" in the same session surges again.
   */
  lemma SurgeSticksToSuggestion(entries: map<string, RollSpec>, ctx: RollContext, args1: string, args2: string)
    requires HasCharacter(ctx) && ctx.row.Some? && SessionKey(ctx) in entries
    requires ParsedRoll("/roll " + args1).useLastSuggested && ParsedRoll("/roll " + args1).spec.bloodSurge
    requires ParsedRoll("/roll " + args2).useLastSuggested
    ensures var after := RollStepOf(entries, ctx, args1).entries;
            after[SessionKey(ctx)].bloodSurge &&
            RollDataFor(after, SessionKey(ctx), ParsedRoll("/roll " + args2)).value.bloodSurge
  {
  }

  /** The registered handlers with the engine in scope; `/roll` answers from the cache state `entries`. */
  function CorrectedHandlers(entries: map<string, RollSpec>, ctx: RollContext,
                             others: (string, string) -> HandlerOutcome): (string, string) -> HandlerOutcome {
    (name: string, args: string) =>
      if name == "roll" then Returned(RollStepOf(entries, ctx, args).response) else others(name, args)
  }

  /** The cache after executing `message`: only a dispatched `/roll` can change it. */
  function EntriesAfter(entries: map<string, RollSpec>, ctx: RollContext, message: string): map<string, RollSpec> {
    match ParseCommand(message)
    case Command(name, args) => if name == "roll" then RollStepOf(entries, ctx, args).entries else entries
    case _ => entries
  }

  /** The command layer with its one piece of state, the engine's suggestion cache. */
  class CommandRunner {
    const cache: SuggestionCache

    constructor(cache: SuggestionCache)
      ensures this.cache == cache
    {
      this.cache := cache;
    }

    /**
     * `handle_roll_command`: the reply of RollStepOf, and the cached suggestion of the session
     * updated in place when a surge is merged into it.
     */
    method HandleRollCommand(ctx: RollContext, args: string) returns (r: Response)
      modifies cache
      ensures r == RollStepOf(old(cache.entries), ctx, args).response
      ensures cache.entries == RollStepOf(old(cache.entries), ctx, args).entries
    {
      var key := SessionKey(ctx);
      var params := ParseRollCommand("/roll " + args);
      if !HasCharacter(ctx) {
        return ErrorReply(NoCharacterError);
      }
      if ctx.row.None? {
        return ErrorReply(CharacterNotFoundError);
      }
      var ch := ctx.row.value;
      var data: RollSpec;
      if params.useLastSuggested {
        var last := cache.Lookup(key);
        if last.None? {
          return ErrorReply(NoSuggestionError);
        }
        data := last.value;
        if params.spec.bloodSurge {
          data := data.(bloodSurge := true);
          cache.Store(key, data);
        }
      } else {
        data := params.spec;
      }
      var pool := CalculateDicePool(ch, data);
      if pool.size == 0 {
        return ErrorReply(EmptyPoolError(pool.description));
      }
      var hunger := Get(ch.columns, "hunger").GetOr(0);
      var roll := RollDice(pool.size, hunger, 0, ctx.die);
      r := Reply(true, RollText(pool.description, pool.size, hunger, roll), Some(roll));
    }

    /** `execute_command` with every registered handler; `/roll` goes to HandleRollCommand. */
    method ExecuteCommand(ctx: RollContext, message: string, others: (string, string) -> HandlerOutcome)
      returns (e: Execution)
      modifies cache
      ensures e == Execute(message, CorrectedHandlers(old(cache.entries), ctx, others))
      ensures cache.entries == EntriesAfter(old(cache.entries), ctx, message)
    {
      var parsed := ParseCommand(message);
      match parsed {
        case Crash =>
          e := Uncaught;
        case NotCommand =>
          e := Responded(ErrorReply(InvalidFormatError));
        case Command(name, args) =>
          if name !in KnownCommands {
            e := Responded(ErrorReply(UnknownCommandError(name)));
          } else if name == "roll" {
            var r := HandleRollCommand(ctx, args);
            e := Responded(r);
          } else {
            e := Responded(Caught(others(name, args)));
          }
      }
    }
  }
}
