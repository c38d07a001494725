/**
 * One conversation's chat session (`processors/GeneralChatMessageProcessor.js`):
 * the pure string helpers, the session value with one step function per
 * command, and the `Processor` class whose methods update the session in place
 * and are proved to follow those step functions.
 */
module GeneralChat {
  import opened Wrappers
  import opened JsString
  import FixedSizeQueue

  // ---------------------------------------------------------------------------
  // Data

  /** One `{role, content}` entry of a chat-completion request. */
  datatype Turn = Turn(role: string, content: string)

  const SystemRole: string := "system"
  const UserRole: string := "user"

  /** The sender of a message. */
  datatype Contact = Contact(id: string, name: string)

  /** An inbound message as the platform presents it: its text, its date, whether
      the bot wrote it, the group it was posted in (if any), its sender, and the
      platform's own answer to "does this message mention the bot". */
  datatype Message = Message(text: string, date: int, isSelf: bool, room: Option<string>,
                             talker: Contact, mentionsSelf: bool)

  /** Where a reply goes: into the group, mentioning the sender, or to the sender directly. */
  datatype Destination = InRoom(room: string, mention: Contact) | Direct(talker: Contact)

  /** One outgoing `say`. */
  datatype Outbound = Outbound(to: Destination, body: string)

  /** One element of `response.data.choices`; its `message` may be missing. */
  datatype Choice = Choice(message: Option<Turn>)

  /** What `createChatCompletion` does with a request: throw (its error's text) or answer. */
  datatype BackendResponse = BackendError(description: string) | Completion(choices: seq<Choice>)

  /** The texts of the TypeErrors thrown when the answer has no first choice,
      or the first choice has no message (V8's wording). */
  const NoChoiceError: string := "TypeError: Cannot read properties of undefined (reading 'message')"
  const NoMessageError: string := "TypeError: Cannot read properties of undefined (reading 'role')"

  /** The marker a custom system prompt carries. */
  const SystemMarker: string := "!!!SYSTEM!!!"

  /** The fixed reply texts. */
  const ErrorHeader: string := "遇到未知错误，请检查是否文本过长，或重试一次！\n> 错误信息：\n"
  const SystemResetHeader: string := "已经重置系统提示。现在的系统提示为：\n"
  const SystemSetHeader: string := "已经成功设置系统提示。现在的系统提示为：\n"
  const HistoryResetText: string := "已经重置会话历史。我已经忘记了我们之前的对话。现在可以重新开始向我提问了。"

  // ---------------------------------------------------------------------------
  // String helpers

  /** `format_exc`: the error text quoted, "> " in front of every line. */
  function FormatExc(error: string): string
  {
    "> " + ReplaceAll(error, "\n", "\n> ")
  }

  /** Every line with "> " in front. */
  function QuoteLines(lines: seq<string>): seq<string>
  {
    seq(|lines|, k requires 0 <= k < |lines| => "> " + lines[k])
  }

  /** A line with its leading "> " removed (if it has one). */
  function Unquote(line: string): string
  {
    if |line| >= 2 && line[..2] == "> " then line[2..] else line
  }

  /** Every line with its leading "> " removed. */
  function UnquoteLines(lines: seq<string>): seq<string>
  {
    seq(|lines|, k requires 0 <= k < |lines| => Unquote(lines[k]))
  }

  lemma {:induction false} SplitOfQuotedJoin(lines: seq<string>)
    requires |lines| >= 1
    requires forall k :: 0 <= k < |lines| ==> '\n' !in lines[k]
    ensures Split("> " + Join(lines, "\n> "), "\n") == QuoteLines(lines)
    decreases |lines|
  {
    if |lines| == 1 {
      SplitWithoutSeparator("> " + lines[0], '\n');
    } else {
      var rest := lines[1..];
      assert "> " + Join(lines, "\n> ") == ("> " + lines[0]) + ['\n'] + ("> " + Join(rest, "\n> "));
      SplitAtFirstSeparator("> " + lines[0], '\n', "> " + Join(rest, "\n> "));
      SplitOfQuotedJoin(rest);
    }
  }

  /** The lines of `format_exc(e)` are the lines of e, each with "> " in front. */
  lemma FormatExcLines(error: string)
    ensures Split(FormatExc(error), "\n") == QuoteLines(Split(error, "\n"))
  {
    ReplaceAllIsJoinOfSplit(error, "\n", "\n> ");
    SplitPiecesLackSeparator(error, '\n');
    SplitOfQuotedJoin(Split(error, "\n"));
  }

  /** Every line of `format_exc(e)` starts with "> ", and removing that prefix
      from each line and joining them again gives back e. */
  lemma FormatExcRoundTrip(error: string)
    ensures forall k :: 0 <= k < |Split(FormatExc(error), "\n")| ==> |Split(FormatExc(error), "\n")[k]| >= 2 && Split(FormatExc(error), "\n")[k][..2] == "> "
    ensures Join(UnquoteLines(Split(FormatExc(error), "\n")), "\n") == error
  {
    FormatExcLines(error);
    var lines := Split(error, "\n");
    var quoted := Split(FormatExc(error), "\n");
    forall k | 0 <= k < |quoted| ensures |quoted[k]| >= 2 && quoted[k][..2] == "> " && Unquote(quoted[k]) == lines[k] {
      assert quoted[k] == "> " + lines[k];
    }
    assert UnquoteLines(quoted) == lines;
    JoinSplit(error, "\n");
  }

  /** `build_bot_reply(name, request, reply)`: a line break, then the reply;
      the sender's name and the request text play no part. */
  function BuildBotReply(name: string, request: string, reply: string): (r: string)
    ensures |r| == |reply| + 1 && r[0] == '\n' && r[1..] == reply
  {
    "\n" + reply
  }

  /** `bot_user_name` is truthy: known and not the empty string. */
  predicate NameKnown(botUserName: Option<string>)
  {
    botUserName.Some? && botUserName.value != ""
  }

  /** The at-mention of the bot by its display name. */
  function Mention(name: string): (r: string)
    ensures |r| > 0 && r[0] == '@' && r[1..] == name
  {
    "@" + name
  }

  /** The input text `process` and `system` work on: every at-mention of the bot
      removed when its name is known, then trimmed. */
  function InputText(raw: string, botUserName: Option<string>): (r: string)
    ensures Trimmed(r)
    ensures !NameKnown(botUserName) ==> r == Trim(raw)
  {
    if NameKnown(botUserName) then Trim(ReplaceAll(raw, Mention(botUserName.value), "")) else Trim(raw)
  }

  /** With a known name, the input text is the trimmed concatenation of the pieces
      of the raw text between its at-mentions: the pieces joined by the mention give
      back the raw text, and no piece holds the mention. */
  lemma InputTextRemovesMentions(raw: string, name: string)
    requires name != ""
    ensures var pieces := Split(raw, Mention(name));
      && Join(pieces, Mention(name)) == raw
      && (forall k :: 0 <= k < |pieces| ==> !Contains(pieces[k], Mention(name)))
      && InputText(raw, Some(name)) == Trim(Join(pieces, ""))
  {
    JoinSplit(raw, Mention(name));
    SplitPiecesFree(raw, Mention(name));
    ReplaceAllIsJoinOfSplit(raw, Mention(name), "");
  }

  /** Removal is one left-to-right pass: removing a mention can bring a new one
      together, so `@@bobbob` with the bot named `bob` becomes `@bob`. */
  lemma InputTextCanKeepMention(name: string)
    requires name != "" && name[0] != '@' && !IsWhitespace(name[|name| - 1])
    ensures InputText("@" + Mention(name) + name, Some(name)) == Mention(name)
  {
    var m := Mention(name);
    var s := "@" + m + name;
    MentionRejoined(name);
    TrimUnique(m, 0, m);
  }

  /** The removal step of InputTextCanKeepMention. */
  lemma MentionRejoined(name: string)
    requires name != "" && name[0] != '@'
    ensures ReplaceAll("@" + Mention(name) + name, Mention(name), "") == Mention(name)
    ensures InfixBetweenWhitespace(Mention(name), Mention(name), 0)
  {
    var m := Mention(name);
    var s := "@" + m + name;
    var tail := m + name;
    assert s[..|m|][1] != m[1];
    assert s[1..] == tail;
    assert ReplaceAll(s, m, "") == "@" + ReplaceAll(tail, m, "");
    assert tail[..|m|] == m && tail[|m|..] == name;
    assert ReplaceAll(tail, m, "") == ReplaceAll(name, m, "");
    assert "@" + name == m;
    assert m[0..|m|] == m;
  }

  /** The custom prompt of `system(reset=false)`: the input text with every
      SYSTEM marker removed, trimmed again. */
  function CustomPrompt(text: string): (r: string)
    ensures Trimmed(r)
  {
    Trim(ReplaceAll(text, SystemMarker, ""))
  }

  // ---------------------------------------------------------------------------
  // The session and its steps

  /** A processor's state: the queue capacity, the default prompt, the current
      system-prompt list and the history contents (oldest first). */
  datatype Session = Session(capacity: nat, defaultPrompt: string, systemQueries: seq<Turn>, history: seq<Turn>)
  {
    /** Exactly one system turn, and the history fits the queue. */
    predicate Valid()
    {
      |systemQueries| == 1 && systemQueries[0].role == SystemRole && |history| <= capacity
    }
  }

  /** The state right after `new GeneralChatMessageProcessor(openai, history_size, system_prompt)`. */
  function NewSession(capacity: nat, prompt: string): (s: Session)
    ensures s.Valid()
    ensures s.systemQueries == [Turn(SystemRole, prompt)] && s.defaultPrompt == prompt
    ensures s.capacity == capacity && s.history == []
  {
    Session(capacity, prompt, [Turn(SystemRole, prompt)], [])
  }

  /** The request sent to the backend: every system turn, then the history in
      order, then the user turn holding the input text. */
  function ChatRequest(s: Session, text: string): (r: seq<Turn>)
    ensures |r| == |s.systemQueries| + |s.history| + 1
    ensures r[..|s.systemQueries|] == s.systemQueries
    ensures r[|s.systemQueries|..|r| - 1] == s.history
    ensures r[|r| - 1] == Turn(UserRole, text)
  {
    s.systemQueries + s.history + [Turn(UserRole, text)]
  }

  /** A valid session's request starts with its one system turn. */
  lemma ChatRequestStartsWithSystem(s: Session, text: string)
    requires s.Valid()
    ensures ChatRequest(s, text)[0] == s.systemQueries[0] && ChatRequest(s, text)[0].role == SystemRole
  {
    assert ChatRequest(s, text)[..1][0] == ChatRequest(s, text)[0];
  }

  /** `response.data.choices[0].message`, or the error thrown on the way. */
  function ReplyMessage(response: BackendResponse): (r: Result<Turn, string>)
    ensures response.BackendError? ==> r == Err(response.description)
    ensures response.Completion? && |response.choices| == 0 ==> r == Err(NoChoiceError)
    ensures response.Completion? && |response.choices| > 0 && response.choices[0].message.None? ==> r == Err(NoMessageError)
    ensures r.Ok? <==> response.Completion? && |response.choices| > 0 && response.choices[0].message.Some?
    ensures r.Ok? ==> r.value == response.choices[0].message.value
  {
    match response
    case BackendError(e) => Err(e)
    case Completion(choices) =>
      if |choices| == 0 then Err(NoChoiceError)
      else match choices[0].message
        case None => Err(NoMessageError)
        case Some(m) => Ok(m)
  }

  /** Where the answer to `msg` is said. */
  function ReplyTo(msg: Message): (d: Destination)
    ensures msg.room.Some? <==> d.InRoom?
    ensures d.InRoom? ==> d == InRoom(msg.room.value, msg.talker)
    ensures d.Direct? ==> d == Direct(msg.talker)
  {
    match msg.room
    case Some(room) => InRoom(room, msg.talker)
    case None => Direct(msg.talker)
  }

  datatype ProcessResult = ProcessResult(session: Session, request: seq<Turn>, ok: bool, reply: Outbound)

  /** `process(message, bot_user_name)`: ask the backend, record the exchange on
      success, quote the error on failure. */
  function ProcessStep(s: Session, msg: Message, botUserName: Option<string>,
                       backend: seq<Turn> -> BackendResponse): (r: ProcessResult)
    requires s.Valid()
    ensures r.session.Valid()
    ensures r.request == ChatRequest(s, InputText(msg.text, botUserName))
    ensures r.ok <==> ReplyMessage(backend(r.request)).Ok?
    ensures r.ok ==> var answer := ReplyMessage(backend(r.request)).value;
      && r.session == s.(history := FixedSizeQueue.Pushed(FixedSizeQueue.Pushed(s.history, s.capacity,
                                      Turn(UserRole, InputText(msg.text, botUserName))), s.capacity, answer))
      && r.reply == Outbound(ReplyTo(msg), BuildBotReply(msg.talker.name, InputText(msg.text, botUserName), Trim(answer.content)))
    ensures !r.ok ==> (r.session == s
      && r.reply == Outbound(ReplyTo(msg), BuildBotReply(msg.talker.name, InputText(msg.text, botUserName),
                                                         ErrorHeader + FormatExc(ReplyMessage(backend(r.request)).error))))
  {
    var text := InputText(msg.text, botUserName);
    var current := Turn(UserRole, text);
    var request := ChatRequest(s, text);
    match ReplyMessage(backend(request))
    case Ok(answer) =>
      var h := FixedSizeQueue.Pushed(FixedSizeQueue.Pushed(s.history, s.capacity, current), s.capacity, Turn(answer.role, answer.content));
      ProcessResult(s.(history := h), request, true,
                    Outbound(ReplyTo(msg), BuildBotReply(msg.talker.name, text, Trim(answer.content))))
    case Err(e) =>
      ProcessResult(s, request, false,
                    Outbound(ReplyTo(msg), BuildBotReply(msg.talker.name, text, ErrorHeader + FormatExc(e))))
  }

  /** Two pushes leave the window over the old contents followed by both items. */
  lemma PushedTwice<T>(h: seq<T>, capacity: nat, first: T, second: T)
    requires |h| <= capacity
    ensures FixedSizeQueue.Pushed(FixedSizeQueue.Pushed(h, capacity, first), capacity, second)
            == FixedSizeQueue.LastN(h + [first, second], capacity)
  {
    FixedSizeQueue.LastNOfLastN(h + [first], [second], capacity);
    assert h + [first] + [second] == h + [first, second];
  }

  /** With room for two, the last two entries after pushing first and second
      are first and second, in that order; without eviction nothing else changes. */
  lemma PushedPair<T>(h: seq<T>, capacity: nat, first: T, second: T)
    requires |h| <= capacity
    ensures var w := FixedSizeQueue.Pushed(FixedSizeQueue.Pushed(h, capacity, first), capacity, second);
      && w == FixedSizeQueue.LastN(h + [first, second], capacity)
      && (capacity >= 2 ==> |w| >= 2 && w[|w| - 2..] == [first, second])
      && (|h| + 2 <= capacity ==> w == h + [first, second])
  {
    PushedTwice(h, capacity, first, second);
    var all := h + [first, second];
    var w := FixedSizeQueue.LastN(all, capacity);
    if capacity >= 2 {
      assert w[|w| - 2..] == all[|all| - 2..];
      assert all[|all| - 2..] == [first, second];
    }
  }

  /** On success the history is the window over the old history followed by the
      user turn and then the answer (with room for two, its last two entries),
      and the system prompt list is unchanged. */
  lemma ProcessAppendsPair(s: Session, msg: Message, botUserName: Option<string>, backend: seq<Turn> -> BackendResponse)
    requires s.Valid()
    requires ProcessStep(s, msg, botUserName, backend).ok
    ensures var r := ProcessStep(s, msg, botUserName, backend);
      var user := Turn(UserRole, InputText(msg.text, botUserName));
      var answer := ReplyMessage(backend(r.request)).value;
      && r.session.history == FixedSizeQueue.LastN(s.history + [user, answer], s.capacity)
      && (s.capacity >= 2 ==> |r.session.history| >= 2 && r.session.history[|r.session.history| - 2..] == [user, answer])
      && (|s.history| + 2 <= s.capacity ==> r.session.history == s.history + [user, answer])
      && r.session.systemQueries == s.systemQueries
  {
    var r := ProcessStep(s, msg, botUserName, backend);
    var user := Turn(UserRole, InputText(msg.text, botUserName));
    var answer := ReplyMessage(backend(r.request)).value;
    PushedPair(s.history, s.capacity, user, answer);
  }

  datatype CommandResult = CommandResult(session: Session, reply: Outbound)

  /** `system(message, reset, bot_user_name)`: restore the default prompt, or set a
      custom one from the input text; the history is left alone. */
  function SystemStep(s: Session, msg: Message, reset: bool, botUserName: Option<string>): (r: CommandResult)
    requires s.Valid()
    ensures r.session.Valid()
    ensures r.session.history == s.history && r.session.capacity == s.capacity && r.session.defaultPrompt == s.defaultPrompt
    ensures reset ==> r.session.systemQueries == [Turn(SystemRole, s.defaultPrompt)]
    ensures !reset ==> r.session.systemQueries == [Turn(SystemRole, CustomPrompt(InputText(msg.text, botUserName)))]
    ensures r.reply.to == ReplyTo(msg)
    ensures r.reply.body == BuildBotReply(msg.talker.name, InputText(msg.text, botUserName),
                              (if reset then SystemResetHeader else SystemSetHeader) + r.session.systemQueries[0].content)
  {
    var text := InputText(msg.text, botUserName);
    var prompt := if reset then s.defaultPrompt else CustomPrompt(text);
    var header := if reset then SystemResetHeader else SystemSetHeader;
    var s' := s.(systemQueries := [Turn(SystemRole, prompt)]);
    CommandResult(s', Outbound(ReplyTo(msg), BuildBotReply(msg.talker.name, text, header + s'.systemQueries[0].content)))
  }

  /** `reset(message)`: forget the history, keep the prompt. */
  function ResetStep(s: Session, msg: Message): (r: CommandResult)
    requires s.Valid()
    ensures r.session.Valid()
    ensures r.session.history == []
    ensures r.session.systemQueries == s.systemQueries && r.session.capacity == s.capacity && r.session.defaultPrompt == s.defaultPrompt
    ensures r.reply == Outbound(ReplyTo(msg), BuildBotReply(msg.talker.name, Trim(msg.text), HistoryResetText))
  {
    CommandResult(s.(history := []), Outbound(ReplyTo(msg), BuildBotReply(msg.talker.name, Trim(msg.text), HistoryResetText)))
  }

  /** After a history reset, the next request starts with the same system turn
      and carries no history. */
  lemma ResetThenRequest(s: Session, msg: Message, text: string)
    requires s.Valid()
    ensures ChatRequest(ResetStep(s, msg).session, text) == s.systemQueries + [Turn(UserRole, text)]
  {
  }

  /** `!!!SYSTEM!!! You are a pirate.` sets the prompt to `You are a pirate.`:
      for any trimmed prompt without `!`, the marker, a space and the prompt set
      exactly that prompt. */
  lemma CustomPromptAfterMarker(prompt: string)
    requires Trimmed(prompt)
    requires forall k :: 0 <= k < |prompt| ==> prompt[k] != '!'
    ensures CustomPrompt(SystemMarker + " " + prompt) == prompt
  {
    var s := SystemMarker + " " + prompt;
    var rest := " " + prompt;
    assert s == SystemMarker + rest;
    assert s[..|SystemMarker|] == SystemMarker && s[|SystemMarker|..] == rest;
    NoMarkerUnchanged(rest);
    assert ReplaceAll(s, SystemMarker, "") == rest;
    assert rest[1..1 + |prompt|] == prompt && rest[..1] == " " && rest[1 + |prompt|..] == [];
    assert InfixBetweenWhitespace(rest, prompt, 1);
    TrimUnique(rest, 1, prompt);
  }

  /** A marker alone sets an empty prompt (the code does not reject it). */
  lemma CustomPromptOfBareMarker()
    ensures CustomPrompt(SystemMarker) == ""
  {
    assert SystemMarker[..|SystemMarker|] == SystemMarker;
    assert ReplaceAll(SystemMarker, SystemMarker, "") == "";
    assert InfixBetweenWhitespace("", "", 0);
    TrimUnique("", 0, "");
  }

  lemma {:induction false} NoMarkerUnchanged(t: string)
    requires forall k :: 0 <= k < |t| ==> t[k] != '!' 
    ensures ReplaceAll(t, SystemMarker, "") == t
    decreases |t|
  {
    if |t| >= |SystemMarker| {
      assert t[..|SystemMarker|][0] == t[0];
      NoMarkerUnchanged(t[1..]);
      assert [t[0]] + t[1..] == t;
    }
  }

  // ---------------------------------------------------------------------------
  // The processor object

  /** `GeneralChatMessageProcessor`: one conversation's state, updated in place. */
  class Processor {
    const historySize: nat
    const defaultSystemPrompt: string
    var history: FixedSizeQueue.Queue<Turn>
    var systemQueries: seq<Turn>

    ghost predicate Valid()
      reads this
    {
      history.Valid() && history.capacity == historySize && State().Valid()
    }

    /** The session this object holds. */
    ghost function State(): Session
      reads this
    {
      Session(historySize, defaultSystemPrompt, systemQueries, history.items)
    }

    constructor (historySize: nat, systemPrompt: string)
      ensures Valid()
      ensures State() == NewSession(historySize, systemPrompt)
    {
      this.historySize := historySize;
      history := FixedSizeQueue.NewQueue(historySize);
      defaultSystemPrompt := systemPrompt;
      systemQueries := [Turn(SystemRole, systemPrompt)];
    }

    method Process(msg: Message, botUserName: Option<string>, backend: seq<Turn> -> BackendResponse)
      returns (ok: bool, reply: Outbound)
      requires Valid()
      modifies this
      ensures Valid()
      ensures var r := ProcessStep(old(State()), msg, botUserName, backend);
        State() == r.session && ok == r.ok && reply == r.reply
    {
      ghost var spec := ProcessStep(State(), msg, botUserName, backend);
      var text := InputText(msg.text, botUserName);
      var current := Turn(UserRole, text);
      var request := systemQueries + history.List() + [current];
      assert request == spec.request;
      match ReplyMessage(backend(request)) {
        case Ok(answer) =>
          RecordExchange(current, Turn(answer.role, answer.content));
          reply := Outbound(ReplyTo(msg), BuildBotReply(msg.talker.name, text, Trim(answer.content)));
          ok := true;
        case Err(e) =>
          reply := Outbound(ReplyTo(msg), BuildBotReply(msg.talker.name, text, ErrorHeader + FormatExc(e)));
          ok := false;
      }
    }

    /** The two `history.push` calls of a successful `process`. */
    method RecordExchange(user: Turn, answer: Turn)
      requires Valid()
      modifies this
      ensures Valid() && systemQueries == old(systemQueries)
      ensures history.items == FixedSizeQueue.Pushed(FixedSizeQueue.Pushed(old(history.items), historySize, user), historySize, answer)
    {
      history := history.Push(user);
      history := history.Push(answer);
    }

    method System(msg: Message, reset: bool, botUserName: Option<string>) returns (reply: Outbound)
      requires Valid()
      modifies this
      ensures Valid()
      ensures var r := SystemStep(old(State()), msg, reset, botUserName);
        State() == r.session && reply == r.reply
    {
      ghost var spec := SystemStep(State(), msg, reset, botUserName);
      var text := InputText(msg.text, botUserName);
      var prompt, header;
      if reset {
        prompt, header := defaultSystemPrompt, SystemResetHeader;
      } else {
        prompt, header := CustomPrompt(text), SystemSetHeader;
      }
      systemQueries := [Turn(SystemRole, prompt)];
      reply := Outbound(ReplyTo(msg), BuildBotReply(msg.talker.name, text, header + systemQueries[0].content));
      assert reply.body == spec.reply.body;
    }

    method Reset(msg: Message) returns (reply: Outbound)
      requires Valid()
      modifies this
      ensures Valid()
      ensures var r := ResetStep(old(State()), msg);
        State() == r.session && reply == r.reply
    {
      var text := Trim(msg.text);
      history := history.Clear();
      reply := Outbound(ReplyTo(msg), BuildBotReply(msg.talker.name, text, HistoryResetText));
    }
  }
}
