/**
 * The message handler of `index.js`: which messages reach a session, which
 * session they reach (the `processors` registry, keyed by group or sender id),
 * which command they trigger, and the `bot_user_name` the login and logout
 * events maintain.
 */
module Router {
  import opened Wrappers
  import opened JsString
  import opened GeneralChat

  const ResetMarker: string := "!!!RESET!!!"
  const SystemResetMarker: string := "!!!SYSTEMRESET!!!"

  // ---------------------------------------------------------------------------
  // Classification

  /** The decision the handler takes before touching the registry. */
  datatype Route = Ignore | ToRoom(roomId: string) | ToTalker(talkerId: string)
  {
    /** The registry key of a routed message. */
    function Key(): string
      requires !Ignore?
    {
      if ToRoom? then roomId else talkerId
    }
  }

  /** A group message addresses the bot: the platform says so, or the bot's name
      is known and the text (with a space appended) holds its at-mention. */
  predicate AddressesBot(msg: Message, botUserName: Option<string>)
  {
    msg.mentionsSelf || (NameKnown(botUserName) && Contains(msg.text + " ", Mention(botUserName.value)))
  }

  /** The handler's filters: messages dated before the cutoff and the bot's own
      messages are dropped; a group message is routed to its group only when it
      addresses the bot; a direct message is routed to its sender. */
  function RouteOf(msg: Message, botUserName: Option<string>, initDate: int): (r: Route)
    ensures msg.date < initDate ==> r == Ignore
    ensures msg.isSelf ==> r == Ignore
    ensures r.ToRoom? <==> msg.date >= initDate && !msg.isSelf && msg.room.Some? && AddressesBot(msg, botUserName)
    ensures r.ToRoom? ==> r.roomId == msg.room.value
    ensures r.ToTalker? <==> msg.date >= initDate && !msg.isSelf && msg.room.None?
    ensures r.ToTalker? ==> r.talkerId == msg.talker.id
  {
    if msg.date < initDate then Ignore
    else if !msg.isSelf && msg.room.Some? && AddressesBot(msg, botUserName) then ToRoom(msg.room.value)
    else if !msg.isSelf && msg.room.None? then ToTalker(msg.talker.id)
    else Ignore
  }

  /** A group message that does not address the bot is never routed, whatever
      else holds of it. */
  lemma UnaddressedGroupMessageIgnored(msg: Message, botUserName: Option<string>, initDate: int)
    requires msg.room.Some? && !AddressesBot(msg, botUserName)
    ensures RouteOf(msg, botUserName, initDate) == Ignore
  {
  }

  /** The handler the raw text selects, by substring tests in the code's order. */
  datatype Command = ResetHistory | SetSystem | ResetSystem | Chat

  function CommandOf(text: string): (c: Command)
    ensures c == ResetHistory <==> Contains(text, ResetMarker)
    ensures c == SetSystem <==> !Contains(text, ResetMarker) && Contains(text, SystemMarker)
    ensures c == ResetSystem <==> !Contains(text, ResetMarker) && !Contains(text, SystemMarker) && Contains(text, SystemResetMarker)
    ensures c == Chat <==> !Contains(text, ResetMarker) && !Contains(text, SystemMarker) && !Contains(text, SystemResetMarker)
  {
    if Contains(text, ResetMarker) then ResetHistory
    else if Contains(text, SystemMarker) then SetSystem
    else if Contains(text, SystemResetMarker) then ResetSystem
    else Chat
  }

  /** The SYSTEM marker does not occur inside the SYSTEMRESET marker: each of
      the six windows of twelve characters differs from it in one position. */
  lemma SystemMarkerNotInSystemResetMarker()
    ensures !Contains(SystemResetMarker, SystemMarker)
  {
    var t, m := SystemResetMarker, SystemMarker;
    forall i
      ensures !OccursAt(t, m, i)
    {
      if 0 <= i && i + 12 <= |t| {
        var w := t[i..i + 12];
        if i <= 2 {
          assert w[11] != m[11];
        } else if i <= 4 {
          assert w[9] != m[9];
        } else {
          assert w[0] != m[0];
        }
      }
    }
    ContainsAt(t, m);
  }

  /** The RESET marker does not occur inside the SYSTEMRESET marker: each of
      the seven windows of eleven characters differs from it in one position. */
  lemma ResetMarkerNotInSystemResetMarker()
    ensures !Contains(SystemResetMarker, ResetMarker)
  {
    var t, r := SystemResetMarker, ResetMarker;
    forall i
      ensures !OccursAt(t, r, i)
    {
      if 0 <= i && i + 11 <= |t| {
        var w := t[i..i + 11];
        if i <= 2 {
          assert w[3 - i] != r[3 - i];
        } else {
          assert w[0] != r[0];
        }
      }
    }
    ContainsAt(t, r);
  }

  /** So a message that is just the SYSTEMRESET marker reaches the
      reset-to-default branch. */
  lemma SystemResetMarkerSelectsResetSystem()
    ensures CommandOf(SystemResetMarker) == ResetSystem
  {
    SystemMarkerNotInSystemResetMarker();
    ResetMarkerNotInSystemResetMarker();
    assert OccursAt(SystemResetMarker, SystemResetMarker, 0);
    ContainsWitness(SystemResetMarker, SystemResetMarker, 0);
  }

  // ---------------------------------------------------------------------------
  // The handler as a function of the registry

  /** The routed session's step for the selected command. */
  function Dispatch(s: Session, msg: Message, botUserName: Option<string>,
                    backend: seq<Turn> -> BackendResponse): (r: CommandResult)
    requires s.Valid()
    ensures r.session.Valid()
    ensures r.session.capacity == s.capacity && r.session.defaultPrompt == s.defaultPrompt
  {
    match CommandOf(msg.text)
    case ResetHistory => ResetStep(s, msg)
    case SetSystem => SystemStep(s, msg, false, botUserName)
    case ResetSystem => SystemStep(s, msg, true, botUserName)
    case Chat =>
      var p := ProcessStep(s, msg, botUserName, backend);
      CommandResult(p.session, p.reply)
  }

  /** Which step a message runs: the one its command selects. Only a chat or a
      history reset touches the history, and only the two system commands touch
      the system prompt. */
  lemma DispatchFollowsCommand(s: Session, msg: Message, botUserName: Option<string>,
                               backend: seq<Turn> -> BackendResponse)
    requires s.Valid()
    ensures var r := Dispatch(s, msg, botUserName, backend);
      && (CommandOf(msg.text) == ResetHistory ==> r == ResetStep(s, msg))
      && (CommandOf(msg.text) == SetSystem ==> r == SystemStep(s, msg, false, botUserName))
      && (CommandOf(msg.text) == ResetSystem ==> r == SystemStep(s, msg, true, botUserName))
      && (CommandOf(msg.text) == Chat ==>
            r.session == ProcessStep(s, msg, botUserName, backend).session
            && r.reply == ProcessStep(s, msg, botUserName, backend).reply)
      && (CommandOf(msg.text) != ResetHistory && CommandOf(msg.text) != Chat ==> r.session.history == s.history)
      && (CommandOf(msg.text) != SetSystem && CommandOf(msg.text) != ResetSystem ==> r.session.systemQueries == s.systemQueries)
  {
  }

  /** The session a key resolves to: the registered one, or a fresh one. */
  function Lookup(sessions: map<string, Session>, key: string, capacity: nat, prompt: string): (s: Session)
    ensures key in sessions ==> s == sessions[key]
    ensures key !in sessions ==> s == NewSession(capacity, prompt)
  {
    if key in sessions then sessions[key] else NewSession(capacity, prompt)
  }

  predicate AllValid(sessions: map<string, Session>)
  {
    forall id | id in sessions :: sessions[id].Valid()
  }

  datatype HandleResult = HandleResult(sessions: map<string, Session>, reply: Option<Outbound>)

  /** One run of the message handler over the registry's sessions. */
  function Handle(sessions: map<string, Session>, msg: Message, botUserName: Option<string>, initDate: int,
                  capacity: nat, prompt: string, backend: seq<Turn> -> BackendResponse): (r: HandleResult)
    requires AllValid(sessions)
    ensures AllValid(r.sessions)
    ensures RouteOf(msg, botUserName, initDate).Ignore? ==> r.sessions == sessions && r.reply == None
    ensures !RouteOf(msg, botUserName, initDate).Ignore? ==>
      var key := RouteOf(msg, botUserName, initDate).Key();
      var d := Dispatch(Lookup(sessions, key, capacity, prompt), msg, botUserName, backend);
      && r.sessions.Keys == sessions.Keys + {key}
      && (forall id | id in sessions && id != key :: r.sessions[id] == sessions[id])
      && r.sessions[key] == d.session
      && r.reply == Some(d.reply)
  {
    var route := RouteOf(msg, botUserName, initDate);
    if route.Ignore? then HandleResult(sessions, None)
    else
      var key := route.Key();
      var d := Dispatch(Lookup(sessions, key, capacity, prompt), msg, botUserName, backend);
      HandleResult(sessions[key := d.session], Some(d.reply))
  }

  // ---------------------------------------------------------------------------
  // A run of platform events

  /** The listener events the core reacts to. */
  datatype Event = Login(name: string) | Logout | Received(msg: Message, backend: seq<Turn> -> BackendResponse)

  datatype BotState = BotState(sessions: map<string, Session>, botUserName: Option<string>)

  /** The state after handling the events in order. */
  function Run(st: BotState, events: seq<Event>, initDate: int, capacity: nat, prompt: string): (r: BotState)
    requires AllValid(st.sessions)
    ensures AllValid(r.sessions)
    decreases |events|
  {
    if events == [] then st
    else
      var next := match events[0]
        case Login(name) => st.(botUserName := Some(name))
        case Logout => st.(botUserName := None)
        case Received(msg, backend) =>
          st.(sessions := Handle(st.sessions, msg, st.botUserName, initDate, capacity, prompt, backend).sessions);
      Run(next, events[1..], initDate, capacity, prompt)
  }

  /** The registry only grows: no run of events removes a conversation. */
  lemma {:induction false} RunKeepsConversations(st: BotState, events: seq<Event>, initDate: int, capacity: nat, prompt: string)
    requires AllValid(st.sessions)
    ensures st.sessions.Keys <= Run(st, events, initDate, capacity, prompt).sessions.Keys
    decreases |events|
  {
    if events != [] {
      var next := match events[0]
        case Login(name) => st.(botUserName := Some(name))
        case Logout => st.(botUserName := None)
        case Received(msg, backend) =>
          st.(sessions := Handle(st.sessions, msg, st.botUserName, initDate, capacity, prompt, backend).sessions);
      RunKeepsConversations(next, events[1..], initDate, capacity, prompt);
    }
  }

  /** Messages dated before the cutoff leave every session as it was. */
  lemma {:induction false} RunOfEarlyMessages(st: BotState, events: seq<Event>, initDate: int, capacity: nat, prompt: string)
    requires AllValid(st.sessions)
    requires forall k :: 0 <= k < |events| ==> events[k].Received? && events[k].msg.date < initDate
    ensures Run(st, events, initDate, capacity, prompt).sessions == st.sessions
    decreases |events|
  {
    if events != [] {
      RunOfEarlyMessages(st, events[1..], initDate, capacity, prompt);
    }
  }

  // ---------------------------------------------------------------------------
  // The handler's state

  /** The module-level state of `index.js`: the cutoff and configuration, the
      bot's display name and the registry of processors. */
  class Router {
    const initDate: int
    const historySize: nat
    const defaultSystemPrompt: string
    var botUserName: Option<string>
    var processors: map<string, Processor>

    /** Every registered processor is valid and configured alike, and no two
        keys share one. */
    ghost predicate Valid()
      reads this, processors.Values
    {
      && (forall id | id in processors ::
            processors[id].Valid() && processors[id].historySize == historySize
            && processors[id].defaultSystemPrompt == defaultSystemPrompt)
      && (forall i, j | i in processors && j in processors && i != j :: processors[i] != processors[j])
    }

    /** The sessions of the registry. */
    ghost function Sessions(): (m: map<string, Session>)
      reads this, processors.Values
      requires Valid()
      ensures m.Keys == processors.Keys && AllValid(m)
    {
      map id | id in processors :: processors[id].State()
    }

    constructor (initDate: int, historySize: nat, defaultSystemPrompt: string)
      ensures Valid()
      ensures this.initDate == initDate && this.historySize == historySize && this.defaultSystemPrompt == defaultSystemPrompt
      ensures botUserName == None && processors == map[]
    {
      this.initDate := initDate;
      this.historySize := historySize;
      this.defaultSystemPrompt := defaultSystemPrompt;
      botUserName := None;
      processors := map[];
    }

    /** The `login` listener: remember the bot's display name. */
    method OnLogin(name: string)
      requires Valid()
      modifies this
      ensures Valid()
      ensures botUserName == Some(name)
      ensures processors == old(processors)
    {
      botUserName := Some(name);
    }

    /** The `logout` listener: forget the bot's display name. */
    method OnLogout()
      requires Valid()
      modifies this
      ensures Valid()
      ensures botUserName == None
      ensures processors == old(processors)
    {
      botUserName := None;
    }

    /** The registry lookup of the handler: create and register a processor
        for an unseen key, reuse the registered one otherwise. */
    method Resolve(key: string) returns (p: Processor)
      requires Valid()
      modifies this
      ensures Valid()
      ensures key in processors && p == processors[key]
      ensures processors == old(processors)[key := p]
      ensures key in old(processors) ==> p == old(processors[key])
      ensures key !in old(processors) ==> fresh(p)
      ensures forall id | id in old(processors) :: processors[id].State() == old(processors[id].State())
      ensures key !in old(processors) ==> p.State() == NewSession(historySize, defaultSystemPrompt)
      ensures botUserName == old(botUserName)
    {
      if key in processors {
        p := processors[key];
      } else {
        p := new Processor(historySize, defaultSystemPrompt);
        processors := processors[key := p];
      }
    }

    /** The command branch of the handler, run on the routed processor. */
    static method RunCommand(p: Processor, msg: Message, botUserName: Option<string>,
                             backend: seq<Turn> -> BackendResponse) returns (out: Outbound)
      requires p.Valid()
      modifies p
      ensures p.Valid()
      ensures var d := Dispatch(old(p.State()), msg, botUserName, backend);
        p.State() == d.session && out == d.reply
    {
      match CommandOf(msg.text) {
        case ResetHistory =>
          out := p.Reset(msg);
        case SetSystem =>
          out := p.System(msg, false, botUserName);
        case ResetSystem =>
          out := p.System(msg, true, botUserName);
        case Chat =>
          var _, o := p.Process(msg, botUserName, backend);
          out := o;
      }
    }

    /** The routed part of the handler: resolve the key, then run the command
        on that processor alone. */
    method HandleRouted(key: string, msg: Message, backend: seq<Turn> -> BackendResponse) returns (out: Outbound)
      requires Valid()
      modifies this, processors.Values
      ensures Valid()
      ensures processors.Keys == old(processors).Keys + {key}
      ensures forall id | id in old(processors) :: processors[id] == old(processors[id])
      ensures forall id | id in old(processors) && id != key :: processors[id].State() == old(processors[id].State())
      ensures var s := if key in old(processors) then old(processors[key].State()) else NewSession(historySize, defaultSystemPrompt);
        var d := Dispatch(s, msg, botUserName, backend);
        processors[key].State() == d.session && out == d.reply
      ensures botUserName == old(botUserName)
    {
      var p := Resolve(key);
      label resolved:
      out := RunCommand(p, msg, botUserName, backend);
      forall id | id in processors && id != key
        ensures processors[id].State() == old@resolved(processors[id].State()) && processors[id].Valid()
      {
        assert processors[id] != p;
      }
    }

    /** The `message` listener. */
    method OnMessage(msg: Message, backend: seq<Turn> -> BackendResponse) returns (reply: Option<Outbound>)
      requires Valid()
      modifies this, processors.Values
      ensures Valid()
      ensures var r := Handle(old(Sessions()), msg, old(botUserName), initDate, historySize, defaultSystemPrompt, backend);
        && processors.Keys == r.sessions.Keys
        && (forall id | id in processors :: processors[id].State() == r.sessions[id])
        && reply == r.reply
      ensures botUserName == old(botUserName)
      ensures forall id | id in old(processors) :: id in processors && processors[id] == old(processors[id])
    {
      var route := RouteOf(msg, botUserName, initDate);
      if route.Ignore? {
        reply := None;
        return;
      }
      var out := HandleRouted(route.Key(), msg, backend);
      reply := Some(out);
    }
  }
}
