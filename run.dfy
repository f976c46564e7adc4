/** The bot's message handling: the process-wide persona and model name, the
    session store, and the handlers that route a message, run a request
    against the model backend, and serve `/reset`, `/history` and the model
    picker's callback. */
module Run {

  import opened Wrappers
  import opened Text
  import opened Thread
  import opened Stream
  import opened Sessions
  import Models

  const DefaultPersona := "You are a helpful and friendly assistant."
  const PersonaRequest := "Please send the new persona description:"
  const ResetDone := "Chat has been reset"
  const GenericFailure := "Something went wrong."
  const PrivateChat := "private"

  /** How an optional string prints inside an f-string. */
  function Show(o: Option<string>): string {
    match o
    case Some(s) => s
    case None => "None"
  }

  /** The text a request is about: the prompt handed in, or else
      `message.text or message.caption` printed as an f-string does. */
  function PromptText(m: Message, prompt: Option<string>): (r: string)
    ensures prompt.Some? ==> r == prompt.value
    ensures prompt.None? && Truthy(m.text) ==> r == m.text.value
    ensures prompt.None? && !Truthy(m.text) && m.caption.Some? ==> r == m.caption.value
    ensures prompt.None? && !Truthy(m.text) && m.caption.None? ==> r == "None"
  {
    match prompt
    case Some(p) => p
    case None => Show(if Truthy(m.text) then m.text else m.caption)
  }

  /** The text written to the session as the user's turn. */
  function PersonaPrompt(persona: string, prompt: string): string {
    persona + "\nUser: " + prompt
  }

  /** The reply confirming a new persona. */
  function PersonaUpdated(persona: string): string {
    "Persona updated to:\n<b>" + persona + "</b>"
  }

  /** What a request leaves behind: the new store and the messages sent. */
  datatype Effect = Effect(chats: Chats, sent: seq<string>)

  /** One request that ends as `end` (the `Outcome` of its stream): the user
      turn is written first; then the stream's end decides between one reply
      (also appended to the session), the generic failure notice (the user
      turn stays), or silence. */
  function Request(chats: Chats, uid: int, personaPrompt: string, image: string, model: string, end: StreamEnd)
    : (e: Effect)
    ensures |e.sent| <= 1
    ensures uid in e.chats && e.chats.Keys == chats.Keys + {uid}
    ensures forall u :: u in chats && u != uid ==> e.chats[u] == chats[u]
    ensures var prior := Messages(chats, uid);
            var turn := NewUserTurn(personaPrompt, image);
            match end
            case Replied(text) =>
              e.sent == [text] && Messages(e.chats, uid) == prior + [turn, AssistantTurn(text)]
            case Raised =>
              e.sent == [GenericFailure] && Messages(e.chats, uid) == prior + [turn]
            case Exhausted =>
              e.sent == [] && Messages(e.chats, uid) == prior + [turn]
  {
    var turn := NewUserTurn(personaPrompt, image);
    var seeded := UpsertAppend(chats, uid, turn, model);
    match end
    case Replied(text) =>
      assert Messages(seeded, uid) + [AssistantTurn(text)]
             == Messages(chats, uid) + [turn, AssistantTurn(text)];
      Effect(AppendAssistant(seeded, uid, text), [text])
    case Raised => Effect(seeded, [GenericFailure])
    case Exhausted => Effect(seeded, [])
  }

  /** The user's prompt is in the session after every request, right after the
      turns that were there before, whether the backend answered, failed or
      stayed silent. */
  lemma PromptPersists(chats: Chats, uid: int, personaPrompt: string, image: string, model: string, end: StreamEnd)
    ensures var msgs := Messages(Request(chats, uid, personaPrompt, image, model, end).chats, uid);
            var n := |Messages(chats, uid)|;
            n < |msgs| && msgs[..n] == Messages(chats, uid) && msgs[n] == NewUserTurn(personaPrompt, image)
  {
    var e := Request(chats, uid, personaPrompt, image, model, end);
    var prior := Messages(chats, uid);
    var turn := NewUserTurn(personaPrompt, image);
    match end
    case Replied(text) =>
      assert Messages(e.chats, uid) == prior + [turn, AssistantTurn(text)];
    case Raised =>
      assert Messages(e.chats, uid) == prior + [turn];
    case Exhausted =>
      assert Messages(e.chats, uid) == prior + [turn];
  }

  /** A backend failure (before any reply was triggered) sends exactly the
      generic notice and keeps the user's prompt, with no assistant turn. */
  lemma FailureKeepsPrompt(chats: Chats, uid: int, personaPrompt: string, image: string, model: string,
                           fs: seq<Fragment>)
    requires NoneFires(fs, 0, |fs|)
    ensures var e := Request(chats, uid, personaPrompt, image, model, Outcome(Backend(fs, true)));
            e.sent == [GenericFailure]
            && Messages(e.chats, uid) == Messages(chats, uid) + [NewUserTurn(personaPrompt, image)]
  {
    OutcomeSpec(Backend(fs, true));
  }

  /** Where the dispatcher sends a message: a persona edit, a request (with the
      thread prompt for groups), nothing, or an uncaught error. */
  datatype Route = EditPersona(newPersona: string) | Ask(prompt: Option<string>) | Ignore | Fault

  /** The routing of `handle_message`: a private message from an allowed user
      that replies to a message without text makes the persona check raise;
      otherwise private chats reach the backend unless an allowed user answers
      the persona request; group messages reach it with their thread as the
      prompt when they pass the mention gate. */
  function RouteMessage(m: Message, allowedIds: set<int>, botId: int, mention: string): (r: Route)
    ensures m.chatType == PrivateChat ==> !r.Ignore?
    ensures m.chatType == PrivateChat && r.Ask? ==> r.prompt.None?
    ensures r.EditPersona? || r.Fault? ==>
              m.chatType == PrivateChat && m.fromId in allowedIds && m.replyTo.Some?
    ensures r.EditPersona? <==> m.chatType == PrivateChat && m.fromId in allowedIds && m.replyTo.Some?
                                && m.replyTo.value.text.Some?
                                && Contains(m.replyTo.value.text.value, PersonaRequest)
    ensures r.Fault? <==> m.chatType == PrivateChat && m.fromId in allowedIds && m.replyTo.Some?
                          && m.replyTo.value.text.None?
    ensures r.EditPersona? ==> r.newPersona == Show(m.text)
    ensures m.chatType != PrivateChat ==>
              (r.Ask? <==> IsMentionedInGroupOrSupergroup(m, botId, mention))
              && (r.Ask? ==> r.prompt == Some(FormatThread(ThreadOf(m), botId)))
  {
    if m.chatType == PrivateChat then
      if m.fromId in allowedIds && m.replyTo.Some? then
        match m.replyTo.value.text
        case None => Fault
        case Some(t) => if Contains(t, PersonaRequest) then EditPersona(Show(m.text)) else Ask(None)
      else Ask(None)
    else if IsMentionedInGroupOrSupergroup(m, botId, mention) then
      Ask(Some(FormatThread(ThreadOf(m), botId)))
    else Ignore
  }

  /** The running bot: its identity, the process-wide persona and model name,
      and the session store. */
  class Bot {
    const botId: int
    const mention: string
    var persona: string
    var modelName: string
    var activeChats: Chats

    constructor (botId: int, mention: string, initModel: string)
      ensures this.botId == botId && this.mention == mention
      ensures persona == DefaultPersona && modelName == initModel && activeChats == map[]
    {
      this.botId := botId;
      this.mention := mention;
      persona := DefaultPersona;
      modelName := initModel;
      activeChats := map[];
    }

    /** Adds the user's turn to their session, creating it if needed. */
    method AddPromptToActiveChats(uid: int, prompt: string, image: string, model: string)
      modifies this`activeChats
      ensures activeChats == UpsertAppend(old(activeChats), uid, NewUserTurn(prompt, image), model)
    {
      var turn := UserTurn(prompt, if image != "" then [image] else []);
      if uid !in activeChats {
        activeChats := activeChats[uid := Session(model, [turn], true)];
      } else {
        var s := activeChats[uid];
        activeChats := activeChats[uid := s.(messages := s.messages + [turn])];
      }
    }

    /** Appends the assistant's reply, if the user's session still exists. */
    method CommitAssistant(uid: int, text: string)
      modifies this`activeChats
      ensures activeChats == AppendAssistant(old(activeChats), uid, text)
    {
      if uid in activeChats {
        var s := activeChats[uid];
        activeChats := activeChats[uid := s.(messages := s.messages + [AssistantTurn(text)])];
      }
    }

    /** One request to the backend for message `m`: write the prompt, consume
        the stream, then send and commit the reply or report the failure. */
    method OllamaRequest(m: Message, prompt: Option<string>, image: string, b: Backend)
      returns (sent: seq<string>)
      modifies this`activeChats
      ensures var e := Request(old(activeChats), m.fromId, PersonaPrompt(persona, PromptText(m, prompt)),
                               image, modelName, Outcome(b));
              activeChats == e.chats && sent == e.sent
    {
      var p := if prompt.Some? then prompt.value
               else Show(if Truthy(m.text) then m.text else m.caption);
      var personaPrompt := persona + "\nUser: " + p;
      AddPromptToActiveChats(m.fromId, personaPrompt, image, modelName);
      var outcome := ConsumeStream(b);
      match outcome {
        case Replied(text) =>
          sent := [text];
          CommitAssistant(m.fromId, text);
        case Raised =>
          sent := [GenericFailure];
        case Exhausted =>
          sent := [];
      }
    }

    /** `handle_message`: route the message and act on the route. `fault` is an
        uncaught error in the handler (the persona check on a replied-to message
        without text). */
    method HandleMessage(m: Message, image: string, b: Backend, allowedIds: set<int>)
      returns (sent: seq<string>, fault: bool)
      modifies this`persona, this`activeChats
      ensures var route := RouteMessage(m, allowedIds, botId, mention);
              (fault <==> route.Fault?)
              && (route.EditPersona? ==>
                    persona == route.newPersona && activeChats == old(activeChats)
                    && sent == [PersonaUpdated(route.newPersona)])
              && (route.Ask? ==>
                    var e := Request(old(activeChats), m.fromId,
                                     PersonaPrompt(old(persona), PromptText(m, route.prompt)),
                                     image, modelName, Outcome(b));
                    persona == old(persona) && activeChats == e.chats && sent == e.sent)
              && (route.Ignore? || route.Fault? ==>
                    persona == old(persona) && activeChats == old(activeChats) && sent == [])
    {
      fault := false;
      if m.chatType == PrivateChat {
        if m.fromId in allowedIds && m.replyTo.Some? {
          var replied := m.replyTo.value;
          if replied.text.None? {
            fault := true;
            sent := [];
            return;
          }
          if Contains(replied.text.value, PersonaRequest) {
            persona := Show(m.text);
            sent := [PersonaUpdated(persona)];
            return;
          }
        }
        sent := OllamaRequest(m, None, image, b);
        return;
      }
      if IsMentionedInGroupOrSupergroup(m, botId, mention) {
        var thread := CollectMessageThread(m);
        var prompt := FormatThreadForPrompt(thread, botId);
        sent := OllamaRequest(m, Some(prompt), image, b);
      } else {
        sent := [];
      }
    }

    /** `/reset`: an allowed user's session is dropped and the reset confirmed;
        otherwise nothing changes and nothing is sent. */
    method CommandReset(fromId: int, allowedIds: set<int>) returns (sent: seq<string>)
      modifies this`activeChats
      ensures fromId in allowedIds && fromId in old(activeChats) ==>
                activeChats == Reset(old(activeChats), fromId) && sent == [ResetDone]
      ensures !(fromId in allowedIds && fromId in old(activeChats)) ==>
                activeChats == old(activeChats) && sent == []
    {
      sent := [];
      if fromId in allowedIds {
        if fromId in activeChats {
          activeChats := activeChats - {fromId};
          sent := [ResetDone];
        }
      }
    }

    /** `/history` for the sender's own session. */
    method CommandHistory(fromId: int, allowedIds: set<int>) returns (reply: HistoryReply)
      ensures reply == History(activeChats, allowedIds, fromId)
    {
      if fromId !in allowedIds {
        return Silent;
      }
      if fromId in activeChats {
        var context := RenderHistory(activeChats[fromId].messages);
        reply := Reply(context);
      } else {
        reply := Reply(NoHistory);
      }
    }

    /** The model picker's callback: switch the process-wide model to the one
        named in the callback data. */
    method ModelCallback(data: string) returns (sent: seq<string>)
      requires StartsWith(data, Models.CallbackPrefix)
      modifies this`modelName
      ensures Models.CallbackData(modelName) == data
      ensures sent == ["Chosen model: " + modelName]
    {
      modelName := Models.ParseCallback(data);
      sent := ["Chosen model: " + modelName];
    }
  }
}
