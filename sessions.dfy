/** The per-user conversation sessions (`ACTIVE_CHATS`): their turns, the
    updates the bot makes to them, and the `/history` rendering. */
module Sessions {

  import opened Text

  /** One entry of a session's `messages`: a user turn carries the images sent
      with it; an assistant turn has no `images` key. */
  datatype Turn = UserTurn(content: string, images: seq<string>) | AssistantTurn(content: string)

  /** A session: the model chosen when it was created, the turns so far, and
      the streaming flag. */
  datatype Session = Session(model: string, messages: seq<Turn>, stream: bool)

  /** The store, keyed by user id. */
  type Chats = map<int, Session>

  /** The user turn for `prompt`; the base64 image, when there is one, is its only image. */
  function NewUserTurn(prompt: string, image: string): (t: Turn)
    ensures t.UserTurn? && t.content == prompt
    ensures |t.images| <= 1
    ensures t.images == [] <==> image == ""
    ensures forall x :: x in t.images ==> x == image
  {
    UserTurn(prompt, if image != "" then [image] else [])
  }

  /** A user's turns, or none when the user has no session. */
  function Messages(chats: Chats, uid: int): seq<Turn> {
    if uid in chats then chats[uid].messages else []
  }

  /** Adds a turn to a user's session, creating the session (with `model`,
      streaming on) when the user has none. */
  function UpsertAppend(chats: Chats, uid: int, turn: Turn, model: string): (r: Chats)
    ensures r.Keys == chats.Keys + {uid}
    ensures uid !in chats ==> r[uid] == Session(model, [turn], true)
    ensures uid in chats ==> r[uid].model == chats[uid].model && r[uid].stream == chats[uid].stream
    ensures Messages(r, uid) == Messages(chats, uid) + [turn]
    ensures forall u :: u in chats && u != uid ==> r[u] == chats[u]
  {
    if uid !in chats then
      chats[uid := Session(model, [turn], true)]
    else
      chats[uid := chats[uid].(messages := chats[uid].messages + [turn])]
  }

  /** Appends the assistant's reply to a user's session, if the session still exists. */
  function AppendAssistant(chats: Chats, uid: int, text: string): (r: Chats)
    ensures r.Keys == chats.Keys
    ensures uid in chats ==> r[uid].model == chats[uid].model && r[uid].stream == chats[uid].stream
                             && r[uid].messages == chats[uid].messages + [AssistantTurn(text)]
    ensures forall u :: u in chats && u != uid ==> r[u] == chats[u]
    ensures uid !in chats ==> r == chats
  {
    if uid in chats then
      chats[uid := chats[uid].(messages := chats[uid].messages + [AssistantTurn(text)])]
    else
      chats
  }

  /** Drops a user's session; nobody else's changes. */
  function Reset(chats: Chats, uid: int): (r: Chats)
    ensures uid !in r && Messages(r, uid) == []
    ensures r.Keys == chats.Keys - {uid}
    ensures forall u :: u in r ==> r[u] == chats[u]
  {
    chats - {uid}
  }

  /** The store after the user turns `turns` were added one after another. */
  function UpsertAll(chats: Chats, uid: int, turns: seq<Turn>, model: string): Chats
    decreases |turns|
  {
    if turns == [] then chats else UpsertAll(UpsertAppend(chats, uid, turns[0], model), uid, turns[1..], model)
  }

  /** After any number of appends, the user's session holds exactly the earlier
      turns followed by the appended ones, in order; other users are untouched. */
  lemma {:induction false} AppendsInOrder(chats: Chats, uid: int, turns: seq<Turn>, model: string)
    ensures var r := UpsertAll(chats, uid, turns, model);
            Messages(r, uid) == Messages(chats, uid) + turns
            && r.Keys == chats.Keys + (if turns == [] then {} else {uid})
            && forall u :: u in chats && u != uid ==> r[u] == chats[u]
    decreases |turns|
  {
    if turns == [] {
      assert Messages(chats, uid) + turns == Messages(chats, uid);
    } else {
      var c1 := UpsertAppend(chats, uid, turns[0], model);
      AppendsInOrder(c1, uid, turns[1..], model);
      assert Messages(chats, uid) + turns == Messages(chats, uid) + [turns[0]] + turns[1..];
    }
  }

  /** A user whose session was reset has no session afterwards, whatever the
      store held, and a later turn starts a fresh session with only that turn. */
  lemma ResetStartsAfresh(chats: Chats, uid: int, turn: Turn, model: string)
    ensures uid !in Reset(chats, uid)
    ensures UpsertAppend(Reset(chats, uid), uid, turn, model)[uid] == Session(model, [turn], true)
  {
  }

  /** `msg['role'].capitalize()` for the two roles. */
  function RoleLabel(t: Turn): string {
    match t
    case UserTurn(_, _) => "User"
    case AssistantTurn(_) => "Assistant"
  }

  /** One line of the `/history` reply. */
  function HistoryLine(t: Turn): string {
    "*" + RoleLabel(t) + "*: " + t.content + "\n"
  }

  /** The `/history` reply for a list of turns: one line per turn, in order. */
  function HistoryText(turns: seq<Turn>): string {
    Join(HistoryLine, turns)
  }

  /** Rendering distributes over concatenation: appending turns to a session
      appends their lines to its history and leaves the earlier lines alone. */
  lemma HistoryTextAppend(a: seq<Turn>, b: seq<Turn>)
    ensures HistoryText(a + b) == HistoryText(a) + HistoryText(b)
  {
    JoinAppend(HistoryLine, a, b);
  }

  /** Builds the `/history` reply line by line, as the source's loop does. */
  method RenderHistory(turns: seq<Turn>) returns (context: string)
    ensures context == HistoryText(turns)
  {
    context := "";
    for i := 0 to |turns|
      invariant context == HistoryText(turns[..i])
    {
      var msg := turns[i];
      var line := "*" + RoleLabel(msg) + "*: " + msg.content + "\n";
      JoinSnoc(HistoryLine, turns, i);
      context := context + line;
    }
    assert turns[..|turns|] == turns;
  }

  const NoHistory := "No chat history available for this user"

  /** What the `/history` command does: nothing for a user outside the allow
      list, the history text or a notice otherwise; `Crash` is an uncaught
      error in the handler, after which nothing is sent. */
  datatype HistoryReply = Silent | Reply(text: string) | Crash

  /** The `/history` handler as written: it checks for the sender's session but
      reads the session stored under the chat's id. */
  function HistoryAsWritten(chats: Chats, allowedIds: set<int>, fromId: int, chatId: int): (r: HistoryReply)
    ensures r == Silent <==> fromId !in allowedIds
    ensures r == Crash <==> fromId in allowedIds && fromId in chats && chatId !in chats
    ensures fromId in allowedIds && fromId in chats && chatId in chats
            ==> r == Reply(HistoryText(chats[chatId].messages))
    ensures fromId in allowedIds && fromId !in chats ==> r == Reply(NoHistory)
  {
    if fromId !in allowedIds then Silent
    else if fromId in chats then
      if chatId in chats then Reply(HistoryText(chats[chatId].messages)) else Crash
    else Reply(NoHistory)
  }

  /** The `/history` handler reading the sender's own session. */
  function History(chats: Chats, allowedIds: set<int>, fromId: int): (r: HistoryReply)
    ensures r != Crash
    ensures r == Silent <==> fromId !in allowedIds
    ensures fromId in allowedIds && fromId in chats ==> r == Reply(HistoryText(chats[fromId].messages))
    ensures fromId in allowedIds && fromId !in chats ==> r == Reply(NoHistory)
  {
    if fromId !in allowedIds then Silent
    else if fromId in chats then Reply(HistoryText(chats[fromId].messages))
    else Reply(NoHistory)
  }

  /** In a private chat the chat id is the sender's id, so the handler as written
      behaves as intended there. */
  lemma HistoryAsWrittenInPrivate(chats: Chats, allowedIds: set<int>, uid: int)
    ensures HistoryAsWritten(chats, allowedIds, uid, uid) == History(chats, allowedIds, uid)
  {
  }

  /** In a group, the handler as written fails for a user who has a session:
      the group's id keys no session. */
  lemma HistoryAsWrittenFailsInGroup()
    ensures var chats := map[42 := Session("llama3", [UserTurn("hi", [])], true)];
            HistoryAsWritten(chats, {42}, 42, -100) == Crash
            && History(chats, {42}, 42) == Reply("*User*: hi\n")
  {
    var chats := map[42 := Session("llama3", [UserTurn("hi", [])], true)];
    assert [UserTurn("hi", [])][..0] == [];
    assert HistoryText(chats[42].messages) == "*User*: hi\n";
  }
}
