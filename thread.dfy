/** Group-chat handling: the mention gate that decides whether a group message
    is answered, the walk up a message's reply chain, and the rendering of that
    chain into the prompt text sent to the model. */
module Thread {

  import opened Wrappers
  import opened Text

  /** An inbound chat message. `text` and `caption` are absent (`None`) when the
      platform sends none; `replyTo` is the message this one replies to. */
  datatype Message = Message(
    chatType: string,
    chatId: int,
    fromId: int,
    text: Option<string>,
    caption: Option<string>,
    replyTo: Option<Message>)

  const GroupChat := "group"
  const SupergroupChat := "supergroup"
  const ThreadHeader := "Conversation thread:\n\n"
  const ThreadTrailer := "History:"
  const NoTextContent := "[No text content]"

  /** Python truthiness of an optional string: present and non-empty. */
  predicate Truthy(o: Option<string>) {
    o.Some? && o.value != ""
  }

  /** The optional string is truthy and starts with `mention`. */
  predicate BeginsWith(o: Option<string>, mention: string) {
    Truthy(o) && StartsWith(o.value, mention)
  }

  /** The mention gate: only group and supergroup messages can pass, and they
      pass when their text or caption begins with the bot's `@handle` or when
      they reply directly to a message the bot wrote. */
  function IsMentionedInGroupOrSupergroup(m: Message, botId: int, mention: string): (r: bool)
    ensures m.chatType != GroupChat && m.chatType != SupergroupChat ==> !r
    ensures m.chatType == GroupChat || m.chatType == SupergroupChat ==>
              (r <==> BeginsWith(m.text, mention) || BeginsWith(m.caption, mention)
                      || (m.replyTo.Some? && m.replyTo.value.fromId == botId))
  {
    if m.chatType !in [GroupChat, SupergroupChat] then false
    else
      var isMentioned := BeginsWith(m.text, mention) || BeginsWith(m.caption, mention);
      var isReplyToBot := m.replyTo.Some? && m.replyTo.value.fromId == botId;
      isMentioned || isReplyToBot
  }

  /** Four cases of the gate for the handle `@Bot`: a mention at the start, a
      mention later in the text, a reply to the bot, a private chat. */
  lemma GateExamples(botId: int, other: int, parent: Message)
    requires other != botId && parent.fromId == botId
    ensures IsMentionedInGroupOrSupergroup(
              Message(GroupChat, 1, other, Some("@Bot hello"), None, None), botId, "@Bot")
    ensures !IsMentionedInGroupOrSupergroup(
              Message(GroupChat, 1, other, Some("hello @Bot"), None, None), botId, "@Bot")
    ensures IsMentionedInGroupOrSupergroup(
              Message(SupergroupChat, 1, other, Some("thanks"), None, Some(parent)), botId, "@Bot")
    ensures !IsMentionedInGroupOrSupergroup(
              Message("private", 1, other, Some("@Bot hello"), None, None), botId, "@Bot")
  {
    assert "hello @Bot"[..4] != "@Bot" by { assert "hello @Bot"[0] == 'h'; }
  }

  /** Number of replied-to messages above `m`. */
  function ReplyDepth(m: Message): nat
  {
    match m.replyTo
    case None => 0
    case Some(p) => ReplyDepth(p) + 1
  }

  /** The reply chain ending at `o`, oldest message first. */
  function Ancestry(o: Option<Message>): seq<Message>
    decreases o
  {
    match o
    case None => []
    case Some(m) => Ancestry(m.replyTo) + [m]
  }

  /** The thread a message belongs to: its whole reply chain, oldest first,
      the message itself last. */
  function ThreadOf(m: Message): seq<Message> {
    Ancestry(Some(m))
  }

  /** A chain of k replies gives k + 1 messages: the root (which replies to
      nothing) first, the triggering message last, and every other message
      directly after the one it replies to. */
  lemma {:induction false} ThreadShape(m: Message)
    ensures |ThreadOf(m)| == ReplyDepth(m) + 1
    ensures ThreadOf(m)[|ThreadOf(m)| - 1] == m
    ensures ThreadOf(m)[0].replyTo.None?
    ensures forall i :: 0 < i < |ThreadOf(m)| ==> ThreadOf(m)[i].replyTo == Some(ThreadOf(m)[i - 1])
  {
    match m.replyTo
    case None =>
      assert ThreadOf(m) == Ancestry(None) + [m];
    case Some(p) =>
      ThreadShape(p);
      var t := ThreadOf(m);
      assert t == ThreadOf(p) + [m];
      assert t[|t| - 2] == p;
  }

  /** Walks the reply chain upwards from `m`, putting each message in front of
      those collected so far. */
  method CollectMessageThread(m: Message) returns (thread: seq<Message>)
    ensures thread == ThreadOf(m)
  {
    thread := [];
    var cur := Some(m);
    while cur.Some?
      invariant Ancestry(cur) + thread == ThreadOf(m)
      decreases cur
    {
      thread := [cur.value] + thread;
      cur := cur.value.replyTo;
    }
  }

  /** Who the prompt says wrote `m`. */
  function SenderName(m: Message, botId: int): string {
    if m.fromId != botId then "User" else "Bot"
  }

  /** A message is attributed to the bot exactly when the bot wrote it, and to
      the user otherwise. */
  lemma SenderNameSpec(m: Message, botId: int)
    ensures SenderName(m, botId) == "Bot" <==> m.fromId == botId
    ensures SenderName(m, botId) == "User" <==> m.fromId != botId
  {
  }

  /** What the prompt shows of `m`. */
  function DisplayContent(m: Message): string {
    if Truthy(m.text) then m.text.value
    else if Truthy(m.caption) then m.caption.value
    else NoTextContent
  }

  /** The shown content is never empty: the text, else the caption, else a
      fixed placeholder, an empty text or caption counting as missing. */
  lemma DisplayContentSpec(m: Message)
    ensures DisplayContent(m) != ""
    ensures Truthy(m.text) ==> DisplayContent(m) == m.text.value
    ensures !Truthy(m.text) && Truthy(m.caption) ==> DisplayContent(m) == m.caption.value
    ensures !Truthy(m.text) && !Truthy(m.caption) ==> DisplayContent(m) == NoTextContent
  {
  }

  /** One message's paragraph of the prompt. */
  function Block(m: Message, botId: int): string {
    SenderName(m, botId) + ": " + DisplayContent(m) + "\n\n"
  }

  /** The renderer of one paragraph, for the bot `botId`. */
  function BlockOf(botId: int): Message -> string {
    m => Block(m, botId)
  }

  /** The paragraphs of all messages of `thread`, in order. */
  function Blocks(thread: seq<Message>, botId: int): string {
    Join(BlockOf(botId), thread)
  }

  /** The prompt built from a thread. */
  function FormatThread(thread: seq<Message>, botId: int): string {
    ThreadHeader + Blocks(thread, botId) + ThreadTrailer
  }

  /** Rendering distributes over concatenation of threads. */
  lemma BlocksAppend(a: seq<Message>, b: seq<Message>, botId: int)
    ensures Blocks(a + b, botId) == Blocks(a, botId) + Blocks(b, botId)
  {
    JoinAppend(BlockOf(botId), a, b);
  }

  /** Between the fixed header and trailer, the prompt holds the k-th message's
      paragraph after the paragraphs of the messages before it and before those
      of the messages after it. */
  lemma ThreadPromptLayout(thread: seq<Message>, k: nat, botId: int)
    requires k < |thread|
    ensures Blocks(thread, botId)
            == Blocks(thread[..k], botId) + Block(thread[k], botId) + Blocks(thread[k + 1..], botId)
  {
    assert thread == thread[..k] + [thread[k]] + thread[k + 1..];
    BlocksAppend(thread[..k] + [thread[k]], thread[k + 1..], botId);
    BlocksAppend(thread[..k], [thread[k]], botId);
    assert Blocks([thread[k]], botId) == Block(thread[k], botId) by {
      assert [thread[k]][..0] == [];
    }
  }

  /** One more message's paragraph extends a partial prompt by that message. */
  lemma PromptStep(prompt: string, thread: seq<Message>, i: nat, botId: int)
    requires i < |thread| && prompt == ThreadHeader + Blocks(thread[..i], botId)
    ensures prompt + Block(thread[i], botId) == ThreadHeader + Blocks(thread[..i + 1], botId)
  {
    JoinSnoc(BlockOf(botId), thread, i);
  }

  /** Builds the prompt paragraph by paragraph, as the source's loop does. */
  method FormatThreadForPrompt(thread: seq<Message>, botId: int) returns (prompt: string)
    ensures prompt == FormatThread(thread, botId)
  {
    prompt := ThreadHeader;
    for i := 0 to |thread|
      invariant prompt == ThreadHeader + Blocks(thread[..i], botId)
    {
      var msg := thread[i];
      var sender := if msg.fromId != botId then "User" else "Bot";
      var content := DisplayContent(msg);
      PromptStep(prompt, thread, i, botId);
      prompt := prompt + (sender + ": " + content + "\n\n");
    }
    assert thread[..|thread|] == thread;
    prompt := prompt + ThreadTrailer;
  }
}
