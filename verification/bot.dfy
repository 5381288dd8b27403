/**
 * The assistant chat widget: the store path of a user's conversation and
 * the send transition. A send that is not ignored stores the user's trimmed
 * text, shows it, and then adds exactly one assistant entry: the reply, a
 * fallback when the reply is empty, or an error text.
 *
 * The session, the clock readings and the advisor's parsed answer are
 * parameters. The parsed answer is modelled by its string fields; an absent
 * or empty field reads as "".
 */
module Bot {
  import opened Seqs
  import opened Text

  const NothingText := "Sorry, I got nothing! Try again? 😅"
  const BrokeText := "Oops, something broke! Try again later. 💀"

  datatype Sender = User | Assistant

  datatype Message = Message(id: string, sender: Sender, content: string, timestamp: int)

  /**
   * A record pushed to the store: the message without its id. The code
   * stores the time as `toISOString()` text, which encodes the millisecond
   * reading one to one; the model keeps the reading.
   */
  datatype StoredMessage = StoredMessage(sender: Sender, content: string, timestamp: int)

  datatype Push = Push(path: string, record: StoredMessage)

  /** A signed-in session; its email may be absent. */
  datatype Session = Session(email: Option<string>)

  datatype Chat = Chat(messages: seq<Message>, input: string, loading: bool, typing: bool)

  /** The advisor call: a parsed JSON answer, or a failed request or parse. */
  datatype Answer = Parsed(fields: map<string, string>) | RequestFailed

  /** The state while the request is out, the state after it, and the store pushes, in order. */
  datatype Sent = Sent(during: Chat, after: Chat, pushes: seq<Push>)

  /** `chat/${email?.replace(/\./g, '_')}`: a missing email renders as "undefined". */
  function ChatPath(email: Option<string>): (p: string)
    ensures StartsWith(p, "chat/")
    ensures email.Some? ==> '.' !in p && |p| == 5 + |email.value|
    ensures email.Some? ==> forall i :: 0 <= i < |email.value| && email.value[i] != '.' ==>
      p[5 + i] == email.value[i]
    ensures email.Some? ==> forall i :: 0 <= i < |email.value| && email.value[i] == '.' ==>
      p[5 + i] == '_'
  {
    match email
    case None => "chat/undefined"
    case Some(e) => "chat/" + ReplaceDots(e)
  }

  /** Addresses that differ only in dots versus underscores share one conversation. */
  lemma ChatPathCollides()
    ensures ChatPath(Some("a.b@x.io")) == ChatPath(Some("a_b@x_io"))
  {
  }

  /**
   * Two addresses share one conversation exactly when they have the same
   * length and differ only where both hold a '.' or a '_'.
   */
  lemma SharedChatPath(a: string, b: string)
    ensures ChatPath(Some(a)) == ChatPath(Some(b)) <==>
      |a| == |b| && forall i :: 0 <= i < |a| ==> a[i] == b[i] || (DotLike(a[i]) && DotLike(b[i]))
  {
    var pa, pb := ChatPath(Some(a)), ChatPath(Some(b));
    if pa == pb {
      assert pa[5..] == ReplaceDots(a) && pb[5..] == ReplaceDots(b);
    }
    ReplaceDotsSameKey(a, b);
  }

  function Field(fields: map<string, string>, key: string): string {
    if key in fields then fields[key] else ""
  }

  function FieldsOf(answer: Answer): map<string, string> {
    if answer.Parsed? then answer.fields else map[]
  }

  /** The assistant-side text: an error field or a failed request gives the error text. */
  function AssistantText(answer: Answer): (t: string)
    ensures t != ""
    ensures answer.RequestFailed? ==> t == BrokeText
    ensures answer.Parsed? && Field(answer.fields, "error") != "" ==> t == BrokeText
    ensures answer.Parsed? && Field(answer.fields, "error") == "" ==>
      (Field(answer.fields, "reply") != "" ==> t == Field(answer.fields, "reply"))
      && (Field(answer.fields, "reply") == "" ==> t == NothingText)
  {
    match answer
    case RequestFailed => BrokeText
    case Parsed(fields) =>
      if Field(fields, "error") != "" then BrokeText
      else OrElse(Field(fields, "reply"), NothingText)
  }

  function Stored(m: Message): StoredMessage {
    StoredMessage(m.sender, m.content, m.timestamp)
  }

  /** A send does nothing without text or without a session. */
  predicate Ignored(chat: Chat, session: Option<Session>) {
    IsBlank(chat.input) || session.None?
  }

  /**
   * `handleSendMessage`. `sentAt` is the clock at the send and `repliedAt`
   * at the reply; they name the entries `msg-<time>` and `msg-<time + 1>`.
   * The code reads the clock twice for each entry, `Date.now()` for the id
   * and `new Date()` for the time stamp; each pair is taken as one reading
   * here. No contract states ids or times, so nothing rests on that.
   */
  function SendMessage(chat: Chat, session: Option<Session>, answer: Answer,
                       sentAt: nat, repliedAt: nat): (r: Sent)
    ensures Ignored(chat, session) ==> r == Sent(chat, chat, [])
    ensures !Ignored(chat, session) ==>
      && |r.during.messages| == |chat.messages| + 1
      && r.during.messages[..|chat.messages|] == chat.messages
      && var user := r.during.messages[|chat.messages|];
      user.sender == User && user.content == Trim(chat.input) && user.content != ""
      && r.during.input == "" && r.during.loading && r.during.typing
    ensures !Ignored(chat, session) ==>
      && |r.after.messages| == |r.during.messages| + 1
      && r.after.messages[..|r.during.messages|] == r.during.messages
      && var reply := r.after.messages[|r.during.messages|];
      reply.sender == Assistant && reply.content == AssistantText(answer)
      && r.after.input == "" && !r.after.loading && !r.after.typing
    ensures !Ignored(chat, session) ==>
      |r.pushes| == 2
      && r.pushes[0].path == ChatPath(session.value.email)
      && r.pushes[1].path == ChatPath(session.value.email)
  {
    if Ignored(chat, session) then Sent(chat, chat, [])
    else
      var path := ChatPath(session.value.email);
      var user := Message("msg-" + Decimal(sentAt), User, Trim(chat.input), sentAt);
      assert user.content != "" by { TrimEmptyIffBlank(chat.input); }
      var during := Chat(chat.messages + [user], "", true, true);
      var reply := Message("msg-" + Decimal(repliedAt + 1), Assistant, AssistantText(answer), repliedAt);
      var after := Chat(during.messages + [reply], "", false, false);
      assert during.messages[..|chat.messages|] == chat.messages;
      assert after.messages[..|during.messages|] == during.messages;
      Sent(during, after, [Push(path, Stored(user)), Push(path, Stored(reply))])
  }

  /** The two pushes store exactly the two entries the widget appended, in the same order. */
  lemma SendStoresWhatItShows(chat: Chat, session: Option<Session>, answer: Answer,
                              sentAt: nat, repliedAt: nat)
    requires !Ignored(chat, session)
    ensures
      var r := SendMessage(chat, session, answer, sentAt, repliedAt);
      var n := |chat.messages|;
      && r.after.messages[..n] == chat.messages
      && |r.after.messages| == n + 2
      && r.pushes[0].record == Stored(r.after.messages[n])
      && r.pushes[1].record == Stored(r.after.messages[n + 1])
  {
  }

  /** After a send every message before it is kept and exactly one assistant entry follows the user's. */
  lemma OneAssistantEntryPerSend(chat: Chat, session: Option<Session>, answer: Answer,
                                 sentAt: nat, repliedAt: nat)
    requires !Ignored(chat, session)
    ensures
      var after := SendMessage(chat, session, answer, sentAt, repliedAt).after.messages;
      var added := after[|chat.messages|..];
      |added| == 2 && added[0].sender == User && added[1].sender == Assistant
      && added[1].content in {Field(FieldsOf(answer), "reply"), NothingText, BrokeText}
  {
  }

  /**
   * The advisor endpoint's catch-all payload carries `response`, not `reply`;
   * shown in this widget it reads as the empty-reply fallback.
   */
  lemma AdvisorFallbackShowsNothing(fallbackText: string)
    ensures AssistantText(Parsed(map["response" := fallbackText])) == NothingText
  {
  }
}
