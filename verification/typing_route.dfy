/**
 * The typing-indicator endpoint: it validates the request, derives the
 * conversation key of the two participants, and writes the typing flag
 * under `typing/<skill>/<conversation>/<user>` in the realtime store.
 *
 * A body that is not JSON is `None`. Absent or empty string fields are "";
 * `isTyping` is `None` unless it is a boolean. The store write's success is
 * a parameter.
 */
module TypingRoute {
  import opened Seqs
  import opened Text

  datatype TypingRequest = TypingRequest(
    skillId: string,
    userEmail: string,
    recipientEmail: string,
    isTyping: Option<bool>)

  /** The one write the route makes: the flag, at a path. */
  datatype TypingWrite = TypingWrite(path: string, isTyping: bool)

  datatype Body = Invalid | Success | UpdateFailed

  /** The reply, and the write that was attempted (none when the request was refused). */
  datatype Reply = Reply(status: int, body: Body, write: Option<TypingWrite>)

  predicate Valid(q: TypingRequest) {
    q.skillId != "" && q.userEmail != "" && q.recipientEmail != "" && q.isTyping.Some?
  }

  /** `[a, b].sort()`: the two addresses in ascending order, `a` first when they tie. */
  function SortPair(a: string, b: string): (r: seq<string>)
    ensures r == [a, b] || r == [b, a]
    ensures !Less(r[1], r[0])
  {
    if Less(b, a) then
      LessAsymmetric(b, a);
      [b, a]
    else [a, b]
  }

  /** The conversation key: the sorted pair joined by '_' with every '.' replaced by '_'. */
  function ChatId(a: string, b: string): (r: string)
    ensures '.' !in r
    ensures |r| == |a| + |b| + 1
    ensures !Less(b, a) ==> r == ReplaceDots(a) + "_" + ReplaceDots(b)
    ensures Less(b, a) ==> r == ReplaceDots(b) + "_" + ReplaceDots(a)
  {
    var pair := SortPair(a, b);
    assert Join(pair, "_") == pair[0] + "_" + pair[1] by {
      assert Join(pair[1..], "_") == pair[1];
    }
    SanitisedJoin(pair[0], pair[1]);
    ReplaceDots(Join(pair, "_"))
  }

  /** Sanitising `x + "_" + y` sanitises each side and keeps the separator. */
  lemma SanitisedJoin(x: string, y: string)
    ensures ReplaceDots(x + "_" + y) == ReplaceDots(x) + "_" + ReplaceDots(y)
  {
    ReplaceDotsAppend(x + "_", y);
    ReplaceDotsAppend(x, "_");
    assert ReplaceDots("_") == "_";
  }

  /** Both participants derive the same conversation key. */
  lemma ChatIdSymmetric(a: string, b: string)
    ensures ChatId(a, b) == ChatId(b, a)
  {
    if a != b {
      LessTotal(a, b);
      if Less(a, b) {
        LessAsymmetric(a, b);
      } else {
        LessAsymmetric(b, a);
      }
    }
  }

  /** The key is not injective: an address with a dot and one with an underscore collide. */
  lemma ChatIdCollides()
    ensures ChatId("a.b@x", "c@x") == ChatId("a_b@x", "c@x")
  {
    assert Less("a.b@x", "c@x");
    assert Less("a_b@x", "c@x");
    assert Join(["a.b@x", "c@x"], "_") == "a.b@x_c@x";
    assert Join(["a_b@x", "c@x"], "_") == "a_b@x_c@x";
  }

  /** The store path of the user's typing flag in this conversation. */
  function TypingPath(q: TypingRequest): (p: string)
    ensures '/' !in q.skillId && '/' !in q.userEmail && '/' !in q.recipientEmail ==>
      Split(p, '/') == ["typing", q.skillId, ChatId(q.userEmail, q.recipientEmail), ReplaceDots(q.userEmail)]
  {
    var chat := ChatId(q.userEmail, q.recipientEmail);
    var user := ReplaceDots(q.userEmail);
    var p := "typing" + "/" + q.skillId + "/" + chat + "/" + user;
    assert '/' !in q.skillId && '/' !in q.userEmail && '/' !in q.recipientEmail ==>
      Split(p, '/') == ["typing", q.skillId, chat, user] by {
      if '/' !in q.skillId && '/' !in q.userEmail && '/' !in q.recipientEmail {
        PathSegments(q.skillId, q.userEmail, q.recipientEmail);
      }
    }
    p
  }

  lemma PathSegments(skill: string, user: string, other: string)
    requires '/' !in skill && '/' !in user && '/' !in other
    ensures
      var chat := ChatId(user, other);
      var u := ReplaceDots(user);
      Split("typing" + "/" + skill + "/" + chat + "/" + u, '/') == ["typing", skill, chat, u]
  {
    var chat := ChatId(user, other);
    var u := ReplaceDots(user);
    NoSlashInChatId(user, other);
    NoSlashAfterReplace(user);
    FourSegments("typing", skill, chat, u);
  }

  lemma NoSlashAfterReplace(s: string)
    requires '/' !in s
    ensures '/' !in ReplaceDots(s)
  {
    var r := ReplaceDots(s);
    forall i | 0 <= i < |r| ensures r[i] != '/' {
      assert r[i] == (if s[i] == '.' then '_' else s[i]);
    }
  }

  lemma NoSlashInChatId(a: string, b: string)
    requires '/' !in a && '/' !in b
    ensures '/' !in ChatId(a, b)
  {
    var pair := SortPair(a, b);
    assert Join(pair[1..], "_") == pair[1];
    var joined := Join(pair, "_");
    assert joined == pair[0] + "_" + pair[1];
    assert '/' !in joined;
    NoSlashAfterReplace(joined);
  }

  lemma ThreeSegments(x: string, y: string, z: string)
    requires '/' !in x && '/' !in y && '/' !in z
    ensures Split(x + ['/'] + (y + ['/'] + z), '/') == [x, y, z]
  {
    SplitAfterPiece(y, '/', z);
    SplitAfterPiece(x, '/', y + ['/'] + z);
  }

  lemma FourNestedSegments(w: string, x: string, y: string, z: string)
    requires '/' !in w && '/' !in x && '/' !in y && '/' !in z
    ensures Split(w + ['/'] + (x + ['/'] + (y + ['/'] + z)), '/') == [w, x, y, z]
  {
    ThreeSegments(x, y, z);
    SplitAfterPiece(w, '/', x + ['/'] + (y + ['/'] + z));
  }

  /** Four slash-free segments joined by '/' split back into those four. */
  lemma FourSegments(w: string, x: string, y: string, z: string)
    requires '/' !in w && '/' !in x && '/' !in y && '/' !in z
    ensures Split(w + "/" + x + "/" + y + "/" + z, '/') == [w, x, y, z]
  {
    SlashJoinAssoc(w, x, y, z);
    FourNestedSegments(w, x, y, z);
  }

  lemma SlashJoinAssoc(w: string, x: string, y: string, z: string)
    ensures w + "/" + x + "/" + y + "/" + z == w + ['/'] + (x + ['/'] + (y + ['/'] + z))
  {
  }

  /** The route handler. */
  function Post(req: Option<TypingRequest>, storeOk: bool): (r: Reply)
    ensures req.None? ==> r.status == 500 && r.write.None?
    ensures req.Some? && !Valid(req.value) ==> r == Reply(400, Invalid, None)
    ensures req.Some? && Valid(req.value) ==>
      r.write == Some(TypingWrite(TypingPath(req.value), req.value.isTyping.value))
    ensures r.status == 200 <==> req.Some? && Valid(req.value) && storeOk
    ensures r.status == 200 ==> r.body == Success
  {
    match req
    case None => Reply(500, UpdateFailed, None)
    case Some(q) =>
      if !Valid(q) then Reply(400, Invalid, None)
      else
        var w := TypingWrite(TypingPath(q), q.isTyping.value);
        if storeOk then Reply(200, Success, Some(w)) else Reply(500, UpdateFailed, Some(w))
  }

  /** The two participants' flags sit side by side under one conversation node. */
  lemma ParticipantsShareConversation(skill: string, a: string, b: string, typing: bool, storeOk: bool)
    requires skill != "" && a != "" && b != ""
    requires '/' !in skill && '/' !in a && '/' !in b
    ensures
      var wa := Post(Some(TypingRequest(skill, a, b, Some(typing))), storeOk).write.value;
      var wb := Post(Some(TypingRequest(skill, b, a, Some(typing))), storeOk).write.value;
      var chat := ChatId(a, b);
      Split(wa.path, '/') == ["typing", skill, chat, ReplaceDots(a)]
      && Split(wb.path, '/') == ["typing", skill, chat, ReplaceDots(b)]
  {
    var qa := TypingRequest(skill, a, b, Some(typing));
    var qb := TypingRequest(skill, b, a, Some(typing));
    assert Post(Some(qa), storeOk).write.value.path == TypingPath(qa);
    assert Post(Some(qb), storeOk).write.value.path == TypingPath(qb);
    ChatIdSymmetric(a, b);
  }
}
