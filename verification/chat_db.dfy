/** The chat-side queries of lib/supabase/db.ts: saving a chat, voting on a
    message, the ordered cascade that deletes a chat, and the ordered list
    queries. Tables are maps keyed by their primary key; list queries take
    a table's rows in storage order. */
module ChatDb {
  import opened Common
  import opened Sorting

  datatype Visibility = Private | Public

  datatype Chat = Chat(id: string, userId: string, title: string, visibility: Visibility, createdAt: int)

  datatype Message = Message(id: string, chatId: string, role: string, content: string, createdAt: int)

  datatype Document = Document(id: string, title: string, kind: string, content: string, userId: string, createdAt: int)

  /** A row of `votes`; `vote` is +1 or -1 when written by `voteMessage`. */
  datatype Vote = Vote(chatId: string, messageId: string, userId: string, vote: int)

  /** Votes are looked up by (message id, user id). */
  type VoteKey = (string, string)

  type VoteTable = map<VoteKey, Vote>

  datatype ChatStore = ChatStore(votes: VoteTable, messages: map<string, Message>, chats: map<string, Chat>)

  datatype DbError = QueryFailed | DuplicateKey

  /** Every vote is stored under its own (message id, user id). */
  predicate VotesWellKeyed(v: VoteTable) {
    forall k :: k in v ==> v[k].messageId == k.0 && v[k].userId == k.1
  }

  /** `saveChat`: inserts a chat stamped with the current time; the
      visibility defaults to private. An insert on an existing id violates
      the primary key and throws, as does any failed write. */
  function SaveChat(chats: map<string, Chat>, id: string, userId: string, title: string,
                    visibility: Option<Visibility>, now: int, writeFails: bool): (r: Result<map<string, Chat>, DbError>)
    ensures r.Success? <==> !writeFails && id !in chats
    ensures r.Success? ==> r.value.Keys == chats.Keys + {id}
    ensures r.Success? ==> forall c :: c in chats ==> r.value[c] == chats[c]
    ensures r.Success? ==>
      r.value[id].id == id && r.value[id].userId == userId && r.value[id].title == title && r.value[id].createdAt == now
    ensures r.Success? ==> r.value[id].visibility == (if visibility.Some? then visibility.value else Private)
  {
    if writeFails then Failure(QueryFailed)
    else if id in chats then Failure(DuplicateKey)
    else Success(chats[id := Chat(id, userId, title, visibility.GetOr(Private), now)])
  }

  /** `type === 'up' ? 1 : -1`. */
  function VoteValue(kind: string): int {
    if kind == "up" then 1 else -1
  }

  /** `voteMessage`: look up the caller's vote on the message (an error
      throws), then overwrite its value or insert a new vote. An overwrite
      changes only the value; the chat id stays as first recorded. */
  function VoteMessage(votes: VoteTable, chatId: string, messageId: string, userId: string, kind: string,
                       lookupFails: bool, writeFails: bool): (r: Result<VoteTable, DbError>)
    ensures r.Success? <==> !lookupFails && !writeFails
    ensures r.Success? ==> r.value.Keys == votes.Keys + {(messageId, userId)}
    ensures r.Success? ==> forall k :: k in votes && k != (messageId, userId) ==> r.value[k] == votes[k]
    ensures r.Success? ==> r.value[(messageId, userId)].vote == (if kind == "up" then 1 else -1)
    ensures r.Success? && (messageId, userId) in votes ==>
      r.value[(messageId, userId)] == votes[(messageId, userId)].(vote := VoteValue(kind))
    ensures r.Success? && (messageId, userId) !in votes ==>
      r.value[(messageId, userId)] == Vote(chatId, messageId, userId, VoteValue(kind))
    ensures r.Success? && VotesWellKeyed(votes) ==> VotesWellKeyed(r.value)
  {
    if lookupFails then Failure(QueryFailed)
    else
      var key := (messageId, userId);
      var value := VoteValue(kind);
      if writeFails then Failure(QueryFailed)
      else if key in votes then Success(votes[key := votes[key].(vote := value)])
      else Success(votes[key := Vote(chatId, messageId, userId, value)])
  }

  /** A repeated vote by the same user on the same message replaces the
      first: voting twice is voting once with the later choice. */
  lemma LastVoteWins(votes: VoteTable, chatId: string, messageId: string, userId: string, first: string, second: string)
    ensures var once := VoteMessage(votes, chatId, messageId, userId, first, false, false).value;
            VoteMessage(once, chatId, messageId, userId, second, false, false)
            == VoteMessage(votes, chatId, messageId, userId, second, false, false)
  {
    var key := (messageId, userId);
    var once := VoteMessage(votes, chatId, messageId, userId, first, false, false).value;
    var twice := VoteMessage(once, chatId, messageId, userId, second, false, false).value;
    var direct := VoteMessage(votes, chatId, messageId, userId, second, false, false).value;
    assert twice[key] == direct[key];
    assert twice == direct;
  }

  /** The step of the cascade whose query fails, if any. */
  datatype DeleteStep = VotesStep | MessagesStep | ChatStep

  datatype DeleteOutcome = DeleteOutcome(store: ChatStore, ok: bool)

  function VotesOutside(v: VoteTable, chatId: string): VoteTable {
    map k | k in v && v[k].chatId != chatId :: v[k]
  }

  function MessagesOutside(m: map<string, Message>, chatId: string): map<string, Message> {
    map k | k in m && m[k].chatId != chatId :: m[k]
  }

  /** `deleteChatById`: deletes the chat's votes, then its messages, then the
      chat. The steps are separate queries, so a failing step throws after
      the earlier deletions have taken effect and before the later ones. */
  function DeleteChatById(s: ChatStore, id: string, failing: Option<DeleteStep>): (r: DeleteOutcome)
    ensures r.ok <==> failing.None?
    // what each step deletes
    ensures failing != Some(VotesStep) ==>
      r.store.votes.Keys == (set k | k in s.votes && s.votes[k].chatId != id) &&
      forall k :: k in r.store.votes ==> r.store.votes[k] == s.votes[k]
    ensures failing.None? || failing == Some(ChatStep) ==>
      r.store.messages.Keys == (set k | k in s.messages && s.messages[k].chatId != id) &&
      forall k :: k in r.store.messages ==> r.store.messages[k] == s.messages[k]
    ensures failing.None? ==> r.store.chats == s.chats - {id}
    // a failure aborts every later step
    ensures failing == Some(VotesStep) ==> r.store == s
    ensures failing == Some(MessagesStep) ==> r.store.messages == s.messages && r.store.chats == s.chats
    ensures failing == Some(ChatStep) ==> r.store.chats == s.chats
  {
    var s1 := s.(votes := VotesOutside(s.votes, id));
    var s2 := s1.(messages := MessagesOutside(s1.messages, id));
    match failing
    case Some(VotesStep) => DeleteOutcome(s, false)
    case Some(MessagesStep) => DeleteOutcome(s1, false)
    case Some(ChatStep) => DeleteOutcome(s2, false)
    case None => DeleteOutcome(s2.(chats := s2.chats - {id}), true)
  }

  /** After a successful delete nothing refers to the chat any more. */
  lemma DeleteLeavesNoTrace(s: ChatStore, id: string)
    ensures var t := DeleteChatById(s, id, None).store;
            && id !in t.chats
            && (forall k :: k in t.votes ==> t.votes[k].chatId != id)
            && (forall k :: k in t.messages ==> t.messages[k].chatId != id)
  {
  }

  function ChatCreatedAt(c: Chat): int { c.createdAt }
  function MessageCreatedAt(m: Message): int { m.createdAt }
  function DocumentCreatedAt(d: Document): int { d.createdAt }

  /** `getChatsByUserId`: the user's chats, newest first. A query error
      throws. */
  function GetChatsByUserId(rows: seq<Chat>, userId: string, fails: bool): (r: Result<seq<Chat>, DbError>)
    ensures r.Success? <==> !fails
    ensures r.Success? ==> SortedDesc(r.value, ChatCreatedAt)
    ensures r.Success? ==> forall c :: multiset(r.value)[c] == (if c.userId == userId then multiset(rows)[c] else 0)
  {
    if fails then Failure(QueryFailed)
    else Success(SortDesc(Filter(rows, (c: Chat) => c.userId == userId), ChatCreatedAt))
  }

  /** `getMessagesByChatId`: the chat's messages, oldest first. */
  function GetMessagesByChatId(rows: seq<Message>, chatId: string, fails: bool): (r: Result<seq<Message>, DbError>)
    ensures r.Success? <==> !fails
    ensures r.Success? ==> SortedAsc(r.value, MessageCreatedAt)
    ensures r.Success? ==> forall m :: multiset(r.value)[m] == (if m.chatId == chatId then multiset(rows)[m] else 0)
  {
    if fails then Failure(QueryFailed)
    else Success(SortAsc(Filter(rows, (m: Message) => m.chatId == chatId), MessageCreatedAt))
  }

  /** `getDocumentsById`: every saved version of the document, newest first. */
  function GetDocumentsById(rows: seq<Document>, id: string, fails: bool): (r: Result<seq<Document>, DbError>)
    ensures r.Success? <==> !fails
    ensures r.Success? ==> SortedDesc(r.value, DocumentCreatedAt)
    ensures r.Success? ==> forall d :: multiset(r.value)[d] == (if d.id == id then multiset(rows)[d] else 0)
  {
    if fails then Failure(QueryFailed)
    else Success(SortDesc(Filter(rows, (d: Document) => d.id == id), DocumentCreatedAt))
  }
}
