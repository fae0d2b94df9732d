/**
 * The chat service: conversations owned by a user, and a message log in
 * insertion order, so "`createdAt` ascending" is that order and "descending"
 * its reverse. The assistant is a function from the conversation so far to
 * its outcome; a new chat's identifier is an input the database guarantees
 * to be unused.
 */
module Chats {
  import opened Common

  datatype Chat = Chat(id: string, userId: string, title: string)

  /** A stored message; `role` is "user" or "assistant". */
  datatype Message = Message(chatId: string, role: string, content: string)

  /** One entry of the conversation handed to the assistant. */
  datatype Turn = Turn(role: string, content: string)

  /**
   * What asking the assistant ends in: a response whose `content` may be
   * missing; no response object at all (what generateResponse in
   * openai.service.ts yields, since it returns nothing); or a thrown failure.
   */
  datatype AiResult = Response(content: Option<string>) | NoResponseObject | Failure

  /** `getChat`'s answer: the chat with its messages. */
  datatype ChatView = ChatView(chat: Chat, messages: seq<Message>)

  /** One entry of `getChats`: the chat with at most its latest message. */
  datatype ChatSummary = ChatSummary(chat: Chat, latest: seq<Message>)

  datatype DeleteResult = DeleteResult(success: bool)

  const DefaultTitle := "New Conversation"

  /** `dto.title || 'New Conversation'` */
  function TitleOrDefault(title: Option<string>): (t: string)
    ensures title.Some? && title.value != "" ==> t == title.value
    ensures title.None? || title == Some("") ==> t == DefaultTitle
  {
    if title.Some? && title.value != "" then title.value else DefaultTitle
  }

  /**
   * `content.slice(0, 30) + (content.length > 30 ? '...' : '')`: a short
   * message is the title as it is; a longer one is cut to 30 characters and
   * marked with an ellipsis.
   */
  function TitleFrom(content: string): (t: string)
    ensures |t| <= 33
    ensures |content| <= 30 ==> t == content
    ensures |content| > 30 ==> |t| == 33 && t[..30] == content[..30] && t[30..] == "..."
  {
    if |content| > 30 then content[..30] + "..." else content
  }

  /** The position of the first chat with identifier `id`. */
  function IndexOfChat(chats: seq<Chat>, id: string): (r: Option<nat>)
    ensures r.Some? ==> r.value < |chats| && chats[r.value].id == id
    ensures r.None? <==> forall j :: 0 <= j < |chats| ==> chats[j].id != id
  {
    if chats == [] then None
    else if chats[0].id == id then Some(0)
    else match IndexOfChat(chats[1..], id)
      case None => None
      case Some(k) => Some(k + 1)
  }

  ghost predicate UniqueChatIds(chats: seq<Chat>) {
    forall i, j :: 0 <= i < j < |chats| ==> chats[i].id != chats[j].id
  }

  /** `findFirst({ where: { id, userId } })`: the chat with that identifier, when it belongs to that user. */
  function FindChat(chats: seq<Chat>, id: string, userId: string): (r: Option<Chat>)
    ensures r.Some? ==> r.value in chats && r.value.id == id && r.value.userId == userId
  {
    match IndexOfChat(chats, id)
    case None => None
    case Some(i) => if chats[i].userId == userId then Some(chats[i]) else None
  }

  /** With unique identifiers, a chat is found exactly when a chat with that identifier and owner exists. */
  lemma FindChatExact(chats: seq<Chat>, id: string, userId: string)
    requires UniqueChatIds(chats)
    ensures FindChat(chats, id, userId).Some? <==>
              exists j :: 0 <= j < |chats| && chats[j].id == id && chats[j].userId == userId
  {
    if exists j :: 0 <= j < |chats| && chats[j].id == id && chats[j].userId == userId {
      var j :| 0 <= j < |chats| && chats[j].id == id && chats[j].userId == userId;
      var i := IndexOfChat(chats, id).value;
      assert !(i < j) && !(j < i);
    }
  }

  /** The messages of one chat, oldest first. */
  function MessagesOf(messages: seq<Message>, chatId: string): (r: seq<Message>)
    ensures |r| <= |messages|
    ensures forall m :: m in r <==> m in messages && m.chatId == chatId
  {
    if messages == [] then []
    else if messages[0].chatId == chatId then [messages[0]] + MessagesOf(messages[1..], chatId)
    else MessagesOf(messages[1..], chatId)
  }

  lemma {:induction false} MessagesOfAppend(messages: seq<Message>, extra: seq<Message>, chatId: string)
    ensures MessagesOf(messages + extra, chatId) == MessagesOf(messages, chatId) + MessagesOf(extra, chatId)
  {
    if messages == [] {
      assert messages + extra == extra;
    } else {
      assert (messages + extra)[1..] == messages[1..] + extra;
      MessagesOfAppend(messages[1..], extra, chatId);
    }
  }

  /** The chats of one user, oldest first. */
  function ChatsOf(chats: seq<Chat>, userId: string): (r: seq<Chat>)
    ensures forall c :: c in r <==> c in chats && c.userId == userId
  {
    if chats == [] then []
    else if chats[0].userId == userId then [chats[0]] + ChatsOf(chats[1..], userId)
    else ChatsOf(chats[1..], userId)
  }

  /** Another user's chat does not change what a user's chats are; a new chat of the user comes last. */
  lemma {:induction false} ChatsOfAppend(chats: seq<Chat>, c: Chat, userId: string)
    ensures ChatsOf(chats + [c], userId) == ChatsOf(chats, userId) + (if c.userId == userId then [c] else [])
  {
    if chats == [] {
      assert chats + [c] == [c];
      assert [c][1..] == [];
    } else {
      assert (chats + [c])[1..] == chats[1..] + [c];
      ChatsOfAppend(chats[1..], c, userId);
    }
  }

  /** `messages: { take: 1, orderBy: { createdAt: 'desc' } }`: the chat's last message, if any. */
  function LatestMessage(messages: seq<Message>, chatId: string): (r: seq<Message>)
    ensures |r| <= 1
    ensures r == [] <==> MessagesOf(messages, chatId) == []
    ensures r != [] ==> r[0] == MessagesOf(messages, chatId)[|MessagesOf(messages, chatId)| - 1]
  {
    var mine := MessagesOf(messages, chatId);
    if mine == [] then [] else [mine[|mine| - 1]]
  }

  /** The conversation handed to the assistant: the earlier messages and then the new user message. */
  function History(prior: seq<Message>, content: string): (h: seq<Turn>)
    ensures |h| == |prior| + 1
    ensures forall i :: 0 <= i < |prior| ==> h[i] == Turn(prior[i].role, prior[i].content)
    ensures h[|prior|] == Turn("user", content)
  {
    seq(|prior|, i requires 0 <= i < |prior| => Turn(prior[i].role, prior[i].content)) + [Turn("user", content)]
  }

  /** `deleteMany({ where: { id, userId } })`: every chat but those with that identifier and owner. */
  function WithoutChat(chats: seq<Chat>, id: string, userId: string): (r: seq<Chat>)
    ensures |r| <= |chats|
    ensures forall c :: c in r <==> c in chats && !(c.id == id && c.userId == userId)
  {
    if chats == [] then []
    else if chats[0].id == id && chats[0].userId == userId then WithoutChat(chats[1..], id, userId)
    else [chats[0]] + WithoutChat(chats[1..], id, userId)
  }

  lemma {:induction false} WithoutChatKeepsUnique(chats: seq<Chat>, id: string, userId: string)
    requires UniqueChatIds(chats)
    ensures UniqueChatIds(WithoutChat(chats, id, userId))
  {
    if chats != [] {
      var tail := chats[1..];
      TailUnique(chats);
      WithoutChatKeepsUnique(tail, id, userId);
      var rest := WithoutChat(tail, id, userId);
      if !(chats[0].id == id && chats[0].userId == userId) {
        assert forall j :: 0 <= j < |rest| ==> rest[j] in tail;
        ConsUnique(chats[0], rest);
      }
    }
  }

  /** The rest of a list with unique identifiers has unique identifiers, none of them the first one's. */
  lemma TailUnique(chats: seq<Chat>)
    requires chats != [] && UniqueChatIds(chats)
    ensures UniqueChatIds(chats[1..])
    ensures forall c :: c in chats[1..] ==> c.id != chats[0].id
  {
    var tail := chats[1..];
    forall i, j | 0 <= i < j < |tail| ensures tail[i].id != tail[j].id {
      assert tail[i] == chats[i + 1] && tail[j] == chats[j + 1];
    }
    forall c | c in tail ensures c.id != chats[0].id {
      var k :| 0 <= k < |tail| && tail[k] == c;
      assert chats[k + 1] == c;
    }
  }

  /** A chat whose identifier none of `rest` has can be put in front of it. */
  lemma ConsUnique(c: Chat, rest: seq<Chat>)
    requires UniqueChatIds(rest) && forall j :: 0 <= j < |rest| ==> rest[j].id != c.id
    ensures UniqueChatIds([c] + rest)
  {
    var r := [c] + rest;
    forall a, b | 0 <= a < b < |r| ensures r[a].id != r[b].id {
      assert r[b] == rest[b - 1];
      if a > 0 {
        assert r[a] == rest[a - 1];
      }
    }
  }

  class ChatStore {
    var chats: seq<Chat>
    var messages: seq<Message>

    /** The primary key of the chat table. */
    ghost predicate Valid()
      reads this
    {
      UniqueChatIds(chats)
    }

    constructor ()
      ensures Valid() && chats == [] && messages == []
    {
      chats := [];
      messages := [];
    }

    /** `createChat(userId, dto)`: a new chat of that user, titled `dto.title` or "New Conversation". */
    method CreateChat(userId: string, title: Option<string>, id: string) returns (c: Chat)
      requires Valid()
      requires forall j :: 0 <= j < |chats| ==> chats[j].id != id
      modifies this
      ensures Valid()
      ensures c == Chat(id, userId, TitleOrDefault(title))
      ensures chats == old(chats) + [c] && messages == old(messages)
    {
      c := Chat(id, userId, TitleOrDefault(title));
      chats := chats + [c];
    }

    /** `getChats(userId)`: the user's chats, newest first, each with at most its latest message. */
    function GetChats(userId: string): (r: seq<ChatSummary>)
      reads this
      ensures var mine := ChatsOf(chats, userId);
        |r| == |mine|
        && forall i :: 0 <= i < |r| ==>
             r[i].chat == mine[|mine| - 1 - i] && r[i].latest == LatestMessage(messages, r[i].chat.id)
      ensures forall i :: 0 <= i < |r| ==> r[i].chat in chats && r[i].chat.userId == userId && |r[i].latest| <= 1
    {
      var newest := Reverse(ChatsOf(chats, userId));
      var log := messages;
      seq(|newest|, i requires 0 <= i < |newest| => ChatSummary(newest[i], LatestMessage(log, newest[i].id)))
    }

    /** `getChat(id, userId)`: the chat and its messages oldest first, or null when the user has no such chat. */
    function GetChat(id: string, userId: string): (r: Option<ChatView>)
      reads this
      ensures r.Some? <==> FindChat(chats, id, userId).Some?
      ensures r.Some? ==> (r.value.chat == FindChat(chats, id, userId).value
                           && r.value.chat.userId == userId
                           && r.value.messages == MessagesOf(messages, id))
    {
      match FindChat(chats, id, userId)
      case None => None
      case Some(c) => Some(ChatView(c, MessagesOf(messages, id)))
    }

    /**
     * `sendMessage(chatId, userId, dto)`: after checking that the user owns
     * the chat, stores the user's message, asks the assistant with the whole
     * conversation, stores its answer ("No response" when it has no content)
     * and, for a chat that had no messages before, derives the title from
     * the message. A failure of the assistant leaves the user's message
     * stored.
     */
    method SendMessage(chatId: string, userId: string, content: string, assistant: seq<Turn> -> AiResult)
      returns (r: Result<Option<ChatView>>)
      requires Valid()
      modifies this
      ensures Valid()
      ensures old(FindChat(chats, chatId, userId)).None? ==>
                r == Err(PlainError("Chat not found")) && chats == old(chats) && messages == old(messages)
      ensures old(FindChat(chats, chatId, userId)).Some? ==>
                var prior := old(MessagesOf(messages, chatId));
                var i := old(IndexOfChat(chats, chatId)).value;
                var asked := Message(chatId, "user", content);
                match assistant(History(prior, content))
                case Failure =>
                  r == Err(PlainError("Failed to generate AI response"))
                  && messages == old(messages) + [asked] && chats == old(chats)
                case NoResponseObject =>
                  r == Err(TypeError("Cannot read properties of undefined (reading 'content')"))
                  && messages == old(messages) + [asked] && chats == old(chats)
                case Response(answer) =>
                  && messages == old(messages) + [asked, Message(chatId, "assistant", answer.GetOr("No response"))]
                  && chats == (if prior == [] then old(chats)[i := old(chats)[i].(title := TitleFrom(content))]
                               else old(chats))
                  && r == Ok(GetChat(chatId, userId)) && r.value.Some?
    {
      var chat := FindChat(chats, chatId, userId);
      if chat.None? {
        return Err(PlainError("Chat not found"));
      }
      var prior := MessagesOf(messages, chatId);
      messages := messages + [Message(chatId, "user", content)];
      var aiResponse := assistant(History(prior, content));
      match aiResponse {
        case Failure =>
          return Err(PlainError("Failed to generate AI response"));
        case NoResponseObject =>
          return Err(TypeError("Cannot read properties of undefined (reading 'content')"));
        case Response(answer) =>
          var reply := Message(chatId, "assistant", answer.GetOr("No response"));
          assert messages + [reply] == old(messages) + [Message(chatId, "user", content), reply];
          messages := messages + [reply];
      }
      var i := IndexOfChat(chats, chatId).value;
      if |prior| == 0 {
        chats := chats[i := chats[i].(title := TitleFrom(content))];
        RetitleKeepsIndex(old(chats), i, TitleFrom(content), chatId);
      }
      r := Ok(GetChat(chatId, userId));
    }

    /** `deleteChat(id, userId)`: removes that user's chat with that identifier, if any, and reports success. */
    method DeleteChat(id: string, userId: string) returns (r: DeleteResult)
      requires Valid()
      modifies this
      ensures Valid()
      ensures chats == WithoutChat(old(chats), id, userId) && messages == old(messages)
      ensures r == DeleteResult(true)
    {
      WithoutChatKeepsUnique(chats, id, userId);
      chats := WithoutChat(chats, id, userId);
      r := DeleteResult(true);
    }
  }

  /** Renaming the chat at position `i` keeps identifiers, owners and positions. */
  lemma RetitleKeepsIndex(chats: seq<Chat>, i: nat, title: string, id: string)
    requires i < |chats| && IndexOfChat(chats, id) == Some(i)
    ensures UniqueChatIds(chats) ==> UniqueChatIds(chats[i := chats[i].(title := title)])
    ensures IndexOfChat(chats[i := chats[i].(title := title)], id) == Some(i)
    ensures FindChat(chats[i := chats[i].(title := title)], id, chats[i].userId).Some?
  {
    var renamed := chats[i := chats[i].(title := title)];
    assert forall j :: 0 <= j < |chats| ==> renamed[j].id == chats[j].id;
    IndexOfChatSameIds(chats, renamed, id);
  }

  lemma {:induction false} IndexOfChatSameIds(a: seq<Chat>, b: seq<Chat>, id: string)
    requires |a| == |b| && forall j :: 0 <= j < |a| ==> a[j].id == b[j].id
    ensures IndexOfChat(a, id) == IndexOfChat(b, id)
  {
    if a != [] {
      IndexOfChatSameIds(a[1..], b[1..], id);
    }
  }

  /** After a delete, the user's chat with that identifier is gone and every other chat is kept. */
  lemma DeleteRemovesOnlyThatChat(chats: seq<Chat>, id: string, userId: string, c: Chat)
    requires UniqueChatIds(chats)
    ensures FindChat(WithoutChat(chats, id, userId), id, userId) == None
    ensures c in chats && !(c.id == id && c.userId == userId) ==> c in WithoutChat(chats, id, userId)
  {
    var rest := WithoutChat(chats, id, userId);
    WithoutChatKeepsUnique(chats, id, userId);
    FindChatExact(rest, id, userId);
  }

  /** Another user can neither read, write to nor delete a chat they do not own. */
  lemma OwnershipIsolation(chats: seq<Chat>, id: string, owner: string, other: string)
    requires UniqueChatIds(chats) && other != owner
    requires exists j :: 0 <= j < |chats| && chats[j].id == id && chats[j].userId == owner
    ensures FindChat(chats, id, other) == None
    ensures WithoutChat(chats, id, other) == chats
  {
    var j :| 0 <= j < |chats| && chats[j].id == id && chats[j].userId == owner;
    FindChatExact(chats, id, other);
    WithoutChatUnchanged(chats, id, other);
  }

  lemma {:induction false} WithoutChatUnchanged(chats: seq<Chat>, id: string, userId: string)
    requires forall j :: 0 <= j < |chats| ==> !(chats[j].id == id && chats[j].userId == userId)
    ensures WithoutChat(chats, id, userId) == chats
  {
    if chats != [] {
      WithoutChatUnchanged(chats[1..], id, userId);
      assert [chats[0]] + chats[1..] == chats;
    }
  }

  /** The first exchange of a chat adds the user's message and then the answer, and names the chat after the message. */
  lemma FirstExchangeView(messages: seq<Message>, chatId: string, content: string, answer: string)
    requires MessagesOf(messages, chatId) == []
    ensures var after := messages + [Message(chatId, "user", content), Message(chatId, "assistant", answer)];
      MessagesOf(after, chatId) == [Message(chatId, "user", content), Message(chatId, "assistant", answer)]
  {
    var extra := [Message(chatId, "user", content), Message(chatId, "assistant", answer)];
    MessagesOfAppend(messages, extra, chatId);
    assert extra[1..][1..] == [];
  }
}
