/**
 * The part of the Telegram Bot API the bot talks to, as state: the permissions
 * the platform holds per (chat, user), the members' statuses, the messages that
 * still exist, and an ordered log of every call the bot made.
 */
module Telegram {
  import opened Wrappers
  import opened Inline

  /** aiogram's ChatPermissions, restricted to the four flags the bot sets. */
  datatype ChatPermissions = ChatPermissions(
    canSendMessages: bool,
    canSendMediaMessages: bool,
    canSendOtherMessages: bool,
    canAddWebPagePreviews: bool)

  /** ChatMemberStatus. */
  datatype MemberStatus = Creator | Administrator | Member | Restricted | Left | Kicked

  datatype ChatType = Private | Group | Supergroup | Channel

  datatype Chat = Chat(id: int, chatType: ChatType, title: Option<string>)

  datatype User = User(id: int, isBot: bool, firstName: string, lastName: Option<string>, username: Option<string>)

  /** User.full_name: the first name, then a space and the last name when there is a non-empty one. */
  function FullName(u: User): string {
    match u.lastName
    case None => u.firstName
    case Some(last) => if last == "" then u.firstName else u.firstName + " " + last
  }

  datatype MessageRef = MessageRef(chatId: int, messageId: int)

  /** A file sent as a document: its name and its CSV lines, one list of cells per line. */
  datatype Document = Document(fileName: string, lines: seq<seq<string>>)

  /** One Bot API call, in the order the bot issued it. */
  datatype Effect =
    | RestrictCall(chatId: int, userId: int, permissions: ChatPermissions)
    | SendCall(message: MessageRef, text: string, keyboard: Option<Keyboard>, replyTo: Option<int>)
    | DeleteCall(message: MessageRef)
    | AnswerCall(queryId: string, text: string, showAlert: bool)
    | DocumentCall(message: MessageRef, document: Document, caption: string, replyTo: Option<int>)

  /** What get_chat_member reports for (chat, user); None when the lookup fails. */
  function StatusOf(members: map<(int, int), MemberStatus>, chatId: int, userId: int): Option<MemberStatus> {
    if (chatId, userId) in members then Some(members[(chatId, userId)]) else None
  }

  class Bot {
    var permissions: map<(int, int), ChatPermissions>
    var members: map<(int, int), MemberStatus>
    var live: set<MessageRef>
    var nextMessageId: int
    var effects: seq<Effect>

    /** Every existing message has an id below the next one to be handed out. */
    ghost predicate Valid()
      reads this
    {
      forall m :: m in live ==> m.messageId < nextMessageId
    }

    constructor (members: map<(int, int), MemberStatus>, live: set<MessageRef>, nextMessageId: int)
      requires forall m :: m in live ==> m.messageId < nextMessageId
      ensures Valid()
      ensures this.permissions == map[] && this.members == members && this.live == live
      ensures this.nextMessageId == nextMessageId && effects == []
    {
      this.permissions := map[];
      this.members := members;
      this.live := live;
      this.nextMessageId := nextMessageId;
      this.effects := [];
    }

    /** restrict_chat_member: the platform now holds `p` for (chat, user). */
    method RestrictChatMember(chatId: int, userId: int, p: ChatPermissions)
      requires Valid()
      modifies this
      ensures Valid()
      ensures permissions == old(permissions)[(chatId, userId) := p]
      ensures effects == old(effects) + [RestrictCall(chatId, userId, p)]
      ensures members == old(members) && live == old(live) && nextMessageId == old(nextMessageId)
    {
      permissions := permissions[(chatId, userId) := p];
      effects := effects + [RestrictCall(chatId, userId, p)];
    }

    /** send_message (and Message.reply, which sets `replyTo`): a new message with a fresh id. */
    method SendMessage(chatId: int, text: string, keyboard: Option<Keyboard>, replyTo: Option<int>)
      returns (sent: MessageRef)
      requires Valid()
      modifies this
      ensures Valid()
      ensures sent == MessageRef(chatId, old(nextMessageId)) && sent !in old(live)
      ensures nextMessageId == old(nextMessageId) + 1 && live == old(live) + {sent}
      ensures effects == old(effects) + [SendCall(sent, text, keyboard, replyTo)]
      ensures permissions == old(permissions) && members == old(members)
    {
      sent := MessageRef(chatId, nextMessageId);
      nextMessageId := nextMessageId + 1;
      live := live + {sent};
      effects := effects + [SendCall(sent, text, keyboard, replyTo)];
    }

    /** Message.reply_document: a new document message with a fresh id. */
    method SendDocument(chatId: int, document: Document, caption: string, replyTo: Option<int>)
      returns (sent: MessageRef)
      requires Valid()
      modifies this
      ensures Valid()
      ensures sent == MessageRef(chatId, old(nextMessageId)) && sent !in old(live)
      ensures nextMessageId == old(nextMessageId) + 1 && live == old(live) + {sent}
      ensures effects == old(effects) + [DocumentCall(sent, document, caption, replyTo)]
      ensures permissions == old(permissions) && members == old(members)
    {
      sent := MessageRef(chatId, nextMessageId);
      nextMessageId := nextMessageId + 1;
      live := live + {sent};
      effects := effects + [DocumentCall(sent, document, caption, replyTo)];
    }

    /**
     * delete_message: succeeds exactly when the message still exists; otherwise the
     * platform refuses (the caller sees an exception, here `ok == false`) and nothing changes.
     */
    method DeleteMessage(m: MessageRef) returns (ok: bool)
      requires Valid()
      modifies this
      ensures Valid()
      ensures ok == (m in old(live))
      ensures live == old(live) - {m}
      ensures effects == old(effects) + (if ok then [DeleteCall(m)] else [])
      ensures permissions == old(permissions) && members == old(members)
      ensures nextMessageId == old(nextMessageId)
    {
      ok := m in live;
      if ok {
        live := live - {m};
        effects := effects + [DeleteCall(m)];
      }
    }

    /** CallbackQuery.answer: a notice shown to the user who pressed the button. */
    method AnswerCallbackQuery(queryId: string, text: string, showAlert: bool)
      requires Valid()
      modifies this
      ensures Valid()
      ensures effects == old(effects) + [AnswerCall(queryId, text, showAlert)]
      ensures permissions == old(permissions) && members == old(members)
      ensures live == old(live) && nextMessageId == old(nextMessageId)
    {
      effects := effects + [AnswerCall(queryId, text, showAlert)];
    }

    /** get_chat_member(...).status; None when the platform cannot find the member (an exception). */
    method GetChatMemberStatus(chatId: int, userId: int) returns (status: Option<MemberStatus>)
      ensures status == StatusOf(members, chatId, userId)
    {
      status := StatusOf(members, chatId, userId);
    }
  }
}
