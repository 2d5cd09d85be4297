/**
 * Moderation and administration (handlers/admin.py): the chat-admin toggles of
 * voice-only mode, the owner's two reports, and the catch-all filter that
 * removes non-voice messages of non-admins in voice-only chats.
 */
module Admin {
  import opened Wrappers
  import opened PyText
  import opened Telegram
  import opened Database
  import opened Runtime

  const OnlyAdminsText := "Only admins can use this command."
  const EnabledText := "Voice-only mode has been enabled. I will now delete all non-voice messages."
  const DisabledText := "Voice-only mode has been disabled. All message types are now allowed."
  const OnlyOwnerText := "Only the bot owner can use this command."
  const PrivateOnlyText := "This command must be used in a private chat."
  const ExportingText := "Exporting user data..."
  const NoUsersText := "No users have accepted the T&C yet."
  const CsvFileName := "user_acceptances.csv"
  const CsvCaption := "Here is the list of users who have accepted the T&C."
  const NoGroupsText := "The bot has not been configured in any groups yet."
  const ListingHeader := "**Group Settings:**\n\n"

  /** A command message: where it was sent, its id, and who sent it. */
  datatype CommandMessage = CommandMessage(chat: Chat, messageId: int, from: User)

  /** Any other message reaching the catch-all filter; `isVoice` is `message.voice` being set. */
  datatype ContentMessage = ContentMessage(chat: Chat, messageId: int, from: User, isVoice: bool)

  /** The statuses is_admin accepts. */
  predicate IsAdminStatus(s: MemberStatus) {
    s in {Administrator, Creator}
  }

  /**
   * is_admin: asks the platform for the author's status; None when the lookup
   * raises, otherwise whether the author administers or created the chat.
   */
  method IsAdmin(bot: Bot, chatId: int, userId: int) returns (admin: Option<bool>)
    ensures admin.None? <==> (chatId, userId) !in bot.members
    ensures admin == Some(true) <==>
      (chatId, userId) in bot.members && IsAdminStatus(bot.members[(chatId, userId)])
    ensures admin == Some(false) <==>
      (chatId, userId) in bot.members && !IsAdminStatus(bot.members[(chatId, userId)])
  {
    var status := bot.GetChatMemberStatus(chatId, userId);
    admin := match status
      case None => None
      case Some(s) => Some(IsAdminStatus(s));
  }

  /**
   * The two toggles share this body: a non-admin gets a rejection and the store
   * is left alone; an admin's chat gets `mode` and its current title, then a reply.
   */
  method SetModeCommand(bot: Bot, db: Database, msg: CommandMessage, mode: string, doneText: string)
    returns (outcome: Outcome)
    requires bot.Valid() && db.Valid()
    modifies bot, db
    ensures bot.Valid() && db.Valid()
    ensures bot.permissions == old(bot.permissions) && bot.members == old(bot.members)
    ensures db.acceptedUsers == old(db.acceptedUsers) && db.tableExists == old(db.tableExists)
    ensures StatusOf(old(bot.members), msg.chat.id, msg.from.id).None? ==>
      outcome == Raised(MemberNotFound) && unchanged(bot) && unchanged(db)
    ensures StatusOf(old(bot.members), msg.chat.id, msg.from.id).Some? ==>
      var admin := IsAdminStatus(StatusOf(old(bot.members), msg.chat.id, msg.from.id).value);
      var reply := MessageRef(msg.chat.id, old(bot.nextMessageId));
      && outcome == Done
      && db.groupSettings ==
           (if admin then old(db.groupSettings)[msg.chat.id := GroupSetting(msg.chat.title, mode)]
            else old(db.groupSettings))
      && bot.effects == old(bot.effects) +
           [SendCall(reply, if admin then doneText else OnlyAdminsText, None, Some(msg.messageId))]
      && bot.live == old(bot.live) + {reply}
      && bot.nextMessageId == old(bot.nextMessageId) + 1
  {
    var admin := IsAdmin(bot, msg.chat.id, msg.from.id);
    if admin.None? {
      return Raised(MemberNotFound);
    }
    if !admin.value {
      var _ := bot.SendMessage(msg.chat.id, OnlyAdminsText, None, Some(msg.messageId));
      return Done;
    }
    db.SetVoiceOnlyMode(msg.chat.id, msg.chat.title, mode);
    var _ := bot.SendMessage(msg.chat.id, doneText, None, Some(msg.messageId));
    outcome := Done;
  }

  /** /voiceonly_on */
  method VoiceOnlyOn(bot: Bot, db: Database, msg: CommandMessage) returns (outcome: Outcome)
    requires bot.Valid() && db.Valid()
    modifies bot, db
    ensures bot.Valid() && db.Valid()
    ensures db.acceptedUsers == old(db.acceptedUsers) && db.tableExists == old(db.tableExists)
    ensures bot.permissions == old(bot.permissions) && bot.members == old(bot.members)
    ensures StatusOf(old(bot.members), msg.chat.id, msg.from.id).None? ==>
      outcome == Raised(MemberNotFound) && unchanged(bot) && unchanged(db)
    ensures StatusOf(old(bot.members), msg.chat.id, msg.from.id).Some? ==>
      var admin := IsAdminStatus(StatusOf(old(bot.members), msg.chat.id, msg.from.id).value);
      && outcome == Done
      && db.groupSettings ==
           (if admin then old(db.groupSettings)[msg.chat.id := GroupSetting(msg.chat.title, "on")]
            else old(db.groupSettings))
      && bot.effects == old(bot.effects) + [SendCall(MessageRef(msg.chat.id, old(bot.nextMessageId)),
           if admin then EnabledText else OnlyAdminsText, None, Some(msg.messageId))]
      && bot.live == old(bot.live) + {MessageRef(msg.chat.id, old(bot.nextMessageId))}
      && bot.nextMessageId == old(bot.nextMessageId) + 1
  {
    outcome := SetModeCommand(bot, db, msg, "on", EnabledText);
  }

  /** /voiceonly_off */
  method VoiceOnlyOff(bot: Bot, db: Database, msg: CommandMessage) returns (outcome: Outcome)
    requires bot.Valid() && db.Valid()
    modifies bot, db
    ensures bot.Valid() && db.Valid()
    ensures db.acceptedUsers == old(db.acceptedUsers) && db.tableExists == old(db.tableExists)
    ensures bot.permissions == old(bot.permissions) && bot.members == old(bot.members)
    ensures StatusOf(old(bot.members), msg.chat.id, msg.from.id).None? ==>
      outcome == Raised(MemberNotFound) && unchanged(bot) && unchanged(db)
    ensures StatusOf(old(bot.members), msg.chat.id, msg.from.id).Some? ==>
      var admin := IsAdminStatus(StatusOf(old(bot.members), msg.chat.id, msg.from.id).value);
      && outcome == Done
      && db.groupSettings ==
           (if admin then old(db.groupSettings)[msg.chat.id := GroupSetting(msg.chat.title, "off")]
            else old(db.groupSettings))
      && bot.effects == old(bot.effects) + [SendCall(MessageRef(msg.chat.id, old(bot.nextMessageId)),
           if admin then DisabledText else OnlyAdminsText, None, Some(msg.messageId))]
      && bot.live == old(bot.live) + {MessageRef(msg.chat.id, old(bot.nextMessageId))}
      && bot.nextMessageId == old(bot.nextMessageId) + 1
  {
    outcome := SetModeCommand(bot, db, msg, "off", DisabledText);
  }

  /** How the owner guard of /export_users and /show_groups ends. */
  datatype Gate = Pass | Reject(reply: string) | OwnerIdInvalid

  /**
   * The owner guard: `int(BOT_OWNER_ID)` is evaluated first, then the sender is
   * compared with it, and only then is the chat type looked at.
   */
  function OwnerGate(fromId: int, chatType: ChatType, ownerId: string): (g: Gate)
    ensures g == Pass <==> ParseInt(ownerId) == Some(fromId) && chatType == Private
    ensures g == OwnerIdInvalid <==> ParseInt(ownerId).None?
    ensures ParseInt(ownerId).Some? && ParseInt(ownerId).value != fromId ==> g == Reject(OnlyOwnerText)
    ensures ParseInt(ownerId) == Some(fromId) && chatType != Private ==> g == Reject(PrivateOnlyText)
  {
    match ParseInt(ownerId)
    case None => OwnerIdInvalid
    case Some(owner) =>
      if fromId != owner then Reject(OnlyOwnerText)
      else if chatType != Private then Reject(PrivateOnlyText)
      else Pass
  }

  const CsvHeader := ["user_id", "username", "t_and_c_version", "timestamp", "chat_id", "t_and_c_content"]

  /** One CSV line per stored acceptance: user id, username (empty for none), version, timestamp. */
  function CsvRow(a: Acceptance): seq<string> {
    [IntToString(a.userId), match a.username case None => "" case Some(name) => name, a.version, a.timestamp]
  }

  /** The exported file's lines: the header, then one line per acceptance in table order. */
  function CsvLines(rows: seq<Acceptance>): (lines: seq<seq<string>>) {
    [CsvHeader] + seq(|rows|, k requires 0 <= k < |rows| => CsvRow(rows[k]))
  }

  /** The csv.writer loop: the header row, then one writerow per acceptance. */
  method WriteCsv(users: seq<Acceptance>) returns (lines: seq<seq<string>>)
    ensures lines == CsvLines(users)
  {
    lines := [CsvHeader];
    for k := 0 to |users|
      invariant |lines| == k + 1 && lines[0] == CsvHeader
      invariant forall j :: 0 <= j < k ==> lines[j + 1] == CsvRow(users[j])
    {
      lines := lines + [CsvRow(users[k])];
    }
  }

  /**
   * /export_users. Owner in a private chat: "Exporting user data..." is replied
   * first, then either the "nothing yet" reply or the CSV document. A rejected
   * caller gets only the rejection. The store is only read (`db` is not in
   * `modifies`).
   */
  method ExportUsers(bot: Bot, db: Database, cfg: Config, msg: CommandMessage) returns (outcome: Outcome)
    requires bot.Valid()
    modifies bot
    ensures bot.Valid()
    ensures bot.permissions == old(bot.permissions) && bot.members == old(bot.members)
    ensures var g := OwnerGate(msg.from.id, msg.chat.chatType, cfg.ownerId);
      var first := MessageRef(msg.chat.id, old(bot.nextMessageId));
      var second := MessageRef(msg.chat.id, old(bot.nextMessageId) + 1);
      && (g == OwnerIdInvalid ==> outcome == Raised(BadOwnerId) && unchanged(bot))
      && (g.Reject? ==>
            outcome == Done &&
            bot.effects == old(bot.effects) + [SendCall(first, g.reply, None, Some(msg.messageId))] &&
            bot.nextMessageId == old(bot.nextMessageId) + 1 && bot.live == old(bot.live) + {first})
      && (g == Pass && !db.tableExists ==> outcome == Raised(NoSuchTable) && unchanged(bot))
      && (g == Pass && db.tableExists ==>
            bot.nextMessageId == old(bot.nextMessageId) + 2 && bot.live == old(bot.live) + {first, second})
      && (g == Pass && db.tableExists && db.acceptedUsers == [] ==>
            outcome == Done &&
            bot.effects == old(bot.effects) +
              [SendCall(first, ExportingText, None, Some(msg.messageId)),
               SendCall(second, NoUsersText, None, Some(msg.messageId))])
      && (g == Pass && db.tableExists && db.acceptedUsers != [] ==>
            outcome == Done &&
            bot.effects == old(bot.effects) +
              [SendCall(first, ExportingText, None, Some(msg.messageId)),
               DocumentCall(second, Document(CsvFileName, CsvLines(db.acceptedUsers)), CsvCaption, Some(msg.messageId))])
  {
    var gate := OwnerGate(msg.from.id, msg.chat.chatType, cfg.ownerId);
    if gate == OwnerIdInvalid {
      return Raised(BadOwnerId);
    }
    if gate.Reject? {
      var _ := bot.SendMessage(msg.chat.id, gate.reply, None, Some(msg.messageId));
      return Done;
    }
    var read := db.GetAllUserAcceptances();
    if read.None? {
      return Raised(NoSuchTable);
    }
    var users := read.value;
    var _ := bot.SendMessage(msg.chat.id, ExportingText, None, Some(msg.messageId));
    if users == [] {
      var _ := bot.SendMessage(msg.chat.id, NoUsersText, None, Some(msg.messageId));
      return Done;
    }
    var lines := WriteCsv(users);
    var _ := bot.SendDocument(msg.chat.id, Document(CsvFileName, lines), CsvCaption, Some(msg.messageId));
    outcome := Done;
  }

  /** str.upper() on the ASCII letters the stored modes are made of. */
  function AsciiUpper(s: string): string {
    seq(|s|, i requires 0 <= i < |s| => if 'a' <= s[i] <= 'z' then (s[i] as int - 32) as char else s[i])
  }

  /** Upper-casing maps "on" and "off", the only modes the commands store, to "ON" and "OFF". */
  lemma AsciiUpperModes()
    ensures AsciiUpper("on") == "ON" && AsciiUpper("off") == "OFF"
  {
  }

  /** An f-string renders a missing title as "None". */
  function TitleText(title: Option<string>): string {
    match title
    case None => "None"
    case Some(t) => t
  }

  /** One group's paragraph in the /show_groups listing. */
  function GroupEntry(g: GroupSetting): string {
    "Chat Name: `" + TitleText(g.title) + "`\nVoice Only Mode: **" + AsciiUpper(g.mode) + "**\n\n"
  }

  /** The paragraphs of all groups, in the order given. */
  function GroupEntries(groups: seq<GroupSetting>): string
    decreases |groups|
  {
    if groups == [] then "" else GroupEntry(groups[0]) + GroupEntries(groups[1..])
  }

  /** Appending a group appends its paragraph: the listing holds one entry per group, in order. */
  lemma {:induction false} GroupEntriesAppend(groups: seq<GroupSetting>, g: GroupSetting)
    ensures GroupEntries(groups + [g]) == GroupEntries(groups) + GroupEntry(g)
    decreases |groups|
  {
    if groups == [] {
      assert [g][1..] == [];
    } else {
      assert (groups + [g])[1..] == groups[1..] + [g];
      GroupEntriesAppend(groups[1..], g);
    }
  }

  /** The `+=` loop of /show_groups: the header, then each group's paragraph in turn. */
  method BuildListing(groups: seq<GroupSetting>) returns (text: string)
    ensures text == ListingHeader + GroupEntries(groups)
  {
    text := ListingHeader;
    for k := 0 to |groups|
      invariant text == ListingHeader + GroupEntries(groups[..k])
    {
      var done, entry := GroupEntries(groups[..k]), GroupEntry(groups[k]);
      GroupEntriesAppend(groups[..k], groups[k]);
      assert groups[..k + 1] == groups[..k] + [groups[k]];
      text := text + entry;
    }
    assert groups[..|groups|] == groups;
  }

  /**
   * /show_groups, with `order` the order in which the store returns the settings.
   * After the owner guard: the "not configured" reply when there are no
   * settings, otherwise the header followed by every group's paragraph.
   */
  method ShowGroups(bot: Bot, db: Database, cfg: Config, msg: CommandMessage, order: seq<int>)
    returns (outcome: Outcome)
    requires bot.Valid()
    requires forall k :: 0 <= k < |order| ==> order[k] in db.groupSettings
    requires forall c :: c in db.groupSettings ==> c in order
    requires forall i, j :: 0 <= i < j < |order| ==> order[i] != order[j]
    modifies bot
    ensures bot.Valid()
    ensures bot.permissions == old(bot.permissions) && bot.members == old(bot.members)
    ensures var g := OwnerGate(msg.from.id, msg.chat.chatType, cfg.ownerId);
      var reply := MessageRef(msg.chat.id, old(bot.nextMessageId));
      var groups := SettingsInOrder(db.groupSettings, order);
      && (g == OwnerIdInvalid ==> outcome == Raised(BadOwnerId) && unchanged(bot))
      && (g.Reject? || g == Pass ==>
            bot.nextMessageId == old(bot.nextMessageId) + 1 && bot.live == old(bot.live) + {reply})
      && (g.Reject? ==>
            outcome == Done &&
            bot.effects == old(bot.effects) + [SendCall(reply, g.reply, None, Some(msg.messageId))])
      && (g == Pass && db.groupSettings == map[] ==>
            outcome == Done &&
            bot.effects == old(bot.effects) + [SendCall(reply, NoGroupsText, None, Some(msg.messageId))])
      && (g == Pass && db.groupSettings != map[] ==>
            outcome == Done &&
            bot.effects == old(bot.effects) +
              [SendCall(reply, ListingHeader + GroupEntries(groups), None, Some(msg.messageId))])
  {
    var gate := OwnerGate(msg.from.id, msg.chat.chatType, cfg.ownerId);
    if gate == OwnerIdInvalid {
      return Raised(BadOwnerId);
    }
    if gate.Reject? {
      var _ := bot.SendMessage(msg.chat.id, gate.reply, None, Some(msg.messageId));
      return Done;
    }
    var groups := db.GetAllGroupSettings(order);
    if groups == [] {
      var _ := bot.SendMessage(msg.chat.id, NoGroupsText, None, Some(msg.messageId));
      return Done;
    }
    var text := BuildListing(groups);
    var _ := bot.SendMessage(msg.chat.id, text, None, Some(msg.messageId));
    outcome := Done;
  }

  /** What the catch-all filter does with a message. */
  datatype FilterAction = Keep | Remove | LookupFailed

  /**
   * The filter's decision from the chat's stored mode, the author's looked-up
   * status (asked for only in a voice-only chat) and whether the message is voice.
   */
  function FilterDecision(mode: Option<string>, author: Option<MemberStatus>, isVoice: bool): (a: FilterAction)
    ensures a == Remove <==> mode == Some("on") && author.Some? && author.value !in {Administrator, Creator} && !isVoice
    ensures a == LookupFailed <==> mode == Some("on") && author.None?
    ensures mode != Some("on") ==> a == Keep
  {
    if mode == Some("on") then
      match author
      case None => LookupFailed
      case Some(status) =>
        if IsAdminStatus(status) then Keep
        else if isVoice then Keep
        else Remove
    else Keep
  }

  /**
   * delete_non_voice_messages, run on group and supergroup messages that no
   * earlier handler took. A delete that the platform refuses is swallowed.
   */
  method DeleteNonVoiceMessages(bot: Bot, db: Database, msg: ContentMessage) returns (outcome: Outcome)
    requires msg.chat.chatType == Group || msg.chat.chatType == Supergroup
    requires bot.Valid()
    modifies bot
    ensures bot.Valid()
    ensures var action := FilterDecision(ModeOf(db.groupSettings, msg.chat.id),
                                         StatusOf(bot.members, msg.chat.id, msg.from.id), msg.isVoice);
      var ref := MessageRef(msg.chat.id, msg.messageId);
      && outcome == (if action == LookupFailed then Raised(MemberNotFound) else Done)
      && bot.effects == old(bot.effects) + (if action == Remove && ref in old(bot.live) then [DeleteCall(ref)] else [])
      && bot.live == (if action == Remove then old(bot.live) - {ref} else old(bot.live))
    ensures bot.permissions == old(bot.permissions) && bot.members == old(bot.members)
    ensures bot.nextMessageId == old(bot.nextMessageId)
  {
    var mode := db.GetVoiceOnlyMode(msg.chat.id);
    if mode == Some("on") {
      var admin := IsAdmin(bot, msg.chat.id, msg.from.id);
      if admin.None? {
        return Raised(MemberNotFound);
      }
      if admin.value {
        return Done;
      }
      if msg.isVoice {
        return Done;
      }
      var _ := bot.DeleteMessage(MessageRef(msg.chat.id, msg.messageId));
    }
    outcome := Done;
  }
}
