/**
 * Join gating (handlers/user_join.py): every human who joins is muted and shown
 * the terms with an accept button; pressing it, and only the addressee may,
 * lifts the restriction, records the acceptance, removes the prompt and
 * announces the user.
 */
module UserJoin {
  import opened Wrappers
  import opened PyText
  import opened Inline
  import opened Telegram
  import opened Database
  import opened Runtime

  const RestrictedPermissions := ChatPermissions(false, false, false, false)
  const UnrestrictedPermissions := ChatPermissions(true, true, true, true)

  const NotForYouText := "This button is not for you."

  /** The restricted set denies all four capabilities, the unrestricted one grants all four. */
  lemma PermissionSets()
    ensures !RestrictedPermissions.canSendMessages && !RestrictedPermissions.canSendMediaMessages
    ensures !RestrictedPermissions.canSendOtherMessages && !RestrictedPermissions.canAddWebPagePreviews
    ensures UnrestrictedPermissions.canSendMessages && UnrestrictedPermissions.canSendMediaMessages
    ensures UnrestrictedPermissions.canSendOtherMessages && UnrestrictedPermissions.canAddWebPagePreviews
  {
  }

  function WelcomeText(u: User, terms: string): string {
    "Welcome, " + FullName(u) + "!" + terms
  }

  /** User.mention_html(): a link to the user labelled with their full name. */
  function MentionHtml(u: User): string {
    "<a href=\"tg://user?id=" + IntToString(u.id) + "\">" + FullName(u) + "</a>"
  }

  function ConfirmationText(u: User): string {
    MentionHtml(u) + " has accepted the T&C and can now participate."
  }

  /** The joiners the handler acts on: the non-bot members, in the order of the event. */
  function NonBots(members: seq<User>): seq<User>
    decreases |members|
  {
    if members == [] then []
    else
      var init, last := members[..|members| - 1], members[|members| - 1];
      NonBots(init) + (if last.isBot then [] else [last])
  }

  /** A member is served exactly when it is in the batch and is not a bot. */
  lemma {:induction false} NonBotsMembers(members: seq<User>)
    ensures |NonBots(members)| <= |members|
    ensures forall u :: u in NonBots(members) <==> u in members && !u.isBot
    decreases |members|
  {
    if members != [] {
      var init, last := members[..|members| - 1], members[|members| - 1];
      assert members == init + [last];
      NonBotsMembers(init);
    }
  }

  /** Filtering commutes with concatenation, so the joiners keep their relative order. */
  lemma {:induction false} NonBotsConcat(a: seq<User>, b: seq<User>)
    ensures NonBots(a + b) == NonBots(a) + NonBots(b)
    decreases |b|
  {
    if b == [] {
      assert a + b == a;
    } else {
      var init, last := b[..|b| - 1], b[|b| - 1];
      assert (a + b)[..|a + b| - 1] == a + init;
      assert (a + b)[|a + b| - 1] == last;
      NonBotsConcat(a, init);
    }
  }

  /** The two calls made for one joiner: restrict, then the prompt with that joiner's button. */
  function PromptCalls(chatId: int, u: User, terms: string, messageId: int): seq<Effect> {
    [RestrictCall(chatId, u.id, RestrictedPermissions),
     SendCall(MessageRef(chatId, messageId), WelcomeText(u, terms), Some(TcKeyboard(u.id)), None)]
  }

  /**
   * The calls made for joiners served one after another: `serve(u, id)` is
   * what serving u makes when its prompt gets message id `id`, and the
   * prompts get consecutive ids from `firstId` on.
   */
  function Batch(serve: (User, int) -> seq<Effect>, joiners: seq<User>, firstId: int): seq<Effect>
    decreases |joiners|
  {
    if joiners == [] then []
    else
      var init := joiners[..|joiners| - 1];
      Batch(serve, init, firstId) + serve(joiners[|joiners| - 1], firstId + |init|)
  }

  /** A batch's calls are those for all but its last joiner, then the last joiner's. */
  lemma BatchLast(serve: (User, int) -> seq<Effect>, joiners: seq<User>, firstId: int)
    requires joiners != []
    ensures Batch(serve, joiners, firstId) ==
      Batch(serve, joiners[..|joiners| - 1], firstId) +
      serve(joiners[|joiners| - 1], firstId + |joiners[..|joiners| - 1]|)
  {
  }

  /** How on_user_join serves one joiner of chat `chatId`. */
  function Serve(chatId: int, terms: string): (User, int) -> seq<Effect> {
    (u: User, id: int) => PromptCalls(chatId, u, terms, id)
  }

  /** The calls made for a list of joiners whose prompts get ids from `firstId` on. */
  function JoinEffects(chatId: int, joiners: seq<User>, terms: string, firstId: int): seq<Effect> {
    Batch(Serve(chatId, terms), joiners, firstId)
  }

  /** The last joiner of a batch gets its pair of calls after everyone before it. */
  lemma JoinEffectsLast(chatId: int, joiners: seq<User>, terms: string, firstId: int)
    requires joiners != []
    ensures JoinEffects(chatId, joiners, terms, firstId) ==
      JoinEffects(chatId, joiners[..|joiners| - 1], terms, firstId) +
      PromptCalls(chatId, joiners[|joiners| - 1], terms, firstId + |joiners[..|joiners| - 1]|)
  {
    var init, last := joiners[..|joiners| - 1], joiners[|joiners| - 1];
    BatchLast(Serve(chatId, terms), joiners, firstId);
    assert Serve(chatId, terms)(last, firstId + |init|) == PromptCalls(chatId, last, terms, firstId + |init|);
  }

  lemma {:induction false} JoinEffectsLength(chatId: int, joiners: seq<User>, terms: string, firstId: int)
    ensures |JoinEffects(chatId, joiners, terms, firstId)| == 2 * |joiners|
    decreases |joiners|
  {
    if joiners != [] {
      JoinEffectsLast(chatId, joiners, terms, firstId);
      JoinEffectsLength(chatId, joiners[..|joiners| - 1], terms, firstId);
    }
  }

  /**
   * Joiner k gets exactly the calls 2k and 2k+1, its own pair of calls (see
   * `PromptCalls`: restrict with the restricted set, then the prompt carrying
   * its own id, with message id firstId + k), so each joiner's restrict
   * precedes its prompt and joiners are served in order.
   */
  lemma {:induction false} JoinEffectsAt(chatId: int, joiners: seq<User>, terms: string, firstId: int, k: nat)
    requires k < |joiners|
    ensures |JoinEffects(chatId, joiners, terms, firstId)| == 2 * |joiners|
    ensures JoinEffects(chatId, joiners, terms, firstId)[2 * k] == PromptCalls(chatId, joiners[k], terms, firstId + k)[0]
    ensures JoinEffects(chatId, joiners, terms, firstId)[2 * k + 1] == PromptCalls(chatId, joiners[k], terms, firstId + k)[1]
    decreases |joiners|
  {
    var init, last := joiners[..|joiners| - 1], joiners[|joiners| - 1];
    var head := JoinEffects(chatId, init, terms, firstId);
    var tail := PromptCalls(chatId, last, terms, firstId + |init|);
    JoinEffectsLength(chatId, init, terms, firstId);
    JoinEffectsLast(chatId, joiners, terms, firstId);
    var mine := PromptCalls(chatId, joiners[k], terms, firstId + k);
    if k < |init| {
      JoinEffectsAt(chatId, init, terms, firstId, k);
      assert joiners[k] == init[k];
      assert PromptCalls(chatId, init[k], terms, firstId + k) == mine;
      assert (head + tail)[2 * k] == head[2 * k];
      assert (head + tail)[2 * k + 1] == head[2 * k + 1];
    } else {
      assert k == |init| && joiners[k] == last;
      assert tail == mine;
      assert (head + tail)[2 * k] == tail[0];
      assert (head + tail)[2 * k + 1] == tail[1];
    }
  }

  /** A joiner's pair of calls: restrict with all four capabilities denied, then the prompt with that joiner's own button. */
  lemma PromptCallsShape(chatId: int, u: User, terms: string, messageId: int)
    ensures |PromptCalls(chatId, u, terms, messageId)| == 2
    ensures PromptCalls(chatId, u, terms, messageId)[0] == RestrictCall(chatId, u.id, ChatPermissions(false, false, false, false))
    ensures PromptCalls(chatId, u, terms, messageId)[1].SendCall?
    ensures PromptCalls(chatId, u, terms, messageId)[1].message == MessageRef(chatId, messageId)
    ensures PromptCalls(chatId, u, terms, messageId)[1].text == WelcomeText(u, terms)
    ensures PromptCalls(chatId, u, terms, messageId)[1].keyboard == Some(TcKeyboard(u.id))
    ensures PromptCalls(chatId, u, terms, messageId)[1].replyTo == None
  {
  }

  /** No call of a batch restricts or prompts a user id that none of the joiners has. */
  lemma {:induction false} NoCallsFor(chatId: int, joiners: seq<User>, terms: string, firstId: int, x: int)
    requires forall u :: u in joiners ==> u.id != x
    ensures forall e :: e in JoinEffects(chatId, joiners, terms, firstId) ==>
      (e.RestrictCall? ==> e.userId != x) && (e.SendCall? ==> e.keyboard != Some(TcKeyboard(x)))
    decreases |joiners|
  {
    if joiners != [] {
      var init, last := joiners[..|joiners| - 1], joiners[|joiners| - 1];
      assert forall u :: u in init ==> u in joiners;
      JoinEffectsLast(chatId, joiners, terms, firstId);
      NoCallsFor(chatId, init, terms, firstId, x);
      if TcKeyboard(last.id) == TcKeyboard(x) {
        assert TcKeyboard(last.id).rows[0][0] == TcKeyboard(x).rows[0][0];
        AcceptPayloadInjective(last.id, x);
      }
    }
  }

  /**
   * A bot in the batch (with an id no human joiner shares) is neither restricted
   * nor prompted: no call of the batch names its id.
   */
  lemma BotsUntouched(chatId: int, members: seq<User>, terms: string, firstId: int, b: User)
    requires b in members && b.isBot
    requires forall u :: u in members && u.id == b.id ==> u.isBot
    ensures forall e :: e in JoinEffects(chatId, NonBots(members), terms, firstId) ==>
      (e.RestrictCall? ==> e.userId != b.id) && (e.SendCall? ==> e.keyboard != Some(TcKeyboard(b.id)))
  {
    NonBotsMembers(members);
    NoCallsFor(chatId, NonBots(members), terms, firstId, b.id);
  }

  /** The (chat, user) pairs a batch restricts. */
  function JoinerKeys(chatId: int, joiners: seq<User>): set<(int, int)> {
    set u | u in joiners :: (chatId, u.id)
  }

  /** The platform's permissions after a batch: the joiners restricted, every other pair as before. */
  function RestrictAll(p: map<(int, int), ChatPermissions>, chatId: int, joiners: seq<User>): map<(int, int), ChatPermissions>
    decreases |joiners|
  {
    if joiners == [] then p
    else
      var init, last := joiners[..|joiners| - 1], joiners[|joiners| - 1];
      RestrictAll(p, chatId, init)[(chatId, last.id) := RestrictedPermissions]
  }

  /** After a batch every joiner holds the restricted set in the chat and every other pair is as before. */
  lemma {:induction false} RestrictAllEffect(p: map<(int, int), ChatPermissions>, chatId: int, joiners: seq<User>)
    ensures RestrictAll(p, chatId, joiners).Keys == p.Keys + JoinerKeys(chatId, joiners)
    ensures forall key :: key in JoinerKeys(chatId, joiners) ==> RestrictAll(p, chatId, joiners)[key] == RestrictedPermissions
    ensures forall key :: key in p && key !in JoinerKeys(chatId, joiners) ==> RestrictAll(p, chatId, joiners)[key] == p[key]
    decreases |joiners|
  {
    if joiners != [] {
      var init, last := joiners[..|joiners| - 1], joiners[|joiners| - 1];
      assert joiners == init + [last];
      assert JoinerKeys(chatId, joiners) == JoinerKeys(chatId, init) + {(chatId, last.id)};
      RestrictAllEffect(p, chatId, init);
    }
  }

  /** The prompts sent for a batch, as message references. */
  function PromptRefs(chatId: int, firstId: int, n: nat): set<MessageRef> {
    set k | firstId <= k < firstId + n :: MessageRef(chatId, k)
  }

  /** The log after serving one more joiner: what it held, then that joiner's pair of calls. */
  lemma LogStep(log: seq<Effect>, chatId: int, done: seq<User>, u: User, terms: string, firstId: int)
    ensures log + JoinEffects(chatId, done, terms, firstId) + PromptCalls(chatId, u, terms, firstId + |done|) ==
      log + JoinEffects(chatId, done + [u], terms, firstId)
  {
    JoinEffectsStep(chatId, done, u, terms, firstId);
  }

  /** Serving one more joiner appends that joiner's pair of calls. */
  lemma JoinEffectsStep(chatId: int, done: seq<User>, u: User, terms: string, firstId: int)
    ensures JoinEffects(chatId, done + [u], terms, firstId) ==
      JoinEffects(chatId, done, terms, firstId) + PromptCalls(chatId, u, terms, firstId + |done|)
  {
    var joiners := done + [u];
    assert joiners[..|joiners| - 1] == done;
    assert joiners[|joiners| - 1] == u;
    JoinEffectsLast(chatId, joiners, terms, firstId);
  }

  /** Serving one more joiner restricts that joiner on top of the batch so far. */
  lemma RestrictAllStep(p: map<(int, int), ChatPermissions>, chatId: int, done: seq<User>, u: User)
    ensures RestrictAll(p, chatId, done + [u]) == RestrictAll(p, chatId, done)[(chatId, u.id) := RestrictedPermissions]
  {
    assert (done + [u])[..|done|] == done;
  }

  lemma PromptRefsStep(chatId: int, firstId: int, n: nat)
    ensures PromptRefs(chatId, firstId, n + 1) == PromptRefs(chatId, firstId, n) + {MessageRef(chatId, firstId + n)}
  {
  }

  /** The loop body for one human joiner: restrict, then prompt. */
  method GateJoiner(bot: Bot, chatId: int, user: User, terms: string)
    requires bot.Valid()
    modifies bot
    ensures bot.Valid()
    ensures bot.effects == old(bot.effects) + PromptCalls(chatId, user, terms, old(bot.nextMessageId))
    ensures bot.permissions == old(bot.permissions)[(chatId, user.id) := RestrictedPermissions]
    ensures bot.nextMessageId == old(bot.nextMessageId) + 1
    ensures bot.live == old(bot.live) + {MessageRef(chatId, old(bot.nextMessageId))}
    ensures bot.members == old(bot.members)
  {
    bot.RestrictChatMember(chatId, user.id, RestrictedPermissions);
    var _ := bot.SendMessage(chatId, WelcomeText(user, terms), Some(TcKeyboard(user.id)), None);
  }

  /** on_user_join: for each non-bot joiner in turn, restrict them, then send their prompt. */
  method OnUserJoin(bot: Bot, chat: Chat, newMembers: seq<User>, cfg: Config)
    requires bot.Valid()
    modifies bot
    ensures bot.Valid()
    ensures bot.effects == old(bot.effects) + JoinEffects(chat.id, NonBots(newMembers), cfg.terms, old(bot.nextMessageId))
    ensures bot.permissions == RestrictAll(old(bot.permissions), chat.id, NonBots(newMembers))
    ensures bot.nextMessageId == old(bot.nextMessageId) + |NonBots(newMembers)|
    ensures bot.live == old(bot.live) + PromptRefs(chat.id, old(bot.nextMessageId), |NonBots(newMembers)|)
    ensures bot.members == old(bot.members)
  {
    ghost var firstId := bot.nextMessageId;
    ghost var done: seq<User> := [];
    for i := 0 to |newMembers|
      invariant bot.Valid()
      invariant done == NonBots(newMembers[..i])
      invariant bot.effects == old(bot.effects) + JoinEffects(chat.id, done, cfg.terms, firstId)
      invariant bot.permissions == RestrictAll(old(bot.permissions), chat.id, done)
      invariant bot.nextMessageId == firstId + |done|
      invariant bot.live == old(bot.live) + PromptRefs(chat.id, firstId, |done|)
      invariant bot.members == old(bot.members)
    {
      var user := newMembers[i];
      assert newMembers[..i + 1][..i] == newMembers[..i];
      assert NonBots(newMembers[..i + 1]) == done + (if user.isBot then [] else [user]);
      if !user.isBot {
        LogStep(old(bot.effects), chat.id, done, user, cfg.terms, firstId);
        RestrictAllStep(old(bot.permissions), chat.id, done, user);
        PromptRefsStep(chat.id, firstId, |done|);
        GateJoiner(bot, chat.id, user, cfg.terms);
        done := done + [user];
      }
    }
    assert newMembers[..|newMembers|] == newMembers;
  }

  /** The accept handler's filter: the payload starts with `user_accept:`. */
  predicate AcceptFilter(data: string) {
    StartsWith(data, AcceptPrefix)
  }

  /** `int(data.split(":")[1])`: None where Python raises (IndexError or ValueError). */
  function ParseAcceptPayload(data: string): Option<int> {
    var parts := Split(data, ':');
    if |parts| < 2 then None else ParseInt(parts[1])
  }

  /** On a payload that passed the filter, index 1 always exists: only int() can fail. */
  lemma FilteredPayloadHasTarget(data: string)
    requires AcceptFilter(data)
    ensures |Split(data, ':')| >= 2
    ensures Split(data, ':')[0] == "user_accept"
  {
    assert data == "user_accept" + [':'] + data[|AcceptPrefix|..];
    SplitAfterPiece("user_accept", ':', data[|AcceptPrefix|..]);
  }

  /** The button's payload passes the filter and parses back to the id it was built from. */
  lemma AcceptPayloadRoundTrip(userId: int)
    ensures AcceptFilter(AcceptPayload(userId))
    ensures ParseAcceptPayload(AcceptPayload(userId)) == Some(userId)
  {
    var digits := IntToString(userId);
    assert AcceptPayload(userId) == "user_accept" + [':'] + digits;
    SplitAfterPiece("user_accept", ':', digits);
    IntToStringHasNo(userId, ':');
    SplitWithout(digits, ':');
    IntRoundTrip(userId);
  }

  /** Different users get different payloads: a button addresses exactly one user. */
  lemma AcceptPayloadInjective(u: int, v: int)
    requires AcceptPayload(u) == AcceptPayload(v)
    ensures u == v
  {
    AcceptPayloadRoundTrip(u);
    AcceptPayloadRoundTrip(v);
  }

  /** A pressed button: the query id, who pressed it, its payload and the message it sits on. */
  datatype CallbackQuery = CallbackQuery(id: string, from: User, data: string, message: MessageRef)

  /**
   * process_tc_accept. A payload whose id does not parse raises before anything
   * happens; a presser other than the addressee only gets an alert; the addressee
   * is unrestricted, then recorded, then the prompt is deleted, then the
   * confirmation is sent, and a failing step stops the ones after it.
   */
  method ProcessTcAccept(bot: Bot, db: Database, cfg: Config, query: CallbackQuery, now: string)
    returns (outcome: Outcome)
    requires AcceptFilter(query.data)
    requires bot.Valid() && db.Valid()
    modifies bot, db
    ensures bot.Valid() && db.Valid()
    ensures bot.members == old(bot.members)
    ensures db.tableExists == old(db.tableExists) && db.groupSettings == old(db.groupSettings)
    ensures ParseAcceptPayload(query.data).None? ==>
      outcome == Raised(MalformedPayload) && unchanged(bot) && unchanged(db)
    ensures ParseAcceptPayload(query.data).Some? && ParseAcceptPayload(query.data).value != query.from.id ==>
      && outcome == Done
      && bot.effects == old(bot.effects) + [AnswerCall(query.id, NotForYouText, true)]
      && bot.permissions == old(bot.permissions)
      && bot.live == old(bot.live) && bot.nextMessageId == old(bot.nextMessageId)
      && unchanged(db)
    ensures ParseAcceptPayload(query.data) == Some(query.from.id) ==>
      var chatId := query.message.chatId;
      var unrestrict := RestrictCall(chatId, query.from.id, UnrestrictedPermissions);
      && bot.permissions == old(bot.permissions)[(chatId, query.from.id) := UnrestrictedPermissions]
      && db.acceptedUsers ==
        (if old(db.tableExists)
         then InsertOrIgnore(old(db.acceptedUsers), Acceptance(query.from.id, query.from.username, now, cfg.version))
         else old(db.acceptedUsers))
      && (!old(db.tableExists) ==>
            outcome == Raised(NoSuchTable) && bot.effects == old(bot.effects) + [unrestrict] &&
            bot.live == old(bot.live) && bot.nextMessageId == old(bot.nextMessageId))
      && (old(db.tableExists) && query.message !in old(bot.live) ==>
            outcome == Raised(MessageNotFound) && bot.effects == old(bot.effects) + [unrestrict] &&
            bot.live == old(bot.live) && bot.nextMessageId == old(bot.nextMessageId))
      && (old(db.tableExists) && query.message in old(bot.live) ==>
            var confirmation := MessageRef(chatId, old(bot.nextMessageId));
            && outcome == Done
            && bot.effects == old(bot.effects) +
                 [unrestrict, DeleteCall(query.message), SendCall(confirmation, ConfirmationText(query.from), None, None)]
            && bot.live == old(bot.live) - {query.message} + {confirmation}
            && bot.nextMessageId == old(bot.nextMessageId) + 1)
  {
    FilteredPayloadHasTarget(query.data);
    var target := ParseAcceptPayload(query.data);
    if target.None? {
      return Raised(MalformedPayload);
    }
    var clicker := query.from;
    if clicker.id != target.value {
      bot.AnswerCallbackQuery(query.id, NotForYouText, true);
      return Done;
    }
    var chatId := query.message.chatId;
    bot.RestrictChatMember(chatId, clicker.id, UnrestrictedPermissions);
    var stored := db.AddUserAcceptance(clicker.id, clicker.username, cfg.version, now);
    if !stored {
      return Raised(NoSuchTable);
    }
    var deleted := bot.DeleteMessage(query.message);
    if !deleted {
      return Raised(MessageNotFound);
    }
    var _ := bot.SendMessage(chatId, ConfirmationText(clicker), None, None);
    outcome := Done;
  }
}
