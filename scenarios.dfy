/**
 * Client walks through the handlers, using only their contracts: a full
 * acceptance cycle, a click by the wrong user, a repeated click, and the
 * voice-only toggle followed by filtered messages.
 */
module Scenarios {
  import opened Wrappers
  import opened Inline
  import opened Telegram
  import opened Database
  import opened Runtime
  import opened UserJoin
  import opened Admin

  const Ann := User(7, false, "Ann", None, Some("ann"))
  const Mallory := User(9, false, "Mallory", None, None)
  const Group100 := Chat(100, Supergroup, Some("Readers"))
  const Terms := "Be kind."
  const Cfg := Config(Terms, "v1", "1")

  /**
   * Ann joins chat 100: she is muted and gets prompt 500 carrying her own
   * button. She then presses it on that same state: unrestricted, recorded,
   * prompt gone.
   */
  method AcceptanceCycle() {
    var bot := new Bot(map[], {}, 500);
    var db := new Database();
    db.InitDb();
    OnUserJoin(bot, Group100, [Ann], Cfg);
    assert NonBots([Ann]) == [Ann];
    JoinEffectsAt(100, [Ann], Terms, 500, 0);
    PromptCallsShape(100, Ann, Terms, 500);
    var prompt := MessageRef(100, 500);
    assert bot.permissions[(100, 7)] == RestrictedPermissions;
    assert bot.effects[0] == RestrictCall(100, 7, RestrictedPermissions);
    assert bot.effects[1].keyboard == Some(TcKeyboard(7));
    assert prompt in PromptRefs(100, 500, 1);
    assert prompt in bot.live;

    AcceptPayloadRoundTrip(7);
    var right := ProcessTcAccept(bot, db, Cfg, CallbackQuery("q2", Ann, AcceptPayload(7), prompt), "t1");
    assert right == Done;
    assert bot.permissions[(100, 7)] == UnrestrictedPermissions;
    assert db.acceptedUsers == [Acceptance(7, Some("ann"), "t1", "v1")];
    assert prompt !in bot.live;
  }

  /** Mallory presses Ann's button: only an alert, nothing else changes. */
  method WrongUserPress() {
    var prompt := MessageRef(100, 500);
    var bot := new Bot(map[], {prompt}, 501);
    var db := new Database();
    db.InitDb();
    AcceptPayloadRoundTrip(7);
    var wrong := ProcessTcAccept(bot, db, Cfg, CallbackQuery("q1", Mallory, AcceptPayload(7), prompt), "t0");
    assert wrong == Done;
    assert bot.permissions == map[];
    assert db.acceptedUsers == [];
    assert prompt in bot.live;
  }

  /**
   * A second press by Ann once her prompt is gone: unrestricted again, still the
   * one row from the first press, and the failed delete stops the handler
   * before a second confirmation.
   */
  method PressAfterPromptGone() {
    var prompt := MessageRef(100, 500);
    var bot := new Bot(map[], {}, 501);
    var db := new Database();
    db.InitDb();
    var _ := db.AddUserAcceptance(7, Some("ann"), "v1", "t1");
    AcceptPayloadRoundTrip(7);
    var again := ProcessTcAccept(bot, db, Cfg, CallbackQuery("q3", Ann, AcceptPayload(7), prompt), "t2");
    assert again == Raised(MessageNotFound);
    assert db.acceptedUsers == [Acceptance(7, Some("ann"), "t1", "v1")];
    assert bot.effects == [RestrictCall(100, 7, UnrestrictedPermissions)];
  }

  method VoiceOnlyToggle() {
    var members := map[(200, 1) := Administrator, (200, 2) := Member];
    var bot := new Bot(members, {MessageRef(200, 10), MessageRef(200, 11), MessageRef(200, 12), MessageRef(200, 13), MessageRef(200, 14)}, 50);
    var db := new Database();
    var chat := Chat(200, Group, Some("Choir"));
    var admin := User(1, false, "Ada", None, None);
    var member := User(2, false, "Bo", None, None);

    // No setting yet: nothing is deleted.
    var before := DeleteNonVoiceMessages(bot, db, ContentMessage(chat, 10, member, false));
    assert before == Done && MessageRef(200, 10) in bot.live;

    // A member cannot switch the mode on.
    var refused := VoiceOnlyOn(bot, db, CommandMessage(chat, 13, member));
    assert refused == Done && db.groupSettings == map[];

    var on := VoiceOnlyOn(bot, db, CommandMessage(chat, 14, admin));
    assert db.groupSettings[200] == GroupSetting(Some("Choir"), "on");

    var voice := DeleteNonVoiceMessages(bot, db, ContentMessage(chat, 12, member, true));
    assert MessageRef(200, 12) in bot.live;
    var fromAdmin := DeleteNonVoiceMessages(bot, db, ContentMessage(chat, 11, admin, false));
    assert MessageRef(200, 11) in bot.live;
    var text := DeleteNonVoiceMessages(bot, db, ContentMessage(chat, 10, member, false));
    assert MessageRef(200, 10) !in bot.live;
    assert bot.effects[|bot.effects| - 1] == DeleteCall(MessageRef(200, 10));
  }
}
