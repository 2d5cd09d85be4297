/**
 * The bot's SQLite store (db/database.py). The `accepted_users` table is a
 * sequence of rows in insertion (rowid) order whose UNIQUE column is `user_id`;
 * the per-chat voice-only settings, whose accessors the handlers import from the
 * same module, are a map from chat id to the stored title and mode.
 */
module Database {
  import opened Wrappers

  /** A row of accepted_users, without the autoincrement `id` nothing reads. */
  datatype Acceptance = Acceptance(userId: int, username: Option<string>, timestamp: string, version: string)

  /** A row of the group settings: the chat title as last recorded and the mode string. */
  datatype GroupSetting = GroupSetting(title: Option<string>, mode: string)

  /** The mode stored for a chat; None for a chat never configured. */
  function ModeOf(settings: map<int, GroupSetting>, chatId: int): Option<string> {
    if chatId in settings then Some(settings[chatId].mode) else None
  }

  /** The settings of the chats listed in `order`, in that order. */
  function SettingsInOrder(settings: map<int, GroupSetting>, order: seq<int>): seq<GroupSetting>
    requires forall k :: 0 <= k < |order| ==> order[k] in settings
  {
    seq(|order|, k requires 0 <= k < |order| => settings[order[k]])
  }

  /** The UNIQUE constraint on user_id. */
  ghost predicate UniqueUsers(rows: seq<Acceptance>) {
    forall i, j :: 0 <= i < j < |rows| ==> rows[i].userId != rows[j].userId
  }

  /** The row stored for `u`, if any: what a lookup on the unique index finds. */
  function Find(rows: seq<Acceptance>, u: int): (r: Option<Acceptance>)
    ensures r.Some? ==> r.value in rows && r.value.userId == u
    ensures r.None? <==> forall i :: 0 <= i < |rows| ==> rows[i].userId != u
  {
    if rows == [] then None
    else if rows[0].userId == u then Some(rows[0])
    else Find(rows[1..], u)
  }

  /** INSERT OR IGNORE keyed on user_id: a row whose user is already present is dropped. */
  function InsertOrIgnore(rows: seq<Acceptance>, row: Acceptance): seq<Acceptance> {
    if Find(rows, row.userId).Some? then rows else rows + [row]
  }

  lemma {:induction false} FindAppend(rows: seq<Acceptance>, row: Acceptance, u: int)
    ensures Find(rows + [row], u) ==
      if Find(rows, u).Some? then Find(rows, u)
      else if row.userId == u then Some(row)
      else None
  {
    if rows != [] {
      assert (rows + [row])[1..] == rows[1..] + [row];
      FindAppend(rows[1..], row, u);
    }
  }

  /**
   * After an insert the user has a row; it is the first one ever stored for that
   * user (an existing row is kept as it was), or else exactly the given row.
   */
  lemma InsertRecordsUser(rows: seq<Acceptance>, row: Acceptance)
    ensures Find(InsertOrIgnore(rows, row), row.userId).Some?
    ensures Find(rows, row.userId).Some? ==>
      InsertOrIgnore(rows, row) == rows &&
      Find(InsertOrIgnore(rows, row), row.userId) == Find(rows, row.userId)
    ensures Find(rows, row.userId).None? ==>
      Find(InsertOrIgnore(rows, row), row.userId) == Some(row)
  {
    FindAppend(rows, row, row.userId);
  }

  /** An insert for one user leaves what is stored for every other user as it was. */
  lemma InsertKeepsOthers(rows: seq<Acceptance>, row: Acceptance, v: int)
    requires v != row.userId
    ensures Find(InsertOrIgnore(rows, row), v) == Find(rows, v)
  {
    FindAppend(rows, row, v);
  }

  /** The table only grows: every existing row stays at its place. */
  lemma InsertIsAppendOnly(rows: seq<Acceptance>, row: Acceptance)
    ensures |rows| <= |InsertOrIgnore(rows, row)| <= |rows| + 1
    ensures InsertOrIgnore(rows, row)[..|rows|] == rows
  {
  }

  /** An insert never breaks the UNIQUE constraint. */
  lemma InsertKeepsUnique(rows: seq<Acceptance>, row: Acceptance)
    requires UniqueUsers(rows)
    ensures UniqueUsers(InsertOrIgnore(rows, row))
  {
  }

  /** A second insert for the same user, whatever its username, time or version, changes nothing. */
  lemma InsertIdempotent(rows: seq<Acceptance>, first: Acceptance, again: Acceptance)
    requires again.userId == first.userId
    ensures InsertOrIgnore(InsertOrIgnore(rows, first), again) == InsertOrIgnore(rows, first)
  {
    InsertRecordsUser(rows, first);
  }

  /** A series of inserts, as repeated accept clicks issue them. */
  function InsertAll(rows: seq<Acceptance>, batch: seq<Acceptance>): seq<Acceptance>
    decreases |batch|
  {
    if batch == [] then rows else InsertAll(InsertOrIgnore(rows, batch[0]), batch[1..])
  }

  /**
   * However many times one user's acceptance is inserted, the table stays free of
   * duplicates and holds one row for that user: the one stored before, or the first inserted.
   */
  lemma {:induction false} RepeatedInsertsOneRow(rows: seq<Acceptance>, batch: seq<Acceptance>, u: int)
    requires UniqueUsers(rows)
    requires |batch| >= 1 && forall k :: 0 <= k < |batch| ==> batch[k].userId == u
    ensures UniqueUsers(InsertAll(rows, batch))
    ensures Find(InsertAll(rows, batch), u) ==
      if Find(rows, u).Some? then Find(rows, u) else Some(batch[0])
    decreases |batch|
  {
    var next := InsertOrIgnore(rows, batch[0]);
    InsertRecordsUser(rows, batch[0]);
    InsertKeepsUnique(rows, batch[0]);
    if |batch| > 1 {
      RepeatedInsertsOneRow(next, batch[1..], u);
      assert batch[1..][0] == batch[1];
    }
  }

  /** A list without repetitions has as many elements as the set of its elements. */
  lemma {:induction false} DistinctCardinality(order: seq<int>)
    requires forall i, j :: 0 <= i < j < |order| ==> order[i] != order[j]
    ensures |set c | c in order| == |order|
    decreases |order|
  {
    if order != [] {
      var rest := order[1..];
      DistinctCardinality(rest);
      assert (set c | c in order) == {order[0]} + (set c | c in rest);
      assert order[0] !in rest;
    }
  }

  class Database {
    var tableExists: bool
    var acceptedUsers: seq<Acceptance>
    var groupSettings: map<int, GroupSetting>

    ghost predicate Valid()
      reads this
    {
      UniqueUsers(acceptedUsers) && (!tableExists ==> acceptedUsers == [])
    }

    /** A database file in which init_db has not yet created accepted_users. */
    constructor ()
      ensures Valid()
      ensures !tableExists && acceptedUsers == [] && groupSettings == map[]
    {
      tableExists := false;
      acceptedUsers := [];
      groupSettings := map[];
    }

    /** init_db: CREATE TABLE IF NOT EXISTS; an existing table and its rows are left alone. */
    method InitDb()
      requires Valid()
      modifies this
      ensures Valid()
      ensures tableExists
      ensures acceptedUsers == old(acceptedUsers) && groupSettings == old(groupSettings)
    {
      if !tableExists {
        tableExists := true;
        acceptedUsers := [];
      }
    }

    /**
     * add_user_acceptance with `now` for datetime.utcnow().isoformat(). Without the
     * table the statement fails (`ok == false`) and nothing is written.
     */
    method AddUserAcceptance(userId: int, username: Option<string>, version: string, now: string)
      returns (ok: bool)
      requires Valid()
      modifies this
      ensures Valid()
      ensures ok == old(tableExists) && tableExists == old(tableExists)
      ensures acceptedUsers ==
        if ok then InsertOrIgnore(old(acceptedUsers), Acceptance(userId, username, now, version))
        else old(acceptedUsers)
      ensures groupSettings == old(groupSettings)
    {
      ok := tableExists;
      if ok {
        InsertKeepsUnique(acceptedUsers, Acceptance(userId, username, now, version));
        acceptedUsers := InsertOrIgnore(acceptedUsers, Acceptance(userId, username, now, version));
      }
    }

    /** set_voice_only_mode: upsert of the chat's title and mode. */
    method SetVoiceOnlyMode(chatId: int, title: Option<string>, mode: string)
      requires Valid()
      modifies this
      ensures Valid()
      ensures groupSettings == old(groupSettings)[chatId := GroupSetting(title, mode)]
      ensures tableExists == old(tableExists) && acceptedUsers == old(acceptedUsers)
    {
      groupSettings := groupSettings[chatId := GroupSetting(title, mode)];
    }

    /** get_voice_only_mode: the stored mode, None for a chat never configured. */
    method GetVoiceOnlyMode(chatId: int) returns (mode: Option<string>)
      ensures mode == ModeOf(groupSettings, chatId)
    {
      mode := ModeOf(groupSettings, chatId);
    }

    /** get_all_user_acceptances: every row, in rowid order; None (an error) before init_db. */
    method GetAllUserAcceptances() returns (rows: Option<seq<Acceptance>>)
      ensures rows.Some? <==> tableExists
      ensures rows.Some? ==> rows.value == acceptedUsers
    {
      rows := if tableExists then Some(acceptedUsers) else None;
    }

    /**
     * get_all_group_settings: one setting per configured chat, in the order the
     * query returns them, given as `order` (each configured chat exactly once).
     */
    method GetAllGroupSettings(order: seq<int>) returns (groups: seq<GroupSetting>)
      requires forall k :: 0 <= k < |order| ==> order[k] in groupSettings
      requires forall c :: c in groupSettings ==> c in order
      requires forall i, j :: 0 <= i < j < |order| ==> order[i] != order[j]
      ensures forall k :: 0 <= k < |order| ==> order[k] in groupSettings
      ensures groups == SettingsInOrder(groupSettings, order)
      ensures |groups| == |groupSettings|
    {
      var settings := groupSettings;
      assert forall k :: 0 <= k < |order| ==> order[k] in order;
      assert settings.Keys == set c | c in order by {
        forall c | c in settings.Keys ensures c in order { }
        forall c | c in order ensures c in settings.Keys { }
      }
      DistinctCardinality(order);
      groups := SettingsInOrder(settings, order);
    }
  }
}
