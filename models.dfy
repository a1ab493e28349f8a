/**
 * src/models.py: users and the command log, the per-user admission of
 * catalog requests, and the timestamps that `save` maintains.
 *
 * The document store is a `Store` object holding the user collection,
 * the log collection and a clock (seconds, local time). Documents are
 * values: saving one writes its stamped copy into the store and returns it.
 */
module Models {
  import opened Wrappers

  /** Default of `daily_catalog_requests_limit`. */
  const DefaultDailyLimit: int := 5
  /** The command tag whose entries count against the limit. */
  const CatalogCommand: string := "wb_catalog"
  const SecondsPerDay: int := 86400

  /** A `User` document; `chatId` is its primary key. `None` is an unset date. */
  datatype User = User(
    chatId: int,
    userName: string,
    fullName: string,
    dailyCatalogRequestsLimit: int,
    catalogRequestsBlocked: bool,
    createdAt: Option<int>,
    updatedAt: Option<int>)

  /** A `LogCommandItem` document; `user` is the chat id of the user it references. */
  datatype LogCommandItem = LogCommandItem(user: int, command: string, message: string, createdAt: Option<int>)

  /** The Telegram message an update carries; empty strings stand for missing names. */
  datatype Message = Message(chatId: int, userName: string, firstName: string, lastName: string)

  /** A Telegram update: a plain message, or a callback query with its message. */
  datatype Update = Update(message: Option<Message>, callbackQueryMessage: Option<Message>)

  // ---------------------------------------------------------------------
  // Timestamps
  // ---------------------------------------------------------------------

  /** What `User.save` does to a user before writing it. */
  function StampUser(u: User, now: int): (s: User)
    ensures s.createdAt == (if u.createdAt.None? then Some(now) else u.createdAt)
    ensures s.updatedAt == Some(now)
    ensures s.(createdAt := u.createdAt, updatedAt := u.updatedAt) == u
  {
    u.(createdAt := if u.createdAt.None? then Some(now) else u.createdAt, updatedAt := Some(now))
  }

  /** What `LogCommandItem.save` does to an entry before writing it. */
  function StampLogItem(e: LogCommandItem, now: int): (s: LogCommandItem)
    ensures s.createdAt == (if e.createdAt.None? then Some(now) else e.createdAt)
    ensures s.(createdAt := e.createdAt) == e
  {
    e.(createdAt := if e.createdAt.None? then Some(now) else e.createdAt)
  }

  /**
   * Saving a user, changing some fields and saving again later keeps the
   * first creation time and moves the update time to the second save.
   */
  lemma ResaveUserKeepsCreatedAt(u: User, t1: int, t2: int, name: string)
    ensures var first := StampUser(u, t1);
            var second := StampUser(first.(fullName := name), t2);
            second.createdAt == first.createdAt && second.updatedAt == Some(t2) && second.fullName == name
  {
  }

  // ---------------------------------------------------------------------
  // Admission of catalog requests
  // ---------------------------------------------------------------------

  /** An entry counts for `chatId` when it is that user's catalog request created at or after `since`. */
  predicate Qualifies(e: LogCommandItem, chatId: int, since: int) {
    e.user == chatId && e.command == CatalogCommand && e.createdAt.Some? && e.createdAt.value >= since
  }

  /** `LogCommandItem.objects(user=..., command='wb_catalog', created_at__gte=since).count()`. */
  function CatalogRequestsCount(log: seq<LogCommandItem>, chatId: int, since: int): (n: nat)
    ensures n <= |log|
  {
    if log == [] then 0
    else (if Qualifies(log[0], chatId, since) then 1 else 0) + CatalogRequestsCount(log[1..], chatId, since)
  }

  /** The calendar midnight at or before `now`, the window start the code uses. */
  function Midnight(now: int): (m: int)
    ensures m <= now < m + SecondsPerDay
    ensures m % SecondsPerDay == 0
  {
    now - now % SecondsPerDay
  }

  /** `User.today_catalog_requests_count` at clock `now`. */
  function TodayCatalogRequestsCount(u: User, log: seq<LogCommandItem>, now: int): (n: nat)
    ensures n <= |log|
  {
    CatalogRequestsCount(log, u.chatId, Midnight(now))
  }

  /**
   * `User.can_send_more_catalog_requests`, with the window start as a
   * parameter: a blocked user is refused whatever the log holds; any
   * other user is admitted exactly while the count is under the limit.
   */
  function CanSendMoreCatalogRequests(u: User, log: seq<LogCommandItem>, since: int): (ok: bool)
    ensures u.catalogRequestsBlocked ==> !ok
    ensures !u.catalogRequestsBlocked ==> (ok <==> CatalogRequestsCount(log, u.chatId, since) < u.dailyCatalogRequestsLimit)
  {
    if u.catalogRequestsBlocked then false
    else if CatalogRequestsCount(log, u.chatId, since) >= u.dailyCatalogRequestsLimit then false
    else true
  }

  /** Appending one entry raises the count by one exactly when the entry qualifies. */
  lemma {:induction false} CountAppend(log: seq<LogCommandItem>, e: LogCommandItem, chatId: int, since: int)
    ensures CatalogRequestsCount(log + [e], chatId, since)
         == CatalogRequestsCount(log, chatId, since) + (if Qualifies(e, chatId, since) then 1 else 0)
  {
    if log != [] {
      assert (log + [e])[1..] == log[1..] + [e];
      CountAppend(log[1..], e, chatId, since);
    }
  }

  /** Appending entries never lowers the count. */
  lemma {:induction false} CountGrowsWithLog(log: seq<LogCommandItem>, more: seq<LogCommandItem>, chatId: int, since: int)
    ensures CatalogRequestsCount(log + more, chatId, since) >= CatalogRequestsCount(log, chatId, since)
    decreases |more|
  {
    if more != [] {
      var init := more[..|more| - 1];
      assert log + more == (log + init) + [more[|more| - 1]];
      CountAppend(log + init, more[|more| - 1], chatId, since);
      CountGrowsWithLog(log, init, chatId, since);
    } else {
      assert log + more == log;
    }
  }

  /** An earlier window start counts at least as many entries. */
  lemma {:induction false} CountWidensWithWindow(log: seq<LogCommandItem>, chatId: int, early: int, late: int)
    requires early <= late
    ensures CatalogRequestsCount(log, chatId, early) >= CatalogRequestsCount(log, chatId, late)
  {
    if log != [] {
      CountWidensWithWindow(log[1..], chatId, early, late);
    }
  }

  /** Entries all created before the window start (or never saved) count nothing. */
  lemma {:induction false} NothingCountsBeforeWindow(log: seq<LogCommandItem>, chatId: int, since: int)
    requires forall i :: 0 <= i < |log| ==> log[i].createdAt.None? || log[i].createdAt.value < since
    ensures CatalogRequestsCount(log, chatId, since) == 0
  {
    if log != [] {
      NothingCountsBeforeWindow(log[1..], chatId, since);
    }
  }

  /**
   * Today's count takes a catalog request of the user made since the
   * last midnight, and leaves out one made before it.
   */
  lemma TodayCountsSinceMidnight(u: User, log: seq<LogCommandItem>, e: LogCommandItem, now: int)
    requires e.user == u.chatId && e.command == CatalogCommand && e.createdAt.Some?
    ensures TodayCatalogRequestsCount(u, log + [e], now)
         == TodayCatalogRequestsCount(u, log, now) + (if e.createdAt.value >= Midnight(now) then 1 else 0)
  {
    CountAppend(log, e, u.chatId, Midnight(now));
  }

  /** A log whose entries all qualify is counted in full. */
  lemma {:induction false} CountAllQualifying(log: seq<LogCommandItem>, chatId: int, since: int)
    requires forall i :: 0 <= i < |log| ==> Qualifies(log[i], chatId, since)
    ensures CatalogRequestsCount(log, chatId, since) == |log|
  {
    if log != [] {
      CountAllQualifying(log[1..], chatId, since);
    }
  }

  /** A refused user stays refused however many entries are appended. */
  lemma RefusedStaysRefused(u: User, log: seq<LogCommandItem>, more: seq<LogCommandItem>, since: int)
    requires !CanSendMoreCatalogRequests(u, log, since)
    ensures !CanSendMoreCatalogRequests(u, log + more, since)
  {
    CountGrowsWithLog(log, more, u.chatId, since);
  }

  /**
   * Entries of another user or of another command leave the admission
   * decision as it was; a qualifying entry can only turn it to a refusal.
   */
  lemma AppendAdmission(u: User, log: seq<LogCommandItem>, e: LogCommandItem, since: int)
    ensures !Qualifies(e, u.chatId, since) ==>
      CanSendMoreCatalogRequests(u, log + [e], since) == CanSendMoreCatalogRequests(u, log, since)
    ensures CanSendMoreCatalogRequests(u, log + [e], since) ==> CanSendMoreCatalogRequests(u, log, since)
  {
    CountAppend(log, e, u.chatId, since);
  }

  /** A user with at least `limit` qualifying requests in the window is refused. */
  lemma ThrottledAtLimit(u: User, log: seq<LogCommandItem>, since: int)
    requires forall i :: 0 <= i < |log| ==> Qualifies(log[i], u.chatId, since)
    requires |log| >= u.dailyCatalogRequestsLimit
    ensures !CanSendMoreCatalogRequests(u, log, since)
  {
    CountAllQualifying(log, u.chatId, since);
  }

  /** A fresh user (limit 5, not blocked, no history) is admitted. */
  lemma FreshUserAdmitted(chatId: int, since: int)
    ensures CanSendMoreCatalogRequests(User(chatId, "", "", DefaultDailyLimit, false, None, None), [], since)
  {
  }

  // ---------------------------------------------------------------------
  // The store
  // ---------------------------------------------------------------------

  /** Position of the user with `chatId`, as `User.objects(chat_id=...)` finds it. */
  function IndexOfUser(users: seq<User>, chatId: int): (r: Option<nat>)
    ensures r.Some? ==> r.value < |users| && users[r.value].chatId == chatId
    ensures r.None? ==> forall i :: 0 <= i < |users| ==> users[i].chatId != chatId
  {
    if users == [] then None
    else if users[|users| - 1].chatId == chatId then Some(|users| - 1)
    else IndexOfUser(users[..|users| - 1], chatId)
  }

  /** The display name `user_get_by_update` assembles: first name, then a space and the last name if there is one. */
  function FullName(firstName: string, lastName: string): (r: string)
    ensures lastName == "" ==> r == firstName
    ensures lastName != "" ==> |r| == |firstName| + 1 + |lastName| && r[..|firstName|] == firstName
                               && r[|firstName|] == ' ' && r[|firstName| + 1..] == lastName
  {
    if lastName != "" then firstName + " " + lastName else firstName
  }

  /** The message of an update: its own, else that of its callback query. */
  function EffectiveMessage(u: Update): (r: Option<Message>)
    ensures r.Some? <==> u.message.Some? || u.callbackQueryMessage.Some?
    ensures r.Some? ==> r == u.message || r == u.callbackQueryMessage
    ensures u.message.Some? ==> r == u.message
  {
    if u.message.Some? then u.message else u.callbackQueryMessage
  }

  predicate UniqueChatIds(users: seq<User>) {
    forall i, j :: 0 <= i < j < |users| ==> users[i].chatId != users[j].chatId
  }

  class Store {
    var users: seq<User>
    var log: seq<LogCommandItem>
    var clock: int

    /** Chat ids are a primary key, and every stored document carries its dates. */
    ghost predicate Valid()
      reads this
    {
      && UniqueChatIds(users)
      && (forall i :: 0 <= i < |users| ==> users[i].createdAt.Some? && users[i].updatedAt.Some?)
      && (forall i :: 0 <= i < |log| ==> log[i].createdAt.Some?)
    }

    constructor (start: int)
      ensures Valid()
      ensures users == [] && log == [] && clock == start
    {
      users, log, clock := [], [], start;
    }

    /** Time passes: the clock that `datetime.now()` reads moves forward, and nothing stored changes. */
    method Tick(seconds: nat)
      requires Valid()
      modifies this
      ensures Valid()
      ensures clock == old(clock) + seconds
      ensures users == old(users) && log == old(log)
    {
      clock := clock + seconds;
    }

    /** `User.save`: stamp the user and write it under its chat id, replacing a stored one. */
    method SaveUser(u: User) returns (saved: User)
      requires Valid()
      modifies this
      ensures Valid()
      ensures saved == StampUser(u, old(clock))
      ensures clock == old(clock) && log == old(log)
      ensures match IndexOfUser(old(users), u.chatId)
        case Some(i) => users == old(users)[i := saved]
        case None => users == old(users) + [saved]
    {
      saved := StampUser(u, clock);
      var found := IndexOfUser(users, u.chatId);
      match found {
        case Some(i) =>
          users := users[i := saved];
        case None =>
          users := users + [saved];
      }
    }

    /**
     * `LogCommandItem.save`: stamp the entry and write it, as a new
     * document (`at == None`) or over the stored document `at`.
     */
    method SaveLogItem(item: LogCommandItem, at: Option<nat>) returns (saved: LogCommandItem)
      requires Valid()
      requires at.Some? ==> at.value < |log|
      modifies this
      ensures Valid()
      ensures saved == StampLogItem(item, old(clock))
      ensures clock == old(clock) && users == old(users)
      ensures at.None? ==> log == old(log) + [saved]
      ensures at.Some? ==> log == old(log)[at.value := saved]
    {
      saved := StampLogItem(item, clock);
      if at.Some? {
        log := log[at.value := saved];
      } else {
        log := log + [saved];
      }
    }

    /** `log_command`: one new entry for the user, created now. */
    method LogCommand(user: User, command: string, message: string := "") returns (item: LogCommandItem)
      requires Valid()
      modifies this
      ensures Valid()
      ensures item == LogCommandItem(user.chatId, command, message, Some(old(clock)))
      ensures log == old(log) + [item]
      ensures clock == old(clock) && users == old(users)
    {
      item := SaveLogItem(LogCommandItem(user.chatId, command, message, None), None);
    }

    /**
     * `user_get_by_update`: the stored user of the message's chat,
     * returned as it is; otherwise a new user with the default limit,
     * named from the sender, saved now. An update with no message raises.
     */
    method UserGetByUpdate(update: Update) returns (r: Result<User>)
      requires Valid()
      modifies this
      ensures Valid()
      ensures clock == old(clock) && log == old(log)
      ensures EffectiveMessage(update).None? ==> r.Err? && users == old(users)
      ensures EffectiveMessage(update).Some? ==>
        var m := EffectiveMessage(update).value;
        match IndexOfUser(old(users), m.chatId)
        case Some(i) => r == Ok(old(users)[i]) && users == old(users)
        case None =>
          && r == Ok(User(m.chatId, m.userName, FullName(m.firstName, m.lastName), DefaultDailyLimit, false,
                          Some(old(clock)), Some(old(clock))))
          && users == old(users) + [r.value]
    {
      var message := EffectiveMessage(update);
      if message.None? {
        return Err("'NoneType' object has no attribute 'message'");
      }
      var m := message.value;
      var matched := IndexOfUser(users, m.chatId);
      if matched.Some? {
        return Ok(users[matched.value]);
      }
      var saved := SaveUser(User(m.chatId, m.userName, FullName(m.firstName, m.lastName), DefaultDailyLimit, false, None, None));
      r := Ok(saved);
    }
  }

  /**
   * Logging a request through the store adds exactly one to the count of
   * its user when it is a catalog request inside the window, and nothing
   * to anybody else's.
   */
  lemma LogCommandCount(log: seq<LogCommandItem>, user: User, command: string, message: string,
                        now: int, chatId: int, since: int)
    ensures var e := LogCommandItem(user.chatId, command, message, Some(now));
      CatalogRequestsCount(log + [e], chatId, since)
        == CatalogRequestsCount(log, chatId, since)
           + (if chatId == user.chatId && command == CatalogCommand && now >= since then 1 else 0)
  {
    CountAppend(log, LogCommandItem(user.chatId, command, message, Some(now)), chatId, since);
  }
}
