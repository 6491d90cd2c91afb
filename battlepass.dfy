// The battlepass commands of cogs/battlepass.py: each is one guarded update
// of a single user record through the database helpers. Timestamps are whole
// seconds; the clock reading is the `now` parameter.

module Battlepass {
  import opened Wrappers
  import opened Queries
  import opened Database
  import HexUtils

  /** Seconds between two points claims (15 minutes). */
  const PointsCooldown := 900
  /** Seconds between two daily claims (24 hours). */
  const DailyCooldown := 86400
  /** Points a daily claim awards. */
  const DailyAward := 100

  /** Why a command left the record as it was. */
  datatype Refusal = NotRegistered | TooSoon | TooFewPoints(cost: int)

  /** What a command did to one user record: the new record and the points it moved, or why it did nothing. */
  datatype Outcome = Granted(user: User, amount: int) | Refused(reason: Refusal) | Failed(error: Error)

  /** The user table after a command with this outcome on `userId`: only a granted command writes. */
  function Commit(users: map<int, User>, userId: int, o: Outcome): (r: map<int, User>)
  {
    if o.Granted? then users[userId := o.user] else users
  }

  /** The `points` command on an enrolled user's record; `gain` is the award for the user's level. */
  function PointsClaim(u: User, now: int, gain: int -> nat): (r: Outcome)
  {
    match u.redemptionTime
    case None => Refused(NotRegistered)
    case Some(last) =>
      if now - last >= PointsCooldown then
        Granted(u.(points := gain(u.level) + u.points, redemptionTime := Some(now)), gain(u.level))
      else Refused(TooSoon)
  }

  /** The `daily` command on an enrolled user's record. */
  function DailyClaim(u: User, now: int): (r: Outcome)
  {
    match u.dailyRedemption
    case None => Refused(NotRegistered)
    case Some(last) =>
      if now - last >= DailyCooldown then
        Granted(u.(points := DailyAward + u.points, dailyRedemption := Some(now)), DailyAward)
      else Refused(TooSoon)
  }

  /** The `tierup` command on an enrolled user's record: a zero balance reads as "not registered". */
  function TierUp(u: User): (r: Outcome)
  {
    if u.points == 0 then Refused(NotRegistered)
    else
      var cost := HexUtils.PointsToLevelUp(u.level);
      if u.points >= cost then Granted(u.(level := u.level + 1, points := u.points - cost), cost)
      else Refused(TooFewPoints(cost))
  }

  /** A record the commands keep sound: no negative balance, level at least 1. */
  predicate Sound(u: User)
  {
    u.points >= 0 && u.level >= 1
  }

  /** Every record of the table is sound. */
  predicate AllSound(users: map<int, User>)
  {
    forall k :: k in users ==> Sound(users[k])
  }

  /** A points claim succeeds exactly when a claim time is stored and a full cooldown has passed; it adds `gain(level)` and restamps only its own timestamp. */
  lemma PointsClaimSpec(u: User, now: int, gain: int -> nat)
    ensures PointsClaim(u, now, gain).Granted? <==>
              u.redemptionTime.Some? && now >= u.redemptionTime.value + PointsCooldown
    ensures PointsClaim(u, now, gain).Granted? ==>
              var v := PointsClaim(u, now, gain).user;
              v.points - u.points == gain(u.level) >= 0 && v.redemptionTime == Some(now) &&
              v == u.(points := v.points, redemptionTime := v.redemptionTime)
  {
  }

  /** A daily claim succeeds exactly when a full day has passed; it adds exactly 100 and restamps only its own timestamp. */
  lemma DailyClaimSpec(u: User, now: int)
    ensures DailyClaim(u, now).Granted? <==>
              u.dailyRedemption.Some? && now >= u.dailyRedemption.value + DailyCooldown
    ensures DailyClaim(u, now).Granted? ==>
              var v := DailyClaim(u, now).user;
              v.points == u.points + 100 && v.dailyRedemption == Some(now) &&
              v == u.(points := v.points, dailyRedemption := v.dailyRedemption)
  {
  }

  /** After a granted claim, a second claim less than a cooldown later is refused as too soon. */
  lemma CooldownsHold(u: User, first: int, second: int, gain: int -> nat)
    ensures PointsClaim(u, first, gain).Granted? && second - first < PointsCooldown ==>
              PointsClaim(PointsClaim(u, first, gain).user, second, gain) == Refused(TooSoon)
    ensures DailyClaim(u, first).Granted? && second - first < DailyCooldown ==>
              DailyClaim(DailyClaim(u, first).user, second) == Refused(TooSoon)
  {
  }

  /**
   * The two cooldowns are independent: a daily claim never changes whether
   * (or how much) a points claim pays, nor the other way round, and granting
   * both gives the same record in either order.
   */
  lemma ClaimsIndependent(u: User, pointsAt: int, dailyAt: int, gain: int -> nat)
    ensures DailyClaim(u, dailyAt).Granted? ==>
              var after := PointsClaim(DailyClaim(u, dailyAt).user, pointsAt, gain);
              after.Granted? == PointsClaim(u, pointsAt, gain).Granted? &&
              (after.Granted? ==> after.amount == PointsClaim(u, pointsAt, gain).amount)
    ensures PointsClaim(u, pointsAt, gain).Granted? ==>
              DailyClaim(PointsClaim(u, pointsAt, gain).user, dailyAt).Granted? == DailyClaim(u, dailyAt).Granted?
    ensures PointsClaim(u, pointsAt, gain).Granted? && DailyClaim(u, dailyAt).Granted? ==>
              PointsClaim(DailyClaim(u, dailyAt).user, pointsAt, gain).user ==
              DailyClaim(PointsClaim(u, pointsAt, gain).user, dailyAt).user
  {
  }

  /** A tier-up moves exactly one level for exactly its cost, and never overdraws. */
  lemma TierUpSpec(u: User)
    ensures TierUp(u).Granted? <==> u.points != 0 && u.points >= HexUtils.PointsToLevelUp(u.level)
    ensures TierUp(u).Granted? ==>
              var v := TierUp(u).user;
              v.level == u.level + 1 && v.points + TierUp(u).amount == u.points &&
              TierUp(u).amount == HexUtils.PointsToLevelUp(u.level) && v.points >= 0 &&
              v == u.(level := v.level, points := v.points)
    ensures u.points == 0 ==> TierUp(u) == Refused(NotRegistered)
  {
  }

  /** Every command keeps a sound record sound. */
  lemma CommandsKeepSound(u: User, now: int, gain: int -> nat)
    requires Sound(u)
    ensures PointsClaim(u, now, gain).Granted? ==> Sound(PointsClaim(u, now, gain).user)
    ensures DailyClaim(u, now).Granted? ==> Sound(DailyClaim(u, now).user)
    ensures TierUp(u).Granted? ==> Sound(TierUp(u).user)
  {
  }

  /** Committing an outcome built from a sound record keeps the whole table sound. */
  lemma CommitKeepsSound(users: map<int, User>, userId: int, o: Outcome)
    requires AllSound(users)
    requires o.Granted? ==> Sound(o.user)
    ensures AllSound(Commit(users, userId, o))
  {
  }

  /**
   * `register`: enrols the author with both timestamps at `now`, unless a
   * row with that id already exists, in which case nothing changes.
   */
  method Register(db: BattlepassDb, userId: int, userName: string, guildId: int, now: int) returns (created: bool)
    modifies db
    ensures created <==> userId !in old(db.users)
    ensures created ==> db.users == old(db.users)[userId := User(guildId, StartingPoints, Some(now), 1, userName, Some(now))]
    ensures !created ==> db.users == old(db.users)
    ensures db.inventory == old(db.inventory) && db.shop == old(db.shop)
    ensures AllSound(old(db.users)) ==> AllSound(db.users)
  {
    var existing := db.GetUserId([Condition(UserIdColumn, IntValue(userId))]);
    ByUserId(db.users, userId);
    if existing.Some? {
      created := false;
    } else {
      created := db.CreateUser(userId, now, userName, guildId, now);
    }
  }

  /** `points`: a claim every 15 minutes, worth `gain(level)`. */
  method ClaimPoints(db: BattlepassDb, userId: int, now: int, gain: int -> nat) returns (o: Outcome)
    modifies db
    ensures userId in old(db.users) ==> o == PointsClaim(old(db.users)[userId], now, gain)
    ensures userId !in old(db.users) ==> o == Refused(NotRegistered)
    ensures db.users == Commit(old(db.users), userId, o)
    ensures db.inventory == old(db.inventory) && db.shop == old(db.shop)
    ensures AllSound(old(db.users)) ==> AllSound(db.users)
  {
    var last := db.RetrieveRedemptionTime(userId);
    if last.None? {
      return Refused(NotRegistered);
    }
    if now - last.value >= PointsCooldown {
      var points := db.RetrievePoints(userId).value;
      var level := db.RetrieveLevel(userId).value;
      var gained := gain(level);
      db.UpdatePoints(userId, gained + points);
      db.UpdateRedemptionTime(userId, now);
      o := Granted(db.users[userId], gained);
    } else {
      o := Refused(TooSoon);
    }
    if AllSound(old(db.users)) {
      CommandsKeepSound(old(db.users)[userId], now, gain);
      CommitKeepsSound(old(db.users), userId, o);
    }
  }

  /** `daily`: a claim every 24 hours, worth 100. */
  method ClaimDaily(db: BattlepassDb, userId: int, now: int) returns (o: Outcome)
    modifies db
    ensures userId in old(db.users) ==> o == DailyClaim(old(db.users)[userId], now)
    ensures userId !in old(db.users) ==> o == Refused(NotRegistered)
    ensures db.users == Commit(old(db.users), userId, o)
    ensures db.inventory == old(db.inventory) && db.shop == old(db.shop)
    ensures AllSound(old(db.users)) ==> AllSound(db.users)
  {
    var last := db.RetrieveDailyRedemptionTime(userId);
    if last.None? {
      return Refused(NotRegistered);
    }
    if now - last.value >= DailyCooldown {
      var points := db.RetrievePoints(userId).value;
      db.UpdatePoints(userId, DailyAward + points);
      db.UpdateDailyRedemptionTime(userId, now);
      o := Granted(db.users[userId], DailyAward);
    } else {
      o := Refused(TooSoon);
    }
    if AllSound(old(db.users)) {
      CommandsKeepSound(old(db.users)[userId], now, x => 0);
      CommitKeepsSound(old(db.users), userId, o);
    }
  }

  /** `tierup`: spends the level's cost to go up one level; an unknown user makes `retrieve_points` fail. */
  method TierUpCommand(db: BattlepassDb, userId: int) returns (o: Outcome)
    modifies db
    ensures userId in old(db.users) ==> o == TierUp(old(db.users)[userId])
    ensures userId !in old(db.users) ==> o == Failed(RowMissing)
    ensures db.users == Commit(old(db.users), userId, o)
    ensures db.inventory == old(db.inventory) && db.shop == old(db.shop)
    ensures AllSound(old(db.users)) ==> AllSound(db.users)
  {
    var currentLevel := db.RetrieveLevel(userId);
    var points := db.RetrievePoints(userId);
    if points.Err? {
      return Failed(points.error);
    }
    if points.value == 0 {
      return Refused(NotRegistered);
    }
    var cost := HexUtils.PointsToLevelUp(currentLevel.value);
    if points.value >= cost {
      db.UpdateLevel(userId, currentLevel.value + 1);
      db.UpdatePoints(userId, points.value - cost);
      o := Granted(db.users[userId], cost);
    } else {
      o := Refused(TooFewPoints(cost));
    }
    if AllSound(old(db.users)) {
      CommandsKeepSound(old(db.users)[userId], 0, x => 0);
      CommitKeepsSound(old(db.users), userId, o);
    }
  }

  /** What the `battlepass` command shows. */
  datatype View = Shown(level: int, points: int) | NotEnrolled | NotInGuild | ViewFailed(error: Error)

  /** Whether the row is the one named `name` in guild `guildId`. */
  predicate NamedInGuild(userId: int, u: User, name: string, guildId: int)
  {
    MatchesAll(userId, u, [Condition(UserNameColumn, TextValue(name)), Condition(GuildIdColumn, IntValue(guildId))])
  }

  /** Whether the optional `user` argument is truthy: present and not the empty string. */
  predicate NamesSomeone(user: Option<string>)
  {
    user.Some? && user.value != ""
  }

  /**
   * `battlepass [user]`: the author's own level and points, or those of the
   * named member of the same guild. An empty name is falsy, so it shows the
   * author's own progress like no name at all. A zero balance reads as "not
   * registered"; an unenrolled author makes `retrieve_points` fail.
   */
  method Progress(db: BattlepassDb, authorId: int, guildId: int, user: Option<string>) returns (v: View)
    ensures !NamesSomeone(user) && authorId !in db.users ==> v == ViewFailed(RowMissing)
    ensures !NamesSomeone(user) && authorId in db.users ==>
              v == if db.users[authorId].points != 0 then Shown(db.users[authorId].level, db.users[authorId].points)
                   else NotEnrolled
    ensures NamesSomeone(user) ==>
              (v == NotInGuild <==> forall k :: k in db.users ==> !NamedInGuild(k, db.users[k], user.value, guildId))
    ensures NamesSomeone(user) && v != NotInGuild ==>
              exists k :: k in db.users && NamedInGuild(k, db.users[k], user.value, guildId) &&
                          v == if db.users[k].points != 0 then Shown(db.users[k].level, db.users[k].points)
                               else NotEnrolled
  {
    if NamesSomeone(user) {
      var found := db.GetUserId([Condition(UserNameColumn, TextValue(user.value)), Condition(GuildIdColumn, IntValue(guildId))]);
      if found.None? {
        return NotInGuild;
      }
      var points := db.RetrievePoints(found.value).value;
      var level := db.RetrieveLevel(found.value).value;
      v := if points != 0 then Shown(level, points) else NotEnrolled;
    } else {
      var points := db.RetrievePoints(authorId);
      if points.Err? {
        return ViewFailed(points.error);
      }
      var level := db.RetrieveLevel(authorId).value;
      v := if points.value != 0 then Shown(level, points.value) else NotEnrolled;
    }
  }
}
