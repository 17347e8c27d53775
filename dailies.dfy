/** The daily service (src/daily/daily.service.ts): the lazy daily reset of
    the listing, ownership lookup, free-form and paid edits, free and paid
    deletion, and completion with its gold, pet and log side effects. Each
    method is one transaction: on an error nothing it may modify has
    changed. */
module DailyService {
  import opened Outcomes
  import opened Rules
  import opened Store
  import opened Lookup

  /** The optional fields of an edit request; None leaves a field as it is. */
  datatype DailyPatch = DailyPatch(
    title: Option<string>,
    notes: Option<string>,
    difficulty: Option<Difficulty>)

  /** The daily with the request's fields written over it; completion state,
      owner and gold lock are out of the request's reach. */
  function Patched(d: Daily, p: DailyPatch): (d': Daily)
    ensures d'.userId == d.userId && d'.lockedUntil == d.lockedUntil
    ensures d'.completed == d.completed && d'.lastCompleted == d.lastCompleted
    ensures p.difficulty.None? ==> d'.difficulty == d.difficulty
    ensures p.title.Some? ==> d'.title == p.title.value
  {
    d.(title := p.title.GetOr(d.title),
       notes := p.notes.GetOr(d.notes),
       difficulty := p.difficulty.GetOr(d.difficulty))
  }

  /** How the listing shows one daily at `now`: a daily last completed on an
      earlier (or any other) day is shown as not completed; a daily completed
      today, or never completed, is shown as stored. Only `completed` can
      differ from the stored row, and nothing is written back. */
  function ResetView(d: Daily, now: int): (v: Daily)
    ensures v == d.(completed := v.completed)
    ensures v.completed <==> d.completed && (d.lastCompleted.None? || SameDay(d.lastCompleted.value, now))
    ensures d.lastCompleted.Some? && DayBefore(d.lastCompleted.value, now) ==> !v.completed
  {
    if d.lastCompleted.Some? && !SameDay(d.lastCompleted.value, now) then d.(completed := false)
    else d
  }

  /** The listing of a user's dailies, in the order they were fetched, each
      shown through ResetView. */
  function ShowDailies(ds: seq<Daily>, now: int): (shown: seq<Daily>)
    ensures |shown| == |ds|
    ensures forall i :: 0 <= i < |ds| ==> shown[i] == ResetView(ds[i], now)
  {
    if ds == [] then []
    else [ResetView(ds[0], now)] + ShowDailies(ds[1..], now)
  }

  /** Showing an already shown listing changes nothing: the reset is a view,
      not a transition that could fire twice. */
  lemma ShowDailiesIdempotent(ds: seq<Daily>, now: int)
    ensures ShowDailies(ShowDailies(ds, now), now) == ShowDailies(ds, now)
  {
  }

  /** The daily `id` looked up for `userId`, by the ownership check every
      service shares (Lookup.FindOwned). */
  function FindOne(dailies: map<DailyId, Daily>, id: DailyId, userId: UserId): Result<Daily> {
    FindOwned(dailies, id, userId, (d: Daily) => d.userId)
  }

  /** Free-form edit. A request that names a different difficulty is
      Forbidden; no balance is touched. */
  method Update(db: Store, id: DailyId, patch: DailyPatch, userId: UserId) returns (r: Result<Daily>)
    modifies db`dailies
    ensures var found := FindOne(old(db.dailies), id, userId);
      r == if found.Failure? then Failure(found.error)
           else if patch.difficulty.Some? && patch.difficulty.value != found.value.difficulty then Failure(Forbidden)
           else Success(Patched(found.value, patch))
    ensures r.Success? ==> r.value.difficulty == old(db.dailies)[id].difficulty
    ensures db.dailies == if r.Success? then old(db.dailies)[id := r.value] else old(db.dailies)
  {
    var found := FindOne(db.dailies, id, userId);
    if found.Failure? {
      return Failure(found.error);
    }
    var daily := found.value;
    if patch.difficulty.Some? && patch.difficulty.value != daily.difficulty {
      return Failure(Forbidden);
    }
    var updated := Patched(daily, patch);
    db.dailies := db.dailies[id := updated];
    r := Success(updated);
  }

  /** Delete a daily for free: the owner may always do it. */
  method Remove(db: Store, id: DailyId, userId: UserId) returns (r: Result<()>)
    modifies db`dailies
    ensures var found := FindOne(old(db.dailies), id, userId);
      r == if found.Failure? then Failure(found.error) else Success(())
    ensures db.dailies == if r.Success? then old(db.dailies) - {id} else old(db.dailies)
  {
    var found := FindOne(db.dailies, id, userId);
    if found.Failure? {
      return Failure(found.error);
    }
    db.dailies := db.dailies - {id};
    r := Success(());
  }

  /** Delete a daily for the difficulty's deletion cost. Conflict, with gold
      and daily untouched, when the owner cannot pay. */
  method PayToDelete(db: Store, id: DailyId, userId: UserId) returns (r: Result<()>)
    modifies db`users, db`dailies
    ensures var found := FindOne(old(db.dailies), id, userId);
      r == if found.Failure? then Failure(found.error)
           else if userId !in old(db.users) then Failure(NotFound)
           else if old(db.users)[userId].gold < DeletionCost(found.value.difficulty) then Failure(Conflict)
           else Success(())
    ensures r.Failure? ==> db.users == old(db.users) && db.dailies == old(db.dailies)
    ensures r.Success? ==>
      && db.users == AdjustGold(old(db.users), userId, -(DeletionCost(old(db.dailies)[id].difficulty) as int))
      && db.dailies == old(db.dailies) - {id}
  {
    var found := FindOne(db.dailies, id, userId);
    if found.Failure? {
      return Failure(found.error);
    }
    var user := if userId in db.users then Some(db.users[userId]) else None;
    var cost := DeletionCost(found.value.difficulty);
    if user.None? {
      return Failure(NotFound);
    }
    if user.value.gold < cost {
      return Failure(Conflict);
    }
    db.users := db.users[userId := user.value.(gold := user.value.gold - cost)];
    db.dailies := db.dailies - {id};
    r := Success(());
  }

  /** Change a daily's difficulty. A missing difficulty is a BadRequest; a
      missing daily and another user's daily are both NotFound; the same tier
      is a Conflict. An upgrade is free and locks completion gold for seven
      days; a downgrade costs the matrix entry (Conflict when the owner
      cannot pay) and lifts the lock. */
  method PayToUpdate(db: Store, id: DailyId, newDifficulty: Option<Difficulty>, userId: UserId, now: int)
    returns (r: Result<Daily>)
    modifies db`users, db`dailies
    ensures r.Failure? ==> db.users == old(db.users) && db.dailies == old(db.dailies)
    ensures r.Failure? ==>
      r.error == if newDifficulty.None? then BadRequest
                 else if id !in old(db.dailies) || old(db.dailies)[id].userId != userId then NotFound
                 else if userId !in old(db.users) then NotFound
                 else Conflict
    ensures r.Success? <==>
      && newDifficulty.Some?
      && FindOne(old(db.dailies), id, userId).Success?
      && userId in old(db.users)
      && EvaluateChange(old(db.dailies)[id].difficulty, newDifficulty.value, old(db.users)[userId].gold).Success?
    ensures r.Success? ==>
      var d := old(db.dailies)[id];
      var change := EvaluateChange(d.difficulty, newDifficulty.value, old(db.users)[userId].gold).value;
      && db.dailies == old(db.dailies)[id := r.value]
      && (change.Upgrade? ==>
            db.users == old(db.users)
            && r.value == d.(difficulty := newDifficulty.value, lockedUntil := Some(now + LockSpan)))
      && (change.Downgrade? ==>
            db.users == AdjustGold(old(db.users), userId, -(change.cost as int))
            && r.value == d.(difficulty := newDifficulty.value, lockedUntil := None))
  {
    if newDifficulty.None? {
      return Failure(BadRequest);
    }
    var target := newDifficulty.value;
    if id !in db.dailies || db.dailies[id].userId != userId {
      return Failure(NotFound);
    }
    var daily := db.dailies[id];
    if userId !in db.users {
      return Failure(NotFound);
    }
    var user := db.users[userId];
    var oldDifficulty := daily.difficulty;
    if oldDifficulty == target {
      return Failure(Conflict);
    }
    if Level(target) > Level(oldDifficulty) {
      var updated := daily.(difficulty := target, lockedUntil := Some(now + LockSpan));
      db.dailies := db.dailies[id := updated];
      r := Success(updated);
    } else {
      // Every downgrade has a matrix entry (ChangeCost's contract), so the
      // "change not allowed" BadRequest cannot be reached.
      var cost := ChangeCost(oldDifficulty, target).value;
      if user.gold < cost {
        return Failure(Conflict);
      }
      db.users := db.users[userId := user.(gold := user.gold - cost)];
      var updated := daily.(difficulty := target, lockedUntil := None);
      db.dailies := db.dailies[id := updated];
      r := Success(updated);
    }
  }

  /** Complete a daily at `now` and return the gold it earned. A missing
      daily and another user's daily are NotFound; a daily already completed
      on today's calendar day is a Conflict. Otherwise the owner earns the
      difficulty's daily points (nothing while gold-locked), the pet gains 5
      happiness, exactly one daily log is appended and the daily is marked
      completed at `now`. A missing user or pet row makes the write fail. */
  method Complete(db: Store, dailyId: DailyId, userId: UserId, notes: string, now: int) returns (r: Result<nat>)
    modifies db`users, db`pets, db`dailies, db`dailyLogs
    ensures r.Failure? ==>
      db.users == old(db.users) && db.pets == old(db.pets)
      && db.dailies == old(db.dailies) && db.dailyLogs == old(db.dailyLogs)
    ensures r == if dailyId !in old(db.dailies) || old(db.dailies)[dailyId].userId != userId then Failure(NotFound)
                 else if old(db.dailies)[dailyId].lastCompleted.Some?
                         && SameDay(old(db.dailies)[dailyId].lastCompleted.value, now) then Failure(Conflict)
                 else if userId !in old(db.users) || userId !in old(db.pets) then Failure(Internal)
                 else Success(LockedReward(DailyPoints(old(db.dailies)[dailyId].difficulty),
                                           old(db.dailies)[dailyId].lockedUntil, now))
    ensures r.Success? ==>
      var pet := old(db.pets)[userId];
      && db.users == AdjustGold(old(db.users), userId, r.value)
      && db.pets == old(db.pets)[userId := pet.(happiness := pet.happiness + 5)]
      && db.dailyLogs == old(db.dailyLogs) + [DailyLog(dailyId, userId, notes, now)]
      && db.dailies == old(db.dailies)[dailyId := old(db.dailies)[dailyId].(completed := true, lastCompleted := Some(now))]
  {
    if dailyId !in db.dailies || db.dailies[dailyId].userId != userId {
      return Failure(NotFound);
    }
    var daily := db.dailies[dailyId];
    if daily.lastCompleted.Some? && SameDay(daily.lastCompleted.value, now) {
      return Failure(Conflict);
    }
    var goldChange: nat := 0;
    var isLocked := LockActive(daily.lockedUntil, now);
    if !isLocked {
      goldChange := DailyPoints(daily.difficulty);
    }
    var happinessChange := 5;
    if userId !in db.users || userId !in db.pets {
      return Failure(Internal);
    }
    var user := db.users[userId];
    db.users := db.users[userId := user.(gold := user.gold + goldChange)];
    var pet := db.pets[userId];
    db.pets := db.pets[userId := pet.(happiness := pet.happiness + happinessChange)];
    db.dailyLogs := db.dailyLogs + [DailyLog(dailyId, userId, notes, now)];
    db.dailies := db.dailies[dailyId := daily.(completed := true, lastCompleted := Some(now))];
    r := Success(goldChange);
  }

  /** Once completed at `now`, a daily is shown completed for the rest of
      that day and a second completion that day is refused. */
  lemma CompletedTodayStaysCompleted(d: Daily, now: int, later: int)
    requires Day(later) == Day(now)
    ensures var done := d.(completed := true, lastCompleted := Some(now));
      ResetView(done, later).completed && SameDay(done.lastCompleted.value, later)
  {
  }
}
