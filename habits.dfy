/** The habit service (src/habit/habit.service.ts): ownership lookup, free
    deletion after a long enough streak, paid deletion, free-form and paid
    difficulty edits, and the daily log with its gold, pet and streak side
    effects. Each method is one transaction: on an error nothing it may
    modify has changed. */
module HabitService {
  import opened Outcomes
  import opened Rules
  import opened Store
  import opened Lookup

  /** The optional fields of an edit request; None leaves a field as it is. */
  datatype HabitPatch = HabitPatch(
    title: Option<string>,
    notes: Option<string>,
    habitType: Option<HabitType>,
    difficulty: Option<Difficulty>,
    isPaused: Option<bool>)

  /** The habit with the request's fields written over it. An edit can reach
      only the fields of the request: streaks, counters, owner and the gold
      lock stay as they were. */
  function Patched(h: Habit, p: HabitPatch): (h': Habit)
    ensures h'.userId == h.userId && h'.lockedUntil == h.lockedUntil
    ensures h'.currentStreak == h.currentStreak && h'.longestStreak == h.longestStreak
    ensures h'.positiveCounter == h.positiveCounter && h'.negativeCounter == h.negativeCounter
    ensures p.difficulty.None? ==> h'.difficulty == h.difficulty
    ensures p.title.Some? ==> h'.title == p.title.value
  {
    h.(title := p.title.GetOr(h.title),
       notes := p.notes.GetOr(h.notes),
       habitType := p.habitType.GetOr(h.habitType),
       difficulty := p.difficulty.GetOr(h.difficulty),
       isPaused := p.isPaused.GetOr(h.isPaused))
  }

  /** The habit `id` looked up for `userId`, by the ownership check every
      service shares (Lookup.FindOwned). */
  function FindOne(habits: map<HabitId, Habit>, id: HabitId, userId: UserId): Result<Habit> {
    FindOwned(habits, id, userId, (h: Habit) => h.userId)
  }

  /** The date of the most recent log of `habitId`, if it has any. */
  function LatestLogDate(logs: seq<HabitLog>, habitId: HabitId): (d: Option<int>)
    ensures d.None? <==> forall i :: 0 <= i < |logs| ==> logs[i].habitId != habitId
    ensures d.Some? ==> exists i :: 0 <= i < |logs| && logs[i].habitId == habitId && logs[i].date == d.value
    ensures d.Some? ==> forall i :: 0 <= i < |logs| && logs[i].habitId == habitId ==> logs[i].date <= d.value
  {
    if logs == [] then None
    else
      var earlier := LatestLogDate(logs[..|logs| - 1], habitId);
      var last := logs[|logs| - 1];
      if last.habitId != habitId then earlier
      else if earlier.Some? && last.date <= earlier.value then earlier
      else Some(last.date)
  }

  /** Appending a log dated `now` that is no older than the habit's latest
      log makes `now` the latest date: a second log that day is refused. */
  lemma {:induction false} LatestAfterAppend(logs: seq<HabitLog>, log: HabitLog)
    requires var d := LatestLogDate(logs, log.habitId); d.None? || d.value <= log.date
    ensures LatestLogDate(logs + [log], log.habitId) == Some(log.date)
  {
    assert (logs + [log])[..|logs + [log]| - 1] == logs;
  }

  /** A log for another habit does not move this habit's latest date. */
  lemma LatestIgnoresOtherHabits(logs: seq<HabitLog>, log: HabitLog, habitId: HabitId)
    requires log.habitId != habitId
    ensures LatestLogDate(logs + [log], habitId) == LatestLogDate(logs, habitId)
  {
  }

  /** Gold moved by one log: positive logs earn the difficulty's points unless
      the habit is gold-locked; negative logs cost the same points on a
      NEGATIVE or BOTH habit, lock or no lock, and nothing on a POSITIVE one. */
  function LogGoldChange(h: Habit, completed: bool, now: int): (g: int)
    ensures g > 0 <==> completed && !LockActive(h.lockedUntil, now)
    ensures g < 0 <==> !completed && h.habitType != Positive
    ensures g != 0 ==> g == HabitPoints(h.difficulty) || g == -(HabitPoints(h.difficulty) as int)
    ensures -20 <= g <= 20
  {
    if !LockActive(h.lockedUntil, now) && completed then HabitPoints(h.difficulty)
    else if !completed && h.habitType != Positive then -(HabitPoints(h.difficulty) as int)
    else 0
  }

  /** Pet health lost by one log: 15 exactly on a negative log of a
      NEGATIVE or BOTH habit, the same logs that cost gold. */
  function LogHealthChange(h: Habit, completed: bool): (delta: int)
    ensures delta == 0 || delta == -15
    ensures delta == -15 <==> !completed && h.habitType != Positive
  {
    if !completed && h.habitType != Positive then -15 as int else 0
  }

  /** The habit after one log. A positive log extends the streak when the
      previous log was yesterday and restarts it at 1 otherwise; a negative
      log resets it to 0. Exactly one counter goes up, the longest streak
      never falls and never drops below the current one, and no other field
      changes. */
  function LoggedHabit(h: Habit, completed: bool, lastWasYesterday: bool): (h': Habit)
    ensures h'.currentStreak == (if !completed then 0 else if lastWasYesterday then h.currentStreak + 1 else 1)
    ensures h'.longestStreak >= h'.currentStreak && h'.longestStreak >= h.longestStreak
    ensures h'.longestStreak == h.longestStreak || h'.longestStreak == h'.currentStreak
    ensures completed ==> h'.positiveCounter == h.positiveCounter + 1 && h'.negativeCounter == h.negativeCounter
    ensures !completed ==> h'.negativeCounter == h.negativeCounter + 1 && h'.positiveCounter == h.positiveCounter
    ensures h' == h.(currentStreak := h'.currentStreak, longestStreak := h'.longestStreak,
                     positiveCounter := h'.positiveCounter, negativeCounter := h'.negativeCounter)
  {
    var streak := if !completed then 0 else if lastWasYesterday then h.currentStreak + 1 else 1;
    h.(currentStreak := streak,
       longestStreak := Max(h.longestStreak, streak),
       positiveCounter := if completed then h.positiveCounter + 1 else h.positiveCounter,
       negativeCounter := if completed then h.negativeCounter else h.negativeCounter + 1)
  }

  /** Delete a habit for free. Allowed only once its current streak has
      reached the difficulty's deletion streak; Forbidden otherwise. */
  method Remove(db: Store, id: HabitId, userId: UserId) returns (r: Result<()>)
    modifies db`habits
    ensures var found := FindOne(old(db.habits), id, userId);
      r == if found.Failure? then Failure(found.error)
           else if found.value.currentStreak >= DeletionStreak(found.value.difficulty) then Success(())
           else Failure(Forbidden)
    ensures db.habits == if r.Success? then old(db.habits) - {id} else old(db.habits)
  {
    var found := FindOne(db.habits, id, userId);
    if found.Failure? {
      return Failure(found.error);
    }
    var habit := found.value;
    var requiredStreak := DeletionStreak(habit.difficulty);
    if habit.currentStreak >= requiredStreak {
      db.habits := db.habits - {id};
      r := Success(());
    } else {
      r := Failure(Forbidden);
    }
  }

  /** Delete a habit for the difficulty's deletion cost. Conflict, with gold
      and habit untouched, when the owner cannot pay. */
  method PayToDelete(db: Store, id: HabitId, userId: UserId) returns (r: Result<()>)
    modifies db`users, db`habits
    ensures var found := FindOne(old(db.habits), id, userId);
      r == if found.Failure? then Failure(found.error)
           else if userId !in old(db.users) then Failure(NotFound)
           else if old(db.users)[userId].gold < DeletionCost(found.value.difficulty) then Failure(Conflict)
           else Success(())
    ensures r.Failure? ==> db.users == old(db.users) && db.habits == old(db.habits)
    ensures r.Success? ==>
      && db.users == AdjustGold(old(db.users), userId, -(DeletionCost(old(db.habits)[id].difficulty) as int))
      && db.habits == old(db.habits) - {id}
  {
    var found := FindOne(db.habits, id, userId);
    if found.Failure? {
      return Failure(found.error);
    }
    var cost := DeletionCost(found.value.difficulty);
    if userId !in db.users {
      return Failure(NotFound);
    }
    var user := db.users[userId];
    if user.gold < cost {
      return Failure(Conflict);
    }
    db.users := db.users[userId := user.(gold := user.gold - cost)];
    db.habits := db.habits - {id};
    r := Success(());
  }

  /** Free-form edit. A request that names a different difficulty is
      Forbidden (difficulty changes go through PayToUpdate); no balance is
      touched. */
  method Update(db: Store, id: HabitId, patch: HabitPatch, userId: UserId) returns (r: Result<Habit>)
    modifies db`habits
    ensures var found := FindOne(old(db.habits), id, userId);
      r == if found.Failure? then Failure(found.error)
           else if patch.difficulty.Some? && patch.difficulty.value != found.value.difficulty then Failure(Forbidden)
           else Success(Patched(found.value, patch))
    ensures r.Success? ==> r.value.difficulty == old(db.habits)[id].difficulty
    ensures db.habits == if r.Success? then old(db.habits)[id := r.value] else old(db.habits)
  {
    var found := FindOne(db.habits, id, userId);
    if found.Failure? {
      return Failure(found.error);
    }
    var habit := found.value;
    if patch.difficulty.Some? && patch.difficulty.value != habit.difficulty {
      return Failure(Forbidden);
    }
    var updated := Patched(habit, patch);
    db.habits := db.habits[id := updated];
    r := Success(updated);
  }

  /** Change a habit's difficulty. A missing difficulty is a BadRequest; the
      same tier is a Conflict. An upgrade is free and locks completion gold
      for seven days; a downgrade costs the matrix entry (Conflict when the
      owner cannot pay) and lifts the lock. */
  method PayToUpdate(db: Store, id: HabitId, newDifficulty: Option<Difficulty>, userId: UserId, now: int)
    returns (r: Result<Habit>)
    modifies db`users, db`habits
    ensures r.Failure? ==> db.users == old(db.users) && db.habits == old(db.habits)
    ensures r.Failure? ==>
      r.error == if newDifficulty.None? then BadRequest
                 else if id !in old(db.habits) then NotFound
                 else if old(db.habits)[id].userId != userId then Forbidden
                 else if userId !in old(db.users) then NotFound
                 else Conflict
    ensures r.Success? <==>
      && newDifficulty.Some?
      && FindOne(old(db.habits), id, userId).Success?
      && userId in old(db.users)
      && EvaluateChange(old(db.habits)[id].difficulty, newDifficulty.value, old(db.users)[userId].gold).Success?
    ensures r.Success? ==>
      var h := old(db.habits)[id];
      var change := EvaluateChange(h.difficulty, newDifficulty.value, old(db.users)[userId].gold).value;
      && db.habits == old(db.habits)[id := r.value]
      && (change.Upgrade? ==>
            db.users == old(db.users)
            && r.value == h.(difficulty := newDifficulty.value, lockedUntil := Some(now + LockSpan)))
      && (change.Downgrade? ==>
            db.users == AdjustGold(old(db.users), userId, -(change.cost as int))
            && r.value == h.(difficulty := newDifficulty.value, lockedUntil := None))
  {
    if newDifficulty.None? {
      return Failure(BadRequest);
    }
    var target := newDifficulty.value;
    if id !in db.habits {
      return Failure(NotFound);
    }
    var habit := db.habits[id];
    if habit.userId != userId {
      return Failure(Forbidden);
    }
    if userId !in db.users {
      return Failure(NotFound);
    }
    var user := db.users[userId];
    var oldDifficulty := habit.difficulty;
    if oldDifficulty == target {
      return Failure(Conflict);
    }
    if Level(target) > Level(oldDifficulty) {
      var updated := habit.(difficulty := target, lockedUntil := Some(now + LockSpan));
      db.habits := db.habits[id := updated];
      r := Success(updated);
    } else {
      // The matrix has an entry for every downgrade (ChangeCost's contract),
      // so the source's "change not allowed" BadRequest cannot be reached.
      var cost := ChangeCost(oldDifficulty, target).value;
      if user.gold < cost {
        return Failure(Conflict);
      }
      db.users := db.users[userId := user.(gold := user.gold - cost)];
      var updated := habit.(difficulty := target, lockedUntil := None);
      db.habits := db.habits[id := updated];
      r := Success(updated);
    }
  }

  /** Log a habit for today and return the gold it moved. A paused habit, or
      one already logged on today's calendar day, is a Conflict. Otherwise
      the owner's gold moves by LogGoldChange with no balance check (it may
      go negative), the pet's happiness and health move by plain increments,
      the habit's streak and counters advance as LoggedHabit says, and exactly
      one log row is appended. */
  method LogHabit(db: Store, habitId: HabitId, userId: UserId, completed: bool, notes: string, now: int)
    returns (r: Result<int>)
    modifies db`users, db`pets, db`habits, db`habitLogs
    ensures r.Failure? ==>
      db.users == old(db.users) && db.pets == old(db.pets)
      && db.habits == old(db.habits) && db.habitLogs == old(db.habitLogs)
    ensures var latest := LatestLogDate(old(db.habitLogs), habitId);
      r == if habitId !in old(db.habits) then Failure(NotFound)
           else if old(db.habits)[habitId].userId != userId then Failure(Forbidden)
           else if old(db.habits)[habitId].isPaused then Failure(Conflict)
           else if latest.Some? && SameDay(latest.value, now) then Failure(Conflict)
           else if userId !in old(db.users) then Failure(NotFound)
           else if userId !in old(db.pets) then Failure(Internal)
           else Success(LogGoldChange(old(db.habits)[habitId], completed, now))
    ensures r.Success? ==>
      var h := old(db.habits)[habitId];
      var latest := LatestLogDate(old(db.habitLogs), habitId);
      var pet := old(db.pets)[userId];
      && db.users == AdjustGold(old(db.users), userId, r.value)
      && db.pets == old(db.pets)[userId := pet.(happiness := pet.happiness + (if completed then 5 else 0),
                                               health := pet.health + LogHealthChange(h, completed))]
      && db.habits == old(db.habits)[habitId := LoggedHabit(h, completed, latest.Some? && DayBefore(latest.value, now))]
      && db.habitLogs == old(db.habitLogs) + [HabitLog(habitId, userId, completed, notes, now)]
  {
    if habitId !in db.habits {
      return Failure(NotFound);
    }
    var habit := db.habits[habitId];
    if habit.userId != userId {
      return Failure(Forbidden);
    }
    if habit.isPaused {
      return Failure(Conflict);
    }
    var mostRecent := LatestLogDate(db.habitLogs, habitId);
    if mostRecent.Some? && SameDay(mostRecent.value, now) {
      return Failure(Conflict);
    }
    if userId !in db.users {
      return Failure(NotFound);
    }
    if userId !in db.pets {
      return Failure(Internal);
    }
    var user := db.users[userId];
    var pet := db.pets[userId];
    var goldChange: int := 0;
    var isLocked := LockActive(habit.lockedUntil, now);
    if !isLocked && completed {
      goldChange := HabitPoints(habit.difficulty);
    } else if !completed && (habit.habitType == Negative || habit.habitType == Both) {
      goldChange := -(HabitPoints(habit.difficulty) as int);
    }
    var happinessChange: int := if completed then 5 else 0;
    var healthChange: int := if !completed && (habit.habitType == Negative || habit.habitType == Both) then -15 else 0;
    var newStreak := habit.currentStreak;
    var lastLogWasYesterday := mostRecent.Some? && DayBefore(mostRecent.value, now);
    var positiveCounter, negativeCounter := habit.positiveCounter, habit.negativeCounter;
    if completed {
      newStreak := if lastLogWasYesterday then newStreak + 1 else 1;
      positiveCounter := positiveCounter + 1;
    } else {
      newStreak := 0;
      negativeCounter := negativeCounter + 1;
    }
    db.users := db.users[userId := user.(gold := user.gold + goldChange)];
    db.pets := db.pets[userId := pet.(happiness := pet.happiness + happinessChange,
                                      health := pet.health + healthChange)];
    db.habits := db.habits[habitId := habit.(positiveCounter := positiveCounter,
                                             negativeCounter := negativeCounter,
                                             currentStreak := newStreak,
                                             longestStreak := Max(habit.longestStreak, newStreak))];
    db.habitLogs := db.habitLogs + [HabitLog(habitId, userId, completed, notes, now)];
    r := Success(goldChange);
  }
}
