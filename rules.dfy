/** The rule tables of the reward economy (difficulty tiers, deletion costs
    and streaks, difficulty-change costs, reward points) and the abstract
    clock the services compare dates with. */
module Rules {
  import opened Outcomes

  datatype Difficulty = Trivial | Easy | Medium | Hard

  /** Position of a tier in TRIVIAL < EASY < MEDIUM < HARD. */
  function Level(d: Difficulty): nat {
    match d
    case Trivial => 0
    case Easy => 1
    case Medium => 2
    case Hard => 3
  }

  /** Gold paid to delete a habit or a daily without the required streak. */
  function DeletionCost(d: Difficulty): nat {
    match d
    case Trivial => 25
    case Easy => 50
    case Medium => 100
    case Hard => 300
  }

  /** Streak at which a habit may be deleted for free. */
  function DeletionStreak(d: Difficulty): nat {
    match d
    case Trivial => 5
    case Easy => 10
    case Medium => 20
    case Hard => 30
  }

  /** The difficulty-change matrix: defined exactly for downgrades. */
  function ChangeCost(from: Difficulty, to: Difficulty): (cost: Option<nat>)
    ensures cost.Some? <==> Level(to) < Level(from)
    ensures cost.Some? ==> 20 <= cost.value <= 250
  {
    match (from, to)
    case (Hard, Medium) => Some(150)
    case (Hard, Easy) => Some(200)
    case (Hard, Trivial) => Some(250)
    case (Medium, Easy) => Some(100)
    case (Medium, Trivial) => Some(50)
    case (Easy, Trivial) => Some(20)
    case _ => None
  }

  /** Gold for a positive habit log. */
  function HabitPoints(d: Difficulty): nat {
    match d
    case Trivial => 2
    case Easy => 5
    case Medium => 10
    case Hard => 20
  }

  /** Gold for completing a daily. */
  function DailyPoints(d: Difficulty): nat {
    match d
    case Trivial => 3
    case Easy => 6
    case Medium => 12
    case Hard => 24
  }

  /** Gold for completing a to-do. */
  function TodoPoints(d: Difficulty): nat {
    match d
    case Trivial => 1
    case Easy => 4
    case Medium => 8
    case Hard => 16
  }

  /** What a paid difficulty change amounts to: a free upgrade, or a
      downgrade that costs the matrix entry. */
  datatype Change = Upgrade | Downgrade(cost: nat)

  /** The rule the pay-to-update endpoints apply to move a task from `from`
      to `to` when its owner holds `gold`. The same tier, or a downgrade the
      owner cannot afford, is a Conflict. */
  function EvaluateChange(from: Difficulty, to: Difficulty, gold: int): (r: Result<Change>)
    ensures r.Failure? ==> r.error == Conflict
    ensures r == Success(Upgrade) <==> Level(from) < Level(to)
    ensures r.Failure? <==> from == to || (Level(to) < Level(from) && gold < ChangeCost(from, to).value)
    ensures r.Success? && r.value.Downgrade? ==>
      Level(to) < Level(from) && ChangeCost(from, to) == Some(r.value.cost) && r.value.cost <= gold
  {
    if from == to then Failure(Conflict)
    else if Level(from) < Level(to) then Success(Upgrade)
    else
      var cost := ChangeCost(from, to).value;
      if gold < cost then Failure(Conflict) else Success(Downgrade(cost))
  }

  // The clock. Timestamps are milliseconds; a calendar day is a whole
  // multiple of DayMs (the time zone is not modelled).

  const DayMs: nat := 86_400_000

  /** How far an upgrade pushes the gold lock: seven days. */
  const LockSpan: nat := 7 * DayMs

  function Day(t: int): int {
    t / DayMs
  }

  /** `t` falls on the calendar day of `now`. */
  predicate SameDay(t: int, now: int) {
    Day(t) == Day(now)
  }

  /** `t` falls on the calendar day before `now`. */
  predicate DayBefore(t: int, now: int) {
    Day(t) == Day(now) - 1
  }

  /** The gold lock `lock` is still in the future at `now`. */
  predicate LockActive(lock: Option<int>, now: int) {
    lock.Some? && now < lock.value
  }

  /** Completion gold for a task worth `points`: nothing while its lock is
      active. */
  function LockedReward(points: nat, lock: Option<int>, now: int): (gold: nat)
    ensures gold <= points
    ensures gold == 0 <==> LockActive(lock, now) || points == 0
    ensures gold != 0 ==> gold == points
  {
    if LockActive(lock, now) then 0 else points
  }

  /** An upgrade made at `now` withholds completion gold for the next seven
      days and no longer. */
  lemma UpgradeLockLastsSevenDays(now: int, later: int)
    ensures LockActive(Some(now + LockSpan), later) <==> later < now + LockSpan
    ensures now <= later && Day(later) < Day(now) + 7 ==> LockActive(Some(now + LockSpan), later)
  {
  }
}
