/** Short runs of the services on a fresh store that exhibit what the
    services allow: balances below zero, rewards paid twice for one
    achievement, and a group left without an owner. */
module Scenarios {
  import opened Outcomes
  import opened Rules
  import opened Store
  import HabitService
  import TodoService
  import GroupService
  import ChallengeService

  /** A user with no gold logs a slip on a NEGATIVE habit: nothing checks
      the balance, so it ends below zero and the pet loses 15 health. */
  method GoldGoesNegative() returns (gold: int, health: int)
    ensures gold == -(HabitPoints(Medium) as int) && gold < 0
    ensures health == 85
  {
    var db := new Store();
    db.users := map[1 := User(0, 0)];
    db.pets := map[1 := Pet(1, 100, 100, 100, 100)];
    db.habits := map[7 := Habit(1, "smoking", "", Negative, Medium, None, 0, 0, 0, 0, false)];
    var r := HabitService.LogHabit(db, 7, 1, false, "", 1000);
    gold := db.users[1].gold;
    health := db.pets[1].health;
  }

  /** Logging the same habit twice on one calendar day: the second log is a
      Conflict and leaves every balance as the first log left it. */
  method SecondLogSameDay() returns (first: Result<int>, second: Result<int>, gold: int)
    ensures first == Success(HabitPoints(Easy) as int) && second == Failure(Conflict)
    ensures gold == HabitPoints(Easy)
  {
    var db := new Store();
    db.users := map[1 := User(0, 0)];
    db.pets := map[1 := Pet(1, 50, 50, 50, 50)];
    db.habits := map[7 := Habit(1, "read", "", Positive, Easy, None, 0, 0, 0, 0, false)];
    first := HabitService.LogHabit(db, 7, 1, true, "", 1000);
    second := HabitService.LogHabit(db, 7, 1, true, "", 5000);
    gold := db.users[1].gold;
  }

  /** A completed to-do reopened through an ordinary edit can be completed,
      and paid for, again. */
  method TodoPaidTwice() returns (gold: int)
    ensures gold == 2 * TodoPoints(Hard)
  {
    var db := new Store();
    db.users := map[1 := User(0, 0)];
    db.pets := map[1 := Pet(1, 50, 50, 50, 50)];
    db.todos := map[3 := Todo(1, "report", "", Hard, None, false)];
    var r1 := TodoService.Complete(db, 3, 1);
    var r2 := TodoService.Update(db, 3, TodoService.TodoPatch(None, None, None, None, Some(false)), 1);
    var r3 := TodoService.Complete(db, 3, 1);
    gold := db.users[1].gold;
  }

  /** Completing the same participation twice pays the completion reward
      twice. */
  method ChallengeCompletedTwice() returns (gold: int)
    ensures gold == 2 * ChallengeService.CompletionReward
  {
    var db := new Store();
    db.users := map[1 := User(0, 0)];
    db.challenges := map[5 := Challenge(2, "run", "", "", false, ChallengeStatus.Active, Some(0))];
    db.participations := [UserChallenge(9, 1, 5, MembershipStatus.Active, 0, false, 0)];
    var r1 := ChallengeService.CompleteChallenge(db, 9, 1, 1000);
    var r2 := ChallengeService.CompleteChallenge(db, 9, 1, 2000);
    gold := db.users[1].gold;
  }

  /** The owner of a private group hands ownership to a user whose join
      request is still pending, then, as an ADMIN, rejects that request: the
      group is left with no owner. */
  method OwnerlessGroup() returns (transfer: Result<Membership>, reject: Result<()>, owners: set<UserId>)
    ensures transfer.Success? && reject.Success?
    ensures owners == {}
  {
    var db := new Store();
    db.users := map[1 := User(500, 0), 2 := User(0, 0)];
    var created := GroupService.Create(db, "night owls", "", false, 1, 4);
    var joined := GroupService.JoinGroup(db, 4, 2);
    assert joined == Success(Membership(Member, MembershipStatus.Pending));
    GroupService.CreatedGroupHasSoleOwner(map[], 1, 4);
    transfer := GroupService.ManageMemberRole(db, 4, 1, 2, Owner);
    reject := GroupService.RejectRequest(db, 4, 2, 1);
    owners := GroupService.Owners(db.memberships, 4);
    GroupService.OwnershipCanVanish(map[(1, 4) := Membership(Owner, MembershipStatus.Active),
                                        (2, 4) := Membership(Member, MembershipStatus.Pending)], 4, 1, 2);
  }
}
