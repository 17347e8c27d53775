/** The reward service (src/reward/reward.service.ts): a user's own
    rewards, bought with gold as often as the user can pay. */
module RewardService {
  import opened Outcomes
  import opened Store
  import opened Lookup

  /** The optional fields of an edit request; None leaves a field as it is. */
  datatype RewardPatch = RewardPatch(title: Option<string>, notes: Option<string>, cost: Option<nat>)

  /** The reward with the request's fields written over it; the owner is out
      of the request's reach. */
  function Patched(w: Reward, p: RewardPatch): (w': Reward)
    ensures w'.userId == w.userId
    ensures w'.cost == if p.cost.Some? then p.cost.value else w.cost
    ensures w'.title == if p.title.Some? then p.title.value else w.title
  {
    w.(title := p.title.GetOr(w.title), notes := p.notes.GetOr(w.notes), cost := p.cost.GetOr(w.cost))
  }

  /** The reward `id` looked up for `userId`, by the ownership check every
      service shares (Lookup.FindOwned). */
  function FindOne(rewards: map<RewardId, Reward>, id: RewardId, userId: UserId): Result<Reward> {
    FindOwned(rewards, id, userId, (r: Reward) => r.userId)
  }

  /** Write the request's fields over the owner's reward. */
  method Update(db: Store, id: RewardId, patch: RewardPatch, userId: UserId) returns (r: Result<Reward>)
    modifies db`rewards
    ensures var found := FindOne(old(db.rewards), id, userId);
      r == if found.Failure? then Failure(found.error) else Success(Patched(found.value, patch))
    ensures db.rewards == if r.Success? then old(db.rewards)[id := r.value] else old(db.rewards)
  {
    var found := FindOne(db.rewards, id, userId);
    if found.Failure? {
      return Failure(found.error);
    }
    var updated := Patched(found.value, patch);
    db.rewards := db.rewards[id := updated];
    r := Success(updated);
  }

  /** Delete the owner's reward. */
  method Remove(db: Store, id: RewardId, userId: UserId) returns (r: Result<()>)
    modifies db`rewards
    ensures var found := FindOne(old(db.rewards), id, userId);
      r == if found.Failure? then Failure(found.error) else Success(())
    ensures db.rewards == if r.Success? then old(db.rewards) - {id} else old(db.rewards)
  {
    var found := FindOne(db.rewards, id, userId);
    if found.Failure? {
      return Failure(found.error);
    }
    db.rewards := db.rewards - {id};
    r := Success(());
  }

  /** Buy a reward and return the new gold balance. Conflict, with gold
      untouched, when the owner has less gold than the cost; otherwise gold
      drops by exactly the cost. Only the user table is in the frame: the
      reward stays and can be redeemed again. */
  method Redeem(db: Store, rewardId: RewardId, userId: UserId) returns (r: Result<int>)
    modifies db`users
    ensures var found := FindOne(db.rewards, rewardId, userId);
      r == if found.Failure? then Failure(found.error)
           else if userId !in old(db.users) then Failure(NotFound)
           else if old(db.users)[userId].gold < found.value.cost then Failure(Conflict)
           else Success(old(db.users)[userId].gold - found.value.cost)
    ensures r.Success? ==> r.value >= 0
    ensures db.users == if r.Success? then AdjustGold(old(db.users), userId, -(db.rewards[rewardId].cost as int))
                        else old(db.users)
    ensures r.Success? ==> db.users[userId].gold == r.value
  {
    var found := FindOne(db.rewards, rewardId, userId);
    if found.Failure? {
      return Failure(found.error);
    }
    var reward := found.value;
    if userId !in db.users {
      return Failure(NotFound);
    }
    var user := db.users[userId];
    if user.gold < reward.cost {
      return Failure(Conflict);
    }
    var updatedUser := user.(gold := user.gold - reward.cost);
    db.users := db.users[userId := updatedUser];
    r := Success(updatedUser.gold);
  }
}
