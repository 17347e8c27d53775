/** The rows the reward economy reads and writes, and the transactional
    store that holds them. Every table is a field of `Store`; the services
    are the modules that update those fields. */
module Store {
  import opened Outcomes
  import opened Rules

  type UserId = nat
  type PetId = nat
  type HabitId = nat
  type DailyId = nat
  type TodoId = nat
  type RewardId = nat
  type GroupId = nat
  type ChallengeId = nat
  type ParticipationId = nat
  type ItemId = nat
  type InventoryId = nat

  /** A user's balances. Gold is an `int`: a negative habit log debits it
      without a balance check. */
  datatype User = User(gold: int, gems: int)

  /** A pet's four vital stats, one pet per user. */
  datatype Pet = Pet(id: PetId, health: int, hunger: int, happiness: int, energy: int)

  datatype HabitType = Positive | Negative | Both

  datatype Habit = Habit(
    userId: UserId,
    title: string,
    notes: string,
    habitType: HabitType,
    difficulty: Difficulty,
    lockedUntil: Option<int>,
    currentStreak: nat,
    longestStreak: nat,
    positiveCounter: nat,
    negativeCounter: nat,
    isPaused: bool)

  datatype HabitLog = HabitLog(habitId: HabitId, userId: UserId, completed: bool, notes: string, date: int)

  datatype Daily = Daily(
    userId: UserId,
    title: string,
    notes: string,
    difficulty: Difficulty,
    lockedUntil: Option<int>,
    completed: bool,
    lastCompleted: Option<int>)

  datatype DailyLog = DailyLog(dailyId: DailyId, userId: UserId, notes: string, date: int)

  datatype Todo = Todo(
    userId: UserId,
    title: string,
    notes: string,
    difficulty: Difficulty,
    dueDate: Option<int>,
    completed: bool)

  datatype Reward = Reward(userId: UserId, title: string, notes: string, cost: nat)

  datatype Group = Group(name: string, description: string, isPublic: bool)

  datatype Role = Owner | Admin | Member

  datatype MembershipStatus = Active | Pending

  /** A user's membership of a group; the table is keyed by (user, group). */
  datatype Membership = Membership(role: Role, status: MembershipStatus)

  datatype Message = Message(groupId: GroupId, userId: UserId, content: string, createdAt: int)

  datatype ChallengeStatus = Pending | Active | Completed

  datatype Challenge = Challenge(
    creatorId: UserId,
    title: string,
    description: string,
    goal: string,
    isPrivate: bool,
    status: ChallengeStatus,
    startTime: Option<int>)

  /** One user's participation in one challenge. `completionTime` is the
      time in milliseconds from the challenge's start to the user's
      completion; it is meaningful only once `completed` holds. */
  datatype UserChallenge = UserChallenge(
    id: ParticipationId,
    userId: UserId,
    challengeId: ChallengeId,
    status: MembershipStatus,
    progress: int,
    completed: bool,
    completionTime: int)

  datatype ItemType = Food | Treat | Toy | Customization | Special

  datatype PetStat = Health | Hunger | Happiness | Energy

  datatype EquipmentSlot = Hat | Glasses | Shirt | Background

  /** A shop item. An `effectValue` of 0 stands for "no effect". */
  datatype PetItem = PetItem(
    name: string,
    itemType: ItemType,
    cost: nat,
    isPremium: bool,
    statEffect: Option<PetStat>,
    effectValue: int,
    equipmentSlot: Option<EquipmentSlot>)

  /** A user's holding of one shop item. */
  datatype InventoryRow = InventoryRow(id: InventoryId, userId: UserId, itemId: ItemId, quantity: int)

  /** The database. Rows that are looked up by key live in maps; tables whose
      order the services read (logs, messages, participations, inventory) are
      sequences in insertion order. */
  class Store {
    var users: map<UserId, User>
    var pets: map<UserId, Pet>
    var habits: map<HabitId, Habit>
    var habitLogs: seq<HabitLog>
    var dailies: map<DailyId, Daily>
    var dailyLogs: seq<DailyLog>
    var todos: map<TodoId, Todo>
    var rewards: map<RewardId, Reward>
    var groups: map<GroupId, Group>
    var memberships: map<(UserId, GroupId), Membership>
    var messages: seq<Message>
    var challenges: map<ChallengeId, Challenge>
    var participations: seq<UserChallenge>
    var items: map<ItemId, PetItem>
    var inventory: seq<InventoryRow>
    var equipped: map<(PetId, EquipmentSlot), ItemId>

    constructor ()
      ensures users == map[] && pets == map[] && habits == map[] && habitLogs == []
      ensures dailies == map[] && dailyLogs == [] && todos == map[] && rewards == map[]
      ensures groups == map[] && memberships == map[] && messages == []
      ensures challenges == map[] && participations == []
      ensures items == map[] && inventory == [] && equipped == map[]
    {
      users, pets, habits, habitLogs := map[], map[], map[], [];
      dailies, dailyLogs, todos, rewards := map[], [], map[], map[];
      groups, memberships, messages := map[], map[], [];
      challenges, participations := map[], [];
      items, inventory, equipped := map[], [], map[];
    }
  }

  /** The user table after `id`'s gold moves by `amount`: that balance and
      nothing else changes. */
  function AdjustGold(users: map<UserId, User>, id: UserId, amount: int): (r: map<UserId, User>)
    requires id in users
    ensures r.Keys == users.Keys
    ensures r[id].gold == users[id].gold + amount && r[id].gems == users[id].gems
    ensures forall u :: u in users && u != id ==> r[u] == users[u]
  {
    users[id := users[id].(gold := users[id].gold + amount)]
  }
}
