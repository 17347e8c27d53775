/** The challenge service (src/challenge/challenge.service.ts): paid
    creation, joining with creator approval for private challenges,
    progress, starting and completing, the leaderboard and the prize
    payout. Participations are rows with their own id, kept in insertion
    order; a lookup by id finds the first row with that id. */
module ChallengeService {
  import opened Outcomes
  import opened Store
  import opened Sorting
  import opened Lookup

  const CreateChallengeCost: nat := 150

  /** Gold for each completion of a challenge. */
  const CompletionReward: nat := 30

  /** How many finishers the leaderboard shows. */
  const BoardSize: nat := 10

  /** The payout for the leaderboard places, best first. */
  const Prizes: seq<nat> := [70, 60, 50, 40, 30, 30, 30, 30, 30, 30]

  /** The position of the participation row `id`, or -1 when there is none. */
  function IndexOf(parts: seq<UserChallenge>, id: ParticipationId): (i: int)
    ensures -1 <= i < |parts|
    ensures i >= 0 ==> parts[i].id == id
    ensures i == -1 <==> forall j :: 0 <= j < |parts| ==> parts[j].id != id
  {
    FirstIndex(parts, (p: UserChallenge) => p.id == id)
  }

  /** `userId` already has a participation row, of any status, in the
      challenge. */
  predicate HasParticipation(parts: seq<UserChallenge>, userId: UserId, challengeId: ChallengeId) {
    exists i :: 0 <= i < |parts| && parts[i].userId == userId && parts[i].challengeId == challengeId
  }

  /** Create a challenge. NotFound for an unknown user and Forbidden below
      150 gold. Otherwise gold drops by exactly 150, the challenge is stored
      under the fresh id `challengeId` as PENDING with no start time, and the
      creator is enrolled as an ACTIVE participant under the fresh row id
      `participationId`. */
  method Create(db: Store, title: string, description: string, goal: string, isPrivate: bool, userId: UserId,
                challengeId: ChallengeId, participationId: ParticipationId)
    returns (r: Result<Challenge>)
    requires challengeId !in db.challenges
    requires forall p :: p in db.participations ==> p.id != participationId && p.challengeId != challengeId
    modifies db`users, db`challenges, db`participations
    ensures r == if userId !in old(db.users) then Failure(NotFound)
                 else if old(db.users)[userId].gold < CreateChallengeCost then Failure(Forbidden)
                 else Success(Challenge(userId, title, description, goal, isPrivate, ChallengeStatus.Pending, None))
    ensures r.Failure? ==>
      db.users == old(db.users) && db.challenges == old(db.challenges) && db.participations == old(db.participations)
    ensures r.Success? ==>
      && db.users == AdjustGold(old(db.users), userId, -(CreateChallengeCost as int))
      && db.challenges == old(db.challenges)[challengeId := r.value]
      && db.participations == old(db.participations) +
           [UserChallenge(participationId, userId, challengeId, MembershipStatus.Active, 0, false, 0)]
    ensures OneRowPerUser(old(db.participations)) ==> OneRowPerUser(db.participations)
  {
    if userId !in db.users {
      return Failure(NotFound);
    }
    var user := db.users[userId];
    if user.gold < CreateChallengeCost {
      return Failure(Forbidden);
    }
    db.users := db.users[userId := user.(gold := user.gold - CreateChallengeCost)];
    var challenge := Challenge(userId, title, description, goal, isPrivate, ChallengeStatus.Pending, None);
    db.challenges := db.challenges[challengeId := challenge];
    db.participations := db.participations +
      [UserChallenge(participationId, userId, challengeId, MembershipStatus.Active, 0, false, 0)];
    r := Success(challenge);
  }

  /** Delete a challenge: NotFound when it does not exist, Forbidden for
      anyone but its creator. */
  method DeleteChallenge(db: Store, challengeId: ChallengeId, userId: UserId) returns (r: Result<()>)
    modifies db`challenges
    ensures r == if challengeId !in old(db.challenges) then Failure(NotFound)
                 else if old(db.challenges)[challengeId].creatorId != userId then Failure(Forbidden)
                 else Success(())
    ensures db.challenges == if r.Success? then old(db.challenges) - {challengeId} else old(db.challenges)
  {
    if challengeId !in db.challenges {
      return Failure(NotFound);
    }
    if db.challenges[challengeId].creatorId != userId {
      return Failure(Forbidden);
    }
    db.challenges := db.challenges - {challengeId};
    r := Success(());
  }

  /** Join a challenge, or ask to. NotFound for an unknown challenge;
      Conflict when the user already has a row there. Otherwise one row is
      appended: PENDING for a private challenge, ACTIVE otherwise. */
  method JoinChallenge(db: Store, challengeId: ChallengeId, userId: UserId, participationId: ParticipationId)
    returns (r: Result<UserChallenge>)
    requires forall p :: p in db.participations ==> p.id != participationId
    modifies db`participations
    ensures r == if challengeId !in db.challenges then Failure(NotFound)
                 else if HasParticipation(old(db.participations), userId, challengeId) then Failure(Conflict)
                 else Success(UserChallenge(participationId, userId, challengeId,
                                            if db.challenges[challengeId].isPrivate then MembershipStatus.Pending
                                            else MembershipStatus.Active,
                                            0, false, 0))
    ensures db.participations == if r.Success? then old(db.participations) + [r.value] else old(db.participations)
    ensures OneRowPerUser(old(db.participations)) ==> OneRowPerUser(db.participations)
  {
    if challengeId !in db.challenges {
      return Failure(NotFound);
    }
    var challenge := db.challenges[challengeId];
    var alreadyJoined :=
      exists i :: 0 <= i < |db.participations| && db.participations[i].userId == userId && db.participations[i].challengeId == challengeId;
    if alreadyJoined {
      return Failure(Conflict);
    }
    var status := if challenge.isPrivate then MembershipStatus.Pending else MembershipStatus.Active;
    var participation := UserChallenge(participationId, userId, challengeId, status, 0, false, 0);
    db.participations := db.participations + [participation];
    r := Success(participation);
  }

  /** The participations of one user in one challenge are a single row:
      the invariant that joining's Conflict check keeps. */
  ghost predicate OneRowPerUser(parts: seq<UserChallenge>) {
    forall i, j :: 0 <= i < j < |parts| && parts[i].userId == parts[j].userId ==>
      parts[i].challengeId != parts[j].challengeId
  }

  /** Appending a row for a user who has none in its challenge keeps one row
      per user and challenge. */
  lemma AppendKeepsOneRowPerUser(parts: seq<UserChallenge>, row: UserChallenge)
    requires OneRowPerUser(parts)
    requires !HasParticipation(parts, row.userId, row.challengeId)
    ensures OneRowPerUser(parts + [row])
  {
  }

  /** Rewriting a row without moving it to another user or challenge keeps
      one row per user and challenge. */
  lemma ReplaceKeepsOneRowPerUser(parts: seq<UserChallenge>, i: nat, row: UserChallenge)
    requires OneRowPerUser(parts)
    requires i < |parts| && row.userId == parts[i].userId && row.challengeId == parts[i].challengeId
    ensures OneRowPerUser(parts[i := row])
  {
  }

  /** Deleting a row keeps one row per user and challenge. */
  lemma RemoveKeepsOneRowPerUser(parts: seq<UserChallenge>, i: nat)
    requires OneRowPerUser(parts)
    requires i < |parts|
    ensures OneRowPerUser(RemoveAt(parts, i))
  {
  }

  /** Accept a request to join. NotFound for an unknown row, Forbidden for
      anyone but the challenge's creator, Conflict when the row is not
      PENDING. Otherwise the row becomes ACTIVE. A row whose challenge is
      gone fails with an internal error. */
  method ApproveRequest(db: Store, participationId: ParticipationId, currentUserId: UserId)
    returns (r: Result<UserChallenge>)
    modifies db`participations
    ensures var i := IndexOf(old(db.participations), participationId);
      r == if i < 0 then Failure(NotFound)
           else if old(db.participations)[i].challengeId !in db.challenges then Failure(Internal)
           else if db.challenges[old(db.participations)[i].challengeId].creatorId != currentUserId then Failure(Forbidden)
           else if old(db.participations)[i].status != MembershipStatus.Pending then Failure(Conflict)
           else Success(old(db.participations)[i].(status := MembershipStatus.Active))
    ensures db.participations ==
      if r.Success? then old(db.participations)[IndexOf(old(db.participations), participationId) := r.value]
      else old(db.participations)
    ensures OneRowPerUser(old(db.participations)) ==> OneRowPerUser(db.participations)
  {
    var i := IndexOf(db.participations, participationId);
    if i < 0 {
      return Failure(NotFound);
    }
    var participation := db.participations[i];
    if participation.challengeId !in db.challenges {
      return Failure(Internal);
    }
    if db.challenges[participation.challengeId].creatorId != currentUserId {
      return Failure(Forbidden);
    }
    if participation.status != MembershipStatus.Pending {
      return Failure(Conflict);
    }
    var approved := participation.(status := MembershipStatus.Active);
    db.participations := db.participations[i := approved];
    r := Success(approved);
  }

  /** Turn a request down. NotFound for an unknown row, Forbidden for anyone
      but the challenge's creator; the row is deleted whatever its status. */
  method RejectRequest(db: Store, participationId: ParticipationId, currentUserId: UserId) returns (r: Result<()>)
    modifies db`participations
    ensures var i := IndexOf(old(db.participations), participationId);
      r == if i < 0 then Failure(NotFound)
           else if old(db.participations)[i].challengeId !in db.challenges then Failure(Internal)
           else if db.challenges[old(db.participations)[i].challengeId].creatorId != currentUserId then Failure(Forbidden)
           else Success(())
    ensures db.participations ==
      if r.Success? then RemoveAt(old(db.participations), IndexOf(old(db.participations), participationId))
      else old(db.participations)
    ensures OneRowPerUser(old(db.participations)) ==> OneRowPerUser(db.participations)
  {
    var i := IndexOf(db.participations, participationId);
    if i < 0 {
      return Failure(NotFound);
    }
    var participation := db.participations[i];
    if participation.challengeId !in db.challenges {
      return Failure(Internal);
    }
    if db.challenges[participation.challengeId].creatorId != currentUserId {
      return Failure(Forbidden);
    }
    db.participations := RemoveAt(db.participations, i);
    r := Success(());
  }

  /** Record progress. NotFound for an unknown row, Forbidden for anyone
      but the row's user; only the row's progress changes. */
  method UpdateProgress(db: Store, participationId: ParticipationId, progress: int, userId: UserId)
    returns (r: Result<UserChallenge>)
    modifies db`participations
    ensures var i := IndexOf(old(db.participations), participationId);
      r == if i < 0 then Failure(NotFound)
           else if old(db.participations)[i].userId != userId then Failure(Forbidden)
           else Success(old(db.participations)[i].(progress := progress))
    ensures db.participations ==
      if r.Success? then old(db.participations)[IndexOf(old(db.participations), participationId) := r.value]
      else old(db.participations)
    ensures OneRowPerUser(old(db.participations)) ==> OneRowPerUser(db.participations)
  {
    var i := IndexOf(db.participations, participationId);
    if i < 0 {
      return Failure(NotFound);
    }
    if db.participations[i].userId != userId {
      return Failure(Forbidden);
    }
    var updated := db.participations[i].(progress := progress);
    db.participations := db.participations[i := updated];
    r := Success(updated);
  }

  /** Leave a challenge. NotFound for an unknown row, Forbidden for anyone
      but the row's user; the row is deleted. */
  method LeaveChallenge(db: Store, participationId: ParticipationId, userId: UserId) returns (r: Result<()>)
    modifies db`participations
    ensures var i := IndexOf(old(db.participations), participationId);
      r == if i < 0 then Failure(NotFound)
           else if old(db.participations)[i].userId != userId then Failure(Forbidden)
           else Success(())
    ensures db.participations ==
      if r.Success? then RemoveAt(old(db.participations), IndexOf(old(db.participations), participationId))
      else old(db.participations)
    ensures OneRowPerUser(old(db.participations)) ==> OneRowPerUser(db.participations)
  {
    var i := IndexOf(db.participations, participationId);
    if i < 0 {
      return Failure(NotFound);
    }
    if db.participations[i].userId != userId {
      return Failure(Forbidden);
    }
    db.participations := RemoveAt(db.participations, i);
    r := Success(());
  }

  /** Start a challenge at `now`. NotFound, Forbidden for anyone but the
      creator, Conflict unless it is PENDING; it becomes ACTIVE with start
      time `now`. */
  method StartChallenge(db: Store, challengeId: ChallengeId, userId: UserId, now: int) returns (r: Result<Challenge>)
    modifies db`challenges
    ensures r == if challengeId !in old(db.challenges) then Failure(NotFound)
                 else if old(db.challenges)[challengeId].creatorId != userId then Failure(Forbidden)
                 else if old(db.challenges)[challengeId].status != ChallengeStatus.Pending then Failure(Conflict)
                 else Success(old(db.challenges)[challengeId].(status := ChallengeStatus.Active, startTime := Some(now)))
    ensures db.challenges == if r.Success? then old(db.challenges)[challengeId := r.value] else old(db.challenges)
  {
    if challengeId !in db.challenges {
      return Failure(NotFound);
    }
    var challenge := db.challenges[challengeId];
    if challenge.creatorId != userId {
      return Failure(Forbidden);
    }
    if challenge.status != ChallengeStatus.Pending {
      return Failure(Conflict);
    }
    var started := challenge.(status := ChallengeStatus.Active, startTime := Some(now));
    db.challenges := db.challenges[challengeId := started];
    r := Success(started);
  }

  /** Complete one's participation at `now`. NotFound for an unknown row,
      Forbidden for anyone but the row's user, Conflict unless the challenge
      is ACTIVE. Otherwise the user earns 30 gold and the row is marked
      completed, with the time elapsed since the start. Nothing looks at
      `completed` first: every repeat pays again and overwrites the time. */
  method CompleteChallenge(db: Store, participationId: ParticipationId, userId: UserId, now: int)
    returns (r: Result<UserChallenge>)
    modifies db`users, db`participations
    ensures r.Failure? ==> db.users == old(db.users) && db.participations == old(db.participations)
    ensures var i := IndexOf(old(db.participations), participationId);
      r == if i < 0 then Failure(NotFound)
           else if old(db.participations)[i].userId != userId then Failure(Forbidden)
           else if old(db.participations)[i].challengeId !in db.challenges then Failure(Internal)
           else if db.challenges[old(db.participations)[i].challengeId].status != ChallengeStatus.Active then Failure(Conflict)
           else if userId !in old(db.users) then Failure(Internal)
           else Success(old(db.participations)[i].(completed := true,
                          completionTime := now - db.challenges[old(db.participations)[i].challengeId].startTime.GetOr(0)))
    ensures r.Success? ==>
      && db.users == AdjustGold(old(db.users), userId, CompletionReward)
      && db.participations == old(db.participations)[IndexOf(old(db.participations), participationId) := r.value]
    ensures OneRowPerUser(old(db.participations)) ==> OneRowPerUser(db.participations)
  {
    var i := IndexOf(db.participations, participationId);
    if i < 0 {
      return Failure(NotFound);
    }
    var participation := db.participations[i];
    if participation.userId != userId {
      return Failure(Forbidden);
    }
    if participation.challengeId !in db.challenges {
      return Failure(Internal);
    }
    var challenge := db.challenges[participation.challengeId];
    if challenge.status != ChallengeStatus.Active {
      return Failure(Conflict);
    }
    // A challenge with no start time counts from time 0.
    var completionTime := now - challenge.startTime.GetOr(0);
    if userId !in db.users {
      return Failure(Internal);
    }
    var user := db.users[userId];
    db.users := db.users[userId := user.(gold := user.gold + CompletionReward)];
    var completed := participation.(completed := true, completionTime := completionTime);
    db.participations := db.participations[i := completed];
    r := Success(completed);
  }

  /** The completed rows of the challenge, in stored order: each such row
      as often as it is stored, and no other row. */
  function Finishers(parts: seq<UserChallenge>, challengeId: ChallengeId): (r: seq<UserChallenge>)
    ensures forall x :: multiset(r)[x] == if x.challengeId == challengeId && x.completed then multiset(parts)[x] else 0
    ensures forall x :: x in r <==> x in parts && x.challengeId == challengeId && x.completed
  {
    var finished := (p: UserChallenge) => p.challengeId == challengeId && p.completed;
    FilterCount(parts, finished);
    Filter(parts, finished)
  }

  function CompletionTime(p: UserChallenge): int {
    p.completionTime
  }

  /** The leaderboard: finishers of the challenge, fastest first, each at
      most as often as stored, and ten of them, or all when fewer have
      finished. */
  function Leaderboard(parts: seq<UserChallenge>, challengeId: ChallengeId): (board: seq<UserChallenge>)
    ensures |board| == Min(BoardSize, |Finishers(parts, challengeId)|)
    ensures SortedBy(board, CompletionTime)
    ensures multiset(board) <= multiset(Finishers(parts, challengeId))
    ensures |Finishers(parts, challengeId)| <= BoardSize ==> multiset(board) == multiset(Finishers(parts, challengeId))
    ensures forall p :: p in board ==> p in parts && p.challengeId == challengeId && p.completed
  {
    Smallest(Finishers(parts, challengeId), CompletionTime, BoardSize)
  }

  /** Nobody is left off the leaderboard who finished faster than someone
      on it: a completed row of the challenge that the board holds fewer
      times than it is stored took at least as long as every entry. */
  lemma LeaderboardKeepsFastest(parts: seq<UserChallenge>, challengeId: ChallengeId, f: UserChallenge)
    requires f in parts && f.challengeId == challengeId && f.completed
    requires multiset(Leaderboard(parts, challengeId))[f] < multiset(parts)[f]
    ensures forall i :: 0 <= i < |Leaderboard(parts, challengeId)| ==>
      Leaderboard(parts, challengeId)[i].completionTime <= f.completionTime
  {
    var ranked := SortBy(Finishers(parts, challengeId), CompletionTime);
    var board := Leaderboard(parts, challengeId);
    assert board == ranked[..|board|];
    PrefixKeepsSmallest(ranked, CompletionTime, |board|, f);
  }

  /** The user table after the first `n` leaderboard places are paid. */
  function Credit(users: map<UserId, User>, board: seq<UserChallenge>, n: nat): (r: map<UserId, User>)
    requires n <= |board| && n <= |Prizes|
    requires forall i :: 0 <= i < n ==> board[i].userId in users
    ensures r.Keys == users.Keys
  {
    if n == 0 then users
    else
      var paid := Credit(users, board, n - 1);
      AdjustGold(paid, board[n - 1].userId, Prizes[n - 1])
  }

  /** The gold that the first `n` places pay to `u`. */
  function PrizeFor(board: seq<UserChallenge>, u: UserId, n: nat): nat
    requires n <= |board| && n <= |Prizes|
  {
    if n == 0 then 0
    else PrizeFor(board, u, n - 1) + (if board[n - 1].userId == u then Prizes[n - 1] else 0)
  }

  /** The gold that the first `n` places pay in all. */
  function PrizeTotal(n: nat): nat
    requires n <= |Prizes|
  {
    if n == 0 then 0 else PrizeTotal(n - 1) + Prizes[n - 1]
  }

  /** Paying the first `n` places moves each user's gold by exactly the
      prizes of the places that user holds, and touches no gems. */
  lemma {:induction false} CreditGold(users: map<UserId, User>, board: seq<UserChallenge>, n: nat, u: UserId)
    requires n <= |board| && n <= |Prizes|
    requires forall i :: 0 <= i < n ==> board[i].userId in users
    requires u in users
    ensures Credit(users, board, n)[u].gold == users[u].gold + PrizeFor(board, u, n)
    ensures Credit(users, board, n)[u].gems == users[u].gems
  {
    if n > 0 {
      CreditGold(users, board, n - 1, u);
    }
  }

  /** What one user receives never exceeds what all places pay, and a full
      board pays exactly 400 gold. */
  lemma {:induction false} PrizeBounds(board: seq<UserChallenge>, u: UserId, n: nat)
    requires n <= |board| && n <= |Prizes|
    ensures PrizeFor(board, u, n) <= PrizeTotal(n) <= PrizeTotal(|Prizes|) == 400
  {
    TotalOfAllPrizes(n);
    if n > 0 {
      PrizeBounds(board, u, n - 1);
    }
  }

  lemma {:induction false} TotalOfAllPrizes(n: nat)
    requires n <= |Prizes|
    ensures PrizeTotal(n) <= PrizeTotal(|Prizes|) == 400
  {
    var k := n;
    while k < |Prizes|
      invariant n <= k <= |Prizes|
      invariant PrizeTotal(n) <= PrizeTotal(k)
    {
      k := k + 1;
    }
    assert PrizeTotal(10) == 400 by {
      assert PrizeTotal(4) == 220;
    }
  }

  /** The index of the first leaderboard place whose user is missing, or
      the board's length when every user exists. */
  function FirstMissing(users: map<UserId, User>, board: seq<UserChallenge>): (k: nat)
    ensures k <= |board|
    ensures forall i :: 0 <= i < k ==> board[i].userId in users
    ensures k < |board| ==> board[k].userId !in users
  {
    if board == [] then 0
    else if board[0].userId !in users then 0
    else 1 + FirstMissing(users, board[1..])
  }

  /** Pay the places of `board` in order, the i-th place Prizes[i], each as
      a separate write, and return how many were paid. The first place whose
      user is missing stops the payout; the places before it stay paid. */
  method PayPlaces(db: Store, board: seq<UserChallenge>) returns (paid: nat)
    requires |board| <= |Prizes|
    modifies db`users
    ensures paid == FirstMissing(old(db.users), board)
    ensures db.users == Credit(old(db.users), board, paid)
  {
    ghost var k := FirstMissing(db.users, board);
    for i := 0 to |board|
      invariant i <= k
      invariant db.users == Credit(old(db.users), board, i)
    {
      var participant := board[i];
      var reward := Prizes[i];
      if participant.userId !in db.users {
        return i;
      }
      db.users := AdjustGold(db.users, participant.userId, reward);
    }
    paid := |board|;
  }

  /** Pay the leaderboard: the i-th place earns Prizes[i]. NotFound for an
      unknown challenge, Forbidden for anyone but the creator. The payments
      are separate writes outside any transaction: when a place's user is
      missing the payout stops there with an internal error, and the places
      before it stay paid. */
  method DistributeRewards(db: Store, challengeId: ChallengeId, userId: UserId) returns (r: Result<()>)
    modifies db`users
    ensures challengeId !in db.challenges ==> r == Failure(NotFound) && db.users == old(db.users)
    ensures challengeId in db.challenges && db.challenges[challengeId].creatorId != userId ==>
      r == Failure(Forbidden) && db.users == old(db.users)
    ensures challengeId in db.challenges && db.challenges[challengeId].creatorId == userId ==>
      var board := Leaderboard(db.participations, challengeId);
      var k := FirstMissing(old(db.users), board);
      && db.users == Credit(old(db.users), board, k)
      && r == if k < |board| then Failure(Internal) else Success(())
  {
    if challengeId !in db.challenges {
      return Failure(NotFound);
    }
    if db.challenges[challengeId].creatorId != userId {
      return Failure(Forbidden);
    }
    var leaderboard := Leaderboard(db.participations, challengeId);
    var paid := PayPlaces(db, leaderboard);
    r := if paid < |leaderboard| then Failure(Internal) else Success(());
  }
}
