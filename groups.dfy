/** The group service (src/group/group.service.ts): paid creation, editing
    and deletion, joining and leaving, join requests, role management,
    kicking, and the group chat. Memberships are keyed by (user, group): a
    user has at most one membership row per group. */
module GroupService {
  import opened Outcomes
  import opened Store
  import opened Sorting
  import opened Lookup

  const CreateGroupCost: nat := 150
  const EditGroupCost: nat := 300
  const DeleteGroupCost: nat := 500

  type Memberships = map<(UserId, GroupId), Membership>

  /** The optional fields of an edit request; None leaves a field as it is. */
  datatype GroupPatch = GroupPatch(name: Option<string>, description: Option<string>, isPublic: Option<bool>)

  function Patched(grp: Group, p: GroupPatch): (grp': Group)
    ensures grp'.name == if p.name.Some? then p.name.value else grp.name
    ensures grp'.isPublic == if p.isPublic.Some? then p.isPublic.value else grp.isPublic
  {
    grp.(name := p.name.GetOr(grp.name),
         description := p.description.GetOr(grp.description),
         isPublic := p.isPublic.GetOr(grp.isPublic))
  }

  /** Some group other than those in `except` is called `name`. */
  predicate NameTaken(groups: map<GroupId, Group>, name: string, except: set<GroupId>) {
    exists id :: id in groups && id !in except && groups[id].name == name
  }

  /** The users holding the OWNER role in group `g`, whatever their status. */
  function Owners(ms: Memberships, g: GroupId): set<UserId> {
    set k | k in ms && k.1 == g && ms[k].role == Owner :: k.0
  }

  /** The users with a membership row, active or pending, in group `g`. */
  function Members(ms: Memberships, g: GroupId): set<UserId> {
    set k | k in ms && k.1 == g :: k.0
  }

  /** The caller's membership when it is ACTIVE and its role is one of
      `allowed`; Forbidden in every other case, a missing membership
      included. */
  function CheckPermission(ms: Memberships, g: GroupId, userId: UserId, allowed: set<Role>): (r: Result<Membership>)
    ensures r.Failure? ==> r.error == Forbidden
    ensures r.Success? <==>
      (userId, g) in ms && ms[(userId, g)].role in allowed && ms[(userId, g)].status == MembershipStatus.Active
    ensures r.Success? ==> r.value == ms[(userId, g)]
  {
    if (userId, g) !in ms then Failure(Forbidden)
    else
      var m := ms[(userId, g)];
      if m.role !in allowed || m.status != MembershipStatus.Active then Failure(Forbidden)
      else Success(m)
  }

  /** The memberships after `u`'s role in `g` becomes `role`. */
  function SetRole(ms: Memberships, u: UserId, g: GroupId, role: Role): (r: Memberships)
    requires (u, g) in ms
    ensures r.Keys == ms.Keys
    ensures r[(u, g)] == ms[(u, g)].(role := role)
    ensures forall k :: k in ms && k != (u, g) ==> r[k] == ms[k]
  {
    ms[(u, g) := ms[(u, g)].(role := role)]
  }

  lemma SetRoleOwners(ms: Memberships, u: UserId, g: GroupId, role: Role)
    requires (u, g) in ms
    ensures Owners(SetRole(ms, u, g, role), g) == if role == Owner then Owners(ms, g) + {u} else Owners(ms, g) - {u}
  {
  }

  /** Removing a membership row takes its user out of the owners of its
      group, and changes nothing else about them. */
  lemma RemoveMemberOwners(ms: Memberships, u: UserId, g: GroupId)
    ensures Owners(ms - {(u, g)}, g) == Owners(ms, g) - {u}
    ensures (u, g) in ms && ms[(u, g)].role != Owner ==> Owners(ms - {(u, g)}, g) == Owners(ms, g)
  {
  }

  /** Found a group. NotFound for an unknown user, Forbidden below 150 gold,
      Conflict when the name is taken. Otherwise gold drops by exactly 150,
      the group is stored under the fresh id `newId`, and the creator becomes
      its sole member, as an ACTIVE OWNER. */
  method Create(db: Store, name: string, description: string, isPublic: bool, userId: UserId, newId: GroupId)
    returns (r: Result<Group>)
    requires newId !in db.groups && forall k :: k in db.memberships ==> k.1 != newId
    modifies db`users, db`groups, db`memberships
    ensures r == if userId !in old(db.users) then Failure(NotFound)
                 else if old(db.users)[userId].gold < CreateGroupCost then Failure(Forbidden)
                 else if NameTaken(old(db.groups), name, {}) then Failure(Conflict)
                 else Success(Group(name, description, isPublic))
    ensures r.Failure? ==>
      db.users == old(db.users) && db.groups == old(db.groups) && db.memberships == old(db.memberships)
    ensures r.Success? ==>
      && db.users == AdjustGold(old(db.users), userId, -(CreateGroupCost as int))
      && db.groups == old(db.groups)[newId := r.value]
      && db.memberships == old(db.memberships)[(userId, newId) := Membership(Owner, MembershipStatus.Active)]
  {
    if userId !in db.users {
      return Failure(NotFound);
    }
    var user := db.users[userId];
    if user.gold < CreateGroupCost {
      return Failure(Forbidden);
    }
    if exists id :: id in db.groups && db.groups[id].name == name {
      return Failure(Conflict);
    }
    db.users := db.users[userId := user.(gold := user.gold - CreateGroupCost)];
    var newGroup := Group(name, description, isPublic);
    db.groups := db.groups[newId := newGroup];
    db.memberships := db.memberships[(userId, newId) := Membership(Owner, MembershipStatus.Active)];
    r := Success(newGroup);
  }

  /** A freshly created group has exactly one member, its creator, who is
      its only owner. */
  lemma CreatedGroupHasSoleOwner(ms: Memberships, userId: UserId, newId: GroupId)
    requires forall k :: k in ms ==> k.1 != newId
    ensures var ms' := ms[(userId, newId) := Membership(Owner, MembershipStatus.Active)];
      Members(ms', newId) == {userId} && Owners(ms', newId) == {userId}
  {
  }

  /** Edit a group. Only an ACTIVE OWNER may (Forbidden otherwise); below 300
      gold it is Forbidden; renaming to another group's name is a Conflict.
      Otherwise gold drops by exactly 300 and the group takes the request's
      fields. */
  method Update(db: Store, id: GroupId, patch: GroupPatch, userId: UserId) returns (r: Result<Group>)
    modifies db`users, db`groups
    ensures r.Failure? ==> db.users == old(db.users) && db.groups == old(db.groups)
    ensures r == if CheckPermission(old(db.memberships), id, userId, {Owner}).Failure? then Failure(Forbidden)
                 else if userId !in old(db.users) then Failure(NotFound)
                 else if old(db.users)[userId].gold < EditGroupCost then Failure(Forbidden)
                 else if patch.name.Some? && patch.name.value != ""
                         && NameTaken(old(db.groups), patch.name.value, {id}) then Failure(Conflict)
                 else if id !in old(db.groups) then Failure(Internal)
                 else Success(Patched(old(db.groups)[id], patch))
    ensures r.Success? ==>
      && db.users == AdjustGold(old(db.users), userId, -(EditGroupCost as int))
      && db.groups == old(db.groups)[id := r.value]
  {
    var perm := CheckPermission(db.memberships, id, userId, {Owner});
    if perm.Failure? {
      return Failure(perm.error);
    }
    if userId !in db.users {
      return Failure(NotFound);
    }
    var user := db.users[userId];
    if user.gold < EditGroupCost {
      return Failure(Forbidden);
    }
    if patch.name.Some? && patch.name.value != "" {
      if exists other :: other in db.groups && other !in {id} && db.groups[other].name == patch.name.value {
        return Failure(Conflict);
      }
    }
    if id !in db.groups {
      return Failure(Internal);
    }
    db.users := db.users[userId := user.(gold := user.gold - EditGroupCost)];
    var updated := Patched(db.groups[id], patch);
    db.groups := db.groups[id := updated];
    r := Success(updated);
  }

  /** Delete a group. Only an ACTIVE OWNER may (Forbidden otherwise); below
      500 gold it is Forbidden. Otherwise gold drops by exactly 500 and the
      group row is deleted. */
  method DeleteGroup(db: Store, groupId: GroupId, userId: UserId) returns (r: Result<()>)
    modifies db`users, db`groups
    ensures r.Failure? ==> db.users == old(db.users) && db.groups == old(db.groups)
    ensures r == if CheckPermission(old(db.memberships), groupId, userId, {Owner}).Failure? then Failure(Forbidden)
                 else if userId !in old(db.users) then Failure(NotFound)
                 else if old(db.users)[userId].gold < DeleteGroupCost then Failure(Forbidden)
                 else if groupId !in old(db.groups) then Failure(Internal)
                 else Success(())
    ensures r.Success? ==>
      && db.users == AdjustGold(old(db.users), userId, -(DeleteGroupCost as int))
      && db.groups == old(db.groups) - {groupId}
  {
    var perm := CheckPermission(db.memberships, groupId, userId, {Owner});
    if perm.Failure? {
      return Failure(perm.error);
    }
    if userId !in db.users {
      return Failure(NotFound);
    }
    var user := db.users[userId];
    if user.gold < DeleteGroupCost {
      return Failure(Forbidden);
    }
    if groupId !in db.groups {
      return Failure(Internal);
    }
    db.users := db.users[userId := user.(gold := user.gold - DeleteGroupCost)];
    db.groups := db.groups - {groupId};
    r := Success(());
  }

  /** Join a group, or ask to. NotFound for an unknown group; Conflict when
      the user already has a membership row there, active or pending.
      Otherwise a MEMBER row is added: ACTIVE for a public group, PENDING for
      a private one. */
  method JoinGroup(db: Store, groupId: GroupId, userId: UserId) returns (r: Result<Membership>)
    modifies db`memberships
    ensures r == if groupId !in db.groups then Failure(NotFound)
                 else if (userId, groupId) in old(db.memberships) then Failure(Conflict)
                 else Success(Membership(Member, if db.groups[groupId].isPublic then MembershipStatus.Active
                                                 else MembershipStatus.Pending))
    ensures db.memberships == if r.Success? then old(db.memberships)[(userId, groupId) := r.value]
                              else old(db.memberships)
  {
    if groupId !in db.groups {
      return Failure(NotFound);
    }
    var group := db.groups[groupId];
    if (userId, groupId) in db.memberships {
      return Failure(Conflict);
    }
    var status := if group.isPublic then MembershipStatus.Active else MembershipStatus.Pending;
    var membership := Membership(Member, status);
    db.memberships := db.memberships[(userId, groupId) := membership];
    r := Success(membership);
  }

  /** Leave a group. NotFound for a non-member; Forbidden for the OWNER, who
      must hand ownership over first. Otherwise only the caller's row goes. */
  method LeaveGroup(db: Store, groupId: GroupId, userId: UserId) returns (r: Result<()>)
    modifies db`memberships
    ensures r == if (userId, groupId) !in old(db.memberships) then Failure(NotFound)
                 else if old(db.memberships)[(userId, groupId)].role == Owner then Failure(Forbidden)
                 else Success(())
    ensures db.memberships == if r.Success? then old(db.memberships) - {(userId, groupId)}
                              else old(db.memberships)
  {
    if (userId, groupId) !in db.memberships {
      return Failure(NotFound);
    }
    var membership := db.memberships[(userId, groupId)];
    if membership.role == Owner {
      return Failure(Forbidden);
    }
    db.memberships := db.memberships - {(userId, groupId)};
    r := Success(());
  }

  /** Accept a join request. The caller must be an ACTIVE OWNER or ADMIN
      (Forbidden otherwise) and the target's row must be PENDING (NotFound
      otherwise); the target's row becomes ACTIVE, its role unchanged. */
  method ApproveRequest(db: Store, groupId: GroupId, targetUserId: UserId, currentUserId: UserId)
    returns (r: Result<Membership>)
    modifies db`memberships
    ensures var request := (targetUserId, groupId);
      r == if CheckPermission(old(db.memberships), groupId, currentUserId, {Owner, Admin}).Failure? then Failure(Forbidden)
           else if request !in old(db.memberships) || old(db.memberships)[request].status != MembershipStatus.Pending
           then Failure(NotFound)
           else Success(old(db.memberships)[request].(status := MembershipStatus.Active))
    ensures db.memberships == if r.Success? then old(db.memberships)[(targetUserId, groupId) := r.value]
                              else old(db.memberships)
  {
    var perm := CheckPermission(db.memberships, groupId, currentUserId, {Owner, Admin});
    if perm.Failure? {
      return Failure(perm.error);
    }
    if (targetUserId, groupId) !in db.memberships {
      return Failure(NotFound);
    }
    var request := db.memberships[(targetUserId, groupId)];
    if request.status != MembershipStatus.Pending {
      return Failure(NotFound);
    }
    var approved := request.(status := MembershipStatus.Active);
    db.memberships := db.memberships[(targetUserId, groupId) := approved];
    r := Success(approved);
  }

  /** The role change the caller asks for, on the memberships `ms`. The
      caller must be an ACTIVE OWNER or ADMIN (Forbidden) and the target a
      member of any status (NotFound). Only the owner transfers ownership,
      which demotes the caller to ADMIN and promotes the target to OWNER;
      an OWNER target cannot be made ADMIN; only the owner demotes to MEMBER,
      and only an ADMIN target (BadRequest otherwise). */
  function RoleChange(ms: Memberships, g: GroupId, caller: UserId, target: UserId, newRole: Role): (r: Result<Memberships>)
    ensures r.Success? <==>
      && CheckPermission(ms, g, caller, {Owner, Admin}).Success?
      && (target, g) in ms
      && (newRole == Owner ==> ms[(caller, g)].role == Owner)
      && (newRole == Admin ==> ms[(target, g)].role != Owner)
      && (newRole == Member ==> ms[(caller, g)].role == Owner && ms[(target, g)].role == Admin)
    ensures r.Failure? ==> r.error == (if CheckPermission(ms, g, caller, {Owner, Admin}).Failure? then Forbidden
                                      else if (target, g) !in ms then NotFound
                                      else if newRole == Member && ms[(caller, g)].role == Owner then BadRequest
                                      else Forbidden)
    ensures r.Success? ==> r.value.Keys == ms.Keys && r.value[(target, g)] == ms[(target, g)].(role := newRole)
    ensures r.Success? && newRole == Owner && caller != target ==>
      r.value[(caller, g)] == ms[(caller, g)].(role := Admin)
    ensures r.Success? ==>
      forall k :: k in ms && k != (target, g) && (newRole == Owner ==> k != (caller, g)) ==> r.value[k] == ms[k]
  {
    var perm := CheckPermission(ms, g, caller, {Owner, Admin});
    if perm.Failure? then Failure(perm.error)
    else if (target, g) !in ms then Failure(NotFound)
    else
      var isOwner := perm.value.role == Owner;
      match newRole
      case Owner =>
        if !isOwner then Failure(Forbidden)
        else Success(SetRole(SetRole(ms, caller, g, Admin), target, g, Owner))
      case Admin =>
        if ms[(target, g)].role == Owner then Failure(Forbidden)
        else Success(SetRole(ms, target, g, Admin))
      case Member =>
        if !isOwner then Failure(Forbidden)
        else if ms[(target, g)].role != Admin then Failure(BadRequest)
        else Success(SetRole(ms, target, g, Member))
  }

  /** What a role change does to the owners of the group: a transfer moves
      ownership from the caller to the target, every other change leaves the
      owners as they were. */
  lemma RoleChangeOwners(ms: Memberships, g: GroupId, caller: UserId, target: UserId, newRole: Role)
    requires RoleChange(ms, g, caller, target, newRole).Success?
    ensures Owners(RoleChange(ms, g, caller, target, newRole).value, g) ==
      if newRole == Owner then Owners(ms, g) - {caller} + {target} else Owners(ms, g)
  {
  }

  /** In a group with exactly one owner, every successful role change leaves
      exactly one owner. */
  lemma RoleChangeKeepsSoleOwner(ms: Memberships, g: GroupId, caller: UserId, target: UserId, newRole: Role, owner: UserId)
    requires Owners(ms, g) == {owner}
    requires RoleChange(ms, g, caller, target, newRole).Success?
    ensures |Owners(RoleChange(ms, g, caller, target, newRole).value, g)| == 1
  {
    RoleChangeOwners(ms, g, caller, target, newRole);
    if newRole == Owner {
      assert caller in Owners(ms, g) by { assert (caller, g) in ms; }
      assert Owners(ms, g) - {caller} + {target} == {target};
    }
  }

  /** Change a member's role as RoleChange says, in one transaction, and
      return the target's new row. */
  method ManageMemberRole(db: Store, groupId: GroupId, currentUserId: UserId, targetUserId: UserId, newRole: Role)
    returns (r: Result<Membership>)
    modifies db`memberships
    ensures var change := RoleChange(old(db.memberships), groupId, currentUserId, targetUserId, newRole);
      && (change.Failure? ==> r == Failure(change.error) && db.memberships == old(db.memberships))
      && (change.Success? ==> r == Success(change.value[(targetUserId, groupId)]) && db.memberships == change.value)
  {
    var current := CheckPermission(db.memberships, groupId, currentUserId, {Owner, Admin});
    if current.Failure? {
      return Failure(current.error);
    }
    if (targetUserId, groupId) !in db.memberships {
      return Failure(NotFound);
    }
    var target := db.memberships[(targetUserId, groupId)];
    var isOwner := current.value.role == Owner;
    match newRole
    case Owner =>
      if !isOwner {
        return Failure(Forbidden);
      }
      db.memberships := db.memberships[(currentUserId, groupId) := current.value.(role := Admin)];
      var promoted := db.memberships[(targetUserId, groupId)].(role := Owner);
      db.memberships := db.memberships[(targetUserId, groupId) := promoted];
      r := Success(promoted);
    case Admin =>
      if target.role == Owner {
        return Failure(Forbidden);
      }
      db.memberships := db.memberships[(targetUserId, groupId) := target.(role := Admin)];
      r := Success(target.(role := Admin));
    case Member =>
      if !isOwner {
        return Failure(Forbidden);
      }
      if target.role != Admin {
        return Failure(BadRequest);
      }
      db.memberships := db.memberships[(targetUserId, groupId) := target.(role := Member)];
      r := Success(target.(role := Member));
  }

  /** Post to the group chat at `now`. Only an ACTIVE member may
      (Forbidden otherwise); exactly one message is appended. */
  method PostMessage(db: Store, groupId: GroupId, userId: UserId, content: string, now: int) returns (r: Result<Message>)
    modifies db`messages
    ensures r == if (userId, groupId) !in old(db.memberships)
                    || old(db.memberships)[(userId, groupId)].status != MembershipStatus.Active then Failure(Forbidden)
                 else Success(Message(groupId, userId, content, now))
    ensures db.messages == if r.Success? then old(db.messages) + [r.value] else old(db.messages)
  {
    if (userId, groupId) !in db.memberships || db.memberships[(userId, groupId)].status != MembershipStatus.Active {
      return Failure(Forbidden);
    }
    var message := Message(groupId, userId, content, now);
    db.messages := db.messages + [message];
    r := Success(message);
  }

  /** The messages of group `g`, in stored order: each as often as it is
      stored, and no message of another group. */
  function GroupMessages(msgs: seq<Message>, g: GroupId): (r: seq<Message>)
    ensures forall m :: multiset(r)[m] == if m.groupId == g then multiset(msgs)[m] else 0
    ensures forall m :: m in r <==> m in msgs && m.groupId == g
  {
    var inGroup := (m: Message) => m.groupId == g;
    FilterCount(msgs, inGroup);
    Filter(msgs, inGroup)
  }

  function CreatedAt(m: Message): int {
    m.createdAt
  }

  /** Read the group chat. Only an ACTIVE member may (Forbidden otherwise);
      the result holds exactly the group's messages, each as often as
      stored, oldest first. */
  function GetMessages(db: Store, groupId: GroupId, userId: UserId): (r: Result<seq<Message>>)
    reads db
    ensures r.Failure? ==> r.error == Forbidden
    ensures r.Success? <==>
      (userId, groupId) in db.memberships && db.memberships[(userId, groupId)].status == MembershipStatus.Active
    ensures r.Success? ==> SortedBy(r.value, CreatedAt)
    ensures r.Success? ==> multiset(r.value) == multiset(GroupMessages(db.messages, groupId))
    ensures r.Success? ==> forall m :: m in r.value <==> m in db.messages && m.groupId == groupId
  {
    if (userId, groupId) !in db.memberships || db.memberships[(userId, groupId)].status != MembershipStatus.Active then
      Failure(Forbidden)
    else
      var sorted := SortBy(GroupMessages(db.messages, groupId), CreatedAt);
      assert forall m :: m in sorted <==> m in multiset(sorted);
      Success(sorted)
  }

  /** Remove a member. The caller must be an ACTIVE OWNER or ADMIN
      (Forbidden otherwise) and the target a member (NotFound otherwise).
      Nobody kicks themself or the OWNER, and an ADMIN cannot kick another
      ADMIN (all Forbidden). Otherwise only the target's row goes. */
  method KickMember(db: Store, groupId: GroupId, currentUserId: UserId, targetUserId: UserId) returns (r: Result<()>)
    modifies db`memberships
    ensures var ms := old(db.memberships);
      var current := CheckPermission(ms, groupId, currentUserId, {Owner, Admin});
      r == if current.Failure? then Failure(Forbidden)
           else if (targetUserId, groupId) !in ms then Failure(NotFound)
           else if targetUserId == currentUserId then Failure(Forbidden)
           else if ms[(targetUserId, groupId)].role == Owner then Failure(Forbidden)
           else if current.value.role == Admin && ms[(targetUserId, groupId)].role == Admin then Failure(Forbidden)
           else Success(())
    ensures db.memberships == if r.Success? then old(db.memberships) - {(targetUserId, groupId)}
                              else old(db.memberships)
    ensures r.Success? ==> Owners(db.memberships, groupId) == Owners(old(db.memberships), groupId)
  {
    var current := CheckPermission(db.memberships, groupId, currentUserId, {Owner, Admin});
    if current.Failure? {
      return Failure(current.error);
    }
    if (targetUserId, groupId) !in db.memberships {
      return Failure(NotFound);
    }
    var target := db.memberships[(targetUserId, groupId)];
    var isAdmin := current.value.role == Admin;
    if targetUserId == currentUserId {
      return Failure(Forbidden);
    }
    if target.role == Owner {
      return Failure(Forbidden);
    }
    if isAdmin && target.role == Admin {
      return Failure(Forbidden);
    }
    RemoveMemberOwners(db.memberships, targetUserId, groupId);
    db.memberships := db.memberships - {(targetUserId, groupId)};
    r := Success(());
  }

  /** Turn a join request down. The caller must be an ACTIVE OWNER or ADMIN
      (Forbidden otherwise) and the target's row must be PENDING (NotFound
      otherwise); the target's row is deleted, whatever its role. */
  method RejectRequest(db: Store, groupId: GroupId, targetUserId: UserId, currentUserId: UserId) returns (r: Result<()>)
    modifies db`memberships
    ensures var request := (targetUserId, groupId);
      r == if CheckPermission(old(db.memberships), groupId, currentUserId, {Owner, Admin}).Failure? then Failure(Forbidden)
           else if request !in old(db.memberships) || old(db.memberships)[request].status != MembershipStatus.Pending
           then Failure(NotFound)
           else Success(())
    ensures db.memberships == if r.Success? then old(db.memberships) - {(targetUserId, groupId)}
                              else old(db.memberships)
  {
    var perm := CheckPermission(db.memberships, groupId, currentUserId, {Owner, Admin});
    if perm.Failure? {
      return Failure(perm.error);
    }
    if (targetUserId, groupId) !in db.memberships || db.memberships[(targetUserId, groupId)].status != MembershipStatus.Pending {
      return Failure(NotFound);
    }
    db.memberships := db.memberships - {(targetUserId, groupId)};
    r := Success(());
  }

  /** The single-owner invariant does not survive the service: the owner can
      transfer ownership to a PENDING member, since the target's status is
      never checked, and the former owner, now an ACTIVE ADMIN, can then
      reject that pending request, deleting the only OWNER row. */
  lemma OwnershipCanVanish(ms: Memberships, g: GroupId, owner: UserId, applicant: UserId)
    requires owner != applicant
    requires Owners(ms, g) == {owner}
    requires ms[(owner, g)] == Membership(Owner, MembershipStatus.Active)
    requires (applicant, g) in ms && ms[(applicant, g)] == Membership(Member, MembershipStatus.Pending)
    ensures var transferred := RoleChange(ms, g, owner, applicant, Owner);
      && transferred.Success?
      && Owners(transferred.value, g) == {applicant}
      && CheckPermission(transferred.value, g, owner, {Owner, Admin}).Success?
      && transferred.value[(applicant, g)].status == MembershipStatus.Pending
      && Owners(transferred.value - {(applicant, g)}, g) == {}
  {
    RoleChangeOwners(ms, g, owner, applicant, Owner);
    var ms' := RoleChange(ms, g, owner, applicant, Owner).value;
    RemoveMemberOwners(ms', applicant, g);
  }
}
