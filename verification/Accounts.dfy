/**
 Accounts, who may manage which, and how they are created, changed and deleted: an admin manages
 every account, a reseller itself and its customers, an end user only itself. Checks that are made
 elsewhere (packages, a reseller's share of the server, the Linux account) come with the request.
 */
module Accounts {
  import opened Wrappers

  // ---------------------------------------------------------------- roles

  /** Roles as they are stored, with the names older releases used. */
  datatype Role = Admin | SuperAdmin | Reseller | EndUser | OldUser | Readonly | Unknown(name: string)

  function Normalize(role: Role): Option<Role> {
    match role
    case SuperAdmin => Some(Admin)
    case OldUser => Some(EndUser)
    case Readonly => Some(EndUser)
    case Unknown(_) => None
    case _ => Some(role)
  }

  predicate IsAdmin(role: Role) { Normalize(role) == Some(Admin) }
  predicate IsReseller(role: Role) { Normalize(role) == Some(Reseller) }
  predicate IsEndUser(role: Role) { Normalize(role) == Some(EndUser) }

  type Id = x: int | x > 0 witness 1

  datatype User = User(role: Role, resellerId: Option<Id>, active: bool, version: nat)

  type Users = map<Id, User>

  // ---------------------------------------------------------------- who may manage whom

  /** A check that turns a role nobody knows into an error of its own. */
  datatype Answer = Yes | No | InvalidRole

  function Customers(users: Users, id: Id): set<Id> { set u | u in users && users[u].resellerId == Some(id) }

  datatype Managed = All | Only(ids: set<Id>)

  function ManagedIds(users: Users, id: Id, role: Role): Managed {
    if IsAdmin(role) then All
    else if IsReseller(role) then Only({id} + Customers(users, id))
    else Only({id})
  }

  /** `target` is the account found under its id, if there is one. */
  function CanManage(id: Id, role: Role, target: Option<(Id, User)>): Answer {
    if target.None? then No
    else if Normalize(role).None? then InvalidRole
    else if IsAdmin(role) || target.value.0 == id then Yes
    else if IsReseller(role) && target.value.1.resellerId == Some(id) then Yes
    else No
  }

  function CanAccessOwner(users: Users, id: Id, role: Role, owner: Option<Id>): Answer {
    if Normalize(role).None? then InvalidRole
    else if IsAdmin(role) then Yes
    else if owner.None? then No
    else if owner.value == id then Yes
    else if !IsReseller(role) then No
    else if owner.value in users && users[owner.value].resellerId == Some(id) then Yes
    else No
  }

  function Found(users: Users, id: Id): Option<(Id, User)> { if id in users then Some((id, users[id])) else None }

  /** The rows a query keeps: all, or those whose owner is listed. A row without an owner is never listed. */
  predicate InScope(managed: Managed, owner: Option<Id>) {
    managed.All? || (owner.Some? && owner.value in managed.ids)
  }

  /**
   The filter, the ownership check and the account check agree, for every actor, for every owner a
   row can have, whether or not the owner still exists.
   */
  lemma {:induction false} ThreeRulesAgree(users: Users, id: Id, role: Role, owner: Option<Id>)
    requires Normalize(role).Some?
    ensures InScope(ManagedIds(users, id, role), owner) <==> CanAccessOwner(users, id, role, owner).Yes?
    ensures owner.Some? && owner.value in users ==>
              CanManage(id, role, Found(users, owner.value)) == CanAccessOwner(users, id, role, owner)
    ensures owner.Some? && owner.value !in users ==>
              (CanAccessOwner(users, id, role, owner).Yes? <==> IsAdmin(role) || owner.value == id)
  {
  }

  // ---------------------------------------------------------------- requests

  datatype Refusal =
    | NotPermitted | BadRole | NotFound | OwnLimits | AdminOnly | OwnRole | HasCustomers | NameTaken | NoPackage
    | NotAReseller | ShareExceeded | LinuxFailed | DeactivatesSelf | DeletesSelf

  datatype Result = Done(users: Users) | Refused(why: Refusal)

  /** What a new account asks for; the rest says how the checks made elsewhere come out. */
  datatype Creation = Creation(
    role: Role, resellerId: Option<Id>, nameFree: bool, packageFound: bool, shareHolds: bool, linuxOk: bool)

  /** What an edit asks for: nothing for a field left alone, 0 for no reseller. */
  datatype Edit = Edit(
    role: Option<Role>, resellerId: Option<nat>, active: Option<bool>, setsShare: bool, setsGroup: bool,
    packageFound: bool, shareHolds: bool)

  /** The roles a request may name. */
  predicate Nameable(role: Role) { role in {Admin, Reseller, EndUser} }

  function EnsureReseller(role: Role): Option<Refusal> {
    if Normalize(role).None? then Some(BadRole)
    else if IsEndUser(role) then Some(NotPermitted)
    else None
  }

  function ResellerProblem(users: Users, id: Id): Option<Refusal> {
    if id !in users then Some(NotAReseller)
    else if Normalize(users[id].role).None? then Some(BadRole)
    else if !IsReseller(users[id].role) then Some(NotAReseller)
    else None
  }

  function NewReseller(actor: Id, actorRole: Role, p: Creation): Option<Id> {
    if IsReseller(actorRole) then Some(actor) else if p.role != EndUser then None else p.resellerId
  }

  function Create(users: Users, actor: Id, p: Creation, id: Id): Result
    requires actor in users && id !in users && Nameable(p.role)
  {
    var me := users[actor].role;
    var role, resellerId := if IsReseller(me) then EndUser else p.role, NewReseller(actor, me, p);
    if EnsureReseller(me).Some? then Refused(EnsureReseller(me).value)
    else if !p.nameFree then Refused(NameTaken)
    else if !p.packageFound then Refused(NoPackage)
    else if resellerId.Some? && resellerId.value != actor && ResellerProblem(users, resellerId.value).Some? then
      Refused(ResellerProblem(users, resellerId.value).value)
    else if (resellerId.Some? || role == Reseller) && !p.shareHolds then Refused(ShareExceeded)
    else if !p.linuxOk then Refused(LinuxFailed)
    else Done(users[id := User(role, resellerId, true, 0)])
  }

  /** Where the account ends up. */
  function NewRole(u: User, p: Edit): Role { if p.role.Some? then p.role.value else u.role }

  function NextReseller(u: User, p: Edit): Option<Id> {
    if NewRole(u, p) != EndUser then None
    else if p.resellerId.None? then u.resellerId
    else if p.resellerId.value == 0 then None
    else Some(p.resellerId.value)
  }

  /** Whether the actor may make this edit at all. */
  function ActorProblem(users: Users, actor: Id, id: Id, p: Edit): (problem: Option<Refusal>)
    requires actor in users
    ensures problem.None? ==> id in users
  {
    var me := users[actor].role;
    if EnsureReseller(me).Some? then EnsureReseller(me)
    else if !CanManage(actor, me, Found(users, id)).Yes? then Some(NotFound)
    else if !IsAdmin(me) && id == actor then Some(OwnLimits)
    else if !IsAdmin(me) && (p.role.Some? || p.resellerId.Some? || p.setsShare || p.setsGroup) then Some(AdminOnly)
    else None
  }

  /** Whether the account's role may become this one. */
  function RoleProblem(users: Users, actor: Id, id: Id, role: Role): Option<Refusal>
    requires id in users
  {
    var u := users[id];
    if role == u.role then None
    else if id == actor then Some(OwnRole)
    else if Normalize(u.role).None? then Some(BadRole)
    else if IsReseller(u.role) && Customers(users, id) != {} then Some(HasCustomers)
    else None
  }

  /** Whether an account of this role may be placed there. */
  function PlaceProblem(users: Users, reseller: Option<Id>, role: Role, shareHolds: bool): Option<Refusal> {
    if reseller.Some? && ResellerProblem(users, reseller.value).Some? then ResellerProblem(users, reseller.value)
    else if (reseller.Some? || role == Reseller) && !shareHolds then Some(ShareExceeded)
    else None
  }

  function EditProblem(users: Users, actor: Id, id: Id, p: Edit): Option<Refusal>
    requires actor in users
  {
    if ActorProblem(users, actor, id, p).Some? then ActorProblem(users, actor, id, p)
    else
      var u := users[id];
      var role, place := RoleProblem(users, actor, id, NewRole(u, p)),
                         PlaceProblem(users, NextReseller(u, p), NewRole(u, p), p.shareHolds);
      if role.Some? then role
      else if !p.packageFound then Some(NoPackage)
      else if place.Some? then place
      else if id == actor && p.active == Some(false) then Some(DeactivatesSelf)
      else None
  }

  function Edited(u: User, p: Edit): User {
    var activeChanged := p.active.Some? && p.active.value != u.active;
    User(NewRole(u, p), NextReseller(u, p), if activeChanged then p.active.value else u.active,
         u.version + (if activeChanged then 1 else 0) + (if NewRole(u, p) != u.role then 1 else 0))
  }

  function Update(users: Users, actor: Id, id: Id, p: Edit): Result
    requires actor in users && (p.role.Some? ==> Nameable(p.role.value))
  {
    var problem := EditProblem(users, actor, id, p);
    if problem.Some? then Refused(problem.value) else Done(users[id := Edited(users[id], p)])
  }

  function Delete(users: Users, actor: Id, id: Id, cleanedUp: bool): Result
    requires actor in users
  {
    var me := users[actor].role;
    if EnsureReseller(me).Some? then Refused(EnsureReseller(me).value)
    else if !CanManage(actor, me, Found(users, id)).Yes? then Refused(NotFound)
    else if id == actor then Refused(DeletesSelf)
    else if Normalize(users[id].role).None? then Refused(BadRole)
    else if IsReseller(users[id].role) && Customers(users, id) != {} then Refused(HasCustomers)
    else if !cleanedUp then Refused(LinuxFailed)
    else Done(users - {id})
  }

  datatype Request =
    | CreateUser(actor: Id, creation: Creation, id: Id)
    | UpdateUser(actor: Id, id: Id, edit: Edit)
    | DeleteUser(actor: Id, id: Id, cleanedUp: bool)

  /** Requests come from accounts that exist, name only today's roles, and new accounts get unused ids. */
  predicate Possible(users: Users, r: Request) {
    && r.actor in users
    && (r.CreateUser? ==> r.id !in users && Nameable(r.creation.role))
    && (r.UpdateUser? ==> r.edit.role.Some? ==> Nameable(r.edit.role.value))
  }

  function Handle(users: Users, r: Request): Result
    requires Possible(users, r)
  {
    match r
    case CreateUser(actor, creation, id) => Create(users, actor, creation, id)
    case UpdateUser(actor, id, edit) => Update(users, actor, id, edit)
    case DeleteUser(actor, id, cleanedUp) => Delete(users, actor, id, cleanedUp)
  }

  /** A refused request changes nothing. */
  function After(users: Users, r: Request): Users
    requires Possible(users, r)
  {
    match Handle(users, r) case Done(next) => next case Refused(_) => users
  }

  // ---------------------------------------------------------------- which requests are granted

  predicate AdminRole(role: Role) { role == Admin || role == SuperAdmin }

  predicate KnownRole(role: Role) { !role.Unknown? }

  /** An admin, or a reseller whose customer the account is, or its own. */
  predicate InCharge(users: Users, actor: Id, id: Id)
    requires actor in users
  {
    id in users &&
    (AdminRole(users[actor].role) ||
     (users[actor].role == Reseller && (id == actor || users[id].resellerId == Some(actor))))
  }

  predicate SomeReseller(users: Users, id: Id) { id in users && users[id].role == Reseller }

  /** Somebody names it as its reseller. */
  ghost predicate Sells(users: Users, id: Id) { exists k :: k in users && users[k].resellerId == Some(id) }

  lemma {:induction false} CustomersIff(users: Users, id: Id)
    ensures Customers(users, id) != {} <==> Sells(users, id)
  {
    if Sells(users, id) {
      var k :| k in users && users[k].resellerId == Some(id);
      assert k in Customers(users, id);
    }
  }

  /** A role nobody knows is an error of its own wherever it is asked for, and every other role gets an answer. */
  lemma {:induction false} UnknownRolesRaise(users: Users, id: Id, role: Role, owner: Option<Id>)
    ensures CanAccessOwner(users, id, role, owner).InvalidRole? <==> !KnownRole(role)
    ensures forall u :: CanManage(id, role, Some(u)).InvalidRole? <==> !KnownRole(role)
    ensures CanManage(id, role, None).No?
  {
  }

  /** Exactly which accounts are created, and what they are. */
  lemma {:induction false} CreatedIff(users: Users, actor: Id, p: Creation, id: Id)
    requires actor in users && id !in users && Nameable(p.role)
    ensures var me, result := users[actor].role, Create(users, actor, p, id);
      var role := if me == Reseller then EndUser else p.role;
      var seller := if me == Reseller then Some(actor) else if p.role == EndUser then p.resellerId else None;
      && (result.Done? <==>
            && (AdminRole(me) || me == Reseller) && p.nameFree && p.packageFound && p.linuxOk
            && (seller.Some? ==> seller.value == actor || SomeReseller(users, seller.value))
            && (seller.Some? || role == Reseller ==> p.shareHolds))
      && (result.Done? ==> result.users == users[id := User(role, seller, true, 0)])
  {
  }

  /** Exactly which accounts are deleted. */
  lemma {:induction false} DeletedIff(users: Users, actor: Id, id: Id, cleanedUp: bool)
    requires actor in users
    ensures var result := Delete(users, actor, id, cleanedUp);
      && (result.Done? <==>
            && InCharge(users, actor, id) && id != actor && KnownRole(users[id].role) && cleanedUp
            && !(users[id].role == Reseller && Sells(users, id)))
      && (result.Done? ==> result.users == users - {id})
  {
    CustomersIff(users, id);
  }

  /** What only an admin may ask of an edit. */
  predicate AsksForPlace(p: Edit) { p.role.Some? || p.resellerId.Some? || p.setsShare || p.setsGroup }

  /** Exactly which edits are made: who asks, whether the role may change, where the account goes, and the checks. */
  lemma {:induction false} EditedIff(users: Users, actor: Id, id: Id, p: Edit)
    requires actor in users && (p.role.Some? ==> Nameable(p.role.value))
    ensures Update(users, actor, id, p).Done? <==>
      && InCharge(users, actor, id)
      && (AdminRole(users[actor].role) || (id != actor && !AsksForPlace(p)))
      && var role := if p.role.Some? then p.role.value else users[id].role;
         var seller := if role != EndUser || p.resellerId == Some(0) then None
                       else if p.resellerId.None? then users[id].resellerId else Some(p.resellerId.value as Id);
         && (role != users[id].role ==>
               id != actor && KnownRole(users[id].role) &&
               !(users[id].role == Reseller && Sells(users, id)))
         && p.packageFound
         && (seller.Some? ==> SomeReseller(users, seller.value))
         && (seller.Some? || role == Reseller ==> p.shareHolds)
         && !(id == actor && p.active == Some(false))
  {
    CustomersIff(users, id);
  }

  predicate MayAsk(users: Users, actor: Id, id: Id, p: Edit)
    requires actor in users
  {
    InCharge(users, actor, id) && (AdminRole(users[actor].role) || (id != actor && !AsksForPlace(p)))
  }

  /** Who is turned away from an edit before it is looked at, and why. */
  lemma {:induction false} ActorRefusedIff(users: Users, actor: Id, id: Id, p: Edit)
    requires actor in users
    ensures var me, why := users[actor].role, ActorProblem(users, actor, id, p);
      && (why == Some(BadRole) <==> !KnownRole(me))
      && (why == Some(NotPermitted) <==> KnownRole(me) && !AdminRole(me) && me != Reseller)
      && (why == Some(NotFound) <==> (AdminRole(me) || me == Reseller) && !InCharge(users, actor, id))
      && (why == Some(OwnLimits) <==> me == Reseller && id == actor)
      && (why == Some(AdminOnly) <==> me == Reseller && id != actor && InCharge(users, actor, id) && AsksForPlace(p))
      && (why.None? <==> MayAsk(users, actor, id, p))
  {
  }

  /** Why an edit that may be asked for is turned away: the first of these. */
  lemma {:induction false} EditRefusedIff(users: Users, actor: Id, id: Id, p: Edit)
    requires actor in users && (p.role.Some? ==> Nameable(p.role.value)) && MayAsk(users, actor, id, p)
    ensures var u, why := users[id], EditProblem(users, actor, id, p);
      var role := if p.role.Some? then p.role.value else u.role;
      var seller := if role != EndUser || p.resellerId == Some(0) then None
                    else if p.resellerId.None? then u.resellerId else Some(p.resellerId.value as Id);
      var changes := role != u.role;
      var sells := u.role == Reseller && Sells(users, id);
      var roleStands := changes ==> id != actor && KnownRole(u.role) && !sells;
      var placed := seller.Some? ==> SomeReseller(users, seller.value);
      var fits := seller.Some? || role == Reseller ==> p.shareHolds;
      && (why == Some(OwnRole) <==> changes && id == actor)
      && (why == Some(HasCustomers) <==> changes && id != actor && sells)
      && (why == Some(NoPackage) <==> roleStands && !p.packageFound)
      && (why == Some(NotAReseller) <==>
            roleStands && p.packageFound && seller.Some? &&
            !(seller.value in users && (users[seller.value].role == Reseller || !KnownRole(users[seller.value].role))))
      && (why == Some(ShareExceeded) <==> roleStands && p.packageFound && placed && !fits)
      && (why == Some(DeactivatesSelf) <==>
            roleStands && p.packageFound && placed && fits && id == actor && p.active == Some(false))
  {
    CustomersIff(users, id);
    ActorRefusedIff(users, actor, id, p);
  }

  /** Why a creation is turned away: the first of these. */
  lemma {:induction false} CreationRefusedIff(users: Users, actor: Id, p: Creation, id: Id)
    requires actor in users && id !in users && Nameable(p.role)
    ensures var me, result := users[actor].role, Create(users, actor, p, id);
      var staff := AdminRole(me) || me == Reseller;
      var role := if me == Reseller then EndUser else p.role;
      var seller := if me == Reseller then Some(actor) else if p.role == EndUser then p.resellerId else None;
      var placed := seller.Some? ==> seller.value == actor || SomeReseller(users, seller.value);
      var fits := seller.Some? || role == Reseller ==> p.shareHolds;
      && (result == Refused(NotPermitted) <==> KnownRole(me) && !staff)
      && (result == Refused(NameTaken) <==> staff && !p.nameFree)
      && (result == Refused(NoPackage) <==> staff && p.nameFree && !p.packageFound)
      && (result == Refused(NotAReseller) <==>
            staff && p.nameFree && p.packageFound && !placed &&
            !(seller.value in users && !KnownRole(users[seller.value].role)))
      && (result == Refused(ShareExceeded) <==> staff && p.nameFree && p.packageFound && placed && !fits)
      && (result == Refused(LinuxFailed) <==>
            staff && p.nameFree && p.packageFound && placed && fits && !p.linuxOk)
  {
    assert AdminRole(users[actor].role) || users[actor].role == Reseller <==> EnsureReseller(users[actor].role).None?;
  }

  /** Why a deletion is turned away: the first of these. */
  lemma {:induction false} DeletionRefusedIff(users: Users, actor: Id, id: Id, cleanedUp: bool)
    requires actor in users
    ensures var me, result := users[actor].role, Delete(users, actor, id, cleanedUp);
      var other := InCharge(users, actor, id) && id != actor;
      && (result == Refused(NotPermitted) <==> KnownRole(me) && !AdminRole(me) && me != Reseller)
      && (result == Refused(NotFound) <==> (AdminRole(me) || me == Reseller) && !InCharge(users, actor, id))
      && (result == Refused(DeletesSelf) <==> (AdminRole(me) || me == Reseller) && id == actor)
      && (result == Refused(HasCustomers) <==> other && users[id].role == Reseller && Sells(users, id))
      && (result == Refused(LinuxFailed) <==>
            other && KnownRole(users[id].role) && !(users[id].role == Reseller && Sells(users, id)) && !cleanedUp)
  {
    CustomersIff(users, id);
  }

  // ---------------------------------------------------------------- the hierarchy

  ghost predicate RowOk(users: Users, id: Id)
    requires id in users
  {
    users[id].resellerId.Some? ==>
      && IsEndUser(users[id].role)
      && users[id].resellerId.value in users && IsReseller(users[users[id].resellerId.value].role)
  }

  /** Only end users have a reseller, and it is an account that exists and is one. */
  ghost predicate Hierarchy(users: Users) { forall id :: id in users ==> RowOk(users, id) }

  lemma {:induction false} OneRowChanged(users: Users, id: Id, u: User)
    requires Hierarchy(users)
    requires id in users && IsReseller(users[id].role) && !IsReseller(u.role) ==> Customers(users, id) == {}
    requires u.resellerId.Some? ==>
               IsEndUser(u.role) && u.resellerId.value != id && u.resellerId.value in users &&
               IsReseller(users[u.resellerId.value].role)
    ensures Hierarchy(users[id := u])
  {
    var next := users[id := u];
    forall k | k in next ensures RowOk(next, k) {
      if k != id {
        assert next[k] == users[k] && RowOk(users, k);
        if users[k].resellerId == Some(id) { assert k in Customers(users, id); }
      }
    }
  }

  /**
   An admin creates an end user and names itself as the reseller, which skips the check that it is
   one; everything else about the new account is in order.
   */
  predicate NamesItself(users: Users, r: Request)
    requires Possible(users, r)
  {
    && r.CreateUser? && IsAdmin(users[r.actor].role)
    && r.creation.role == EndUser && r.creation.resellerId == Some(r.actor)
    && r.creation.nameFree && r.creation.packageFound && r.creation.shareHolds && r.creation.linuxOk
  }

  /**
   An admin makes a reseller without customers an end user of itself, which passes the check as the
   reseller it is about not to be; everything else about the edit is in order.
   */
  predicate OwnReseller(users: Users, r: Request)
    requires Possible(users, r)
  {
    && r.UpdateUser? && IsAdmin(users[r.actor].role)
    && r.id in users && users[r.id].role == Reseller && Customers(users, r.id) == {}
    && r.edit.role == Some(EndUser) && r.edit.resellerId == Some(r.id)
    && r.edit.packageFound && r.edit.shareHolds
  }

  lemma {:induction false} CreateKeepsHierarchy(users: Users, r: Request)
    requires Possible(users, r) && Hierarchy(users) && r.CreateUser?
    ensures Hierarchy(After(users, r)) <==> !NamesItself(users, r)
  {
    var next := After(users, r);
    if NamesItself(users, r) {
      assert !RowOk(next, r.id);
    } else if Handle(users, r).Done? {
      OneRowChanged(users, r.id, next[r.id]);
    }
  }

  lemma {:induction false} UpdateKeepsHierarchy(users: Users, r: Request)
    requires Possible(users, r) && Hierarchy(users) && r.UpdateUser?
    ensures Hierarchy(After(users, r)) <==> !OwnReseller(users, r)
  {
    var next := After(users, r);
    if OwnReseller(users, r) {
      assert !RowOk(next, r.id);
    } else if Handle(users, r).Done? {
      assert RowOk(users, r.id);
      OneRowChanged(users, r.id, next[r.id]);
    }
  }

  lemma {:induction false} DeleteKeepsHierarchy(users: Users, r: Request)
    requires Possible(users, r) && Hierarchy(users) && r.DeleteUser?
    ensures Hierarchy(After(users, r))
  {
    var next := After(users, r);
    forall k | k in next ensures RowOk(next, k) {
      assert RowOk(users, k);
      if users[k].resellerId == Some(r.id) { assert k in Customers(users, r.id); }
    }
  }

  /** A request breaks the hierarchy exactly if it is one of two that slip past the reseller check. */
  lemma {:induction false} HierarchyKeptIff(users: Users, r: Request)
    requires Possible(users, r) && Hierarchy(users)
    ensures Hierarchy(After(users, r)) <==> !NamesItself(users, r) && !OwnReseller(users, r)
  {
    if r.CreateUser? {
      CreateKeepsHierarchy(users, r);
    } else if r.UpdateUser? {
      UpdateKeepsHierarchy(users, r);
    } else {
      DeleteKeepsHierarchy(users, r);
    }
  }

  const FIRST := User(Admin, None, true, 0)

  /** Both happen: the server's first admin and one reseller are enough. */
  lemma {:induction false} BothSlipPast()
    ensures var users: Users := map[1 := FIRST, 2 := User(Reseller, None, true, 0)];
      var creation := Creation(EndUser, Some(1), true, true, true, true);
      var edit := Edit(Some(EndUser), Some(2), None, false, false, true, true);
      var first, second := CreateUser(1, creation, 3), UpdateUser(1, 2, edit);
      && Hierarchy(users) && Possible(users, first) && Possible(users, second)
      && !Hierarchy(After(users, first)) && !Hierarchy(After(users, second))
  {
    var users: Users := map[1 := FIRST, 2 := User(Reseller, None, true, 0)];
    var creation := Creation(EndUser, Some(1), true, true, true, true);
    var edit := Edit(Some(EndUser), Some(2), None, false, false, true, true);
    assert Customers(users, 2) == {};
    HierarchyKeptIff(users, CreateUser(1, creation, 3));
    HierarchyKeptIff(users, UpdateUser(1, 2, edit));
  }

  // ---------------------------------------------------------------- runs

  ghost predicate Play(users: Users, rs: seq<Request>)
    decreases |rs|
  {
    rs == [] || (Possible(users, rs[0]) && Play(After(users, rs[0]), rs[1..]))
  }

  ghost function Run(users: Users, rs: seq<Request>): Users
    requires Play(users, rs)
    decreases |rs|
  {
    if rs == [] then users else Run(After(users, rs[0]), rs[1..])
  }

  /** Neither of the two requests is made. */
  ghost predicate Careful(users: Users, rs: seq<Request>)
    requires Play(users, rs)
    decreases |rs|
  {
    rs == [] ||
    (!NamesItself(users, rs[0]) && !OwnReseller(users, rs[0]) && Careful(After(users, rs[0]), rs[1..]))
  }

  /** Two resellers have no account in common, and none manages an admin or another reseller. */
  ghost predicate SharesApart(users: Users) {
    forall a, b: Id | a in users && b in users && a != b && IsReseller(users[a].role) && IsReseller(users[b].role) ::
      ManagedIds(users, a, users[a].role).ids !! ManagedIds(users, b, users[b].role).ids
  }

  ghost predicate OnlyEndUsersBelow(users: Users) {
    forall a, u: Id | a in users && u in users && u != a && IsReseller(users[a].role) ::
      u in ManagedIds(users, a, users[a].role).ids ==> IsEndUser(users[u].role)
  }

  lemma {:induction false} HierarchyParts(users: Users)
    requires Hierarchy(users)
    ensures SharesApart(users) && OnlyEndUsersBelow(users)
  {
  }

  /** Over every careful run the hierarchy holds, so resellers' accounts stay apart. */
  lemma {:induction false} CarefulRunsKeepHierarchy(users: Users, rs: seq<Request>)
    requires Hierarchy(users) && Play(users, rs) && Careful(users, rs)
    ensures Hierarchy(Run(users, rs)) && SharesApart(Run(users, rs)) && OnlyEndUsersBelow(Run(users, rs))
    decreases |rs|
  {
    if rs == [] {
      HierarchyParts(users);
    } else {
      HierarchyKeptIff(users, rs[0]);
      CarefulRunsKeepHierarchy(After(users, rs[0]), rs[1..]);
    }
  }

  // ---------------------------------------------------------------- what a request cannot do

  /** A reseller's requests touch only its own customers, and make only new customers of its own. */
  lemma {:induction false} ResellersStayInTheirShare(users: Users, r: Request, id: Id)
    requires Possible(users, r) && IsReseller(users[r.actor].role)
    requires id !in Customers(users, r.actor)
    ensures var next := After(users, r);
      if id in users then id in next && next[id] == users[id]
      else id in next ==> next[id] == User(EndUser, Some(r.actor), true, 0)
  {
  }

  /** Only accounts stored under today's name for an end user have a reseller. */
  ghost predicate TodaysCustomers(users: Users) {
    forall id :: id in users && users[id].resellerId.Some? ==> users[id].role == EndUser
  }

  lemma {:induction false} RunKeepsTodaysCustomers(users: Users, rs: seq<Request>)
    requires TodaysCustomers(users) && Play(users, rs)
    ensures TodaysCustomers(Run(users, rs))
    decreases |rs|
  {
    if rs != [] {
      RunKeepsTodaysCustomers(After(users, rs[0]), rs[1..]);
    }
  }

  /**
   After every run from the first admin on, careful or not, a reseller's request leaves each of its
   customers its customer with the role it had, unless it deletes it.
   */
  lemma {:induction false} ResellersKeepTheirCustomers(rs: seq<Request>, r: Request, id: Id)
    requires Play(map[1 := FIRST], rs) && Possible(Run(map[1 := FIRST], rs), r)
    requires var users := Run(map[1 := FIRST], rs); IsReseller(users[r.actor].role) && id in Customers(users, r.actor)
    ensures var users := Run(map[1 := FIRST], rs); var next := After(users, r);
      if id in next then id in Customers(next, r.actor) && next[id].role == users[id].role
      else r.DeleteUser? && r.id == id
  {
    RunKeepsTodaysCustomers(map[1 := FIRST], rs);
  }

  /** Making the same edit twice is making it once: the second time changes nothing and signs nobody out. */
  lemma {:induction false} EditsAreIdempotent(users: Users, r: Request)
    requires Possible(users, r) && r.UpdateUser?
    ensures Possible(After(users, r), r) && After(After(users, r), r) == After(users, r)
  {
    var next := After(users, r);
    if Handle(users, r).Done? {
      assert Edited(next[r.id], r.edit) == next[r.id];
      assert next[r.id := next[r.id]] == next;
    }
  }

  /** Token versions never go down, and go up with every change of role or suspension. */
  lemma {:induction false} VersionsRise(users: Users, r: Request, id: Id)
    requires Possible(users, r) && id in users && id in After(users, r)
    ensures var u, v := users[id], After(users, r)[id];
      v.version >= u.version && (v.role != u.role || v.active != u.active ==> v.version > u.version)
  {
  }

  /**
   What an accepted edit leaves: what it asks for, and for what it does not ask, what there was; but no
   reseller beside any role other than an end user's. Each of the two changes that count raises the version.
   */
  lemma {:induction false} EditsTakeEffect(users: Users, actor: Id, id: Id, p: Edit)
    requires actor in users && (p.role.Some? ==> Nameable(p.role.value)) && Update(users, actor, id, p).Done?
    ensures var next := Update(users, actor, id, p).users;
      && id in users && next.Keys == users.Keys && (forall k :: k in users && k != id ==> next[k] == users[k])
      && (p.active == Some(false) ==> !next[id].active) && (p.active == Some(true) ==> next[id].active)
      && (p.active.None? ==> next[id].active == users[id].active)
      && (p.role.Some? ==> next[id].role == p.role.value) && (p.role.None? ==> next[id].role == users[id].role)
      && (next[id].role != EndUser || p.resellerId == Some(0) ==> next[id].resellerId.None?)
      && (next[id].role == EndUser && p.resellerId.None? ==> next[id].resellerId == users[id].resellerId)
      && (forall r: Id :: next[id].role == EndUser && p.resellerId == Some(r) ==> next[id].resellerId == Some(r))
      && next[id].version - users[id].version ==
           (if next[id].active != users[id].active then 1 else 0) + (if next[id].role != users[id].role then 1 else 0)
  {
    if p.active.Some? { assert p.active == Some(true) || p.active == Some(false); }
  }

  ghost predicate ActiveAdmin(users: Users, id: Id) { id in users && IsAdmin(users[id].role) && users[id].active }

  ghost predicate SomeoneCanHelp(users: Users) { exists id :: ActiveAdmin(users, id) }

  lemma {:induction false} ActorKeepsItself(users: Users, r: Request)
    requires Possible(users, r) && IsAdmin(users[r.actor].role) && users[r.actor].active
    ensures ActiveAdmin(After(users, r), r.actor)
  {
  }

  lemma {:induction false} EndUsersChangeNothing(users: Users, r: Request)
    requires Possible(users, r) && !IsAdmin(users[r.actor].role) && !IsReseller(users[r.actor].role)
    ensures After(users, r) == users
  {
  }

  /** No request by an active account can leave the server without an active admin. */
  lemma {:induction false} AnAdminRemains(users: Users, r: Request)
    requires Possible(users, r) && Hierarchy(users) && users[r.actor].active && SomeoneCanHelp(users)
    ensures SomeoneCanHelp(After(users, r))
  {
    if IsAdmin(users[r.actor].role) {
      ActorKeepsItself(users, r);
    } else if IsReseller(users[r.actor].role) {
      var id :| ActiveAdmin(users, id);
      ResellersStayInTheirShare(users, r, id);
      assert ActiveAdmin(After(users, r), id);
    } else {
      EndUsersChangeNothing(users, r);
    }
  }

  ghost predicate FromActive(users: Users, rs: seq<Request>)
    requires Play(users, rs)
    decreases |rs|
  {
    rs == [] || (users[rs[0].actor].active && FromActive(After(users, rs[0]), rs[1..]))
  }

  lemma {:induction false} AnAdminAlwaysRemains(users: Users, rs: seq<Request>)
    requires Hierarchy(users) && SomeoneCanHelp(users)
    requires Play(users, rs) && Careful(users, rs) && FromActive(users, rs)
    ensures SomeoneCanHelp(Run(users, rs))
    decreases |rs|
  {
    if rs != [] {
      AnAdminRemains(users, rs[0]);
      HierarchyKeptIff(users, rs[0]);
      AnAdminAlwaysRemains(After(users, rs[0]), rs[1..]);
    }
  }

  // ---------------------------------------------------------------- the endpoints

  class Database {
    var users: Users

    constructor ()
      ensures users == map[1 := FIRST]
    {
      users := map[1 := FIRST];
    }

    /** An account that is a reseller, or why it cannot be used as one. */
    method CheckReseller(id: Id) returns (problem: Option<Refusal>)
      ensures problem == ResellerProblem(users, id)
    {
      if id !in users { return Some(NotAReseller); }
      var owner := users[id];
      if Normalize(owner.role).None? { return Some(BadRole); }
      return if IsReseller(owner.role) then None else Some(NotAReseller);
    }

    method CreateUser(actor: Id, p: Creation, id: Id) returns (refusal: Option<Refusal>)
      requires actor in users && id !in users && Nameable(p.role)
      modifies this
      ensures refusal.None? ==> Create(old(users), actor, p, id) == Done(users)
      ensures refusal.Some? ==> Create(old(users), actor, p, id) == Refused(refusal.value) && users == old(users)
    {
      var me := users[actor].role;
      var denied := EnsureReseller(me);
      if denied.Some? { return denied; }
      var role, resellerId := p.role, p.resellerId;
      if IsReseller(me) {
        role, resellerId := EndUser, Some(actor);
      } else if role != EndUser {
        resellerId := None;
      }
      if !p.nameFree { return Some(NameTaken); }
      if !p.packageFound { return Some(NoPackage); }
      if resellerId.Some? {
        if resellerId.value != actor {
          var problem := CheckReseller(resellerId.value);
          if problem.Some? { return problem; }
        }
        if !p.shareHolds { return Some(ShareExceeded); }
      }
      if role == Reseller && !p.shareHolds { return Some(ShareExceeded); }
      if !p.linuxOk { return Some(LinuxFailed); }
      users := users[id := User(role, resellerId, true, 0)];
      return None;
    }

    method CheckActor(actor: Id, id: Id, p: Edit) returns (problem: Option<Refusal>)
      requires actor in users
      ensures problem == ActorProblem(users, actor, id, p)
    {
      var me := users[actor].role;
      var denied := EnsureReseller(me);
      if denied.Some? { return denied; }
      if !CanManage(actor, me, Found(users, id)).Yes? { return Some(NotFound); }
      if !IsAdmin(me) {
        if id == actor { return Some(OwnLimits); }
        if p.role.Some? || p.resellerId.Some? || p.setsShare || p.setsGroup { return Some(AdminOnly); }
      }
      return None;
    }

    method CheckRole(actor: Id, id: Id, role: Role) returns (problem: Option<Refusal>)
      requires id in users
      ensures problem == RoleProblem(users, actor, id, role)
    {
      var user := users[id];
      if role != user.role {
        if id == actor { return Some(OwnRole); }
        if Normalize(user.role).None? { return Some(BadRole); }
        if IsReseller(user.role) && Customers(users, id) != {} { return Some(HasCustomers); }
      }
      return None;
    }

    method CheckPlace(reseller: Option<Id>, role: Role, shareHolds: bool) returns (problem: Option<Refusal>)
      ensures problem == PlaceProblem(users, reseller, role, shareHolds)
    {
      if reseller.Some? {
        problem := CheckReseller(reseller.value);
        if problem.Some? { return; }
        if !shareHolds { return Some(ShareExceeded); }
      }
      return if role == Reseller && !shareHolds then Some(ShareExceeded) else None;
    }

    /** Works on a copy of the row, which is stored only if nothing refuses the edit. */
    method UpdateUser(actor: Id, id: Id, p: Edit) returns (refusal: Option<Refusal>)
      requires actor in users && (p.role.Some? ==> Nameable(p.role.value))
      modifies this
      ensures refusal.None? ==> Update(old(users), actor, id, p) == Done(users)
      ensures refusal.Some? ==> Update(old(users), actor, id, p) == Refused(refusal.value) && users == old(users)
    {
      var denied := CheckActor(actor, id, p);
      if denied.Some? { return denied; }
      var user := users[id];
      var newRole := if p.role.Some? then p.role.value else user.role;
      denied := CheckRole(actor, id, newRole);
      if denied.Some? { return denied; }
      if !p.packageFound { return Some(NoPackage); }
      var newReseller := user.resellerId;
      if p.resellerId.Some? { newReseller := if p.resellerId.value == 0 then None else Some(p.resellerId.value); }
      if newRole != EndUser { newReseller := None; }
      denied := CheckPlace(newReseller, newRole, p.shareHolds);
      if denied.Some? { return denied; }
      var self := id == actor;
      var ok, amended := Amend(user, newRole, newReseller, p, self);
      if !ok { return Some(DeactivatesSelf); }
      users := users[id := amended];
      return None;
    }

    /** Assigns the row's fields one after the other; an account that deactivates itself stops halfway. */
    method Amend(row: User, newRole: Role, newReseller: Option<Id>, p: Edit, self: bool) returns (ok: bool, user: User)
      requires newRole == NewRole(row, p) && newReseller == NextReseller(row, p)
      ensures ok <==> !(self && p.active == Some(false))
      ensures ok ==> user == Edited(row, p)
    {
      user := row.(resellerId := newReseller);
      var roleChanged := newRole != user.role;
      if roleChanged { user := user.(role := newRole); }
      if p.active.Some? {
        if self && !p.active.value { return false, user; }
        if user.active != p.active.value {
          user := user.(active := p.active.value, version := user.version + 1);
        }
      }
      if roleChanged { user := user.(version := user.version + 1); }
      return true, user;
    }

    method DeleteUser(actor: Id, id: Id, cleanedUp: bool) returns (refusal: Option<Refusal>)
      requires actor in users
      modifies this
      ensures refusal.None? ==> Delete(old(users), actor, id, cleanedUp) == Done(users)
      ensures refusal.Some? ==> Delete(old(users), actor, id, cleanedUp) == Refused(refusal.value) && users == old(users)
    {
      var me := users[actor].role;
      var denied := EnsureReseller(me);
      if denied.Some? { return denied; }
      if !CanManage(actor, me, Found(users, id)).Yes? { return Some(NotFound); }
      if id == actor { return Some(DeletesSelf); }
      var role := users[id].role;
      if Normalize(role).None? { return Some(BadRole); }
      if IsReseller(role) && Customers(users, id) != {} { return Some(HasCustomers); }
      if !cleanedUp { return Some(LinuxFailed); }
      users := users - {id};
      return None;
    }
  }
}
