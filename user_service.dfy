/**
 * The user service: account creation, activation, roles, the rating and subscriber
 * counters, the professional-seller application and moderation bans. Each operation
 * reads a row, changes fields of the object and saves it.
 */
module UserService {
  import opened Wrappers
  import opened Users

  const PhoneTaken := "User with this phone number already exists"
  const UserNotFound := "User not found"
  const OnlyAdmins := "Only admins can change roles"
  const InvalidRole := "Invalid role"
  const InvalidRating := "Rating must be between 1 and 5"
  const AlreadySubmitted := "Application already submitted"
  const AlreadyProfessional := "User is already a professional seller"
  const NoApplication := "No application found for this user"
  const NotPending := "Application is not in pending status"

  /** The fields of `CreateUserDto` that reach a column. */
  datatype CreateUserDto = CreateUserDto(name: string, phone_number: string, is_active: Option<bool>, role: Option<string>)

  /** The fields of an update the model follows. */
  datatype UpdateUserDto = UpdateUserDto(name: Option<string>, role: Option<string>)

  /** The user `create` builds: `role || 'user'`, `is_active ?? true`. */
  function CreatedUser(id: string, dto: CreateUserDto): (u: User)
    ensures u.id == id && u.name == dto.name && u.phone_number == Some(dto.phone_number)
    ensures u.role == if Truthy(dto.role) then dto.role.value else "user"
    ensures u.is_active == dto.is_active.GetOr(true)
    ensures u.telegram_id.None? && u.professional_application_status.None? && !u.is_professional_seller
  {
    NewUser(id, dto.name).(
      phone_number := Some(dto.phone_number),
      role := if Truthy(dto.role) then dto.role.value else "user",
      is_active := dto.is_active.GetOr(true))
  }

  /** `Object.assign(user, dto)` for the fields the update carries. */
  function Updated(u: User, dto: UpdateUserDto): (r: User)
    ensures r.id == u.id && r.telegram_id == u.telegram_id && r.phone_number == u.phone_number
    ensures r.name == dto.name.GetOr(u.name) && r.role == dto.role.GetOr(u.role)
  {
    u.(name := dto.name.GetOr(u.name), role := dto.role.GetOr(u.role))
  }

  predicate CountersNonNegative(u: User) {
    u.subscribers_count >= 0 && u.ratings_count >= 0
  }

  function Rated(u: User): User {
    u.(ratings_count := u.ratings_count + 1)
  }

  function Subscribed(u: User): User {
    u.(subscribers_count := u.subscribers_count + 1)
  }

  /** `removeSubscriber`: decrement only from a positive count. */
  function Unsubscribed(u: User): (r: User)
    ensures CountersNonNegative(u) ==> CountersNonNegative(r)
  {
    if u.subscribers_count > 0 then u.(subscribers_count := u.subscribers_count - 1) else u
  }

  /** Unsubscribing right after subscribing restores the user; at zero it changes nothing. */
  lemma SubscriberCountRoundTrip(u: User)
    requires CountersNonNegative(u)
    ensures Unsubscribed(Subscribed(u)) == u
    ensures u.subscribers_count == 0 ==> Unsubscribed(u) == u
  {
  }

  // ---------------------------------------------------------------- professional applications

  /** Why a submission is refused, if it is. */
  function SubmitError(u: User): (r: Option<string>)
    ensures r.None? <==> u.professional_application_status.None? && !u.is_professional_seller
  {
    if u.professional_application_status.Some? then Some(AlreadySubmitted)
    else if u.is_professional_seller then Some(AlreadyProfessional)
    else None
  }

  /** Why a review (approve or reject) is refused, if it is. */
  function ReviewError(u: User): (r: Option<string>)
    ensures r.None? <==> u.professional_application_status == Some(Pending)
  {
    if u.professional_application_status.None? then Some(NoApplication)
    else if u.professional_application_status != Some(Pending) then Some(NotPending)
    else None
  }

  function WithApplication(u: User, app: BusinessApplication): User {
    u.(business := Some(app), professional_application_status := Some(Pending))
  }

  function WithApproval(u: User, adminId: string): User {
    u.(is_professional_seller := true, professional_application_status := Some(Approved),
       application_reviewed_by_id := Some(adminId))
  }

  function WithRejection(u: User, adminId: string, reason: string): User {
    u.(professional_application_status := Some(Rejected), application_reviewed_by_id := Some(adminId),
       application_rejection_reason := Some(reason))
  }

  /** The transitions the application status may take: null to pending, pending to a verdict. */
  predicate Step(before: Option<ApplicationStatus>, after: Option<ApplicationStatus>) {
    (before.None? && after == Some(Pending)) ||
    (before == Some(Pending) && (after == Some(Approved) || after == Some(Rejected)))
  }

  /** Each operation that succeeds moves the status along one allowed transition. */
  lemma ApplicationSteps(u: User, app: BusinessApplication, adminId: string, reason: string)
    ensures SubmitError(u).None? ==>
      Step(u.professional_application_status, WithApplication(u, app).professional_application_status)
    ensures ReviewError(u).None? ==>
      Step(u.professional_application_status, WithApproval(u, adminId).professional_application_status) &&
      Step(u.professional_application_status, WithRejection(u, adminId, reason).professional_application_status)
  {
  }

  /** A verdict is final: after approval or rejection, submitting and reviewing are both refused. */
  lemma VerdictIsFinal(u: User, app: BusinessApplication, adminId: string, reason: string)
    ensures SubmitError(WithApproval(u, adminId)).Some? && ReviewError(WithApproval(u, adminId)).Some?
    ensures SubmitError(WithRejection(u, adminId, reason)).Some? && ReviewError(WithRejection(u, adminId, reason)).Some?
    ensures SubmitError(WithApplication(u, app)).Some?
  {
  }

  /** Approval makes a professional seller; rejection leaves the professional flag as it was. */
  lemma VerdictAndSellerFlag(u: User, adminId: string, reason: string)
    ensures WithApproval(u, adminId).is_professional_seller
    ensures WithRejection(u, adminId, reason).is_professional_seller == u.is_professional_seller
  {
  }

  // ---------------------------------------------------------------- moderation

  /** `banUser`: suspended, with the reason put on the object. */
  function Banned(u: User, reason: string): User {
    u.(status := Suspended, application_rejection_reason := Some(reason))
  }

  /** `unbanUser`: active again, the reason cleared to the empty string. */
  function Unbanned(u: User): User {
    u.(status := Active, application_rejection_reason := Some(""))
  }

  /**
   * `create` as written never inserts: the request carries no `telegram_id`, a NOT NULL column
   * without a default, so the database refuses every user it builds, whatever the table holds.
   */
  lemma CreatedUserRefused(rows: map<string, User>, id: string, dto: CreateUserDto)
    ensures CreatedUser(id, dto).telegram_id.None?
    ensures !Accepted(rows, CreatedUser(id, dto))
  {
  }

  /**
   * With `telegram_id` nullable, as `phone_number` is, the user `create` builds is accepted
   * whenever its phone number is free, and inserting it keeps the unique columns unique.
   */
  lemma CreatedUserAcceptedIfNullable(rows: map<string, User>, id: string, dto: CreateUserDto)
    requires UniqueColumns(rows) && id !in rows
    requires forall k :: k in rows ==> rows[k].phone_number != Some(dto.phone_number)
    ensures AcceptedIfNullable(rows, CreatedUser(id, dto))
    ensures UniqueColumns(rows[id := CreatedUser(id, dto)])
  {
    SaveKeepsUnique(rows, CreatedUser(id, dto));
  }

  /**
   * The reviewer id, the rejection reason and the ban reason are properties without a column:
   * the response carries them, the stored row never does.
   */
  lemma ReviewNotStored(u: User, adminId: string, reason: string)
    ensures WithRejection(u, adminId, reason).application_rejection_reason == Some(reason)
    ensures Persisted(WithRejection(u, adminId, reason)).application_rejection_reason.None?
    ensures Persisted(WithRejection(u, adminId, reason)).application_reviewed_by_id.None?
    ensures Persisted(Banned(u, reason)).application_rejection_reason.None?
    ensures Persisted(Banned(u, reason)).status == Suspended
  {
  }

  /** Unbanning undoes the suspension of what is stored; other columns keep their values. */
  lemma UnbanUndoesBan(u: User, reason: string)
    requires u.status == Active
    ensures Persisted(Unbanned(Banned(u, reason))) == Persisted(u)
  {
  }

  class UserService {
    const users: UserRepository

    ghost predicate Valid()
      reads this, users
    {
      users.Valid() && forall id :: id in users.rows ==> CountersNonNegative(users.rows[id])
    }

    constructor (users: UserRepository)
      requires users.Valid() && forall id :: id in users.rows ==> CountersNonNegative(users.rows[id])
      ensures Valid() && this.users == users
    {
      this.users := users;
    }

    /** `findOne`: active users only. */
    function FindOne(id: string): (r: Result<User>)
      reads this, users
      ensures r.Ok? <==> id in users.rows && users.rows[id].is_active
      ensures r.Ok? ==> r.value == users.rows[id]
      ensures r.Err? ==> r.error == NotFound(UserNotFound)
    {
      if id in users.rows && users.rows[id].is_active then Ok(users.rows[id]) else Err(NotFound(UserNotFound))
    }

    /**
     * `create`: refuse a phone number already taken, else save the user built with the
     * defaults, which the database refuses for its null `telegram_id` (`CreatedUserRefused`).
     */
    method Create(dto: CreateUserDto, newId: string) returns (r: Result<User>)
      requires Valid() && newId !in users.rows
      modifies users
      ensures Valid()
      ensures users.rows == old(users.rows)
      ensures old(users.ByPhone(dto.phone_number)).Some? ==> r == Err(Conflict(PhoneTaken))
      ensures old(users.ByPhone(dto.phone_number)).None? ==> r == Err(QueryFailed(TelegramIdNotNull))
    {
      if users.ByPhone(dto.phone_number).Some? {
        return Err(Conflict(PhoneTaken));
      }
      var u := CreatedUser(newId, dto);
      r := users.Save(u);
    }

    /** Save a changed copy of a stored row whose unique columns it keeps. */
    method SaveRow(u: User) returns (r: Result<User>)
      requires Valid() && u.id in users.rows && CountersNonNegative(u)
      requires u.telegram_id == users.rows[u.id].telegram_id && u.phone_number == users.rows[u.id].phone_number
      modifies users
      ensures Valid()
      ensures r == Ok(u) && users.rows == old(users.rows)[u.id := Persisted(u)]
    {
      ResaveNoClash(users.rows, u);
      r := users.Save(u);
    }

    /** `update`: a role in the request is refused unless the target user is an admin. */
    method Update(id: string, dto: UpdateUserDto) returns (r: Result<User>)
      requires Valid()
      modifies users
      ensures Valid()
      ensures old(FindOne(id)).Err? ==> r == Err(NotFound(UserNotFound)) && users.rows == old(users.rows)
      ensures old(FindOne(id)).Ok? && Truthy(dto.role) && old(users.rows)[id].role != "admin" ==>
        r == Err(BadRequest(OnlyAdmins)) && users.rows == old(users.rows)
      ensures old(FindOne(id)).Ok? && !(Truthy(dto.role) && old(users.rows)[id].role != "admin") ==>
        r == Ok(Updated(old(users.rows)[id], dto)) && users.rows == old(users.rows)[id := Persisted(r.value)]
    {
      var found := FindOne(id);
      if found.Err? {
        return found;
      }
      if Truthy(dto.role) && found.value.role != "admin" {
        return Err(BadRequest(OnlyAdmins));
      }
      r := SaveRow(Updated(found.value, dto));
    }

    /** `remove`: deactivate an active user. */
    method Remove(id: string) returns (r: Result<()>)
      requires Valid()
      modifies users
      ensures Valid()
      ensures old(FindOne(id)).Err? ==> r == Err(NotFound(UserNotFound)) && users.rows == old(users.rows)
      ensures old(FindOne(id)).Ok? ==> r == Ok(()) && users.rows == old(users.rows)[id := old(users.rows)[id].(is_active := false)]
      ensures FindOne(id).Err?
    {
      var found := FindOne(id);
      if found.Err? {
        return Err(found.error);
      }
      var _ := SaveRow(found.value.(is_active := false));
      return Ok(());
    }

    /** `activate`: looks up inactive users too. */
    method Activate(id: string) returns (r: Result<User>)
      requires Valid()
      modifies users
      ensures Valid()
      ensures id !in old(users.rows) ==> r == Err(NotFound(UserNotFound)) && users.rows == old(users.rows)
      ensures id in old(users.rows) ==>
        r == Ok(old(users.rows)[id].(is_active := true)) && users.rows == old(users.rows)[id := r.value]
      ensures id in old(users.rows) ==> FindOne(id).Ok?
    {
      match users.ById(id)
      case None => return Err(NotFound(UserNotFound));
      case Some(u) =>
        r := SaveRow(u.(is_active := true));
    }

    /** `deactivate`: like `remove`, but returns the user. */
    method Deactivate(id: string) returns (r: Result<User>)
      requires Valid()
      modifies users
      ensures Valid()
      ensures FindOne(id).Err?
      ensures old(FindOne(id)).Err? ==> r == Err(NotFound(UserNotFound)) && users.rows == old(users.rows)
      ensures old(FindOne(id)).Ok? ==>
        r == Ok(old(users.rows)[id].(is_active := false)) && users.rows == old(users.rows)[id := r.value]
    {
      var found := FindOne(id);
      if found.Err? {
        return found;
      }
      r := SaveRow(found.value.(is_active := false));
    }

    /** `changeRole`: only `user` or `admin`, checked before the lookup. */
    method ChangeRole(id: string, newRole: string) returns (r: Result<User>)
      requires Valid()
      modifies users
      ensures Valid()
      ensures newRole !in ["user", "admin"] ==> r == Err(BadRequest(InvalidRole)) && users.rows == old(users.rows)
      ensures newRole in ["user", "admin"] && old(FindOne(id)).Err? ==>
        r == Err(NotFound(UserNotFound)) && users.rows == old(users.rows)
      ensures newRole in ["user", "admin"] && old(FindOne(id)).Ok? ==>
        r == Ok(old(users.rows)[id].(role := newRole)) && users.rows == old(users.rows)[id := r.value]
      ensures r.Ok? ==> r.value.role in ["user", "admin"]
    {
      if newRole !in ["user", "admin"] {
        return Err(BadRequest(InvalidRole));
      }
      var found := FindOne(id);
      if found.Err? {
        return found;
      }
      r := SaveRow(found.value.(role := newRole));
    }

    /** `addRating`: a rating outside 1..5 is refused before the lookup; otherwise one more rating. */
    method AddRating(userId: string, rating: int) returns (r: Result<User>)
      requires Valid()
      modifies users
      ensures Valid()
      ensures (rating < 1 || rating > 5) ==> r == Err(BadRequest(InvalidRating)) && users.rows == old(users.rows)
      ensures 1 <= rating <= 5 && old(FindOne(userId)).Err? ==>
        r == Err(NotFound(UserNotFound)) && users.rows == old(users.rows)
      ensures 1 <= rating <= 5 && old(FindOne(userId)).Ok? ==>
        r == Ok(Rated(old(users.rows)[userId])) && users.rows == old(users.rows)[userId := Persisted(r.value)]
    {
      if rating < 1 || rating > 5 {
        return Err(BadRequest(InvalidRating));
      }
      var found := FindOne(userId);
      if found.Err? {
        return found;
      }
      r := SaveRow(Rated(found.value));
    }

    /** `addSubscriber`. */
    method AddSubscriber(userId: string) returns (r: Result<User>)
      requires Valid()
      modifies users
      ensures Valid()
      ensures old(FindOne(userId)).Err? ==> r == Err(NotFound(UserNotFound)) && users.rows == old(users.rows)
      ensures old(FindOne(userId)).Ok? ==>
        r == Ok(Subscribed(old(users.rows)[userId])) && users.rows == old(users.rows)[userId := Persisted(r.value)]
    {
      var found := FindOne(userId);
      if found.Err? {
        return found;
      }
      r := SaveRow(Subscribed(found.value));
    }

    /** `removeSubscriber`: never below zero. */
    method RemoveSubscriber(userId: string) returns (r: Result<User>)
      requires Valid()
      modifies users
      ensures Valid()
      ensures old(FindOne(userId)).Err? ==> r == Err(NotFound(UserNotFound)) && users.rows == old(users.rows)
      ensures old(FindOne(userId)).Ok? ==>
        r == Ok(Unsubscribed(old(users.rows)[userId])) && users.rows == old(users.rows)[userId := Persisted(r.value)]
      ensures r.Ok? ==> r.value.subscribers_count >= 0
    {
      var found := FindOne(userId);
      if found.Err? {
        return found;
      }
      r := SaveRow(Unsubscribed(found.value));
    }

    /** `submitProfessionalApplication`: only without an earlier application and not yet a professional. */
    method SubmitApplication(userId: string, app: BusinessApplication) returns (r: Result<User>)
      requires Valid()
      modifies users
      ensures Valid()
      ensures old(FindOne(userId)).Err? ==> r == Err(NotFound(UserNotFound)) && users.rows == old(users.rows)
      ensures old(FindOne(userId)).Ok? && SubmitError(old(users.rows)[userId]).Some? ==>
        r == Err(BadRequest(SubmitError(old(users.rows)[userId]).value)) && users.rows == old(users.rows)
      ensures old(FindOne(userId)).Ok? && SubmitError(old(users.rows)[userId]).None? ==>
        r == Ok(WithApplication(old(users.rows)[userId], app)) && users.rows == old(users.rows)[userId := Persisted(r.value)]
    {
      var found := FindOne(userId);
      if found.Err? {
        return found;
      }
      var user := found.value;
      if user.professional_application_status.Some? {
        return Err(BadRequest(AlreadySubmitted));
      }
      if user.is_professional_seller {
        return Err(BadRequest(AlreadyProfessional));
      }
      r := SaveRow(WithApplication(user, app));
    }

    /** `approveProfessionalApplication`: only a pending application. */
    method ApproveApplication(userId: string, adminId: string) returns (r: Result<User>)
      requires Valid()
      modifies users
      ensures Valid()
      ensures old(FindOne(userId)).Err? ==> r == Err(NotFound(UserNotFound)) && users.rows == old(users.rows)
      ensures old(FindOne(userId)).Ok? && ReviewError(old(users.rows)[userId]).Some? ==>
        r == Err(BadRequest(ReviewError(old(users.rows)[userId]).value)) && users.rows == old(users.rows)
      ensures old(FindOne(userId)).Ok? && ReviewError(old(users.rows)[userId]).None? ==>
        r == Ok(WithApproval(old(users.rows)[userId], adminId)) && users.rows == old(users.rows)[userId := Persisted(r.value)]
    {
      var found := FindOne(userId);
      if found.Err? {
        return found;
      }
      var user := found.value;
      if user.professional_application_status.None? {
        return Err(BadRequest(NoApplication));
      }
      if user.professional_application_status != Some(Pending) {
        return Err(BadRequest(NotPending));
      }
      r := SaveRow(WithApproval(user, adminId));
    }

    /** `rejectProfessionalApplication`: only a pending application. */
    method RejectApplication(userId: string, adminId: string, reason: string) returns (r: Result<User>)
      requires Valid()
      modifies users
      ensures Valid()
      ensures old(FindOne(userId)).Err? ==> r == Err(NotFound(UserNotFound)) && users.rows == old(users.rows)
      ensures old(FindOne(userId)).Ok? && ReviewError(old(users.rows)[userId]).Some? ==>
        r == Err(BadRequest(ReviewError(old(users.rows)[userId]).value)) && users.rows == old(users.rows)
      ensures old(FindOne(userId)).Ok? && ReviewError(old(users.rows)[userId]).None? ==>
        r == Ok(WithRejection(old(users.rows)[userId], adminId, reason)) &&
        users.rows == old(users.rows)[userId := Persisted(r.value)]
    {
      var found := FindOne(userId);
      if found.Err? {
        return found;
      }
      var user := found.value;
      if user.professional_application_status.None? {
        return Err(BadRequest(NoApplication));
      }
      if user.professional_application_status != Some(Pending) {
        return Err(BadRequest(NotPending));
      }
      r := SaveRow(WithRejection(user, adminId, reason));
    }

    /** `banUser`: the duration only feeds a date that is never stored. */
    method BanUser(userId: string, moderatorId: string, reason: string, duration: Option<int>) returns (r: Result<User>)
      requires Valid()
      modifies users
      ensures Valid()
      ensures old(FindOne(userId)).Err? ==> r == Err(NotFound(UserNotFound)) && users.rows == old(users.rows)
      ensures old(FindOne(userId)).Ok? ==>
        r == Ok(Banned(old(users.rows)[userId], reason)) && users.rows == old(users.rows)[userId := Persisted(r.value)]
    {
      var found := FindOne(userId);
      if found.Err? {
        return found;
      }
      r := SaveRow(Banned(found.value, reason));
    }

    /** `unbanUser`. */
    method UnbanUser(userId: string, moderatorId: string) returns (r: Result<User>)
      requires Valid()
      modifies users
      ensures Valid()
      ensures old(FindOne(userId)).Err? ==> r == Err(NotFound(UserNotFound)) && users.rows == old(users.rows)
      ensures old(FindOne(userId)).Ok? ==>
        r == Ok(Unbanned(old(users.rows)[userId])) && users.rows == old(users.rows)[userId := Persisted(r.value)]
    {
      var found := FindOne(userId);
      if found.Err? {
        return found;
      }
      r := SaveRow(Unbanned(found.value));
    }
  }
}
