/**
 * The user table: the `User` entity's columns that the core reads or writes, its column
 * defaults, and a repository that enforces, the way the database does on `save`, the table's
 * NOT NULL column without a default (`telegram_id`) and its unique columns (`telegram_id` and
 * `phone_number`, among non-null values).
 */
module Users {
  import opened Wrappers

  /** `professional_application_status`: an enum column, nullable. */
  datatype ApplicationStatus = Pending | Approved | Rejected

  /** `status`: an enum column defaulting to `active`. */
  datatype AccountStatus = Active | Inactive | Suspended

  /** The fields of a professional-seller application copied onto the user. */
  datatype BusinessApplication = BusinessApplication(
    business_name: string,
    business_type: string,
    business_city: string,
    business_category: string,
    business_website: Option<string>,
    passport_file: string,
    business_certificate_file: string)

  /**
   * A user object as the service handles it. All fields but two are columns of the entity;
   * `application_reviewed_by_id` and `application_rejection_reason` are properties the service
   * assigns that the entity declares no column for, so a save does not write them.
   */
  datatype User = User(
    id: string,
    name: string,
    phone_number: Option<string>,
    email: Option<string>,
    role: string,
    is_active: bool,
    photo: Option<string>,
    telegram_username: Option<string>,
    telegram_id: Option<string>,
    social_network_account_type: Option<string>,
    social_network_id: Option<string>,
    is_professional_seller: bool,
    business: Option<BusinessApplication>,
    professional_application_status: Option<ApplicationStatus>,
    application_reviewed_by_id: Option<string>,
    application_rejection_reason: Option<string>,
    status: AccountStatus,
    subscribers_count: int,
    ratings_count: int)

  /** A freshly inserted row: the given id and name, every other column at its default or null. */
  function NewUser(id: string, name: string): User {
    User(id, name, None, None, "user", true, None, None, None, None, None,
         false, None, None, None, None, Active, 0, 0)
  }

  /** What `save` writes: the columns of the object, without the properties that have none. */
  function Persisted(u: User): (r: User)
    ensures r.application_reviewed_by_id.None? && r.application_rejection_reason.None?
    ensures r.id == u.id && r.telegram_id == u.telegram_id && r.phone_number == u.phone_number
  {
    u.(application_reviewed_by_id := None, application_rejection_reason := None)
  }

  /** An object without the two non-column properties is written exactly as it is. */
  lemma PersistedColumnsOnly(u: User)
    requires u.application_reviewed_by_id.None? && u.application_rejection_reason.None?
    ensures Persisted(u) == u
  {
  }

  /** The message of the error the database raises on a unique-column clash. */
  const DuplicateKey := "duplicate key value violates unique constraint"

  /** The message of the error the database raises on a null `telegram_id`. */
  const TelegramIdNotNull := "null value in column \"telegram_id\" violates not-null constraint"

  /** Saving `u` would clash: another row holds the same non-null `telegram_id` or `phone_number`. */
  predicate Clashes(rows: map<string, User>, u: User) {
    exists id :: id in rows && id != u.id &&
      ((u.telegram_id.Some? && rows[id].telegram_id == u.telegram_id) ||
       (u.phone_number.Some? && rows[id].phone_number == u.phone_number))
  }

  /** Rows are stored under their own id, and the unique columns hold no duplicate non-null value. */
  ghost predicate UniqueColumns(rows: map<string, User>) {
    (forall id :: id in rows ==> rows[id].id == id) &&
    (forall a, b :: a in rows && b in rows && a != b && rows[a].telegram_id.Some? ==>
       rows[a].telegram_id != rows[b].telegram_id) &&
    (forall a, b :: a in rows && b in rows && a != b && rows[a].phone_number.Some? ==>
       rows[a].phone_number != rows[b].phone_number)
  }

  /**
   * The row the database accepts: a `telegram_id` (the column is NOT NULL and has no default)
   * and no clash on a unique column.
   */
  predicate Accepted(rows: map<string, User>, u: User) {
    u.telegram_id.Some? && !Clashes(rows, u)
  }

  /**
   * The database with `telegram_id` nullable, as `phone_number` is: only the unique columns
   * can refuse a row.
   */
  predicate AcceptedIfNullable(rows: map<string, User>, u: User) {
    !Clashes(rows, u)
  }

  /** A save the database accepts keeps the columns unique. */
  lemma SaveKeepsUnique(rows: map<string, User>, u: User)
    requires UniqueColumns(rows) && !Clashes(rows, u)
    ensures UniqueColumns(rows[u.id := u])
  {
    var rows' := rows[u.id := u];
    forall a, b | a in rows' && b in rows' && a != b && rows'[a].telegram_id.Some?
      ensures rows'[a].telegram_id != rows'[b].telegram_id
    {
      if a == u.id { assert b in rows; } else if b == u.id { assert a in rows; }
    }
    forall a, b | a in rows' && b in rows' && a != b && rows'[a].phone_number.Some?
      ensures rows'[a].phone_number != rows'[b].phone_number
    {
      if a == u.id { assert b in rows; } else if b == u.id { assert a in rows; }
    }
  }

  /** Re-saving a stored row with its unique columns unchanged never clashes. */
  lemma ResaveNoClash(rows: map<string, User>, u: User)
    requires UniqueColumns(rows) && u.id in rows && rows[u.id].telegram_id.Some?
    requires u.telegram_id == rows[u.id].telegram_id && u.phone_number == rows[u.id].phone_number
    ensures Accepted(rows, u)
  {
  }

  class UserRepository {
    var rows: map<string, User>

    /** The unique columns hold, and no row carries a value nothing can have written. */
    ghost predicate Valid()
      reads this
    {
      UniqueColumns(rows) &&
      forall id :: id in rows ==> rows[id] == Persisted(rows[id]) && rows[id].telegram_id.Some?
    }

    constructor ()
      ensures Valid() && rows == map[]
    {
      rows := map[];
    }

    /**
     * `repository.save(u)`: insert or overwrite by id, unless `telegram_id` is null (checked
     * first, as the database checks NOT NULL before the unique indexes) or a unique column
     * clashes. The object itself comes back; the row holds its columns only.
     */
    method Save(u: User) returns (r: Result<User>)
      requires Valid()
      modifies this
      ensures Valid()
      ensures u.telegram_id.None? ==> r == Err(QueryFailed(TelegramIdNotNull)) && rows == old(rows)
      ensures u.telegram_id.Some? && Clashes(old(rows), u) ==> r == Err(QueryFailed(DuplicateKey)) && rows == old(rows)
      ensures Accepted(old(rows), u) <==> r.Ok?
      ensures Accepted(old(rows), u) ==> r == Ok(u) && rows == old(rows)[u.id := Persisted(u)]
    {
      if u.telegram_id.None? {
        return Err(QueryFailed(TelegramIdNotNull));
      }
      if Clashes(rows, u) {
        return Err(QueryFailed(DuplicateKey));
      }
      SaveKeepsUnique(rows, Persisted(u));
      rows := rows[u.id := Persisted(u)];
      return Ok(u);
    }

    /** `findOne({ where: { id } })`. */
    function ById(id: string): (r: Option<User>)
      reads this
      ensures r.Some? <==> id in rows
      ensures r.Some? ==> r.value == rows[id]
    {
      if id in rows then Some(rows[id]) else None
    }

    /** `findOne({ where: { telegram_id } })`: at most one row can match. */
    function ByTelegramId(telegramId: string): (r: Option<User>)
      requires Valid()
      reads this
      ensures r.Some? <==> exists id :: id in rows && rows[id].telegram_id == Some(telegramId)
      ensures r.Some? ==> r.value.id in rows && rows[r.value.id] == r.value && r.value.telegram_id == Some(telegramId)
    {
      if exists id :: id in rows && rows[id].telegram_id == Some(telegramId) then
        var id :| id in rows && rows[id].telegram_id == Some(telegramId);
        Some(rows[id])
      else None
    }

    /** `findOne({ where: { phone_number } })`: at most one row can match. */
    function ByPhone(phone: string): (r: Option<User>)
      requires Valid()
      reads this
      ensures r.Some? <==> exists id :: id in rows && rows[id].phone_number == Some(phone)
      ensures r.Some? ==> r.value.id in rows && rows[r.value.id] == r.value && r.value.phone_number == Some(phone)
    {
      if exists id :: id in rows && rows[id].phone_number == Some(phone) then
        var id :| id in rows && rows[id].phone_number == Some(phone);
        Some(rows[id])
      else None
    }
  }
}
