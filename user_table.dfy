/**
 * The `users` collection as a map from document id to record, the filters the
 * storage layer passes to it, and the rules the user operations follow, stated
 * as functions of the table before the operation.
 */
module UserTable {
  import opened Wrappers
  import opened Schemas
  import opened Errors

  type Table = map<ObjectId, User>

  /** Every record is stored under its own id. */
  predicate WellKeyed(t: Table)
  {
    forall k :: k in t ==> t[k].id == k
  }

  /** No two records share an email: the unique index on `email`. */
  predicate UniqueEmails(t: Table)
  {
    forall a, b :: a in t && b in t && t[a].email == t[b].email ==> a == b
  }

  predicate Valid(t: Table)
  {
    WellKeyed(t) && UniqueEmails(t)
  }

  predicate EmailTaken(t: Table, email: string)
  {
    exists k :: k in t && t[k].email == email
  }

  // ----- filters -----

  /** The value of a filter's `_id` entry: a string as it arrives from a request, or a document id. */
  datatype IdValue = IdString(text: string) | IdObject(oid: ObjectId)

  /** An equality filter; each present entry must equal the record's field. */
  datatype Filter = Filter(
    id: Option<IdValue>,
    email: Option<string>,
    username: Option<string>,
    role: Option<Role>,
    status: Option<UserStatus>,
    verified: Option<bool>)

  function ById(v: IdValue): Filter
  {
    Filter(Some(v), None, None, None, None, None)
  }

  function ByEmail(email: string): Filter
  {
    Filter(None, Some(email), None, None, None, None)
  }

  /** Equality per entry; a string `_id` never equals a stored document id. */
  predicate Matches(f: Filter, u: User)
  {
    && (f.id.Some? ==> f.id.value == IdObject(u.id))
    && (f.email.Some? ==> f.email.value == u.email)
    && (f.username.Some? ==> f.username.value == u.username)
    && (f.role.Some? ==> f.role.value == u.role)
    && (f.status.Some? ==> f.status.value == u.status)
    && (f.verified.Some? ==> f.verified.value == u.verified)
  }

  predicate AnyMatch(t: Table, f: Filter)
  {
    exists k :: k in t && Matches(f, t[k])
  }

  function ToLowerHex(c: char): char
  {
    if 'A' <= c <= 'F' then (c as int + 32) as char else c
  }

  /**
   * `ObjectId(text)`: 24 hexadecimal digits in either case name a document id,
   * whose string form is lower case; anything else is rejected.
   */
  function ParseObjectId(text: string): (r: Option<ObjectId>)
    ensures r.Some? <==> |text| == 24 && forall i :: 0 <= i < |text| ==> IsHexDigit(text[i])
    ensures r.Some? ==> forall i :: 0 <= i < 24 ==> r.value[i] == ToLowerHex(text[i])
    ensures IsCanonicalObjectId(text) ==> r == Some(text)
  {
    if |text| == 24 && forall i :: 0 <= i < |text| ==> IsHexDigit(text[i]) then
      var lower := seq(|text|, i requires 0 <= i < |text| => ToLowerHex(text[i]));
      assert IsCanonicalObjectId(text) ==> lower == text;
      Some(lower)
    else
      None
  }

  /**
   * The lookup's in-place rewrite of its filter: a string `_id` becomes a
   * document id, or raises InvalidId; every other entry stays as it was.
   */
  function NormaliseFilter(f: Filter): (r: Result<Filter, Error>)
    ensures r.Failure? <==> f.id.Some? && f.id.value.IdString? && ParseObjectId(f.id.value.text).None?
    ensures r.Failure? ==> r.error == InvalidId(f.id.value.text)
    ensures r.Success? ==> r.value.id.None? || r.value.id.value.IdObject?
    ensures r.Success? && f.id.Some? && f.id.value.IdString? ==>
              r.value.id == Some(IdObject(ParseObjectId(f.id.value.text).value))
    ensures r.Success? ==> r.value.(id := f.id) == f && (f.id.None? <==> r.value.id.None?)
    ensures f.id.None? || f.id.value.IdObject? ==> r == Success(f)
  {
    match f.id
    case Some(IdString(text)) =>
      (match ParseObjectId(text)
       case Some(oid) => Success(f.(id := Some(IdObject(oid))))
       case None => Failure(InvalidId(text)))
    case _ => Success(f)
  }

  /**
   * The checks shared by verify, update and delete: normalise the filter,
   * then require a matching record (404 "User not found" otherwise).
   */
  function VerifyGuard(t: Table, f: Filter): (r: Result<Filter, Error>)
    ensures r.Success? <==> NormaliseFilter(f).Success? && AnyMatch(t, NormaliseFilter(f).value)
    ensures r.Success? ==> NormaliseFilter(f) == r
    ensures NormaliseFilter(f).Success? && !AnyMatch(t, NormaliseFilter(f).value) ==> r == Failure(UserNotFound)
    ensures NormaliseFilter(f).Failure? ==> r == NormaliseFilter(f)
  {
    match NormaliseFilter(f)
    case Failure(e) => Failure(e)
    case Success(nf) => if AnyMatch(t, nf) then Success(nf) else Failure(UserNotFound)
  }

  // ----- create -----

  /** The record a successful create stores. */
  predicate IsNewUserRecord(u: User, id: ObjectId, data: UserIn, role: Role, signInType: SignInType,
                            verified: bool, now: Timestamp, hash: string -> string)
  {
    && u.id == id
    && u.username == data.username
    && u.email == data.email
    && u.password == hash(data.password)
    && u.role == role
    && u.signInType == signInType
    && u.verified == verified
    && u.status == Enabled
    && u.dateCreated == now
    && u.dateModified == now
  }

  /**
   * Creating a user: a taken email is refused first, then a password shorter
   * than 8 characters; otherwise exactly one record is inserted under the new
   * id, which the insert itself refuses if that id is already present.
   */
  function CreateUser(t: Table, data: UserIn, role: Role, signInType: SignInType, verified: bool,
                      now: Timestamp, hash: string -> string, newId: ObjectId): (o: (Result<ObjectId, Error>, Table))
    ensures EmailTaken(t, data.email) ==> o == (Failure(EmailAlreadyTaken), t)
    ensures !EmailTaken(t, data.email) && |data.password| < 8 ==> o == (Failure(InvalidPasswordLength), t)
    ensures o.0.Success? <==> !EmailTaken(t, data.email) && |data.password| >= 8 && newId !in t
    ensures o.0.Failure? ==> o.1 == t
    ensures o.0.Success? ==>
              && o.0.value == newId
              && o.1.Keys == t.Keys + {newId}
              && (forall k :: k in t ==> o.1[k] == t[k])
              && IsNewUserRecord(o.1[newId], newId, data, role, signInType, verified, now, hash)
    ensures Valid(t) ==> Valid(o.1)
  {
    if EmailTaken(t, data.email) then
      (Failure(EmailAlreadyTaken), t)
    else if |data.password| < 8 then
      (Failure(InvalidPasswordLength), t)
    else if newId in t then
      (Failure(DuplicateKeyError), t)
    else
      var user := User(newId, data.username, data.email, hash(data.password), role, Enabled,
                       signInType, verified, now, now);
      (Success(newId), t[newId := user])
  }

  // ----- update -----

  /** The keys of an update dictionary; `date_modified` is overwritten by the update itself. */
  datatype UserUpdate = UserUpdate(
    id: Option<IdValue>,
    email: Option<string>,
    username: Option<string>,
    password: Option<string>,
    role: Option<Role>,
    status: Option<UserStatus>,
    signInType: Option<SignInType>,
    verified: Option<bool>,
    dateCreated: Option<Timestamp>,
    dateModified: Option<Timestamp>)

  function Pick<T>(o: Option<T>, keep: T): T
  {
    if o.Some? then o.value else keep
  }

  /** `$set`: every key present in the update replaces that field. */
  function SetFields(u: User, upd: UserUpdate): User
  {
    u.(username := Pick(upd.username, u.username),
       password := Pick(upd.password, u.password),
       role := Pick(upd.role, u.role),
       status := Pick(upd.status, u.status),
       signInType := Pick(upd.signInType, u.signInType),
       verified := Pick(upd.verified, u.verified),
       dateCreated := Pick(upd.dateCreated, u.dateCreated),
       dateModified := Pick(upd.dateModified, u.dateModified))
  }

  /**
   * The update's checks in order: the verify guard, then a KeyError for
   * `_id`, then one for `email`. On success, the normalised filter.
   */
  function UpdateGuard(t: Table, f: Filter, upd: UserUpdate): (r: Result<Filter, Error>)
    ensures r.Success? <==> VerifyGuard(t, f).Success? && upd.id.None? && upd.email.None?
    ensures r.Success? ==> r == VerifyGuard(t, f)
    ensures VerifyGuard(t, f).Failure? ==> r == VerifyGuard(t, f)
    ensures VerifyGuard(t, f).Success? && upd.id.Some? ==> r == Failure(ImmutableKey("_id"))
    ensures VerifyGuard(t, f).Success? && upd.id.None? && upd.email.Some? ==> r == Failure(ImmutableKey("email"))
  {
    match VerifyGuard(t, f)
    case Failure(e) => Failure(e)
    case Success(nf) =>
      if upd.id.Some? then Failure(ImmutableKey("_id"))
      else if upd.email.Some? then Failure(ImmutableKey("email"))
      else Success(nf)
  }

  /**
   * The table after `update_one` has applied the update, stamped with the
   * modification time, to the record under `k`: only that record changes,
   * its id and email stay, and the email index stays unique.
   */
  function UpdateAt(t: Table, k: ObjectId, upd: UserUpdate, now: Timestamp): (t': Table)
    requires k in t && upd.id.None? && upd.email.None?
    ensures t'.Keys == t.Keys
    ensures forall j :: j in t && j != k ==> t'[j] == t[j]
    ensures t'[k].id == t[k].id && t'[k].email == t[k].email && t'[k].dateModified == now
    ensures Valid(t) ==> Valid(t')
  {
    t[k := SetFields(t[k], upd.(dateModified := Some(now)))]
  }

  /** A successful update changes exactly the supplied fields, plus the modification time. */
  lemma UpdateChangesOnlySuppliedFields(t: Table, k: ObjectId, upd: UserUpdate, now: Timestamp)
    requires k in t && upd.id.None? && upd.email.None?
    ensures var u, v := t[k], UpdateAt(t, k, upd, now)[k];
      && v.username == Pick(upd.username, u.username)
      && v.password == Pick(upd.password, u.password)
      && v.role == Pick(upd.role, u.role)
      && v.status == Pick(upd.status, u.status)
      && v.signInType == Pick(upd.signInType, u.signInType)
      && v.verified == Pick(upd.verified, u.verified)
      && v.dateCreated == Pick(upd.dateCreated, u.dateCreated)
      && v.dateModified == now
      && v.id == u.id && v.email == u.email
  {
  }

  // ----- delete -----

  /** The table after `delete_one` has removed the record under `k`. */
  function DeleteAt(t: Table, k: ObjectId): (t': Table)
    requires k in t
    ensures t'.Keys == t.Keys - {k}
    ensures forall j :: j in t' ==> t'[j] == t[j]
    ensures Valid(t) ==> Valid(t')
  {
    t - {k}
  }

  // ----- properties across operations -----

  /** In a valid table an email filter matches at most one record. */
  lemma EmailFilterMatchesAtMostOne(t: Table, email: string, a: ObjectId, b: ObjectId)
    requires Valid(t)
    requires a in t && b in t && Matches(ByEmail(email), t[a]) && Matches(ByEmail(email), t[b])
    ensures a == b
  {
  }

  /**
   * The id string a successful create returns finds the new record again:
   * a filter on that string normalises to the document id, and the only
   * record it matches is the one just created.
   */
  lemma CreatedIdFindsRecord(t: Table, data: UserIn, role: Role, signInType: SignInType, verified: bool,
                             now: Timestamp, hash: string -> string, newId: ObjectId)
    requires Valid(t)
    requires CreateUser(t, data, role, signInType, verified, now, hash, newId).0.Success?
    ensures var (r, t') := CreateUser(t, data, role, signInType, verified, now, hash, newId);
      && NormaliseFilter(ById(IdString(r.value))) == Success(ById(IdObject(newId)))
      && forall k :: k in t' ==> (Matches(ById(IdObject(newId)), t'[k]) <==> k == newId)
  {
    var (r, t') := CreateUser(t, data, role, signInType, verified, now, hash, newId);
    assert ParseObjectId(r.value) == Some(newId);
  }

  /** One operation on the collection, as applied to a table. */
  datatype Op =
    | CreateOp(data: UserIn, role: Role, signInType: SignInType, verified: bool,
               now: Timestamp, hash: string -> string, newId: ObjectId)
    | UpdateOp(filter: Filter, upd: UserUpdate, now: Timestamp, target: ObjectId)
    | DeleteOp(filter: Filter, target: ObjectId)

  /** Whether `target` is a record the update or delete may pick for the filter. */
  predicate Picks(t: Table, f: Filter, target: ObjectId)
  {
    target in t && NormaliseFilter(f).Success? && Matches(NormaliseFilter(f).value, t[target])
  }

  /** The table after one operation; a refused operation leaves it as it was. */
  function Step(t: Table, op: Op): Table
  {
    match op
    case CreateOp(data, role, signInType, verified, now, hash, newId) =>
      CreateUser(t, data, role, signInType, verified, now, hash, newId).1
    case UpdateOp(f, upd, now, target) =>
      if UpdateGuard(t, f, upd).Success? && Picks(t, f, target) then UpdateAt(t, target, upd, now) else t
    case DeleteOp(f, target) =>
      if VerifyGuard(t, f).Success? && Picks(t, f, target) then DeleteAt(t, target) else t
  }

  function Run(t: Table, ops: seq<Op>): Table
    decreases |ops|
  {
    if ops == [] then t else Run(Step(t, ops[0]), ops[1..])
  }

  /** Emails stay unique, and records stay under their own ids, across any sequence of operations. */
  lemma {:induction false} RunKeepsTableValid(t: Table, ops: seq<Op>)
    requires Valid(t)
    ensures Valid(Run(t, ops))
    decreases |ops|
  {
    if ops != [] {
      RunKeepsTableValid(Step(t, ops[0]), ops[1..]);
    }
  }
}
