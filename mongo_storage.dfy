/**
 * The storage object's user operations over its `users` collection. The
 * collection is a map field that the operations reassign; which matching
 * record `find_one`, `update_one` and `delete_one` pick is left open.
 */
module MongoStorageModel {
  import opened Wrappers
  import opened Schemas
  import opened Errors
  import opened UserTable

  class MongoStorage {
    /** The `users` collection. */
    var users: Table

    ghost predicate Valid()
      reads this
    {
      UserTable.Valid(users)
    }

    /**
     * A storage over the configured database's `users` collection, whatever
     * it already holds, under the unique index on `email`.
     */
    constructor (initial: Table)
      requires UserTable.Valid(initial)
      ensures Valid() && users == initial
    {
      users := initial;
    }

    /** `find_one`: some record that matches the filter, or none when nothing does. */
    method FindOne(f: Filter) returns (r: Option<User>)
      requires Valid()
      ensures r.None? <==> !AnyMatch(users, f)
      ensures r.Some? ==> r.value.id in users && users[r.value.id] == r.value && Matches(f, r.value)
    {
      if k :| k in users && Matches(f, users[k]) {
        r := Some(users[k]);
      } else {
        r := None;
      }
    }

    /**
     * `user_create_record`: the role, sign-in type and verified flag default
     * as in the source; the hash function, the clock reading and the id the
     * insert generates are passed in.
     */
    method UserCreateRecord(userData: UserIn, hash: string -> string, now: Timestamp, newId: ObjectId,
                            role: Role := UserRole, signInType: SignInType := Normal, verified: bool := false)
      returns (r: Result<ObjectId, Error>)
      requires Valid()
      modifies this
      ensures Valid()
      ensures (r, users) == CreateUser(old(users), userData, role, signInType, verified, now, hash, newId)
    {
      var existing := FindOne(ByEmail(userData.email));
      if existing.Some? {
        return Failure(EmailAlreadyTaken);
      }
      if |userData.password| < 8 {
        return Failure(InvalidPasswordLength);
      }
      var date := now;
      var user := User(newId, userData.username, userData.email, hash(userData.password), role,
                       Enabled, signInType, verified, date, date);
      // the insert is refused when the generated id is already present
      if newId in users {
        return Failure(DuplicateKeyError);
      }
      users := users[newId := user];
      r := Success(newId);
    }

    /**
     * `user_get_record`: normalises a string `_id` in the caller's filter
     * (returned as `filterAfter`), then looks up one matching record.
     */
    method UserGetRecord(filter: Filter) returns (r: Result<Option<User>, Error>, filterAfter: Filter)
      requires Valid()
      ensures NormaliseFilter(filter).Failure? ==> r == Failure(NormaliseFilter(filter).error) && filterAfter == filter
      ensures NormaliseFilter(filter).Success? ==>
                && filterAfter == NormaliseFilter(filter).value
                && r.Success?
                && (r.value.None? <==> !AnyMatch(users, filterAfter))
                && (r.value.Some? ==> r.value.value.id in users && users[r.value.value.id] == r.value.value
                                      && Matches(filterAfter, r.value.value))
    {
      var normalised := NormaliseFilter(filter);
      if normalised.Failure? {
        return Failure(normalised.error), filter;
      }
      filterAfter := normalised.value;
      var user := FindOne(filterAfter);
      r := Success(user);
    }

    /**
     * `user_get_all_records`: every record that matches the normalised
     * filter, each exactly once.
     */
    method UserGetAllRecords(filter: Filter) returns (r: Result<seq<User>, Error>, filterAfter: Filter)
      requires Valid()
      ensures NormaliseFilter(filter).Failure? ==> r == Failure(NormaliseFilter(filter).error) && filterAfter == filter
      ensures NormaliseFilter(filter).Success? ==>
                && filterAfter == NormaliseFilter(filter).value
                && r.Success?
                && (forall i :: 0 <= i < |r.value| ==>
                      r.value[i].id in users && users[r.value[i].id] == r.value[i] && Matches(filterAfter, r.value[i]))
                && (forall i, j :: 0 <= i < j < |r.value| ==> r.value[i].id != r.value[j].id)
                && (forall k :: k in users && Matches(filterAfter, users[k]) ==>
                      exists i :: 0 <= i < |r.value| && r.value[i].id == k)
    {
      var normalised := NormaliseFilter(filter);
      if normalised.Failure? {
        return Failure(normalised.error), filter;
      }
      filterAfter := normalised.value;
      var matching := set k | k in users && Matches(filterAfter, users[k]);
      var remaining: set<ObjectId> := matching;
      var found: seq<User> := [];
      while remaining != {}
        invariant remaining <= matching
        invariant forall i :: 0 <= i < |found| ==> found[i].id in matching - remaining && found[i] == users[found[i].id]
        invariant forall i, j :: 0 <= i < j < |found| ==> found[i].id != found[j].id
        invariant forall k :: k in matching - remaining ==> exists i :: 0 <= i < |found| && found[i].id == k
        decreases remaining
      {
        var k: ObjectId :| k in remaining;
        ghost var before := found;
        found := found + [users[k]];
        forall j | j in matching - remaining
          ensures exists i :: 0 <= i < |found| && found[i].id == j
        {
          var i :| 0 <= i < |before| && before[i].id == j;
          assert found[i].id == j;
        }
        assert found[|before|].id == k;
        ghost var was := remaining;
        remaining := remaining - {k};
        assert forall j :: j in matching - remaining ==> j in matching - was || j == k;
      }
      forall k | k in users && Matches(filterAfter, users[k])
        ensures exists i :: 0 <= i < |found| && found[i].id == k
      {
        assert k in matching - remaining;
      }
      r := Success(found);
    }

    /** `user_verify_record`: the lookup, with a missing record raised as 404 "User not found". */
    method UserVerifyRecord(filter: Filter) returns (r: Result<User, Error>, filterAfter: Filter)
      requires Valid()
      ensures r.Failure? <==> VerifyGuard(users, filter).Failure?
      ensures r.Failure? ==> r.error == VerifyGuard(users, filter).error
      ensures r.Success? ==> filterAfter == VerifyGuard(users, filter).value
                             && r.value.id in users && users[r.value.id] == r.value && Matches(filterAfter, r.value)
    {
      var found;
      found, filterAfter := UserGetRecord(filter);
      if found.Failure? {
        return Failure(found.error), filterAfter;
      }
      if found.value.None? {
        return Failure(UserNotFound), filterAfter;
      }
      r := Success(found.value.value);
    }

    /**
     * `user_update_record`: the existence check, then the immutable keys,
     * then `$set` of the update stamped with `date_modified` on one matching
     * record. On success it returns the id of the record it updated.
     */
    method UserUpdateRecord(filter: Filter, update: UserUpdate, now: Timestamp) returns (r: Result<ObjectId, Error>)
      requires Valid()
      modifies this
      ensures Valid()
      ensures UpdateGuard(old(users), filter, update).Failure? ==>
                r == Failure(UpdateGuard(old(users), filter, update).error) && users == old(users)
      ensures UpdateGuard(old(users), filter, update).Success? ==>
                && r.Success? && r.value in old(users)
                && Matches(UpdateGuard(old(users), filter, update).value, old(users)[r.value])
                && users == UpdateAt(old(users), r.value, update, now)
    {
      var user, nf := UserVerifyRecord(filter);
      if user.Failure? {
        return Failure(user.error);
      }
      if update.id.Some? {
        return Failure(ImmutableKey("_id"));
      }
      if update.email.Some? {
        return Failure(ImmutableKey("email"));
      }
      var k :| k in users && Matches(nf, users[k]);
      users := UpdateAt(users, k, update, now);
      r := Success(k);
    }

    /** `user_delete_record`: the existence check, then removal of one matching record. */
    method UserDeleteRecord(filter: Filter) returns (r: Outcome<Error>)
      requires Valid()
      modifies this
      ensures Valid()
      ensures VerifyGuard(old(users), filter).Failure? ==>
                r == Fail(VerifyGuard(old(users), filter).error) && users == old(users)
      ensures VerifyGuard(old(users), filter).Success? ==>
                r == Pass &&
                exists k :: k in old(users) && Matches(VerifyGuard(old(users), filter).value, old(users)[k])
                            && users == DeleteAt(old(users), k)
    {
      var user, nf := UserVerifyRecord(filter);
      if user.Failure? {
        return Fail(user.error);
      }
      var k :| k in users && Matches(nf, users[k]);
      users := DeleteAt(users, k);
      r := Pass;
    }
  }
}
