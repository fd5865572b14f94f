/**
 * The users connector: an identity store of two tables, `users`
 * (uid -> optional identifier) and `users_info` ((uid, attr_type) -> attr_data),
 * with the four sequential operations `addUser`, `getUser`, `updateUser` and
 * `removeUser`.
 *
 * The store's uniqueness constraints are part of the state invariant: a
 * non-`None` identifier belongs to at most one user, a user has at most one
 * value per attribute type (the key of `usersInfo`), and an attribute
 * observation (attr_type, attr_data) belongs to at most one user. Every
 * attribute row belongs to an existing user. Generated uids come from an
 * auto-increment counter and are never reused.
 */
module Users {
  import opened Wrappers

  type Uid = nat

  /** The store's integrity error, raised when a write would break a uniqueness constraint. */
  datatype Error = IntegrityError

  /** The dictionary `getUser` returns: the uid, the identifier and one entry per stored attribute. */
  datatype UserView = UserView(uid: Uid, identifier: Option<string>, attrs: map<string, string>)

  /** Every attribute row belongs to an existing user. */
  ghost predicate InfoOwned(users: map<Uid, Option<string>>, info: map<(Uid, string), string>)
  {
    forall k :: k in info ==> k.0 in users
  }

  /** No two users share a non-`None` identifier. */
  ghost predicate IdentifiersUnique(users: map<Uid, Option<string>>)
  {
    forall u, v :: u in users && v in users && u != v && users[u].Some? ==> users[u] != users[v]
  }

  /** User `u` holds the attribute observation (t, d). */
  predicate Owns(info: map<(Uid, string), string>, u: Uid, t: string, d: string)
  {
    (u, t) in info && info[(u, t)] == d
  }

  /** No attribute observation (attr_type, attr_data) is held by two users. */
  ghost predicate ObservationsUnique(info: map<(Uid, string), string>)
  {
    forall u, v, t, d :: Owns(info, u, t, d) && Owns(info, v, t, d) ==> u == v
  }

  /** Some user other than `uid` has identifier `id`. */
  predicate IdentifierTaken(users: map<Uid, Option<string>>, id: string, uid: Option<Uid>)
  {
    exists u :: u in users && users[u] == Some(id) && Some(u) != uid
  }

  /** Some user other than `uid` holds the observation (t, d). */
  predicate ObservationTaken(info: map<(Uid, string), string>, t: string, d: string, uid: Option<Uid>)
  {
    exists k :: k in info && k.1 == t && info[k] == d && Some(k.0) != uid
  }

  /** The attributes stored for `uid`, as attr_type -> attr_data. */
  function AttrsOf(info: map<(Uid, string), string>, uid: Uid): (attrs: map<string, string>)
    ensures forall t :: t in attrs <==> (uid, t) in info
    ensures forall t :: t in attrs ==> attrs[t] == info[(uid, t)]
  {
    map k | k in info && k.0 == uid :: k.1 := info[k]
  }

  /** Writing attribute `t` of `uid` changes that user's view in entry `t` only. */
  lemma AttrsOfAfterWrite(info: map<(Uid, string), string>, uid: Uid, t: string, d: string)
    ensures AttrsOf(info[(uid, t) := d], uid) == AttrsOf(info, uid)[t := d]
  {
  }

  /** Writing an attribute of `uid` leaves every other user's attributes as they were. */
  lemma AttrsOfOtherAfterWrite(info: map<(Uid, string), string>, uid: Uid, t: string, d: string, other: Uid)
    requires other != uid
    ensures AttrsOf(info[(uid, t) := d], other) == AttrsOf(info, other)
  {
  }

  /** A user with no attribute rows who receives one has exactly that attribute. */
  lemma AttrsOfFirstWrite(info: map<(Uid, string), string>, uid: Uid, t: string, d: string)
    requires forall k :: k in info ==> k.0 != uid
    ensures AttrsOf(info[(uid, t) := d], uid) == map[t := d]
  {
  }

  class UsersConnector {
    /** The `users` table: uid -> identifier. */
    var users: map<Uid, Option<string>>
    /** The `users_info` table: (uid, attr_type) -> attr_data. */
    var usersInfo: map<(Uid, string), string>
    /** The next uid the store's auto-increment will hand out. */
    var nextUid: Uid

    ghost predicate Valid()
      reads this
    {
      && InfoOwned(users, usersInfo)
      && IdentifiersUnique(users)
      && ObservationsUnique(usersInfo)
      && (forall u :: u in users ==> u < nextUid)
    }

    /** An empty store; auto-increment starts at 1. */
    constructor ()
      ensures Valid()
      ensures users == map[] && usersInfo == map[] && nextUid == 1
    {
      users := map[];
      usersInfo := map[];
      nextUid := 1;
    }

    /**
     * `addUser`: find-or-create keyed by the observation (attrType, attrData).
     * An observation already stored returns its owner's uid and changes
     * nothing (the identifier is not overwritten). Otherwise an identifier
     * already held by some user is an integrity error and changes nothing.
     * Otherwise a fresh user row and one attribute row are inserted.
     */
    method AddUser(identifier: string, attrType: string, attrData: string) returns (r: Result<Uid, Error>)
      requires Valid()
      modifies this
      ensures Valid()
      ensures ObservationTaken(old(usersInfo), attrType, attrData, None) ==>
                && r.Ok? && Owns(old(usersInfo), r.value, attrType, attrData)
                && users == old(users) && usersInfo == old(usersInfo) && nextUid == old(nextUid)
      ensures !ObservationTaken(old(usersInfo), attrType, attrData, None)
              && IdentifierTaken(old(users), identifier, None) ==>
                && r == Err(IntegrityError)
                && users == old(users) && usersInfo == old(usersInfo) && nextUid == old(nextUid)
      ensures !ObservationTaken(old(usersInfo), attrType, attrData, None)
              && !IdentifierTaken(old(users), identifier, None) ==>
                && r.Ok? && r.value == old(nextUid) && r.value !in old(users)
                && users == old(users)[r.value := Some(identifier)]
                && usersInfo == old(usersInfo)[(r.value, attrType) := attrData]
                && nextUid == old(nextUid) + 1
    {
      if ObservationTaken(usersInfo, attrType, attrData, None) {
        var k :| k in usersInfo && k.1 == attrType && usersInfo[k] == attrData;
        assert Owns(usersInfo, k.0, attrType, attrData);
        return Ok(k.0);
      }
      if IdentifierTaken(users, identifier, None) {
        return Err(IntegrityError);
      }
      var uid := nextUid;
      FreshUserValid(users, usersInfo, nextUid, identifier, attrType, attrData);
      users := users[uid := Some(identifier)];
      usersInfo := usersInfo[(uid, attrType) := attrData];
      nextUid := nextUid + 1;
      r := Ok(uid);
    }

    /** `getUser`: the view of user `uid`, or `None` when there is no such user. */
    method GetUser(uid: Uid) returns (r: Option<UserView>)
      requires Valid()
      ensures r.None? <==> uid !in users
      ensures r.Some? ==> r.value.uid == uid && r.value.identifier == users[uid]
      ensures r.Some? ==> r.value.attrs == AttrsOf(usersInfo, uid)
    {
      if uid !in users {
        return None;
      }
      r := Some(UserView(uid, users[uid], AttrsOf(usersInfo, uid)));
    }

    /**
     * `updateUser`: set the identifier and/or write one attribute of user
     * `uid`. An unknown uid is a silent no-op. A new identifier held by
     * another user, or an attribute observation held by another user, is an
     * integrity error and nothing changes. Otherwise the identifier is
     * replaced if given, and the attribute `(uid, attr_type)` is overwritten
     * if it exists and inserted if it does not; nothing else changes.
     */
    method UpdateUser(uid: Uid, identifier: Option<string> := None, attr: Option<(string, string)> := None)
      returns (r: Outcome<Error>)
      requires Valid()
      modifies this
      ensures Valid()
      ensures nextUid == old(nextUid)
      ensures uid !in old(users) ==> r == Pass && users == old(users) && usersInfo == old(usersInfo)
      ensures uid in old(users) && r.Fail? ==> users == old(users) && usersInfo == old(usersInfo)
      ensures uid in old(users) ==>
                (r.Fail? <==> (identifier.Some? && IdentifierTaken(old(users), identifier.value, Some(uid)))
                              || (attr.Some? && ObservationTaken(old(usersInfo), attr.value.0, attr.value.1, Some(uid))))
      ensures uid in old(users) && r == Pass ==>
                && users == (if identifier.Some? then old(users)[uid := identifier] else old(users))
                && usersInfo == (if attr.Some? then old(usersInfo)[(uid, attr.value.0) := attr.value.1]
                                 else old(usersInfo))
    {
      if uid !in users {
        return Pass;
      }
      if identifier.Some? && IdentifierTaken(users, identifier.value, Some(uid)) {
        return Fail(IntegrityError);
      }
      if attr.Some? && ObservationTaken(usersInfo, attr.value.0, attr.value.1, Some(uid)) {
        return Fail(IntegrityError);
      }
      if identifier.Some? {
        users := users[uid := identifier];
      }
      if attr.Some? {
        var (t, d) := attr.value;
        ObservationFreeAfterWrite(usersInfo, uid, t, d);
        usersInfo := usersInfo[(uid, t) := d];
      }
      r := Pass;
    }

    /**
     * `removeUser`: delete the user row of `uid` and, with it, its attribute
     * rows; an unknown uid is not an error and changes nothing.
     */
    method RemoveUser(uid: Uid)
      requires Valid()
      modifies this
      ensures Valid()
      ensures users == old(users) - {uid}
      ensures usersInfo == map k | k in old(usersInfo) && k.0 != uid :: old(usersInfo)[k]
      ensures nextUid == old(nextUid)
      ensures uid !in old(users) ==> users == old(users) && usersInfo == old(usersInfo)
    {
      var before := usersInfo;
      users := users - {uid};
      usersInfo := map k | k in usersInfo && k.0 != uid :: usersInfo[k];
      ObservationsUniqueShrink(before, usersInfo);
      if uid !in old(users) {
        assert usersInfo == before;
      }
    }
  }

  /** A write of `uid`'s attribute keeps observations unique when no other user holds that observation. */
  lemma ObservationFreeAfterWrite(info: map<(Uid, string), string>, uid: Uid, t: string, d: string)
    requires ObservationsUnique(info)
    requires !ObservationTaken(info, t, d, Some(uid))
    ensures ObservationsUnique(info[(uid, t) := d])
  {
    var info' := info[(uid, t) := d];
    forall u: Uid, v: Uid, t': string, d': string | Owns(info', u, t', d') && Owns(info', v, t', d') ensures u == v {
      assert Owns(info, u, t', d') || (u, t') == (uid, t);
      assert Owns(info, v, t', d') || (v, t') == (uid, t);
    }
  }

  /** Inserting a fresh user with an untaken identifier and an untaken observation keeps the invariant. */
  lemma FreshUserValid(users: map<Uid, Option<string>>, info: map<(Uid, string), string>, uid: Uid,
                       identifier: string, t: string, d: string)
    requires InfoOwned(users, info) && IdentifiersUnique(users) && ObservationsUnique(info)
    requires forall u :: u in users ==> u < uid
    requires !IdentifierTaken(users, identifier, None)
    requires !ObservationTaken(info, t, d, None)
    ensures forall k :: k in info ==> k.0 != uid
    ensures InfoOwned(users[uid := Some(identifier)], info[(uid, t) := d])
    ensures IdentifiersUnique(users[uid := Some(identifier)])
    ensures ObservationsUnique(info[(uid, t) := d])
  {
    ObservationFreeAfterWrite(info, uid, t, d);
  }

  /** Dropping attribute rows keeps observations unique. */
  lemma ObservationsUniqueShrink(info: map<(Uid, string), string>, smaller: map<(Uid, string), string>)
    requires ObservationsUnique(info)
    requires forall k :: k in smaller ==> k in info && smaller[k] == info[k]
    ensures ObservationsUnique(smaller)
  {
    forall u: Uid, v: Uid, t: string, d: string | Owns(smaller, u, t, d) && Owns(smaller, v, t, d) ensures u == v {
      assert Owns(info, u, t, d) && Owns(info, v, t, d);
    }
  }
}
