/**
 * The sequential test cases of the users connector, replayed on the model.
 * Each starts from an empty store and builds the test's pre-state through
 * the connector itself, so the fixture user 1 ("soap", IPv9 observation)
 * receives uid 1 from the auto-increment.
 */
module UsersScenarios {
  import opened Wrappers
  import opened Users

  /** The fixture user 1: identifier "soap" and the IPv9 observation. */
  method User1() returns (c: UsersConnector)
    ensures fresh(c) && c.Valid()
    ensures c.users == map[1 := Some("soap")]
    ensures c.usersInfo == map[(1, "IPv9") := "0578cc6.8db024"]
    ensures c.nextUid == 2
  {
    c := new UsersConnector();
    var r := c.AddUser("soap", "IPv9", "0578cc6.8db024");
  }

  /** Adding to an empty store creates one user row and one attribute row for the returned uid. */
  method AddUserNew() returns (r: Result<Uid, Error>, users: map<Uid, Option<string>>, info: map<(Uid, string), string>)
    ensures r.Ok?
    ensures users == map[r.value := Some("soap")]
    ensures info == map[(r.value, "subspace_net_handle") := "Durden0924"]
  {
    var c := new UsersConnector();
    r := c.AddUser("soap", "subspace_net_handle", "Durden0924");
    users, info := c.users, c.usersInfo;
  }

  /** Adding a stored observation under another identifier returns the existing uid and changes nothing. */
  method AddUserExisting() returns (r: Result<Uid, Error>, users: map<Uid, Option<string>>, info: map<(Uid, string), string>)
    ensures r == Ok(1)
    ensures users == map[1 := Some("soap")]
    ensures info == map[(1, "IPv9") := "0578cc6.8db024"]
  {
    var c := User1();
    assert Owns(c.usersInfo, 1, "IPv9", "0578cc6.8db024");
    r := c.AddUser("soapy", "IPv9", "0578cc6.8db024");
    users, info := c.users, c.usersInfo;
  }

  /** Adding a new observation under an identifier already held is an integrity error. */
  method AddUserExistingIdentifier() returns (r: Result<Uid, Error>)
    ensures r == Err(IntegrityError)
  {
    var c := User1();
    assert c.users[1] == Some("soap");
    assert !Owns(c.usersInfo, 1, "telepathIO(tm)", "hmm,lye");
    r := c.AddUser("soap", "telepathIO(tm)", "hmm,lye");
  }

  /** Reading user 1 yields its uid, identifier and its one attribute; an unknown uid yields None. */
  method GetUserAndNoMatch() returns (v1: Option<UserView>, v3: Option<UserView>)
    ensures v1 == Some(UserView(1, Some("soap"), map["IPv9" := "0578cc6.8db024"]))
    ensures v3 == None
  {
    var c := User1();
    AttrsOfFirstWrite(map[], 1, "IPv9", "0578cc6.8db024");
    v1 := c.GetUser(1);
    v3 := c.GetUser(3);
  }

  /**
   * The fixture user 2, with git and irc rows, is read back with both
   * entries. A placeholder user is added and removed first, so that the
   * fixture receives uid 2 from the auto-increment.
   */
  method GetUserMultiAttr() returns (v: Option<UserView>)
    ensures v == Some(UserView(2, Some("soap"), map["git" := "Tyler Durden <tyler@mayhem.net>", "irc" := "durden"]))
  {
    var c := new UsersConnector();
    var placeholder := c.AddUser("placeholder", "placeholder", "placeholder");
    c.RemoveUser(1);
    assert c.users == map[] && c.usersInfo == map[];
    var r := c.AddUser("soap", "git", "Tyler Durden <tyler@mayhem.net>");
    AttrsOfFirstWrite(map[], 2, "git", "Tyler Durden <tyler@mayhem.net>");
    assert !ObservationTaken(c.usersInfo, "irc", "durden", Some(2));
    var u := c.UpdateUser(2, attr := Some(("irc", "durden")));
    AttrsOfAfterWrite(map[(2, "git") := "Tyler Durden <tyler@mayhem.net>"], 2, "irc", "durden");
    v := c.GetUser(2);
  }

  /** Updating an existing attribute type overwrites that value only; the identifier stays. */
  method UpdateUserExistingType() returns (v: Option<UserView>)
    ensures v == Some(UserView(1, Some("soap"), map["IPv9" := "abcd.1234"]))
  {
    var c := User1();
    assert !ObservationTaken(c.usersInfo, "IPv9", "abcd.1234", Some(1));
    var u := c.UpdateUser(1, attr := Some(("IPv9", "abcd.1234")));
    AttrsOfFirstWrite(map[], 1, "IPv9", "abcd.1234");
    assert c.usersInfo == map[(1, "IPv9") := "abcd.1234"];
    v := c.GetUser(1);
  }

  /** Updating a new attribute type adds it beside the old one; the identifier stays. */
  method UpdateUserNewType() returns (v: Option<UserView>)
    ensures v == Some(UserView(1, Some("soap"), map["IPv9" := "0578cc6.8db024", "IPv4" := "123.134.156.167"]))
  {
    var c := User1();
    assert !ObservationTaken(c.usersInfo, "IPv4", "123.134.156.167", Some(1));
    var u := c.UpdateUser(1, attr := Some(("IPv4", "123.134.156.167")));
    AttrsOfFirstWrite(map[], 1, "IPv9", "0578cc6.8db024");
    AttrsOfAfterWrite(map[(1, "IPv9") := "0578cc6.8db024"], 1, "IPv4", "123.134.156.167");
    v := c.GetUser(1);
  }

  /** An identifier-only update changes the identifier and keeps the attributes. */
  method UpdateUserIdentifier() returns (v: Option<UserView>)
    ensures v == Some(UserView(1, Some("lye"), map["IPv9" := "0578cc6.8db024"]))
  {
    var c := User1();
    assert !IdentifierTaken(c.users, "lye", Some(1));
    var u := c.UpdateUser(1, identifier := Some("lye"));
    AttrsOfFirstWrite(map[], 1, "IPv9", "0578cc6.8db024");
    v := c.GetUser(1);
  }

  /** A combined update changes the identifier and adds the attribute. */
  method UpdateUserBoth() returns (v: Option<UserView>)
    ensures v == Some(UserView(1, Some("lye"), map["IPv9" := "0578cc6.8db024", "IPv4" := "123.134.156.167"]))
  {
    var c := User1();
    assert !IdentifierTaken(c.users, "lye", Some(1));
    assert !ObservationTaken(c.usersInfo, "IPv4", "123.134.156.167", Some(1));
    var u := c.UpdateUser(1, identifier := Some("lye"), attr := Some(("IPv4", "123.134.156.167")));
    AttrsOfFirstWrite(map[], 1, "IPv9", "0578cc6.8db024");
    AttrsOfAfterWrite(map[(1, "IPv9") := "0578cc6.8db024"], 1, "IPv4", "123.134.156.167");
    v := c.GetUser(1);
  }

  /** Updates of an unknown uid succeed and leave user 1 untouched, in both forms. */
  method UpdateNoMatch() returns (u1: Outcome<Error>, u2: Outcome<Error>, v: Option<UserView>)
    ensures u1 == Pass && u2 == Pass
    ensures v == Some(UserView(1, Some("soap"), map["IPv9" := "0578cc6.8db024"]))
  {
    var c := User1();
    u1 := c.UpdateUser(3, identifier := Some("abcd"));
    u2 := c.UpdateUser(3, attr := Some(("abcd", "efgh")));
    AttrsOfFirstWrite(map[], 1, "IPv9", "0578cc6.8db024");
    v := c.GetUser(1);
  }

  /** Removing user 1 empties the users table; removing an unknown uid changes nothing. */
  method RemoveUserAndNoMatch() returns (afterUnknown: map<Uid, Option<string>>, afterRemove: map<Uid, Option<string>>)
    ensures afterUnknown == map[1 := Some("soap")]
    ensures afterRemove == map[]
  {
    var c := User1();
    c.RemoveUser(3);
    afterUnknown := c.users;
    c.RemoveUser(1);
    afterRemove := c.users;
  }

  /**
   * The same observation added twice, under any two identifiers, yields the
   * same uid both times, and the identifier stored is the one from the
   * creating call (or the one already there); the second call changes nothing.
   */
  method AddUserTwice(c: UsersConnector, id1: string, id2: string, t: string, d: string)
    returns (r1: Result<Uid, Error>, r2: Result<Uid, Error>)
    requires c.Valid()
    modifies c
    ensures c.Valid()
    ensures r1.Ok? ==> r2 == r1 && r1.value in c.users
    ensures r1.Ok? && !ObservationTaken(old(c.usersInfo), t, d, None) ==>
              c.users == old(c.users)[r1.value := Some(id1)] && c.users[r1.value] == Some(id1)
              && c.nextUid == old(c.nextUid) + 1
    ensures r1.Ok? && ObservationTaken(old(c.usersInfo), t, d, None) ==> c.nextUid == old(c.nextUid)
    ensures r1.Ok? && ObservationTaken(old(c.usersInfo), t, d, None) ==> c.users == old(c.users)
    ensures r1.Ok? ==> c.usersInfo == if ObservationTaken(old(c.usersInfo), t, d, None) then old(c.usersInfo)
                                      else old(c.usersInfo)[(r1.value, t) := d]
    ensures r1.Err? ==> IdentifierTaken(old(c.users), id1, None) && !ObservationTaken(old(c.usersInfo), t, d, None)
  {
    r1 := c.AddUser(id1, t, d);
    if r1.Ok? {
      assert Owns(c.usersInfo, r1.value, t, d);
    }
    r2 := c.AddUser(id2, t, d);
  }
}
