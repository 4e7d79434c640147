/**
 * The user aggregate (src/user.rs): user identifiers, role associations, user names,
 * password credentials and the `User` object whose association list is updated in place.
 */
module Users {
  import opened Wrappers
  import opened Uuids
  import opened Roles
  import opened Argon2

  // -- UserId -----------------------------------------------------------

  datatype UserId = UserId(uuid: Uuid)

  /** `UserId::default`: the nil placeholder. */
  function DefaultUserId(): (r: UserId)
    ensures r.uuid.bits == 0
  {
    UserId(Nil)
  }

  /** `UserId::new`, with the random v4 UUID passed in as `drawn`. */
  function NewUserId(drawn: Uuid): (r: UserId)
    ensures r.uuid == drawn
    ensures r == DefaultUserId() <==> drawn == Nil
  {
    UserId(drawn)
  }

  /**
   * `UserId::from(String)`: the parsed UUID, or the nil placeholder when the text does
   * not parse. `parse` stands for the uuid crate's `Uuid::parse_str`.
   */
  function UserIdFromString(value: string, parse: string -> Option<Uuid>): (r: UserId)
    ensures parse(value).None? ==> r == DefaultUserId()
    ensures parse(value).Some? ==> r.uuid == parse(value).value
    ensures r != DefaultUserId() ==> parse(value) == Some(r.uuid)
  {
    match parse(value)
    case Some(u) => UserId(u)
    case None => UserId(Nil)
  }

  /**
   * The fallback cannot be told apart from a genuine nil identifier: malformed text and
   * the text of the nil UUID convert to the same `UserId`.
   */
  lemma FromStringConflatesMalformedAndNil(
    garbage: string, nilText: string, parse: string -> Option<Uuid>)
    requires parse(garbage) == None
    requires parse(nilText) == Some(Nil)
    ensures UserIdFromString(garbage, parse) == UserIdFromString(nilText, parse) == DefaultUserId()
  {
  }

  // -- UserRole ---------------------------------------------------------

  /** `UserRole::new(user_id, role_id)` with its two accessors, as a value. */
  datatype UserRole = UserRole(userId: UserId, roleId: RoleId)

  /** Every association in `roles` belongs to the user `owner`. */
  ghost predicate OwnedBy(roles: seq<UserRole>, owner: UserId)
  {
    forall i :: 0 <= i < |roles| ==> roles[i].userId == owner
  }

  /**
   * `roles.retain(|r| r.role_id != role_id)`: the associations for other roles, in their
   * original order. What it keeps is stated by `WithoutRoleContents`.
   */
  function WithoutRole(roles: seq<UserRole>, roleId: RoleId): (r: seq<UserRole>)
    ensures |r| <= |roles|
  {
    if roles == [] then []
    else (if roles[0].roleId == roleId then [] else [roles[0]]) + WithoutRole(roles[1..], roleId)
  }

  /**
   * The filtered list holds no association for `roleId`, and every other association
   * exactly as many times as the original list does.
   */
  lemma {:induction false} WithoutRoleContents(roles: seq<UserRole>, roleId: RoleId)
    ensures forall i :: 0 <= i < |WithoutRole(roles, roleId)| ==> WithoutRole(roles, roleId)[i].roleId != roleId
    ensures forall ur :: multiset(WithoutRole(roles, roleId))[ur] ==
                         if ur.roleId == roleId then 0 else multiset(roles)[ur]
  {
    if roles != [] {
      WithoutRoleContents(roles[1..], roleId);
      assert roles == [roles[0]] + roles[1..];
    }
  }

  /** Filtering distributes over concatenation, which is what keeping the order means. */
  lemma {:induction false} WithoutRoleDistributes(a: seq<UserRole>, b: seq<UserRole>, roleId: RoleId)
    ensures WithoutRole(a + b, roleId) == WithoutRole(a, roleId) + WithoutRole(b, roleId)
  {
    if a == [] {
      assert a + b == b;
    } else {
      var head := if a[0].roleId == roleId then [] else [a[0]];
      calc {
        WithoutRole(a + b, roleId);
        { assert (a + b)[0] == a[0] && (a + b)[1..] == a[1..] + b; }
        head + WithoutRole(a[1..] + b, roleId);
        { WithoutRoleDistributes(a[1..], b, roleId); }
        head + (WithoutRole(a[1..], roleId) + WithoutRole(b, roleId));
        (head + WithoutRole(a[1..], roleId)) + WithoutRole(b, roleId);
        WithoutRole(a, roleId) + WithoutRole(b, roleId);
      }
    }
  }

  /** Removing a role is a no-op exactly when no association is for it. */
  lemma {:induction false} WithoutRoleNoOp(roles: seq<UserRole>, roleId: RoleId)
    ensures WithoutRole(roles, roleId) == roles <==>
            forall i :: 0 <= i < |roles| ==> roles[i].roleId != roleId
  {
    WithoutRoleContents(roles, roleId);
    if roles != [] && forall i :: 0 <= i < |roles| ==> roles[i].roleId != roleId {
      assert roles[0].roleId != roleId;
      assert forall i :: 0 <= i < |roles[1..]| ==> roles[1..][i].roleId != roleId by {
        forall i | 0 <= i < |roles[1..]| ensures roles[1..][i].roleId != roleId {
          assert roles[1..][i] == roles[i + 1];
        }
      }
      WithoutRoleNoOp(roles[1..], roleId);
      assert roles == [roles[0]] + roles[1..];
    }
  }

  /** Removing the same role twice is the same as removing it once. */
  lemma WithoutRoleIdempotent(roles: seq<UserRole>, roleId: RoleId)
    ensures WithoutRole(WithoutRole(roles, roleId), roleId) == WithoutRole(roles, roleId)
  {
    WithoutRoleContents(roles, roleId);
    WithoutRoleNoOp(WithoutRole(roles, roleId), roleId);
  }

  /** Removals of two roles can be done in either order. */
  lemma {:induction false} WithoutRoleCommutes(roles: seq<UserRole>, r1: RoleId, r2: RoleId)
    ensures WithoutRole(WithoutRole(roles, r1), r2) == WithoutRole(WithoutRole(roles, r2), r1)
  {
    if roles != [] {
      var head, tail := [roles[0]], roles[1..];
      assert roles == head + tail;
      WithoutRoleDistributes(head, tail, r1);
      WithoutRoleDistributes(head, tail, r2);
      WithoutRoleDistributes(WithoutRole(head, r1), WithoutRole(tail, r1), r2);
      WithoutRoleDistributes(WithoutRole(head, r2), WithoutRole(tail, r2), r1);
      assert head[1..] == [];
      WithoutRoleCommutes(tail, r1, r2);
    }
  }

  /** Removal keeps only associations that were there, so it keeps their owner. */
  lemma WithoutRoleKeepsOwner(roles: seq<UserRole>, owner: UserId, roleId: RoleId)
    requires OwnedBy(roles, owner)
    ensures OwnedBy(WithoutRole(roles, roleId), owner)
  {
    var r := WithoutRole(roles, roleId);
    WithoutRoleContents(roles, roleId);
    forall i | 0 <= i < |r| ensures r[i].userId == owner {
      assert multiset(r)[r[i]] > 0;
      assert r[i] in roles;
    }
  }

  /**
   * Attaching a role the list does not hold and then removing it gives the list back;
   * from a fresh user that is the empty list.
   */
  lemma RemoveUndoesAdd(roles: seq<UserRole>, owner: UserId, roleId: RoleId)
    requires forall i :: 0 <= i < |roles| ==> roles[i].roleId != roleId
    ensures WithoutRole(roles + [UserRole(owner, roleId)], roleId) == roles
  {
    WithoutRoleDistributes(roles, [UserRole(owner, roleId)], roleId);
    WithoutRoleNoOp(roles, roleId);
    assert [UserRole(owner, roleId)][1..] == [];
  }

  // -- UserName ---------------------------------------------------------

  datatype UserName = UserName(text: string)

  /** `UserName::new`: no validation; the text is kept exactly, so names compare by text. */
  function NewUserName(name: string): (r: UserName)
    ensures r.text == name
    ensures forall other: string :: r == UserName(other) <==> other == name
  {
    UserName(name)
  }

  // -- Errors -----------------------------------------------------------

  /** `UserError`. Only `PasswordMismatch` is ever produced. */
  datatype UserError = PasswordMismatch | InvalidPassword

  /** A `Box<dyn Error>`: only its message is observable. */
  datatype DynError = DynError(message: string)

  /** A call that either returns or ends the whole process with `exit(code)`. */
  datatype Process<+T> = Returns(value: T) | Exits(code: int)

  // -- UserPassword -----------------------------------------------------

  /** The stored PHC digest text; never the plaintext. */
  datatype UserPassword = UserPassword(digest: string)

  /**
   * `UserPassword::new(password, confirm_password)`. A mismatch is rejected before any
   * hashing; otherwise the password is hashed under `salt` (the salt `OsRng` would draw)
   * and the rendered digest is stored; a backend failure exits the process with status 1.
   */
  function NewUserPassword(password: string, confirm: string, salt: string, hasher: Hasher)
    : (r: Process<Result<UserPassword, UserError>>)
    ensures r == Returns(Err(PasswordMismatch)) <==> password != confirm
    ensures r.Exits? <==> password == confirm && hasher.hash(password, salt).None?
    ensures r.Exits? ==> r.code == 1
    ensures r.Returns? ==> r.value != Err(InvalidPassword)
    ensures r.Returns? && r.value.Ok? ==>
              hasher.hash(password, salt).Some? &&
              r.value.value.digest == hasher.render(PasswordHash(salt, hasher.hash(password, salt).value))
  {
    if password != confirm then Returns(Err(PasswordMismatch))
    else
      match hasher.hash(password, salt)
      case Some(output) => Returns(Ok(UserPassword(hasher.render(PasswordHash(salt, output)))))
      case None => Exits(1)
  }

  /**
   * `UserPassword::verify`: never an error. A digest that does not parse verifies
   * nothing; otherwise the candidate is hashed under the recorded salt and must
   * reproduce the recorded output.
   */
  function Verify(pw: UserPassword, hasher: Hasher, candidate: string): (r: Result<bool, DynError>)
    ensures r.Ok?
    ensures hasher.parse(pw.digest).None? ==> r == Ok(false)
    ensures r == Ok(true) <==>
              hasher.parse(pw.digest).Some? &&
              hasher.hash(candidate, hasher.parse(pw.digest).value.salt)
                == Some(hasher.parse(pw.digest).value.output)
  {
    match hasher.parse(pw.digest)
    case Some(parsed) => Ok(hasher.hash(candidate, parsed.salt) == Some(parsed.output))
    case None => Ok(false)
  }

  /**
   * A credential created from `password` accepts exactly the candidates whose hash under
   * the same salt equals the password's, given that the digest it stored parses back.
   */
  lemma VerifyCreatedPassword(password: string, salt: string, hasher: Hasher, candidate: string)
    requires hasher.hash(password, salt).Some?
    requires ParsesBack(hasher, PasswordHash(salt, hasher.hash(password, salt).value))
    ensures NewUserPassword(password, password, salt, hasher).Returns?
    ensures NewUserPassword(password, password, salt, hasher).value.Ok?
    ensures Verify(NewUserPassword(password, password, salt, hasher).value.value, hasher, candidate)
              == Ok(hasher.hash(candidate, salt) == hasher.hash(password, salt))
  {
  }

  /** With a collision-free hash, the created credential accepts its own password and nothing else. */
  lemma VerifyAcceptsOnlyOwnPassword(password: string, salt: string, hasher: Hasher, candidate: string)
    requires hasher.hash(password, salt).Some?
    requires ParsesBack(hasher, PasswordHash(salt, hasher.hash(password, salt).value))
    requires CollisionFree(hasher)
    ensures Verify(NewUserPassword(password, password, salt, hasher).value.value, hasher, candidate)
              == Ok(candidate == password)
  {
    VerifyCreatedPassword(password, salt, hasher, candidate);
  }

  // -- User -------------------------------------------------------------

  /** A creation or update time: `chrono::Local::now()` is read outside the model. */
  datatype Timestamp = Timestamp(nanos: int)

  class User {
    var id: UserId
    var name: UserName
    var password: UserPassword
    var createdAt: Timestamp
    var updatedAt: Option<Timestamp>
    var roles: seq<UserRole>

    /** Every association the user holds carries the user's own identifier. */
    ghost predicate Valid()
      reads this
    {
      OwnedBy(roles, id)
    }

    /** Everything a role operation must leave as it was. */
    ghost function Identity(): (UserId, UserName, UserPassword, Timestamp, Option<Timestamp>)
      reads this
    {
      (id, name, password, createdAt, updatedAt)
    }

    /** The struct literal inside `User::new`. */
    constructor Init(id: UserId, name: UserName, password: UserPassword, createdAt: Timestamp)
      ensures Valid()
      ensures this.id == id && this.name == name && this.password == password
      ensures this.createdAt == createdAt && updatedAt == None && roles == []
    {
      this.id := id;
      this.name := name;
      this.password := password;
      this.createdAt := createdAt;
      updatedAt := None;
      roles := [];
    }

    /**
     * `User::new`: always `Ok`, with the drawn identifier, the given name and credential,
     * creation time `now`, no update time and no roles.
     */
    static method New(name: UserName, password: UserPassword, drawn: Uuid, now: Timestamp)
      returns (r: Result<User, DynError>)
      ensures r.Ok? && fresh(r.value) && r.value.Valid()
      ensures r.value.id == NewUserId(drawn)
      ensures r.value.name == name && r.value.password == password
      ensures r.value.createdAt == now && r.value.updatedAt == None && r.value.roles == []
    {
      var user := new User.Init(NewUserId(drawn), name, password, now);
      r := Ok(user);
    }

    /**
     * `verify_password` as written: it returns whether `verify` returned `Ok`, and
     * `verify` always does, so every candidate is accepted.
     */
    function VerifyPassword(hasher: Hasher, candidate: string): (ok: bool)
      reads this
      ensures ok
    {
      Verify(password, hasher, candidate).Ok?
    }

    /** `verify_password` as evidently intended: the boolean inside `verify`'s result. */
    function IntendedVerifyPassword(hasher: Hasher, candidate: string): (ok: bool)
      reads this
      ensures ok <==> Verify(password, hasher, candidate) == Ok(true)
      ensures hasher.parse(password.digest).None? ==> !ok
    {
      match Verify(password, hasher, candidate)
      case Ok(matches) => matches
      case Err(_) => false
    }

    /** `with_role`: consumes the user, appends one association for it and hands it back. */
    method WithRole(roleId: RoleId) returns (self: User)
      modifies this`roles
      ensures self == this
      ensures roles == old(roles) + [UserRole(id, roleId)]
      ensures Identity() == old(Identity())
      ensures old(Valid()) ==> Valid()
    {
      roles := roles + [UserRole(id, roleId)];
      self := this;
    }

    /** `add_role`: appends one association for this user, even a duplicate. */
    method AddRole(roleId: RoleId) returns (self: User)
      modifies this`roles
      ensures self == this
      ensures roles == old(roles) + [UserRole(id, roleId)]
      ensures Identity() == old(Identity())
      ensures old(Valid()) ==> Valid()
    {
      roles := roles + [UserRole(id, roleId)];
      self := this;
    }

    /** `remove_role`: drops every association for `roleId`, keeping the rest in order. */
    method RemoveRole(roleId: RoleId) returns (self: User)
      modifies this`roles
      ensures self == this
      ensures roles == WithoutRole(old(roles), roleId)
      ensures Identity() == old(Identity())
      ensures old(Valid()) ==> Valid()
    {
      if Valid() {
        WithoutRoleKeepsOwner(roles, id, roleId);
      }
      roles := WithoutRole(roles, roleId);
      self := this;
    }
  }

  /**
   * The corrected check on a user whose credential was created from `password`: with a
   * collision-free hash it accepts that password and nothing else.
   */
  lemma IntendedVerifyPasswordAcceptsOnlyOwn(
    user: User, password: string, salt: string, hasher: Hasher, candidate: string)
    requires hasher.hash(password, salt).Some?
    requires ParsesBack(hasher, PasswordHash(salt, hasher.hash(password, salt).value))
    requires CollisionFree(hasher)
    requires user.password == NewUserPassword(password, password, salt, hasher).value.value
    ensures user.IntendedVerifyPassword(hasher, candidate) <==> candidate == password
  {
    VerifyAcceptsOnlyOwnPassword(password, salt, hasher, candidate);
  }

  // -- Scenarios from the test module and the documented behaviour --------

  /** `create_new_user`: the name is kept and there is no update time. */
  method CreateNewUser(hasher: Hasher, salt: string, drawn: Uuid, now: Timestamp)
    returns (user: User)
    requires hasher.hash("password", salt).Some?
    ensures user.name == NewUserName("bob") && user.updatedAt == None
    ensures user.roles == [] && user.Valid() && fresh(user)
  {
    var pw := NewUserPassword("password", "password", salt, hasher);
    var created := User.New(NewUserName("bob"), pw.value.value, drawn, now);
    user := created.value;
  }

  /** `create_new_user_with_role`: one association, for the role's identifier. */
  method CreateNewUserWithRole(
    hasher: Hasher, salt: string, userDrawn: Uuid, roleDrawn: Uuid, now: Timestamp)
    returns (user: User, role: Role)
    requires hasher.hash("password", salt).Some?
    ensures user.name == NewUserName("bob") && user.updatedAt == None
    ensures |user.roles| == 1 && user.roles[0] == UserRole(user.id, role.id)
    ensures role.name.text == "admin" && fresh(user)
  {
    Utf8.AsciiByteLen("admin");
    role := NewRole(RoleNameTryFrom("admin").value, roleDrawn);
    user := CreateNewUser(hasher, salt, userDrawn, now);
    user := user.WithRole(role.id);
  }

  /** `remove_role_from_user`: attaching and then detaching a role leaves no association. */
  method RemoveRoleFromUser(
    hasher: Hasher, salt: string, userDrawn: Uuid, roleDrawn: Uuid, now: Timestamp)
    returns (user: User)
    requires hasher.hash("password", salt).Some?
    ensures |user.roles| == 0 && user.Valid()
  {
    var role;
    user, role := CreateNewUserWithRole(hasher, salt, userDrawn, roleDrawn, now);
    user := user.RemoveRole(role.id);
  }

  /** Attaching one role twice gives two associations; detaching it removes both. */
  method AttachTwice(user: User, roleId: RoleId) returns (added: nat, left: nat)
    modifies user`roles
    requires user.roles == []
    ensures added == 2 && left == 0
  {
    var u := user.AddRole(roleId);
    u := u.AddRole(roleId);
    added := |user.roles|;
    u := u.RemoveRole(roleId);
    left := |user.roles|;
  }

  /**
   * A user created with password "pw": as written, `verify_password` accepts "wrong" as
   * well; the intended check accepts "pw" and rejects "wrong".
   */
  method VerifyPasswordScenario(hasher: Hasher, salt: string, drawn: Uuid, now: Timestamp)
    returns (asWritten: bool, intendedRight: bool, intendedWrong: bool)
    requires hasher.hash("pw", salt).Some?
    requires ParsesBack(hasher, PasswordHash(salt, hasher.hash("pw", salt).value))
    requires CollisionFree(hasher)
    ensures asWritten
    ensures intendedRight && !intendedWrong
  {
    var pw := NewUserPassword("pw", "pw", salt, hasher);
    var created := User.New(NewUserName("bob"), pw.value.value, drawn, now);
    var user := created.value;
    IntendedVerifyPasswordAcceptsOnlyOwn(user, "pw", salt, hasher, "pw");
    IntendedVerifyPasswordAcceptsOnlyOwn(user, "pw", salt, hasher, "wrong");
    asWritten := user.VerifyPassword(hasher, "wrong");
    intendedRight := user.IntendedVerifyPassword(hasher, "pw");
    intendedWrong := user.IntendedVerifyPassword(hasher, "wrong");
  }
}
