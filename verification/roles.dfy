/** Role values (src/role.rs): the role identifier, the validated role name and the role. */
module Roles {
  import opened Wrappers
  import opened Uuids
  import Utf8

  // -- RoleId -----------------------------------------------------------

  datatype RoleId = RoleId(uuid: Uuid)

  /** `RoleId::default`: the nil placeholder. */
  function DefaultRoleId(): (r: RoleId)
    ensures r.uuid.bits == 0
  {
    RoleId(Nil)
  }

  /**
   * `RoleId::new`. The random v4 UUID the crate would draw is the parameter `drawn`;
   * the result is that identifier, and it is never the default one unless `drawn` is nil.
   */
  function NewRoleId(drawn: Uuid): (r: RoleId)
    ensures r.uuid == drawn
    ensures r == DefaultRoleId() <==> drawn == Nil
  {
    RoleId(drawn)
  }

  /** A generated role identifier is distinguishable from the placeholder. */
  lemma FreshRoleIdIsNotDefault(drawn: Uuid)
    requires IsVersion4(drawn)
    ensures NewRoleId(drawn) != DefaultRoleId()
  {
    Version4IsNotNil(drawn);
  }

  // -- RoleName ---------------------------------------------------------

  datatype RoleName = RoleName(text: string)

  /** The two rejections of `RoleName::try_from`. */
  datatype RoleNameError = Empty | TooShort

  /** The text each rejection carries. */
  function Message(e: RoleNameError): string
  {
    match e
    case Empty => "Role name cannot be empty"
    case TooShort => "Role name must be at least 3 characters long"
  }

  /** What every constructed role name satisfies: at least three bytes of UTF-8. */
  predicate ValidRoleName(n: RoleName)
  {
    Utf8.ByteLen(n.text) >= 3
  }

  /**
   * `RoleName::try_from`: empty text is `Empty`, text of one or two bytes is `TooShort`,
   * anything longer is accepted and stored unchanged.
   */
  function RoleNameTryFrom(value: string): (r: Result<RoleName, RoleNameError>)
    ensures r == Err(Empty) <==> value == []
    ensures r == Err(TooShort) <==> 1 <= Utf8.ByteLen(value) <= 2
    ensures r.Ok? <==> Utf8.ByteLen(value) >= 3
    ensures r.Ok? ==> r.value.text == value && ValidRoleName(r.value)
  {
    if value == [] then Err(Empty)
    else if Utf8.ByteLen(value) < 3 then Err(TooShort)
    else Ok(RoleName(value))
  }

  /** `RoleName::from_str` delegates to `try_from`. */
  function RoleNameFromStr(s: string): (r: Result<RoleName, RoleNameError>)
    ensures r == RoleNameTryFrom(s)
    ensures r.Ok? <==> Utf8.ByteLen(s) >= 3
  {
    RoleNameTryFrom(s)
  }

  /** Each rejection of `try_from` carries the text the source boxes for that case. */
  lemma RoleNameTryFromMessage(value: string)
    ensures RoleNameTryFrom(value).Err? ==>
              Message(RoleNameTryFrom(value).error) ==
                if value == [] then "Role name cannot be empty"
                else "Role name must be at least 3 characters long"
  {
  }

  /** Every valid name is reproduced exactly by validating its own text. */
  lemma RoleNameRoundTrip(n: RoleName)
    requires ValidRoleName(n)
    ensures RoleNameTryFrom(n.text) == Ok(n)
  {
  }

  /** For ASCII input the byte rule is the character rule the error message states. */
  lemma AsciiRoleName(value: string)
    requires Utf8.IsAscii(value)
    ensures RoleNameTryFrom(value).Ok? <==> |value| >= 3
    ensures RoleNameTryFrom(value) == Err(TooShort) <==> 1 <= |value| <= 2
  {
    Utf8.AsciiByteLen(value);
  }

  /**
   * Beyond ASCII the rule counts bytes: a single three-byte character is accepted
   * although the message asks for three characters, and so are two two-byte ones.
   */
  lemma NonAsciiRoleNames()
    ensures RoleNameTryFrom("\U{65E5}") == Ok(RoleName("\U{65E5}"))
    ensures RoleNameTryFrom("\U{E9}\U{E9}").Ok?
    ensures RoleNameTryFrom("\U{E9}") == Err(TooShort)
  {
    assert Utf8.ByteLen("\U{65E5}") == 3 by {
      assert "\U{65E5}"[1..] == [];
    }
    assert Utf8.ByteLen("\U{E9}\U{E9}") == 4 by {
      Utf8.ByteLenAppend("\U{E9}", "\U{E9}");
      assert "\U{E9}"[1..] == [];
      assert "\U{E9}\U{E9}" == "\U{E9}" + "\U{E9}";
    }
    assert Utf8.ByteLen("\U{E9}") == 2 by {
      assert "\U{E9}"[1..] == [];
    }
  }

  // -- Role -------------------------------------------------------------

  /** A role: its identity and its name. It has no mutators. */
  datatype Role = Role(id: RoleId, name: RoleName)

  /**
   * `Role::new`: never fails; the name is kept as given and the identifier is the
   * freshly drawn one.
   */
  function NewRole(name: RoleName, drawn: Uuid): (r: Role)
    ensures r.name == name
    ensures r.id == NewRoleId(drawn)
  {
    Role(NewRoleId(drawn), name)
  }

  /** Names are not keys: two roles created with one name are distinct entities. */
  lemma SameNameDistinctRoles(name: RoleName, drawn1: Uuid, drawn2: Uuid)
    requires drawn1 != drawn2
    ensures NewRole(name, drawn1) != NewRole(name, drawn2)
    ensures NewRole(name, drawn1).name == NewRole(name, drawn2).name
  {
  }
}
