# user_lib identity core in Dafny

A model of the identity core of the Rust crate `user_lib`: the typed identifiers `UserId`
and `RoleId`, the validated `RoleName` and the unvalidated `UserName`, the Argon2-hashed
`UserPassword` credential, the immutable `Role`, and the `User` aggregate whose list of
`UserRole` associations is appended to and filtered in place.

Layout, one module per component:

- `wrappers.dfy` (`Wrappers`): `Option` and `Result`.
- `uuids.dfy` (`Uuids`): a UUID as its 128 bits, the nil value, the version 4 layout of RFC 4122.
- `utf8.dfy` (`Utf8`): the UTF-8 byte length of a `string`, which is what Rust's `str::len` measures.
- `argon2.dfy` (`Argon2`): the hashing backend as an injected value `Hasher` (hash, render a
  PHC digest, parse a PHC digest), with the two assumptions the credential proofs need
  (`ParsesBack` for the one digest a credential stores, `CollisionFree`), stated as predicates
  and required only by the lemmas that need them.
- `roles.dfy` (`Roles`): `src/role.rs`.
- `users.dfy` (`Users`): `src/user.rs`. `User` is a class with mutable fields; `with_role`,
  `add_role` and `remove_role` are methods that may modify only the `roles` field and whose postconditions give
  the new `roles` in terms of the old one, and the filter behind `remove_role` is the function
  `WithoutRole`, about which the ordering, idempotence and round-trip lemmas are proved.

Randomness and the clock are parameters: `drawn` is the v4 UUID that `Uuid::new_v4` would
produce, `salt` the salt `SaltString::generate(&mut OsRng)` would produce, `now` the value of
`chrono::Local::now()`, and `parse` stands for `Uuid::parse_str`. The accessors (`id()`,
`name()`, `roles()`, `user_id()`, `role_id()`, ...) are the fields of the class and the
datatypes, read directly.

The role-name limit is modelled as the code writes it: `value.len()` at src/role.rs:63 counts
UTF-8 bytes. Only the error text says "characters", and the crate gives no other sign of which
was meant; a byte bound is a sensible limit on stored text. So the model keeps the byte rule and
does not report it as a defect. `Roles.AsciiRoleName` shows the two rules agree on ASCII input,
and `Roles.NonAsciiRoleNames` shows where they part (a single three-byte character is accepted).

## Model

| member | source | states |
|---|---|---|
| `Uuids.Version4IsNotNil` | src/role.rs:37-39 | a UUID with the v4 version and variant bits is never the nil UUID |
| `Utf8.ByteLen` | src/role.rs:61-63 | the byte length lies between the character count and four times it, and is zero exactly for empty text |
| `Utf8.AsciiByteLen` | src/role.rs:63 | for ASCII text the byte length equals the number of characters |
| `Roles.DefaultRoleId` | src/role.rs:22-26 | the default role id is the all-zero UUID |
| `Roles.NewRoleId` | src/role.rs:37-39 | the new role id carries the drawn UUID and equals the default only if that UUID is nil |
| `Roles.FreshRoleIdIsNotDefault` | src/role.rs:37-39 | a role id built from a v4 UUID differs from the default role id |
| `Roles.RoleNameTryFrom` | src/role.rs:60-68 | `Empty` exactly for empty text, `TooShort` exactly for 1 or 2 bytes, success exactly for 3 or more bytes, and a success stores the text unchanged and is a valid name |
| `Roles.RoleNameTryFromMessage` | src/role.rs:61-64 | an empty input is rejected with "Role name cannot be empty", any other rejection with "Role name must be at least 3 characters long" |
| `Roles.RoleNameFromStr` | src/role.rs:74-76 | `from_str` yields the same result as `try_from` for every input |
| `Roles.RoleNameRoundTrip` | src/role.rs:65-66 | validating the text of any valid role name gives back that same name |
| `Roles.AsciiRoleName` | src/role.rs:63-64 | for ASCII input, accepted iff at least 3 characters and `TooShort` iff 1 or 2 characters |
| `Roles.NonAsciiRoleNames` | src/role.rs:63-64 | the limit counts bytes: one 3-byte character is accepted, two 2-byte characters are accepted, one 2-byte character is `TooShort` |
| `Roles.NewRole` | src/role.rs:91-96 | `Role::new` never fails, keeps the given name and takes the drawn id |
| `Roles.SameNameDistinctRoles` | src/role.rs:91-114 | two roles created with the same name but different drawn ids are different values with equal names |
| `Users.DefaultUserId` | src/user.rs:28-32 | the default user id is the all-zero UUID |
| `Users.NewUserId` | src/user.rs:46-48 | the new user id carries the drawn UUID and equals the default only if that UUID is nil |
| `Users.UserIdFromString` | src/user.rs:51-55 | the parsed UUID when the text parses, the nil id when it does not; a non-nil result always comes from a successful parse |
| `Users.FromStringConflatesMalformedAndNil` | src/user.rs:53 | malformed text and the text of the nil UUID convert to the same id |
| `Users.WithoutRole` | src/user.rs:228 | filtering never lengthens the association list |
| `Users.WithoutRoleContents` | src/user.rs:228 | the filtered list holds no association for the role, and every other association exactly as often as before |
| `Users.WithoutRoleDistributes` | src/user.rs:228 | the filter distributes over concatenation, so relative order is preserved |
| `Users.WithoutRoleNoOp` | src/user.rs:227-230 | removing a role leaves the list unchanged iff no association is for that role |
| `Users.WithoutRoleIdempotent` | src/user.rs:227-230 | removing a role twice equals removing it once |
| `Users.WithoutRoleCommutes` | src/user.rs:228 | removals of two roles commute |
| `Users.WithoutRoleKeepsOwner` | src/user.rs:228 | removal keeps every association owned by the user that owned the list |
| `Users.RemoveUndoesAdd` | src/user.rs:210-230 | on a list without the role, appending an association for it and then removing the role restores the list |
| `Users.NewUserName` | src/user.rs:102-104 | `UserName::new` never fails and two names are equal iff their texts are |
| `Users.NewUserPassword` | src/user.rs:292-310 | `PasswordMismatch` exactly when the two inputs differ; exit with status 1 exactly when they agree and hashing fails; `InvalidPassword` never; on success the digest is the rendering of the password's hash under the given salt |
| `Users.Verify` | src/user.rs:312-327 | never an error; `false` for an unparseable digest; `true` exactly when the candidate's hash under the recorded salt equals the recorded output |
| `Users.VerifyCreatedPassword` | src/user.rs:292-327 | when the stored digest parses back, a credential created from a password verifies a candidate iff the candidate hashes like the password under the same salt |
| `Users.VerifyAcceptsOnlyOwnPassword` | src/user.rs:292-327 | with a collision-free hash, a created credential verifies exactly its own password |
| `Users.User.Init` | src/user.rs:165-172 | the struct literal: given id, name, password and creation time, no update time, no roles, ownership invariant holds |
| `Users.User.New` | src/user.rs:161-174 | always `Ok` with a new user holding the drawn id, the given name and password, creation time `now`, no update time, empty roles |
| `Users.User.VerifyPassword` | src/user.rs:180-182 | as written, `verify_password` returns `true` for every candidate |
| `Users.User.IntendedVerifyPassword` | src/user.rs:180-182 | the corrected check returns exactly the boolean `verify` computes, `false` for an unparseable digest |
| `Users.IntendedVerifyPasswordAcceptsOnlyOwn` | src/user.rs:180-182 | for a user whose credential was created from a password, with a collision-free hash, the corrected check accepts a candidate iff it is that password |
| `Users.User.WithRole` | src/user.rs:193-199 | appends exactly `UserRole(id, role)`, returns the same user, changes no other field, keeps the ownership invariant |
| `Users.User.AddRole` | src/user.rs:210-216 | appends exactly `UserRole(id, role)` even when already present, returns the same user, changes no other field, keeps the ownership invariant |
| `Users.User.RemoveRole` | src/user.rs:227-230 | the roles become the order-preserving filter of the old roles, no other field changes, the ownership invariant is kept |
| `Users.CreateNewUser` | src/user.rs:337-346 | a new user named "bob" has that name, no update time and no roles |
| `Users.CreateNewUserWithRole` | src/user.rs:348-361 | after `with_role` the user has exactly one association, for the role's id |
| `Users.RemoveRoleFromUser` | src/user.rs:363-374 | attaching and then removing a role leaves zero associations |
| `Users.AttachTwice` | src/user.rs:210-230 | adding one role twice gives two associations and removing it leaves none |
| `Users.VerifyPasswordScenario` | src/user.rs:180-182 | for a user created with "pw", as written "wrong" is accepted; the intended check accepts "pw" and rejects "wrong" |

## Left out

- Argon2 itself, the PHC text format and `OsRng`: the backend is the injected `Hasher`. Verification is modelled as recomputing the hash under the recorded salt. The algorithm identifier, version, cost parameters and output length a digest records, which the crate's `PasswordVerifier::verify_password` also reads (src/user.rs:319-321), are not modelled.
- UUID v4 generation and the uuid crate's text grammar: drawn UUIDs and the parser are parameters; only the v4 bit layout is stated.
- `chrono::Local::now()`: timestamps are opaque values passed in.
- `Rc<str>` sharing: names are immutable sequences, so sharing is unobservable.
- The derived `Ord`, `Hash`, serde impls, the `Display` impls and the `std::error::Error` impl for `UserError`: formatting and trait plumbing without logic. The equality derives are Dafny's structural equality on the datatypes.
- `Vec::retain`'s in-place compaction: `remove_role` assigns the filtered sequence; only the resulting contents and order are modelled.
- `src/lib.rs` (re-exports and the stub `add`): no logic.

## Findings

| source | as written | input that shows it | evidently intended | confidence | as-written member | corrected member |
|---|---|---|---|---|---|---|
| src/user.rs:180-182 | `verify_password` returns `verify(..).is_ok()`, and `verify` returns `Ok` on every path (lines 317-326) | a user created with password "pw", candidate "wrong": returns `true` | return the boolean carried inside `Ok` (and `false` on `Err`) | high; not executed | `Users.User.VerifyPassword` (counterexample in `Users.VerifyPasswordScenario`) | `Users.User.IntendedVerifyPassword` (general property in `Users.IntendedVerifyPasswordAcceptsOnlyOwn`) |
