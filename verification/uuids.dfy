/**
 * The 128-bit identifier both `UserId` and `RoleId` wrap. Generation and the textual
 * grammar belong to the uuid crate; here a UUID is only its 128 bits, with the nil value
 * and the shape a randomly generated (version 4) UUID always has.
 */
module Uuids {

  /** The 128 bits, octet 0 in the most significant position. */
  datatype Uuid = Uuid(bits: bv128)

  /** The all-zero UUID, the placeholder `Default` yields. */
  const Nil: Uuid := Uuid(0)

  /**
   * A version 4 (random) UUID as RFC 4122 lays it out: version nibble 0100 in the high
   * half of octet 6 (section 4.1.3) and variant bits 10 at the top of octet 8 (section 4.1.1).
   */
  predicate IsVersion4(u: Uuid)
  {
    (u.bits >> 76) & 0xF == 4 && (u.bits >> 62) & 0x3 == 2
  }

  /** A freshly generated identifier is never the nil placeholder. */
  lemma Version4IsNotNil(u: Uuid)
    requires IsVersion4(u)
    ensures u != Nil
  {
  }
}
