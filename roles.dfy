/** The role tags of the service (the Java enum AuthorityValues, whose two constants are
    named by the account service) and the enum's name()/valueOf() pair. */
module Roles {
  import opened Wrappers

  datatype Role = CUSTOMER | ADMIN

  /** Enum.name(): the tag as it is written into the authorities column. */
  function Name(r: Role): (s: string)
    ensures s != [] && ',' !in s
  {
    match r
    case CUSTOMER => "CUSTOMER"
    case ADMIN => "ADMIN"
  }

  /** Enum.valueOf(s): the role whose name is exactly s, or None where Java throws
      IllegalArgumentException. */
  function ValueOf(s: string): (r: Option<Role>)
    ensures r.Some? ==> Name(r.value) == s
    ensures forall role :: Name(role) == s ==> r == Some(role)
  {
    if s == "CUSTOMER" then Some(CUSTOMER)
    else if s == "ADMIN" then Some(ADMIN)
    else None
  }

  /** Distinct roles have distinct names, so a tag identifies its role. */
  lemma NameInjective(r1: Role, r2: Role)
    ensures Name(r1) == Name(r2) ==> r1 == r2
  {
    if Name(r1) == Name(r2) {
      assert ValueOf(Name(r1)) == Some(r1) && ValueOf(Name(r2)) == Some(r2);
    }
  }
}
