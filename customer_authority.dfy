/** CustomerAuthority: a granted authority whose identity is its role name. */
module CustomerAuthorities {
  import opened Wrappers
  import opened Roles

  /** The single field `authority` holds a role name; it is written only by the constructors. */
  datatype CustomerAuthority = CustomerAuthority(authority: string)

  /** The argument of equals(Object): null, another CustomerAuthority, or an object of some
      other class (told apart only by a class tag). */
  datatype JavaObject = Null | AuthorityRef(target: CustomerAuthority) | Other(classTag: int)

  /** The private no-argument constructor: the field initialiser gives CUSTOMER's name. */
  function Default(): (a: CustomerAuthority)
    ensures a == FromRole(CUSTOMER)
  {
    CustomerAuthority(Name(CUSTOMER))
  }

  /** new CustomerAuthority(role): stores role.name(). */
  function FromRole(r: Role): (a: CustomerAuthority)
    ensures ValueOf(a.authority) == Some(r)
  {
    CustomerAuthority(Name(r))
  }

  /** getAuthority(): the stored string, which for an authority made from a role is that
      role's name. */
  function GetAuthority(a: CustomerAuthority): (s: string)
    ensures forall r :: a == FromRole(r) ==> s == Name(r) && ValueOf(s) == Some(r)
  {
    a.authority
  }

  /** equals(o): true for the same object, false for anything that is not a
      CustomerAuthority (null included), otherwise a comparison of the authority strings. */
  function Equals(a: CustomerAuthority, o: JavaObject): (eq: bool)
    ensures eq <==> o.AuthorityRef? && o.target.authority == a.authority
    ensures eq <==> o == AuthorityRef(a)
  {
    if o == AuthorityRef(a) then true
    else if !o.AuthorityRef? then false
    else a.authority == GetAuthority(o.target)
  }

  /** Java int arithmetic: x reduced into [-2^31, 2^31) modulo 2^32. */
  function Wrap32(x: int): (r: int)
    ensures -0x8000_0000 <= r < 0x8000_0000
    ensures (x - r) % 0x1_0000_0000 == 0
  {
    (x + 0x8000_0000) % 0x1_0000_0000 - 0x8000_0000
  }

  /** String.hashCode(): h = 31 * h + c over the characters, in 32-bit arithmetic. */
  function StringHash(s: string): (h: int)
    ensures -0x8000_0000 <= h < 0x8000_0000
  {
    if s == [] then 0 else Wrap32(31 * StringHash(s[..|s| - 1]) + s[|s| - 1] as int)
  }

  /** hashCode() = Objects.hash(getAuthority()) = 31 * 1 + getAuthority().hashCode(). */
  function HashCode(a: CustomerAuthority): (h: int)
    ensures -0x8000_0000 <= h < 0x8000_0000
  {
    Wrap32(31 + StringHash(GetAuthority(a)))
  }

  lemma EqualsReflexive(a: CustomerAuthority)
    ensures Equals(a, AuthorityRef(a))
  {
  }

  lemma EqualsSymmetric(a: CustomerAuthority, b: CustomerAuthority)
    ensures Equals(a, AuthorityRef(b)) <==> Equals(b, AuthorityRef(a))
  {
  }

  /** Values that are equal have equal hash codes, so a HashSet of authorities behaves as a
      set of authority strings. */
  lemma EqualsConsistentWithHashCode(a: CustomerAuthority, b: CustomerAuthority)
    ensures Equals(a, AuthorityRef(b)) ==> HashCode(a) == HashCode(b)
  {
  }

  /** Two authorities built from roles are equal exactly when the roles are. */
  lemma FromRoleEquals(r1: Role, r2: Role)
    ensures Equals(FromRole(r1), AuthorityRef(FromRole(r2))) <==> r1 == r2
  {
    NameInjective(r1, r2);
  }
}
