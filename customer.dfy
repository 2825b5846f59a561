/** The account entity (Customer): its persistent fields, the authority operations that
    change the comma-joined authorities column in place, and the principal checks the
    security layer reads. */
module Entities {
  import opened Wrappers
  import opened Roles
  import opened CustomerAuthorities
  import opened AuthorityCodec

  /** A 128-bit random identifier (java.util.UUID). */
  newtype Uuid = x: int | 0 <= x < 0x1_0000_0000_0000_0000_0000_0000_0000_0000

  /** The values of the fields of one Customer, in declaration order; a nullable column is
      an Option. Timestamps are milliseconds. */
  datatype Record = Record(
    id: Option<int>,
    email: string,
    fullName: string,
    country: string,
    postcode: string,
    city: string,
    address: string,
    password: string,
    verifyCode: Option<string>,
    dateOfCreation: Option<int>,
    verified: bool,
    shoppingCartId: Option<int>,
    authorities: Option<string>,
    resetPasswordCode: Option<Uuid>,
    resetPasswordCodeGeneratedTimestamp: Option<int>)

  class Customer {
    var id: Option<int>
    var email: string
    var fullName: string
    var country: string
    var postcode: string
    var city: string
    var address: string
    var password: string
    var verifyCode: Option<string>
    var dateOfCreation: Option<int>
    var verified: bool
    var shoppingCartId: Option<int>
    var authorities: Option<string>
    var resetPasswordCode: Option<Uuid>
    var resetPasswordCodeGeneratedTimestamp: Option<int>

    /** All fields as one value. */
    function State(): Record
      reads this
    {
      Record(id, email, fullName, country, postcode, city, address, password, verifyCode,
             dateOfCreation, verified, shoppingCartId, authorities, resetPasswordCode,
             resetPasswordCodeGeneratedTimestamp)
    }

    /** The no-argument constructor: nothing is set, and verified starts false. */
    constructor ()
      ensures id.None? && verifyCode.None? && dateOfCreation.None? && shoppingCartId.None?
      ensures authorities.None? && resetPasswordCode.None?
      ensures resetPasswordCodeGeneratedTimestamp.None?
      ensures !verified
      ensures email == fullName == country == postcode == city == address == password == ""
    {
      id, verifyCode, dateOfCreation, shoppingCartId := None, None, None, None;
      authorities, resetPasswordCode, resetPasswordCodeGeneratedTimestamp := None, None, None;
      verified := false;
      email, fullName, country, postcode, city, address, password := "", "", "", "", "", "", "";
    }

    /** An entity whose fields hold the given values (the builder, or a row being loaded). */
    constructor Load(r: Record)
      ensures State() == r
    {
      id, email, fullName, country, postcode, city, address := r.id, r.email, r.fullName, r.country, r.postcode, r.city, r.address;
      password, verifyCode, dateOfCreation, verified := r.password, r.verifyCode, r.dateOfCreation, r.verified;
      shoppingCartId, authorities := r.shoppingCartId, r.authorities;
      resetPasswordCode, resetPasswordCodeGeneratedTimestamp := r.resetPasswordCode, r.resetPasswordCodeGeneratedTimestamp;
    }

    /** getAuthorities(): null for a null column; otherwise each comma-separated token is
        turned into an authority and collected in a set, and an unknown token is an error. */
    method GetAuthorities() returns (r: Result<Option<set<CustomerAuthority>>, DecodeError>)
      ensures r == Decode(authorities)
      ensures r.Success? && r.value.Some? ==>
                forall a :: a in r.value.value <==> a.authority in Split(authorities.value)
    {
      if authorities.None? {
        return Success(None);
      }
      var tokens := Split(authorities.value);
      var authSet: set<CustomerAuthority> := {};
      var i := 0;
      while i < |tokens|
        invariant 0 <= i <= |tokens|
        invariant DecodeTokens(tokens[..i]) == Success(authSet)
      {
        assert tokens[..i + 1][..i] == tokens[..i];
        match ValueOf(tokens[i]) {
          case None =>
            DecodeTokensAbortsOnFailure(tokens, i + 1);
            return Failure(UnknownRole(tokens[i]));
          case Some(role) =>
            authSet := authSet + {FromRole(role)};
        }
        i := i + 1;
      }
      assert tokens[..i] == tokens;
      return Success(Some(authSet));
    }

    /** addAuthority(role): a null column becomes role's name; otherwise the decoded set is
        consulted and role's name is appended after a comma unless an equal authority is in
        it. An undecodable column makes the call fail and changes nothing. */
    method AddAuthority(role: Role) returns (res: Result<(), DecodeError>)
      modifies this
      ensures match Added(old(authorities), role)
              case Success(f) => res.Success? && authorities == f
              case Failure(e) => res == Failure(e) && authorities == old(authorities)
      ensures old(authorities).None? ==> res.Success? && authorities == Some(Name(role))
      ensures State() == old(State()).(authorities := authorities)
    {
      if authorities.None? {
        authorities := Some(Name(role));
        return Success(());
      }
      var authSet := GetAuthorities();
      match authSet {
        case Failure(e) =>
          return Failure(e);
        case Success(found) =>
          if FromRole(role) in found.value {
            return Success(());
          }
          authorities := Some(authorities.value + "," + Name(role));
          return Success(());
      }
    }

    /** removeAllAuthorities(): the column becomes null; nothing else changes. */
    method RemoveAllAuthorities()
      modifies this
      ensures authorities == RemovedAll(old(authorities))
      ensures State() == old(State()).(authorities := None)
    {
      authorities := None;
    }

    /** getUsername(): the email. */
    function Username(): string
      reads this
    {
      email
    }

    function IsAccountNonExpired(): bool
      reads this
    {
      verified
    }

    function IsAccountNonLocked(): bool
      reads this
    {
      verified
    }

    function IsCredentialsNonExpired(): bool
      reads this
    {
      verified
    }

    function IsEnabled(): bool
      reads this
    {
      verified
    }
  }

  /** Once a prefix of the tokens fails to decode, the whole sequence fails with the same
      error: the loop may stop at the first unknown token. */
  lemma {:induction false} DecodeTokensAbortsOnFailure(tokens: seq<string>, k: nat)
    requires k <= |tokens| && DecodeTokens(tokens[..k]).Failure?
    ensures DecodeTokens(tokens) == DecodeTokens(tokens[..k])
    decreases |tokens| - k
  {
    if k < |tokens| {
      var next := tokens[..k + 1];
      assert next[..k] == tokens[..k];
      DecodeTokensAbortsOnFailure(tokens, k + 1);
    } else {
      assert tokens[..k] == tokens;
    }
  }

  /** The account is a usable principal exactly when it is verified: the four status checks
      all answer verified, and the user name is the email. */
  lemma PrincipalChecks(c: Customer)
    ensures c.Username() == c.email
    ensures c.IsAccountNonExpired() == c.IsAccountNonLocked() == c.verified
    ensures c.IsCredentialsNonExpired() == c.IsEnabled() == c.verified
  {
  }
}
