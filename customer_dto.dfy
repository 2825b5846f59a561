/** The transfer object (CustomerDto) and its two field mappings: `of` from an account and
    `from` back to a new account. */
module Dto {
  import opened Wrappers
  import opened Roles
  import opened CustomerAuthorities
  import opened AuthorityCodec
  import opened Entities

  datatype CustomerDto = CustomerDto(
    id: Option<int>,
    email: string,
    fullName: string,
    country: string,
    postcode: string,
    city: string,
    address: string,
    dateOfCreation: Option<int>,
    password: string,
    verified: bool,
    verifyCode: Option<string>,
    shoppingCartId: Option<int>,
    resetPasswordCode: Option<Uuid>,
    resetPasswordCodeGeneratedTimestamp: Option<int>,
    currentTimestamp: Option<int>,
    authorities: Option<set<CustomerAuthority>>)

  /** A new transfer object: nothing is set and verified starts false. */
  function NewDto(): (d: CustomerDto)
    ensures !d.verified && d.id.None? && d.authorities.None? && d.currentTimestamp.None?
  {
    CustomerDto(None, "", "", "", "", "", "", None, "", false, None, None, None, None, None, None)
  }

  /** The fourteen fields both mappings copy. */
  predicate SameFields(d: CustomerDto, c: Record)
  {
    && d.id == c.id && d.email == c.email && d.fullName == c.fullName
    && d.country == c.country && d.city == c.city && d.address == c.address
    && d.postcode == c.postcode && d.verified == c.verified
    && d.shoppingCartId == c.shoppingCartId && d.resetPasswordCode == c.resetPasswordCode
    && d.resetPasswordCodeGeneratedTimestamp == c.resetPasswordCodeGeneratedTimestamp
    && d.password == c.password && d.verifyCode == c.verifyCode
    && d.dateOfCreation == c.dateOfCreation
  }

  /** CustomerDto.of(info): the fourteen fields, the decoded authorities (which fails as
      getAuthorities does on an unknown token) and the clock reading `now`. */
  function Of(info: Record, now: int): (r: Result<CustomerDto, DecodeError>)
    ensures r.Success? <==> Decode(info.authorities).Success?
  {
    match Decode(info.authorities)
    case Failure(e) => Failure(e)
    case Success(authorities) =>
      Success(NewDto().(id := info.id, email := info.email, fullName := info.fullName,
                        country := info.country, city := info.city, address := info.address,
                        postcode := info.postcode, verified := info.verified,
                        shoppingCartId := info.shoppingCartId,
                        resetPasswordCode := info.resetPasswordCode,
                        resetPasswordCodeGeneratedTimestamp := info.resetPasswordCodeGeneratedTimestamp,
                        password := info.password, verifyCode := info.verifyCode,
                        dateOfCreation := info.dateOfCreation,
                        authorities := authorities,
                        currentTimestamp := Some(now)))
  }

  /** CustomerDto.from(dto): a new account with the fourteen fields; authorities are not
      copied, so the new account's column is null. */
  function From(d: CustomerDto): (c: Record)
    ensures SameFields(d, c) && c.authorities.None?
  {
    Record(d.id, d.email, d.fullName, d.country, d.postcode, d.city, d.address, d.password,
           d.verifyCode, d.dateOfCreation, d.verified, d.shoppingCartId, None,
           d.resetPasswordCode, d.resetPasswordCodeGeneratedTimestamp)
  }

  /** of copies the fourteen fields, sets the authorities to what getAuthorities returns, and
      takes only the current timestamp from elsewhere (the clock). */
  lemma OfCopies(c: Record, now: int)
    requires Of(c, now).Success?
    ensures SameFields(Of(c, now).value, c)
    ensures Of(c, now).value.authorities == Decode(c.authorities).value
    ensures Of(c, now).value.currentTimestamp == Some(now)
  {
  }

  /** The round trip is lossy in exactly one field: from(of(c)) agrees with c everywhere
      except that its authorities are null. */
  lemma FromOfForgetsAuthorities(c: Record, now: int)
    requires Of(c, now).Success?
    ensures From(Of(c, now).value) == c.(authorities := None)
  {
  }

  /** The other direction: of(from(d)) gives d back with null authorities and a fresh clock
      reading. */
  lemma OfFromForgetsAuthorities(d: CustomerDto, now: int)
    ensures Of(From(d), now) == Success(d.(authorities := None, currentTimestamp := Some(now)))
  {
  }

  /** A well-formed account keeps its roles in the transfer object: of yields the set of
      authorities named by the column. */
  lemma OfEncodedAuthorities(c: Record, rs: seq<Role>, now: int)
    requires |rs| > 0 && c.authorities == Some(Encode(rs))
    ensures Of(c, now).Success? && Of(c, now).value.authorities == Some(AuthoritiesOf(rs))
  {
    DecodeEncode(rs);
  }

  /** A new transfer object turned into an account gives an unverified account with null
      authorities. */
  lemma FromNewDtoIsUnverified()
    ensures !From(NewDto()).verified && From(NewDto()).authorities.None?
  {
  }
}
