/** The account lifecycle service (CustomerServiceImpl) over the customer table. The table is
    a value: a map from id to the stored fields of each row, and the next id the sequence
    generator hands out. The password encoder, the random verify code and the clock read by
    the creation timestamp are parameters. */
module Service {
  import opened Wrappers
  import opened Roles
  import opened CustomerAuthorities
  import opened AuthorityCodec
  import opened Entities

  datatype ServiceError =
    | DuplicateEmail(email: string)       // built by checkEmail, never thrown
    | CustomerNotFound(email: string)     // updateInfo on an unknown email
    | InvalidAuthority(cause: DecodeError) // valueOf on an unknown authorities token
    | StorageError                        // the store refused the write

  datatype Table = Table(rows: map<int, Record>, nextId: int)

  /** The columns declared nullable = false that the model keeps as Options. */
  predicate NotNullColumns(r: Record)
  {
    r.verifyCode.Some? && r.dateOfCreation.Some? && r.authorities.Some?
  }

  /** What the store guarantees of every row: it is keyed by its own id, all ids were handed
      out by the generator, the not-null columns are set, and no two rows share an email. */
  ghost predicate Consistent(t: Table)
  {
    && (forall i | i in t.rows :: i < t.nextId && t.rows[i].id == Some(i) && NotNullColumns(t.rows[i]))
    && (forall i, j | i in t.rows && j in t.rows && t.rows[i].email == t.rows[j].email :: i == j)
  }

  /** save() treats an entity with a stored id as an update and anything else as an insert. */
  predicate IsUpdate(t: Table, rec: Record)
  {
    rec.id.Some? && rec.id.value in t.rows
  }

  function TargetId(t: Table, rec: Record): int
  {
    if IsUpdate(t, rec) then rec.id.value else t.nextId
  }

  predicate EmailTaken(t: Table, email: string, except: int)
  {
    exists j :: j in t.rows && j != except && t.rows[j].email == email
  }

  /** The repository's save followed by the flush: an insert takes the next generated id and
      the clock as its creation date; an update keeps the stored creation date (the column is
      not updatable). The store refuses a row whose email another row holds (unique) or whose
      authorities or verify code is null (not null), and then nothing is written. */
  function SaveRow(t: Table, rec: Record, now: int): (r: Result<(Table, Record), ServiceError>)
    ensures r.Success? <==>
              rec.authorities.Some? && rec.verifyCode.Some? && !EmailTaken(t, rec.email, TargetId(t, rec))
    ensures r.Failure? ==> r.error == StorageError
  {
    var target := TargetId(t, rec);
    if rec.authorities.None? || rec.verifyCode.None? || EmailTaken(t, rec.email, target) then
      Failure(StorageError)
    else if IsUpdate(t, rec) then
      var stored := rec.(dateOfCreation := t.rows[target].dateOfCreation);
      Success((t.(rows := t.rows[target := stored]), stored))
    else
      var stored := rec.(id := Some(target), dateOfCreation := Some(now));
      Success((Table(t.rows[target := stored], t.nextId + 1), stored))
  }

  /** The entity after save. Only an entity with a null id is new and persisted itself, so
      only it receives the generated id and creation date. Any other id is merged: the store
      writes a copy (inserted under a fresh id when the id is not stored) and the argument
      keeps its fields. A refused write leaves it as it was too. */
  function SavedEntity(t: Table, rec: Record, now: int): (e: Record)
    ensures rec.id.Some? || SaveRow(t, rec, now).Failure? ==> e == rec
    ensures rec.id.None? && SaveRow(t, rec, now).Success? ==>
              e == rec.(id := Some(t.nextId), dateOfCreation := Some(now))
  {
    match SaveRow(t, rec, now)
    case Success(res) => if rec.id.None? then res.1 else rec
    case Failure(_) => rec
  }

  // ---------------------------------------------------------------------------------------
  // Lemmas about save

  /** A successful save keeps the store consistent: emails stay unique. */
  lemma SavePreservesConsistency(t: Table, rec: Record, now: int)
    requires Consistent(t) && SaveRow(t, rec, now).Success?
    ensures Consistent(SaveRow(t, rec, now).value.0)
  {
    var res := SaveRow(t, rec, now).value;
    assert res.0.rows == t.rows[TargetId(t, rec) := res.1];
  }

  /** An insert takes a fresh id, stamps the creation date, stores every other field as
      given, and leaves every existing row as it was. */
  lemma SaveInsert(t: Table, rec: Record, now: int)
    requires Consistent(t) && !IsUpdate(t, rec) && SaveRow(t, rec, now).Success?
    ensures var (t', stored) := SaveRow(t, rec, now).value;
            && t.nextId !in t.rows
            && stored == rec.(id := Some(t.nextId), dateOfCreation := Some(now))
            && t'.rows.Keys == t.rows.Keys + {t.nextId}
            && (forall i | i in t.rows :: t'.rows[i] == t.rows[i])
            && t'.rows[t.nextId] == stored
            && t'.nextId > t.nextId
  {
  }

  /** An update replaces the row with the given fields except the creation date, which keeps
      the stored value; the id generator does not move. */
  lemma SaveUpdate(t: Table, rec: Record, now: int)
    requires IsUpdate(t, rec) && SaveRow(t, rec, now).Success?
    ensures var (t', stored) := SaveRow(t, rec, now).value;
            && stored == rec.(dateOfCreation := t.rows[rec.id.value].dateOfCreation)
            && t'.rows == t.rows[rec.id.value := stored]
            && t'.nextId == t.nextId
  {
  }

  /** Writing a stored row back with the same id, email and creation date always succeeds
      and replaces exactly that row. */
  lemma SaveStoredRow(t: Table, i: int, rec: Record, now: int)
    requires Consistent(t) && i in t.rows
    requires rec.id == Some(i) && rec.email == t.rows[i].email
    requires rec.dateOfCreation == t.rows[i].dateOfCreation
    requires rec.authorities.Some? && rec.verifyCode.Some?
    ensures SaveRow(t, rec, now) == Success((t.(rows := t.rows[i := rec]), rec))
  {
    assert !EmailTaken(t, rec.email, i);
  }

  // ---------------------------------------------------------------------------------------
  // Account creation

  /** RandomStringUtils.randomAlphabetic(5): five ASCII letters. */
  predicate IsVerifyCode(code: string)
  {
    |code| == 5 && forall i :: 0 <= i < |code| ==> 'a' <= code[i] <= 'z' || 'A' <= code[i] <= 'Z'
  }

  /** The entity createCustomerAndVerifyByEmail hands to save: a new verify code, the
      encoded password, and the authorities cleared and then given CUSTOMER. */
  function PreparedCustomer(rec: Record, code: string, encode: string -> string): Record
  {
    var authorities := Added(RemovedAll(rec.authorities), CUSTOMER);
    rec.(verifyCode := Some(code), password := encode(rec.password), authorities := authorities.value)
  }

  /** The entity createAdminAndVerifyByEmail hands to save: a new verify code, the encoded
      password, and ADMIN added to the authorities already there (which may fail to decode). */
  function PreparedAdmin(rec: Record, code: string, encode: string -> string): Result<Record, ServiceError>
  {
    var coded := rec.(verifyCode := Some(code), password := encode(rec.password));
    match Added(coded.authorities, ADMIN)
    case Failure(e) => Failure(InvalidAuthority(e))
    case Success(authorities) => Success(coded.(authorities := authorities))
  }

  /** Whatever authorities were submitted (null, well-formed or not), the entity handed to
      save holds exactly {CUSTOMER}, the new verify code and the encoder's output for the
      submitted password, and every other field as submitted. */
  lemma PreparedCustomerRoles(rec: Record, code: string, encode: string -> string)
    ensures var p := PreparedCustomer(rec, code, encode);
            && p.authorities == Some(Name(CUSTOMER))
            && Decode(p.authorities) == Success(Some({FromRole(CUSTOMER)}))
            && p == rec.(verifyCode := Some(code), password := encode(rec.password), authorities := p.authorities)
  {
    AddToNull(rec.authorities, CUSTOMER);
  }

  /** Customer creation that inserts (the id is null or not stored) stores the prepared
      entity with the next id and the clock; so the row holds exactly {CUSTOMER}, and
      verified and the reset fields are stored as submitted. */
  lemma CreatedCustomer(t: Table, rec: Record, code: string, encode: string -> string, now: int)
    requires Consistent(t) && !IsUpdate(t, rec)
    requires SaveRow(t, PreparedCustomer(rec, code, encode), now).Success?
    ensures var stored := SaveRow(t, PreparedCustomer(rec, code, encode), now).value.1;
            && Decode(stored.authorities) == Success(Some({FromRole(CUSTOMER)}))
            && stored.verifyCode == Some(code)
            && stored.password == encode(rec.password)
            && stored.verified == rec.verified
            && stored.resetPasswordCode == rec.resetPasswordCode
            && stored.resetPasswordCodeGeneratedTimestamp == rec.resetPasswordCodeGeneratedTimestamp
            && stored.id == Some(t.nextId) && t.nextId !in t.rows
            && stored.dateOfCreation == Some(now)
  {
    PreparedCustomerRoles(rec, code, encode);
    SaveInsert(t, PreparedCustomer(rec, code, encode), now);
  }

  /** Admin creation does not clear the submitted authorities: a null or well-formed column
      ends up holding them and ADMIN. */
  lemma CreatedAdminRoles(rec: Record, tokens: Option<seq<Role>>, code: string, encode: string -> string)
    requires tokens.Some? ==> |tokens.value| > 0
    requires rec.authorities == EncodeField(tokens)
    ensures PreparedAdmin(rec, code, encode).Success?
    ensures var held := if tokens.None? then {} else AuthoritiesOf(tokens.value);
            Decode(PreparedAdmin(rec, code, encode).value.authorities) == Success(Some(held + {FromRole(ADMIN)}))
  {
    match tokens {
      case None =>
        AddToNull(rec.authorities, ADMIN);
      case Some(rs) =>
        AddedEncoded(rs, ADMIN);
    }
  }

  /** Registering an email that a row already holds is refused by the store's unique
      constraint at save, as a storage error, for customers and admins alike. */
  lemma DuplicateEmailFailsAtSave(t: Table, rec: Record, j: int, code: string, encode: string -> string, now: int)
    requires Consistent(t) && rec.id.None?
    requires j in t.rows && t.rows[j].email == rec.email
    ensures SaveRow(t, PreparedCustomer(rec, code, encode), now) == Failure(StorageError)
    ensures PreparedAdmin(rec, code, encode).Success? ==>
              SaveRow(t, PreparedAdmin(rec, code, encode).value, now) == Failure(StorageError)
  {
    assert t.nextId !in t.rows;
  }

  // ---------------------------------------------------------------------------------------
  // Profile update

  /** The profile fields updateInfo reads (the CustomerInfo view of the request). */
  datatype CustomerInfo = CustomerInfo(
    email: string, fullName: string, country: string, postcode: string, city: string, address: string)

  /** updateInfo's setters on the loaded entity. */
  function WithInfo(rec: Record, info: CustomerInfo): Record
  {
    rec.(address := info.address, city := info.city, postcode := info.postcode,
         country := info.country, fullName := info.fullName)
  }

  /** The profile update overwrites exactly address, city, postcode, country and full name:
      restoring those five gives back the record it started from. */
  lemma WithInfoTouchesFiveFields(rec: Record, info: CustomerInfo)
    ensures var u := WithInfo(rec, info);
            && u.(address := rec.address, city := rec.city, postcode := rec.postcode,
                  country := rec.country, fullName := rec.fullName) == rec
            && u.address == info.address && u.city == info.city && u.postcode == info.postcode
            && u.country == info.country && u.fullName == info.fullName
  {
  }

  // ---------------------------------------------------------------------------------------
  // The service

  class CustomerService {
    /** The customer table behind the repository. */
    var table: Table

    ghost predicate Valid()
      reads this
    {
      Consistent(table)
    }

    constructor ()
      ensures Valid() && table.rows == map[]
    {
      table := Table(map[], 1);
    }

    /** The repository's save (and flush) of an entity. */
    method Save(c: Customer, now: int) returns (r: Result<Record, ServiceError>)
      requires Valid()
      modifies this, c
      ensures Valid()
      ensures match SaveRow(old(table), old(c.State()), now)
              case Success(res) => r == Success(res.1) && table == res.0
              case Failure(e) => r == Failure(e) && table == old(table)
      ensures c.State() == SavedEntity(old(table), old(c.State()), now)
    {
      var rec := c.State();
      var outcome := SaveRow(table, rec, now);
      match outcome {
        case Failure(e) =>
          return Failure(e);
        case Success(res) =>
          SavePreservesConsistency(table, rec, now);
          if rec.id.None? {
            c.id, c.dateOfCreation := res.1.id, res.1.dateOfCreation;
          }
          table := res.0;
          return Success(res.1);
      }
    }

    /** findById: the stored row, if any. */
    method FindById(id: int) returns (r: Option<Record>)
      requires Valid()
      ensures r.Some? <==> id in table.rows
      ensures r.Some? ==> r.value == table.rows[id] && r.value.id == Some(id)
    {
      if id in table.rows {
        return Some(table.rows[id]);
      }
      return None;
    }

    /** findByEmail: the one row holding the email, if any. */
    method FindByEmail(email: string) returns (r: Option<Record>)
      requires Valid()
      ensures r.Some? <==> exists i :: i in table.rows && table.rows[i].email == email
      ensures r.Some? ==> r.value.email == email && r.value.id.Some?
                          && r.value.id.value in table.rows && table.rows[r.value.id.value] == r.value
    {
      if i :| i in table.rows && table.rows[i].email == email {
        return Some(table.rows[i]);
      }
      return None;
    }

    /** checkEmail: when the email is taken it builds the unique-email error, returned here
        as `unthrown`, but does not throw it; its callers go on regardless, and it changes
        nothing. */
    method CheckEmail(c: Customer) returns (unthrown: Option<ServiceError>)
      requires Valid()
      ensures unthrown.Some? <==> exists i :: i in table.rows && table.rows[i].email == c.email
      ensures unthrown.Some? ==> unthrown.value == DuplicateEmail(c.email)
    {
      var found := FindByEmail(c.email);
      if found.Some? {
        return Some(DuplicateEmail(found.value.email));
      }
      return None;
    }

    /** createCustomerAndVerifyByEmail: a new verify code, the encoded password, authorities
        reset to CUSTOMER, then save. A taken email is refused only by save. */
    method CreateCustomerAndVerifyByEmail(c: Customer, code: string, encode: string -> string, now: int)
      returns (r: Result<Record, ServiceError>)
      requires Valid() && IsVerifyCode(code)
      modifies this, c
      ensures Valid()
      ensures var prepared := PreparedCustomer(old(c.State()), code, encode);
              && (match SaveRow(old(table), prepared, now)
                  case Success(res) => r == Success(res.1) && table == res.0
                  case Failure(e) => r == Failure(e) && table == old(table))
              && c.State() == SavedEntity(old(table), prepared, now)
    {
      var unthrown := CheckEmail(c);
      c.verifyCode := Some(code);
      c.password := encode(c.password);
      c.RemoveAllAuthorities();
      var added := c.AddAuthority(CUSTOMER);
      r := Save(c, now);
    }

    /** createAdminAndVerifyByEmail: as customer creation, but ADMIN is added to the
        authorities already present instead of replacing them. */
    method CreateAdminAndVerifyByEmail(c: Customer, code: string, encode: string -> string, now: int)
      returns (r: Result<Record, ServiceError>)
      requires Valid() && IsVerifyCode(code)
      modifies this, c
      ensures Valid()
      ensures match PreparedAdmin(old(c.State()), code, encode)
              case Failure(e) =>
                && r == Failure(e) && table == old(table)
                && c.State() == old(c.State()).(verifyCode := Some(code), password := encode(old(c.password)))
              case Success(prepared) =>
                && (match SaveRow(old(table), prepared, now)
                    case Success(res) => r == Success(res.1) && table == res.0
                    case Failure(e) => r == Failure(e) && table == old(table))
                && c.State() == SavedEntity(old(table), prepared, now)
    {
      var unthrown := CheckEmail(c);
      c.verifyCode := Some(code);
      c.password := encode(c.password);
      var added := c.AddAuthority(ADMIN);
      if added.Failure? {
        return Failure(InvalidAuthority(added.error));
      }
      r := Save(c, now);
    }

    /** update: the given entity is saved as it is. */
    method Update(c: Customer, now: int) returns (r: Result<(), ServiceError>)
      requires Valid()
      modifies this, c
      ensures Valid()
      ensures match SaveRow(old(table), old(c.State()), now)
              case Success(res) => r.Success? && table == res.0
              case Failure(e) => r == Failure(e) && table == old(table)
      ensures c.State() == SavedEntity(old(table), old(c.State()), now)
    {
      var saved := Save(c, now);
      if saved.Failure? {
        return Failure(saved.error);
      }
      return Success(());
    }

    /** verify: an unknown id gives nothing and changes nothing; a code equal to the stored
        verify code sets verified and saves; any other code leaves the row as it is. The row
        is returned in both of the last two cases. */
    method Verify(customerId: int, code: string, now: int) returns (r: Option<Record>)
      requires Valid()
      modifies this
      ensures Valid()
      ensures customerId !in old(table.rows) ==> r.None? && table == old(table)
      ensures customerId in old(table.rows) ==>
                var before := old(table.rows[customerId]);
                var after := if before.verifyCode == Some(code) then before.(verified := true) else before;
                r == Some(after) && table == old(table).(rows := old(table.rows)[customerId := after])
      ensures forall i | i in old(table.rows) :: i in table.rows && (old(table.rows[i].verified) ==> table.rows[i].verified)
    {
      var found := FindById(customerId);
      if found.None? {
        return None;
      }
      var customer := new Customer.Load(found.value);
      if Some(code) == customer.verifyCode {
        customer.verified := true;
        SaveStoredRow(table, customerId, customer.State(), now);
        var saved := Save(customer, now);
      } else {
        assert table.rows[customerId := found.value] == table.rows;
      }
      return Some(customer.State());
    }

    /** updateInfo: an unknown email is an error; otherwise the five profile fields of the
        stored row are overwritten and the row is saved. */
    method UpdateInfo(info: CustomerInfo, now: int) returns (r: Result<Record, ServiceError>)
      requires Valid()
      modifies this
      ensures Valid()
      ensures (forall i | i in old(table.rows) :: old(table.rows[i]).email != info.email) ==>
                r == Failure(CustomerNotFound(info.email)) && table == old(table)
      ensures forall i | i in old(table.rows) && old(table.rows[i]).email == info.email ::
                var updated := WithInfo(old(table.rows[i]), info);
                r == Success(updated) && table == old(table).(rows := old(table.rows)[i := updated])
    {
      var found := FindByEmail(info.email);
      if found.None? {
        return Failure(CustomerNotFound(info.email));
      }
      var customer := new Customer.Load(found.value);
      customer.address := info.address;
      customer.city := info.city;
      customer.postcode := info.postcode;
      customer.country := info.country;
      customer.fullName := info.fullName;
      assert customer.State() == WithInfo(found.value, info);
      SaveStoredRow(table, found.value.id.value, customer.State(), now);
      r := Save(customer, now);
    }
  }
}
