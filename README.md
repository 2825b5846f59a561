# Customer account lifecycle (eshop customer API), modelled in Dafny

This project models the account core of the eshop customer service: the `Customer` entity,
its role set kept as one comma-joined string, the `CustomerAuthority` value, the lifecycle
service `CustomerServiceImpl` over the customer table, and the `CustomerDto` field mappings.

- `wrappers.dfy`: `Option` for Java's nullable values and `Optional`, and `Result` for a value or the exception the Java code throws.
- `roles.dfy` (`Roles`): the two role tags `CUSTOMER` and `ADMIN`, with the enum's `name()` and `valueOf()`.
- `customer_authority.dfy` (`CustomerAuthorities`): the authority value.
  - `equals` and `hashCode` are modelled as written.
  - `hashCode` includes Java's 32-bit `String.hashCode` arithmetic.
  - `equals` is proved to coincide with value equality. This is why a Dafny `set` stands in for the `HashSet` of authorities.
- `authority_codec.dfy` (`AuthorityCodec`): the authorities column as a value.
  - `String.split(",")` is modelled with Java's rules: a string without a comma splits to itself, and trailing empty pieces are dropped.
  - It defines decoding (`getAuthorities`), `addAuthority` and `removeAllAuthorities`.
  - The lemmas show that the strings `addAuthority` builds decode to the set of added roles, with no repeated token.
- `customer.dfy` (`Entities`): the `Customer` class.
  - Its fields are updated in place.
  - `GetAuthorities` is a loop proved against the decoding function.
  - `AddAuthority` and `RemoveAllAuthorities` change the authorities field and nothing else.
  - `Record` is the value of all fields at once.
- `service.dfy` (`Service`): the table is a map from id to `Record` plus the next generated id.
  - `SaveRow` is the repository's `save`. An entity without a stored id is inserted with a fresh id and the clock as creation date.
  - An entity with a stored id is updated, and the stored creation date is kept.
  - The write is refused, leaving the table unchanged, when another row holds the email or a not-null column is null.
  - The `CustomerService` class runs creation, verification, profile update and plain update on `Customer` entities and writes them back with `Save`.
- `customer_dto.dfy` (`Dto`): `of` and `from`, and their lossy round trip.

Three external inputs are parameters:
- the password encoder is a function `encode: string -> string`;
- the random verify code is a `code` argument that must be five ASCII letters (`IsVerifyCode`);
- the clock read by the creation timestamp and by `of` is a `now` argument.

`checkEmail` looks the email up and builds the unique-email exception, but never throws it.
So the model's `CheckEmail` hands back the built `DuplicateEmail` value unthrown, and no operation fails with it.

Registering a taken email fails only at `save`, as `StorageError`, with the table unchanged (`DuplicateEmailFailsAtSave`).
The service's own test expects exactly this: an HTTP 500 "Internal storage error".

No operation forces `verified` to false. Creating a customer or an admin stores the submitted flag as it is, so an account can be registered already verified (`CreatedCustomer`).
`update` writes the flag as given, and so does a creation call whose entity carries the id of an existing row, because `save` treats it as an update.
Only `verify` and `updateInfo` are proved never to clear `verified`.

`addAuthority` appends to any column that still decodes, including one whose tokens are all empty.
So the column `","`, which decodes to the empty set, becomes `",,CUSTOMER"`, and that column no longer decodes (`AddToEmptyTokensBreaksColumn`).

## Model

| member | source | states |
|---|---|---|
| `Roles.Name` | src/main/java/ru/maxmorev/eshop/customer/api/entities/Customer.java:115 | a role's name is non-empty and holds no comma, so it is one token of the column |
| `Roles.ValueOf` | src/main/java/ru/maxmorev/eshop/customer/api/entities/Customer.java:109 | valueOf yields the role whose name is the token, for every role with that name, and nothing for any other string |
| `Roles.NameInjective` | src/main/java/ru/maxmorev/eshop/customer/api/entities/Customer.java:118-120 | distinct roles have distinct names |
| `CustomerAuthorities.Default` | src/main/java/ru/maxmorev/eshop/customer/api/entities/CustomerAuthority.java:13-15 | the no-argument value is the authority of CUSTOMER |
| `CustomerAuthorities.FromRole` | src/main/java/ru/maxmorev/eshop/customer/api/entities/CustomerAuthority.java:17-20 | the stored string is the role's name: valueOf of it gives the role back |
| `CustomerAuthorities.GetAuthority` | src/main/java/ru/maxmorev/eshop/customer/api/entities/CustomerAuthority.java:22-25 | for an authority made from a role, getAuthority is that role's name, and valueOf of it gives the role back |
| `CustomerAuthorities.Equals` | src/main/java/ru/maxmorev/eshop/customer/api/entities/CustomerAuthority.java:27-33 | equal iff the other object is a CustomerAuthority with the same string; null and other classes are never equal; this is exactly value equality |
| `CustomerAuthorities.StringHash` | src/main/java/ru/maxmorev/eshop/customer/api/entities/CustomerAuthority.java:37 | String.hashCode of the authority stays in the 32-bit int range |
| `CustomerAuthorities.HashCode` | src/main/java/ru/maxmorev/eshop/customer/api/entities/CustomerAuthority.java:35-38 | Objects.hash of the authority string stays in the 32-bit int range |
| `CustomerAuthorities.EqualsReflexive` | src/main/java/ru/maxmorev/eshop/customer/api/entities/CustomerAuthority.java:29 | every authority equals itself |
| `CustomerAuthorities.EqualsSymmetric` | src/main/java/ru/maxmorev/eshop/customer/api/entities/CustomerAuthority.java:27-33 | equals is symmetric |
| `CustomerAuthorities.EqualsConsistentWithHashCode` | src/main/java/ru/maxmorev/eshop/customer/api/entities/CustomerAuthority.java:35-38 | equal authorities have equal hash codes |
| `CustomerAuthorities.FromRoleEquals` | src/main/java/ru/maxmorev/eshop/customer/api/entities/Customer.java:119 | the authorities of two roles are equal iff the roles are, so the contains test in addAuthority is a test on roles |
| `AuthorityCodec.SplitAll` | src/main/java/ru/maxmorev/eshop/customer/api/entities/Customer.java:107 | the comma-separated pieces, at least one, none containing a comma |
| `AuthorityCodec.DropTrailingEmpty` | src/main/java/ru/maxmorev/eshop/customer/api/entities/Customer.java:107 | split drops exactly the trailing empty pieces: the result is a prefix ending in a non-empty piece |
| `AuthorityCodec.SplitEncode` | src/main/java/ru/maxmorev/eshop/customer/api/entities/Customer.java:107-120 | splitting a column built from roles gives back their names in order |
| `AuthorityCodec.DecodeTokens` | src/main/java/ru/maxmorev/eshop/customer/api/entities/Customer.java:107-110 | decoding succeeds iff every token names a role; the set then holds exactly the authorities whose string is a token; otherwise the error names an unknown token |
| `AuthorityCodec.Decode` | src/main/java/ru/maxmorev/eshop/customer/api/entities/Customer.java:103-111 | getAuthorities returns null exactly for a null column |
| `AuthorityCodec.DecodeEncode` | src/main/java/ru/maxmorev/eshop/customer/api/entities/Customer.java:107-110 | a column built from roles decodes to the set of their authorities, with duplicates collapsed |
| `AuthorityCodec.Added` | src/main/java/ru/maxmorev/eshop/customer/api/entities/Customer.java:113-121 | addAuthority succeeds iff the column decodes, and the column is never null afterwards |
| `AuthorityCodec.RemovedAll` | src/main/java/ru/maxmorev/eshop/customer/api/entities/Customer.java:123-125 | after removeAllAuthorities, getAuthorities returns null |
| `AuthorityCodec.AddToNull` | src/main/java/ru/maxmorev/eshop/customer/api/entities/Customer.java:113-125 | on a null column, or after removeAllAuthorities, addAuthority(r) stores exactly r's name, which decodes to {r} |
| `AuthorityCodec.AddedEncoded` | src/main/java/ru/maxmorev/eshop/customer/api/entities/Customer.java:118-120 | adding a present role leaves the string unchanged; adding an absent one appends ",r"; either way the decoded set is the old set plus r |
| `AuthorityCodec.AddIdempotent` | src/main/java/ru/maxmorev/eshop/customer/api/entities/Customer.java:118-119 | on a null or well-formed column, adding a role twice equals adding it once |
| `AuthorityCodec.AddToEmptyTokensBreaksColumn` | src/main/java/ru/maxmorev/eshop/customer/api/entities/Customer.java:107-120 | on the column ",", which decodes to the empty set, addAuthority(r) appends after a comma, giving ",,r", which getAuthorities rejects on its empty token |
| `AuthorityCodec.AddsFromNullNeverDuplicate` | src/main/java/ru/maxmorev/eshop/customer/api/entities/Customer.java:113-121 | any sequence of addAuthority calls from a null column succeeds; it leaves the column null iff the sequence is empty, and otherwise yields a string with no repeated token that decodes to the set of all added roles |
| `Entities.Customer.constructor` | src/main/java/ru/maxmorev/eshop/customer/api/entities/Customer.java:87 | a new entity has nothing set and verified is false |
| `Entities.Customer.Load` | src/main/java/ru/maxmorev/eshop/customer/api/entities/Customer.java:44-100 | an entity whose fields hold the given values |
| `Entities.Customer.GetAuthorities` | src/main/java/ru/maxmorev/eshop/customer/api/entities/Customer.java:102-111 | the loop returns getAuthorities' result: null for a null column, the decoded set, or the first unknown token's error |
| `Entities.Customer.AddAuthority` | src/main/java/ru/maxmorev/eshop/customer/api/entities/Customer.java:113-121 | the authorities field becomes addAuthority's result (or stays when decoding fails); on a null column it is always r's name; no other field changes |
| `Entities.Customer.RemoveAllAuthorities` | src/main/java/ru/maxmorev/eshop/customer/api/entities/Customer.java:123-125 | the authorities field becomes null and no other field changes |
| `Entities.DecodeTokensAbortsOnFailure` | src/main/java/ru/maxmorev/eshop/customer/api/entities/Customer.java:107-109 | an unknown token fails the whole decoding with that token's error, so the loop may stop there |
| `Entities.PrincipalChecks` | src/main/java/ru/maxmorev/eshop/customer/api/entities/Customer.java:127-150 | the user name is the email, and all four account status checks equal verified |
| `Service.SaveRow` | src/main/java/ru/maxmorev/eshop/customer/api/entities/Customer.java:44-93 | save succeeds iff authorities and verify code are set and no other row holds the email; a refusal is a storage error |
| `Service.SavedEntity` | src/main/java/ru/maxmorev/eshop/customer/api/entities/Customer.java:44-47 | only an entity with a null id is persisted itself and receives the generated id and the clock; any other id is merged, and a refused write leaves the entity as it was |
| `Service.SavePreservesConsistency` | src/main/java/ru/maxmorev/eshop/customer/api/entities/Customer.java:51 | a successful save keeps every row keyed by its id, its not-null columns set and emails unique |
| `Service.SaveInsert` | src/main/java/ru/maxmorev/eshop/customer/api/entities/Customer.java:44-84 | an insert takes an id not yet in the table and the clock as creation date, stores the other fields as given, and keeps every earlier row |
| `Service.SaveUpdate` | src/main/java/ru/maxmorev/eshop/customer/api/entities/Customer.java:81-84 | an update keeps the stored creation date, replaces that row only, and does not advance the id generator |
| `Service.SaveStoredRow` | src/main/java/ru/maxmorev/eshop/customer/api/service/CustomerServiceImpl.java:84-86 | writing back a loaded row with its id, email and creation date succeeds and replaces exactly that row |
| `Service.PreparedCustomerRoles` | src/main/java/ru/maxmorev/eshop/customer/api/service/CustomerServiceImpl.java:48-51 | for every submitted entity, whatever its authorities, the entity handed to save holds exactly CUSTOMER's name (decoding to {CUSTOMER}), the new code and the encoded password, and every other field as submitted |
| `Service.CreatedCustomer` | src/main/java/ru/maxmorev/eshop/customer/api/service/CustomerServiceImpl.java:45-55 | a customer creation that inserts (null or unstored id) stores {CUSTOMER}, the new code and the encoded password; verified and the reset fields are as submitted; the row gets a fresh id and the clock |
| `Service.CreatedAdminRoles` | src/main/java/ru/maxmorev/eshop/customer/api/service/CustomerServiceImpl.java:58-67 | admin creation keeps the submitted roles and adds ADMIN: the result decodes to the submitted set plus ADMIN |
| `Service.DuplicateEmailFailsAtSave` | src/main/java/ru/maxmorev/eshop/customer/api/service/CustomerServiceImpl.java:35-42 | registering a taken email (customer or admin) is refused at save as a storage error, not by checkEmail |
| `Service.WithInfoTouchesFiveFields` | src/main/java/ru/maxmorev/eshop/customer/api/service/CustomerServiceImpl.java:106-119 | the profile update sets address, city, postcode, country and full name from the request and changes no other field |
| `Service.CustomerService.constructor` | src/main/java/ru/maxmorev/eshop/customer/api/repository/CustomerRepository.java:10 | the table starts empty and consistent |
| `Service.CustomerService.Save` | src/main/java/ru/maxmorev/eshop/customer/api/repository/CustomerRepository.java:10 | the table and the returned row are those of SaveRow; the entity receives the generated id and creation date only when its id was null (SavedEntity) |
| `Service.CustomerService.FindById` | src/main/java/ru/maxmorev/eshop/customer/api/service/CustomerServiceImpl.java:92-96 | the row stored under the id, or nothing iff there is none |
| `Service.CustomerService.FindByEmail` | src/main/java/ru/maxmorev/eshop/customer/api/service/CustomerServiceImpl.java:69-73 | a row is returned iff one holds the email, and it is the stored row under its own id |
| `Service.CustomerService.CheckEmail` | src/main/java/ru/maxmorev/eshop/customer/api/service/CustomerServiceImpl.java:35-42 | the unique-email error is built exactly when a row holds the email, and it is returned unthrown: it changes nothing, and its callers go on regardless |
| `Service.CustomerService.CreateCustomerAndVerifyByEmail` | src/main/java/ru/maxmorev/eshop/customer/api/service/CustomerServiceImpl.java:44-55 | the table and result are those of saving the prepared customer; a failure leaves the table unchanged |
| `Service.CustomerService.CreateAdminAndVerifyByEmail` | src/main/java/ru/maxmorev/eshop/customer/api/service/CustomerServiceImpl.java:57-67 | an undecodable authorities column fails before save; otherwise as customer creation with ADMIN added to the existing roles |
| `Service.CustomerService.Update` | src/main/java/ru/maxmorev/eshop/customer/api/service/CustomerServiceImpl.java:75-78 | the entity is saved as it is; the table is that of SaveRow, or unchanged on refusal |
| `Service.CustomerService.Verify` | src/main/java/ru/maxmorev/eshop/customer/api/service/CustomerServiceImpl.java:80-90 | an unknown id returns nothing and changes nothing; the right code sets verified and saves; a wrong code changes nothing; the row is returned; no row's verified flag is ever cleared |
| `Service.CustomerService.UpdateInfo` | src/main/java/ru/maxmorev/eshop/customer/api/service/CustomerServiceImpl.java:105-119 | an unknown email is an error with the table unchanged; otherwise exactly the five profile fields of that row are overwritten and the row returned |
| `Dto.NewDto` | src/main/java/ru/maxmorev/eshop/customer/api/rest/response/CustomerDto.java:49 | a new transfer object is unverified with nothing set |
| `Dto.Of` | src/main/java/ru/maxmorev/eshop/customer/api/rest/response/CustomerDto.java:63-82 | of succeeds iff getAuthorities does |
| `Dto.OfCopies` | src/main/java/ru/maxmorev/eshop/customer/api/rest/response/CustomerDto.java:63-82 | of copies the fourteen fields and sets the authorities to getAuthorities' set; only the current timestamp comes from elsewhere (the clock) |
| `Dto.From` | src/main/java/ru/maxmorev/eshop/customer/api/rest/response/CustomerDto.java:84-101 | from copies the same fourteen fields and leaves authorities null |
| `Dto.FromOfForgetsAuthorities` | src/main/java/ru/maxmorev/eshop/customer/api/rest/response/CustomerDto.java:63-101 | from(of(c)) equals c except that its authorities are null |
| `Dto.OfFromForgetsAuthorities` | src/main/java/ru/maxmorev/eshop/customer/api/rest/response/CustomerDto.java:63-101 | of(from(d)) equals d with null authorities and the new clock reading |
| `Dto.OfEncodedAuthorities` | src/main/java/ru/maxmorev/eshop/customer/api/rest/response/CustomerDto.java:79 | for a well-formed column the transfer object carries the authorities of its roles |
| `Dto.FromNewDtoIsUnverified` | src/main/java/ru/maxmorev/eshop/customer/api/rest/response/CustomerDto.java:49 | an account made from a new transfer object is unverified, with null authorities |

## Left out

- Password reset (`generateResetPasswordCode`, `updatePassword`): the controller calls them, but no implementation exists in this code.
  - Neither is declared by the service interface (`CustomerService.java`), so the model gives reset tokens no semantics.
  - The reset fields are only stored and copied.
- `loadUserByUsername` is not modelled: it is a lookup-or-throw around `findByEmail`, which is modelled.
- BCrypt hashing is the parameter `encode`, and `RandomStringUtils.randomAlphabetic(5)` is the parameter `code`. The model says nothing about them beyond that.
- The clocks (the `@CreationTimestamp` value and `getCurrentTimestampInMilli`) are the parameter `now`.
- Bean validation (`@NotBlank`, `@Email` with its addr-spec pattern) runs in the framework and is not modelled. The 256-character column lengths are not modelled either.
- Of the not-null columns, only authorities, verify code and creation date are checked at save. Profile strings and the password are non-null Dafny strings.
- `Entities.Customer.constructor`: strings that Java leaves null start as the empty string.
  - Where Java would throw on such a null, the model accepts and stores the empty strings.
  - One such place is `bcryptEncoder.encode(null)` in customer creation; others are the not-blank and not-null checks at save.
  - For example, creating a customer from a bare entity stores a row whose email, password input and profile strings are empty.
- `Dto.NewDto`: the transfer object's strings start as the empty string in the same way.
- A null `verified` is not modelled: it is a `bool`.
  - In Java it is a nullable `Boolean`, which `from` copies as it is.
  - The four account status checks unbox it, so a null there throws.
- `Service.CustomerService.Save`: on an update, the returned row carries the stored creation date. The merged entity in memory may hold a different one, because the column is only excluded from the SQL update.
- `Service.CustomerService.Verify`: the Java verify code is compared with `String.equals` on a non-null submitted code. A null submitted code is not modelled.
- `CustomerAuthorities.StringHash`: Java hashes UTF-16 code units, while the model uses Dafny characters (Unicode scalar values). The two agree on the role names and any BMP text.
- Ids and timestamps are unbounded integers; 64-bit overflow of the id sequence is not modelled.
- JSON output (`toString`, `toJsonString`, `JsonMappedValue`, `CustomerVerify`), HTTP routing, error messages and localisation are not modelled. Neither are security and configuration wiring, transactions or `em.flush`.
  - A failed operation is modelled as leaving the table unchanged, which is what the rollback provides.
- `CustomerInfo` and `AuthorityValues` are not part of this model's sources. `CustomerInfo` is the six getters `updateInfo` reads; `AuthorityValues` is the two constants the service names.
