/** The authority set of an account, stored as one comma-joined string of role names
    (Customer.getAuthorities / addAuthority / removeAllAuthorities, on values). The column is
    null (None) until the first role is added. */
module AuthorityCodec {
  import opened Wrappers
  import opened Roles
  import opened CustomerAuthorities

  // ---------------------------------------------------------------------------------------
  // Java's String.split(",")

  /** The pieces between commas, empty pieces included; there is always at least one. */
  function SplitAll(s: string): (pieces: seq<string>)
    ensures |pieces| >= 1
    ensures forall i :: 0 <= i < |pieces| ==> ',' !in pieces[i]
    decreases |s|
  {
    if s == [] then [[]]
    else
      var rest := SplitAll(s[1..]);
      if s[0] == ',' then [[]] + rest
      else [[s[0]] + rest[0]] + rest[1..]
  }

  /** split's zero limit: trailing empty pieces are removed. */
  function DropTrailingEmpty(pieces: seq<string>): (r: seq<string>)
    ensures r <= pieces
    ensures r == [] || r[|r| - 1] != []
    ensures forall i :: |r| <= i < |pieces| ==> pieces[i] == []
  {
    if pieces == [] || pieces[|pieces| - 1] != [] then pieces
    else DropTrailingEmpty(pieces[..|pieces| - 1])
  }

  /** s.split(","): a string without a comma gives itself (so "" gives [""]); otherwise the
      pieces without the trailing empty ones (so "," gives []). */
  function Split(s: string): seq<string>
  {
    if ',' !in s then [s] else DropTrailingEmpty(SplitAll(s))
  }

  // ---------------------------------------------------------------------------------------
  // The encoding produced by addAuthority

  function Names(rs: seq<Role>): (ns: seq<string>)
    ensures |ns| == |rs|
    ensures forall i :: 0 <= i < |rs| ==> ns[i] == Name(rs[i])
  {
    if rs == [] then [] else Names(rs[..|rs| - 1]) + [Name(rs[|rs| - 1])]
  }

  /** The comma-joined names of a non-empty sequence of roles. */
  function Encode(rs: seq<Role>): string
    requires |rs| > 0
  {
    if |rs| == 1 then Name(rs[0]) else Encode(rs[..|rs| - 1]) + "," + Name(rs[|rs| - 1])
  }

  /** The abstract view of the column: null, or a non-empty sequence of role tokens. */
  function EncodeField(tokens: Option<seq<Role>>): Option<string>
    requires tokens.Some? ==> |tokens.value| > 0
  {
    match tokens
    case None => None
    case Some(rs) => Some(Encode(rs))
  }

  /** The authority values for a collection of roles. */
  function AuthoritiesOf(rs: seq<Role>): set<CustomerAuthority>
  {
    set r | r in rs :: FromRole(r)
  }

  predicate NoDuplicates<T(==)>(s: seq<T>)
  {
    forall i, j :: 0 <= i < j < |s| ==> s[i] != s[j]
  }

  // ---------------------------------------------------------------------------------------
  // getAuthorities

  /** valueOf failed on a token: Java throws IllegalArgumentException. */
  datatype DecodeError = UnknownRole(token: string)

  /** The forEach over the tokens: each token becomes new CustomerAuthority(valueOf(token)),
      added to a HashSet; the first unknown token aborts. */
  function DecodeTokens(tokens: seq<string>): (r: Result<set<CustomerAuthority>, DecodeError>)
    ensures r.Success? <==> forall t :: t in tokens ==> ValueOf(t).Some?
    ensures r.Success? ==> forall a :: a in r.value <==> a.authority in tokens
    ensures r.Failure? ==> r.error.token in tokens && ValueOf(r.error.token).None?
  {
    if tokens == [] then Success({})
    else
      var last := tokens[|tokens| - 1];
      assert tokens == tokens[..|tokens| - 1] + [last];
      match DecodeTokens(tokens[..|tokens| - 1])
      case Failure(e) => Failure(e)
      case Success(found) =>
        match ValueOf(last)
        case None => Failure(UnknownRole(last))
        case Some(role) => Success(found + {FromRole(role)})
  }

  /** getAuthorities(): null for a null column, otherwise the decoded set. */
  function Decode(field: Option<string>): (r: Result<Option<set<CustomerAuthority>>, DecodeError>)
    ensures r.Success? && r.value.None? <==> field.None?
  {
    match field
    case None => Success(None)
    case Some(s) =>
      match DecodeTokens(Split(s))
      case Failure(e) => Failure(e)
      case Success(found) => Success(Some(found))
  }

  // ---------------------------------------------------------------------------------------
  // addAuthority / removeAllAuthorities

  /** addAuthority(r) on a column value: a null column becomes r's name; otherwise the column
      is decoded (which may fail) and r's name is appended after a comma unless the decoded
      set already holds an authority equal to new CustomerAuthority(r). */
  function Added(field: Option<string>, r: Role): (res: Result<Option<string>, DecodeError>)
    ensures res.Success? <==> Decode(field).Success?
    ensures res.Success? ==> res.value.Some?
  {
    match field
    case None => Success(Some(Name(r)))
    case Some(s) =>
      match Decode(field)
      case Failure(e) => Failure(e)
      case Success(found) =>
        if FromRole(r) in found.value then Success(field) else Success(Some(s + "," + Name(r)))
  }

  /** removeAllAuthorities(): the column becomes null. */
  function RemovedAll(field: Option<string>): (res: Option<string>)
    ensures Decode(res) == Success(None)
  {
    None
  }

  /** The role sequence after addAuthority(r): r is appended unless already present. */
  function Appended(rs: seq<Role>, r: Role): seq<Role>
  {
    if r in rs then rs else rs + [r]
  }

  /** A sequence of addAuthority calls on one column; the first failure aborts. */
  function AddAll(field: Option<string>, rs: seq<Role>): Result<Option<string>, DecodeError>
    decreases |rs|
  {
    if rs == [] then Success(field)
    else
      match Added(field, rs[0])
      case Failure(e) => Failure(e)
      case Success(f) => AddAll(f, rs[1..])
  }

  /** The role sequence a column holds after a sequence of additions to rs. */
  function Accumulated(rs: seq<Role>, adds: seq<Role>): seq<Role>
    decreases |adds|
  {
    if adds == [] then rs else Accumulated(Appended(rs, adds[0]), adds[1..])
  }

  // ---------------------------------------------------------------------------------------
  // Lemmas: split inverts the encoding

  lemma {:induction false} SplitAllNoComma(w: string)
    requires ',' !in w
    ensures SplitAll(w) == [w]
    decreases |w|
  {
    if w != [] {
      SplitAllNoComma(w[1..]);
      assert [w[0]] + w[1..] == w;
    }
  }

  lemma {:induction false} SplitAllConcat(a: string, b: string)
    ensures SplitAll(a + "," + b) == SplitAll(a) + SplitAll(b)
    decreases |a|
  {
    var s := a + "," + b;
    if a == [] {
      assert s == "," + b && s[1..] == b;
    } else {
      assert s[0] == a[0] && s[1..] == a[1..] + "," + b;
      SplitAllConcat(a[1..], b);
    }
  }

  lemma {:induction false} SplitAllEncode(rs: seq<Role>)
    requires |rs| > 0
    ensures SplitAll(Encode(rs)) == Names(rs)
    decreases |rs|
  {
    if |rs| == 1 {
      SplitAllNoComma(Name(rs[0]));
    } else {
      var init := rs[..|rs| - 1];
      SplitAllEncode(init);
      SplitAllConcat(Encode(init), Name(rs[|rs| - 1]));
      SplitAllNoComma(Name(rs[|rs| - 1]));
    }
  }

  /** Splitting the encoding of rs gives back exactly the names of rs, in order. */
  lemma SplitEncode(rs: seq<Role>)
    requires |rs| > 0
    ensures Split(Encode(rs)) == Names(rs)
  {
    if |rs| == 1 {
      assert Encode(rs) == Name(rs[0]);
    } else {
      var init := rs[..|rs| - 1];
      var s := Encode(rs);
      assert s == Encode(init) + "," + Name(rs[|rs| - 1]);
      assert s[|Encode(init)|] == ',';
      SplitAllEncode(rs);
    }
  }

  // ---------------------------------------------------------------------------------------
  // Lemmas: getAuthorities and addAuthority on well-formed columns

  lemma AuthoritiesOfSnoc(rs: seq<Role>, r: Role)
    ensures AuthoritiesOf(rs + [r]) == AuthoritiesOf(rs) + {FromRole(r)}
  {
    forall a | a in AuthoritiesOf(rs + [r]) ensures a in AuthoritiesOf(rs) + {FromRole(r)} {
      var r' :| r' in rs + [r] && a == FromRole(r');
      if r' != r { assert r' in rs; }
    }
  }

  /** The loop over the names of rs collects exactly the authorities of rs. */
  lemma {:induction false} DecodeNames(rs: seq<Role>)
    ensures DecodeTokens(Names(rs)) == Success(AuthoritiesOf(rs))
    decreases |rs|
  {
    if rs != [] {
      var init, last := rs[..|rs| - 1], rs[|rs| - 1];
      DecodeNames(init);
      var tokens := Names(rs);
      assert tokens[..|tokens| - 1] == Names(init);
      assert tokens[|tokens| - 1] == Name(last);
      assert ValueOf(Name(last)) == Some(last);
      assert rs == init + [last];
      AuthoritiesOfSnoc(init, last);
    } else {
      assert AuthoritiesOf(rs) == {};
    }
  }

  /** An encoded column decodes to the authorities of its roles, duplicates collapsed. */
  lemma DecodeEncode(rs: seq<Role>)
    requires |rs| > 0
    ensures Decode(Some(Encode(rs))) == Success(Some(AuthoritiesOf(rs)))
  {
    SplitEncode(rs);
    DecodeNames(rs);
  }

  lemma FromRoleInAuthorities(rs: seq<Role>, r: Role)
    ensures FromRole(r) in AuthoritiesOf(rs) <==> r in rs
  {
    if FromRole(r) in AuthoritiesOf(rs) {
      var r' :| r' in rs && FromRole(r') == FromRole(r);
      NameInjective(r, r');
    }
  }

  /** addAuthority on a null column stores exactly r's name, which decodes to {r}; this is
      also removeAllAuthorities followed by addAuthority(r). */
  lemma AddToNull(field: Option<string>, r: Role)
    ensures Added(RemovedAll(field), r) == Success(Some(Encode([r])))
    ensures Decode(Some(Encode([r]))) == Success(Some({FromRole(r)}))
  {
    DecodeEncode([r]);
    assert AuthoritiesOf([r]) == {FromRole(r)};
  }

  /** addAuthority on an encoded column: a present role leaves the string as it is, an absent
      one is appended, and the decoded set grows by exactly r. */
  lemma AddedEncoded(rs: seq<Role>, r: Role)
    requires |rs| > 0
    ensures Added(Some(Encode(rs)), r) == Success(Some(Encode(Appended(rs, r))))
    ensures r in rs ==> Added(Some(Encode(rs)), r) == Success(Some(Encode(rs)))
    ensures Decode(Some(Encode(Appended(rs, r)))) == Success(Some(AuthoritiesOf(rs) + {FromRole(r)}))
  {
    if r in rs {
      AddedPresent(rs, r);
      assert AuthoritiesOf(rs) + {FromRole(r)} == AuthoritiesOf(rs) by {
        FromRoleInAuthorities(rs, r);
      }
    } else {
      AddedAbsent(rs, r);
      AuthoritiesOfSnoc(rs, r);
    }
  }

  lemma AddedPresent(rs: seq<Role>, r: Role)
    requires |rs| > 0 && r in rs
    ensures Added(Some(Encode(rs)), r) == Success(Some(Encode(rs)))
    ensures Decode(Some(Encode(rs))) == Success(Some(AuthoritiesOf(rs)))
  {
    DecodeEncode(rs);
    FromRoleInAuthorities(rs, r);
  }

  lemma AddedAbsent(rs: seq<Role>, r: Role)
    requires |rs| > 0 && r !in rs
    ensures Added(Some(Encode(rs)), r) == Success(Some(Encode(rs + [r])))
    ensures Decode(Some(Encode(rs + [r]))) == Success(Some(AuthoritiesOf(rs + [r])))
  {
    DecodeEncode(rs);
    FromRoleInAuthorities(rs, r);
    var after := rs + [r];
    assert after[..|after| - 1] == rs;
    assert Encode(after) == Encode(rs) + "," + Name(r);
    DecodeEncode(after);
  }

  /** Adding the same role twice equals adding it once, on a null or an encoded column. */
  lemma AddIdempotent(tokens: Option<seq<Role>>, r: Role)
    requires tokens.Some? ==> |tokens.value| > 0
    ensures Added(EncodeField(tokens), r).Success?
    ensures var once := Added(EncodeField(tokens), r).value;
            Added(once, r) == Success(once)
  {
    match tokens {
      case None =>
        AddedEncoded([r], r);
      case Some(rs) =>
        AddedEncoded(rs, r);
        AddedEncoded(Appended(rs, r), r);
    }
  }

  lemma {:induction false} AccumulatedDistinct(rs: seq<Role>, adds: seq<Role>)
    requires |rs| > 0 && NoDuplicates(rs)
    ensures |Accumulated(rs, adds)| > 0 && NoDuplicates(Accumulated(rs, adds))
    ensures AddAll(Some(Encode(rs)), adds) == Success(Some(Encode(Accumulated(rs, adds))))
    ensures AuthoritiesOf(Accumulated(rs, adds)) == AuthoritiesOf(rs + adds)
    decreases |adds|
  {
    if adds != [] {
      var next := Appended(rs, adds[0]);
      AddedEncoded(rs, adds[0]);
      AccumulatedDistinct(next, adds[1..]);
      assert AuthoritiesOf(next + adds[1..]) == AuthoritiesOf(rs + adds) by {
        assert adds == [adds[0]] + adds[1..];
        forall a ensures a in AuthoritiesOf(next + adds[1..]) <==> a in AuthoritiesOf(rs + adds) {
          if a in AuthoritiesOf(rs + adds) {
            var r :| r in rs + adds && a == FromRole(r);
            assert r in next + adds[1..];
          }
        }
      }
    }
  }

  lemma NamesDistinct(rs: seq<Role>)
    requires NoDuplicates(rs)
    ensures NoDuplicates(Names(rs))
  {
    forall i, j | 0 <= i < j < |rs| ensures Names(rs)[i] != Names(rs)[j] {
      NameInjective(rs[i], rs[j]);
    }
  }

  /** A column built only by addAuthority, starting from null, never holds a duplicate
      token, and decodes to the authorities of every role added. */
  lemma AddsFromNullNeverDuplicate(adds: seq<Role>)
    ensures AddAll(None, adds).Success?
    ensures adds == [] <==> AddAll(None, adds).value.None?
    ensures adds != [] ==>
              var s := AddAll(None, adds).value.value;
              NoDuplicates(Split(s)) && Decode(Some(s)) == Success(Some(AuthoritiesOf(adds)))
  {
    if adds != [] {
      var first := [adds[0]];
      assert Added(None, adds[0]) == Success(Some(Encode(first)));
      AccumulatedDistinct(first, adds[1..]);
      assert first + adds[1..] == adds;
      var rs := Accumulated(first, adds[1..]);
      SplitEncode(rs);
      NamesDistinct(rs);
      DecodeEncode(rs);
    }
  }

  /** "," splits to no tokens at all. */
  lemma SplitLoneComma()
    ensures Split(",") == []
  {
    SplitAllConcat("", "");
    assert "" + "," + "" == ",";
  }

  /** ",," followed by a role name splits to two empty tokens and the name. */
  lemma {:induction false} SplitDoubleComma(r: Role)
    ensures Split(",," + Name(r)) == ["", "", Name(r)]
  {
    var name := Name(r);
    var tail := "" + "," + name;
    var whole := "" + "," + tail;
    assert whole == ",," + name;
    SplitAllNoComma(name);
    SplitAllConcat("", name);
    SplitAllConcat("", tail);
    assert SplitAll(whole) == ["", "", name];
    assert whole[0] == ',';
  }

  /** A column that decodes but holds empty tokens is not repaired by addAuthority: "," splits
      to no tokens and decodes to the empty set, so the role's name is appended after a
      comma, and the result ",,NAME" holds an empty token that getAuthorities rejects. */
  lemma AddToEmptyTokensBreaksColumn(r: Role)
    ensures Decode(Some(",")) == Success(Some({}))
    ensures Added(Some(","), r) == Success(Some(",," + Name(r)))
    ensures Decode(Some(",," + Name(r))) == Failure(UnknownRole(""))
  {
    SplitLoneComma();
    SplitDoubleComma(r);
    assert "," + "," + Name(r) == ",," + Name(r);
    var tokens := ["", "", Name(r)];
    assert ValueOf("") == None;
    assert [""][..0] == [];
    assert DecodeTokens([""]) == Failure(UnknownRole(""));
    assert ["", ""][..1] == [""];
    assert DecodeTokens(["", ""]) == Failure(UnknownRole(""));
    assert tokens[..2] == ["", ""];
  }
}
