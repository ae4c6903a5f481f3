/** `/api/accounts`: `GET` lists the household's financial accounts, newest
    first; `POST` validates a new account (required fields, a supported
    institution, the account type, no credential field the institution does
    not ask for), seals its credentials when there are any and inserts it.
    A failed `requireAuth` answers 401, any other exception 500. */
module AccountsRoute {
  import opened Common
  import opened Db
  import opened Institutions
  import opened Sorting

  /** The JSON body of `POST`: a field that is missing or `null` is None;
      `credentials` lists the object's entries in key order. */
  datatype CreateBody = CreateBody(
    name: Option<string>,
    institution: Option<string>,
    accountType: Option<string>,
    lastFourDigits: Option<string>,
    credentials: Option<seq<(string, string)>>)

  /** The columns both handlers return for an account. */
  datatype AccountView = AccountView(
    id: string,
    name: string,
    institution: string,
    accountType: AccountType,
    lastFourDigits: Option<string>,
    isActive: bool,
    lastSyncedAt: Option<int>,
    createdAt: int)

  datatype ResponseBody = ErrorBody(error: string) | Created(account: AccountView) | Listed(accounts: seq<AccountView>)
  datatype Response = Response(status: nat, body: ResponseBody)

  const UnauthorizedMessage: string := "Unauthorized"
  const RequiredMessage: string := "name, institution, and accountType are required"
  const UnsupportedMessage: string := "Unsupported institution"
  const AccountTypeMessage: string := "accountType must be 'bank' or 'credit_card'"
  const UnexpectedPrefix: string := "Unexpected credential fields: "

  /** The catch of both handlers: the message of `requireAuth`'s error
      answers 401, any other message 500. */
  function Failure(message: string): Response {
    Response(if message == UnauthorizedMessage then 401 else 500, ErrorBody(message))
  }

  function View(id: string, row: AccountRow): AccountView {
    AccountView(id, row.name, row.institution, row.accountType, row.lastFourDigits, row.isActive, row.lastSyncedAt,
                row.createdAt)
  }

  // ---------------------------------------------------------------------
  // POST validation

  /** `Object.keys(credentials)`. */
  function Keys(entries: seq<(string, string)>): (r: seq<string>)
    ensures |r| == |entries|
    ensures forall i :: 0 <= i < |entries| ==> r[i] == entries[i].0
  {
    if entries == [] then [] else Keys(entries[..|entries| - 1]) + [entries[|entries| - 1].0]
  }

  /** `provided.filter((k) => !expected.includes(k))`. */
  function UnexpectedFields(provided: seq<string>, expected: seq<string>): (r: seq<string>)
    ensures |r| <= |provided|
    ensures forall k :: k in r <==> k in provided && k !in expected
  {
    if provided == [] then []
    else
      var init := UnexpectedFields(provided[..|provided| - 1], expected);
      var last := provided[|provided| - 1];
      assert forall k :: k in provided <==> k in provided[..|provided| - 1] || k == last;
      if last in expected then init else init + [last]
  }

  /** The account type a valid `accountType` names. */
  function TypeOf(accountType: string): (t: Option<AccountType>)
    ensures t.Some? <==> accountType == "bank" || accountType == "credit_card"
    ensures t == Some(Bank) <==> accountType == "bank"
  {
    if accountType == "bank" then Some(Bank) else if accountType == "credit_card" then Some(CreditCard) else None
  }

  /** The message of the `TypeError` thrown when `expected` is undefined and
      `expected.includes` is called. */
  const IncludesTypeError: string := "Cannot read properties of undefined (reading 'includes')"

  /** What the checks of `POST` make of a body: the account type of a body
      that passes, a 400 with its message, or an exception (answered by the
      catch) with its message. */
  datatype Validation = Accepted(accountType: AccountType) | Rejected(message: string) | Threw(message: string)

  /** The institution test: `body.institution in INSTITUTIONS` as written,
      which also finds inherited names, or, with `ownKeysOnly`, the intended
      own-key test (see `IsInstitutionExactly`). */
  predicate Supported(institution: string, ownKeysOnly: bool) {
    if ownKeysOnly then IsInstitution(institution) else InInstitutionsAsWritten(institution)
  }

  /** The checks of `POST`, in their order. An inherited institution name
      passes the written test but has no `credentials` array: the first
      provided credential field then calls `includes` on undefined, which
      throws; with no field given nothing is looked up and the body passes. */
  function Validate(body: CreateBody, ownKeysOnly: bool): (r: Validation)
    ensures !(IsSet(body.name) && IsSet(body.institution) && IsSet(body.accountType)) ==> r == Rejected(RequiredMessage)
    ensures IsSet(body.name) && IsSet(body.institution) && IsSet(body.accountType)
            && !Supported(body.institution.value, ownKeysOnly)
      ==> r == Rejected(UnsupportedMessage)
    ensures IsSet(body.name) && IsSet(body.institution) && IsSet(body.accountType)
            && Supported(body.institution.value, ownKeysOnly) && TypeOf(body.accountType.value).None?
      ==> r == Rejected(AccountTypeMessage)
    ensures r.Threw? <==>
      && IsSet(body.name) && IsSet(body.institution) && IsSet(body.accountType)
      && Supported(body.institution.value, ownKeysOnly) && TypeOf(body.accountType.value).Some?
      && Lookup(body.institution.value).None? && body.credentials.Some? && |body.credentials.value| > 0
    ensures r.Threw? ==> r.message == IncludesTypeError
    ensures r.Accepted? <==>
      && IsSet(body.name) && IsSet(body.institution) && IsSet(body.accountType)
      && Supported(body.institution.value, ownKeysOnly) && TypeOf(body.accountType.value).Some?
      && (body.credentials.Some? && Lookup(body.institution.value).None? ==> body.credentials.value == [])
      && (body.credentials.Some? && Lookup(body.institution.value).Some? ==>
            forall k :: k in Keys(body.credentials.value) ==> k in Lookup(body.institution.value).value.credentials)
    ensures r.Accepted? ==> Some(r.accountType) == TypeOf(body.accountType.value)
    ensures r.Rejected? && IsSet(body.name) && IsSet(body.institution) && IsSet(body.accountType)
            && Supported(body.institution.value, ownKeysOnly) && TypeOf(body.accountType.value).Some?
      ==> && Lookup(body.institution.value).Some? && body.credentials.Some?
          && var unexpected := UnexpectedFields(Keys(body.credentials.value), Lookup(body.institution.value).value.credentials);
          unexpected != [] && r.message == UnexpectedPrefix + Join(unexpected, ", ")
  {
    if !(IsSet(body.name) && IsSet(body.institution) && IsSet(body.accountType)) then Rejected(RequiredMessage)
    else if !Supported(body.institution.value, ownKeysOnly) then Rejected(UnsupportedMessage)
    else if TypeOf(body.accountType.value).None? then Rejected(AccountTypeMessage)
    else if body.credentials.Some? then
      if Lookup(body.institution.value).None? then
        if body.credentials.value != [] then Threw(IncludesTypeError) else Accepted(TypeOf(body.accountType.value).value)
      else
        var expected := Lookup(body.institution.value).value.credentials;
        var unexpected := UnexpectedFields(Keys(body.credentials.value), expected);
        if unexpected != [] then
          assert unexpected[0] in unexpected;
          Rejected(UnexpectedPrefix + Join(unexpected, ", "))
        else Accepted(TypeOf(body.accountType.value).value)
    else Accepted(TypeOf(body.accountType.value).value)
  }

  /** A body may leave out credential fields: any subset of the
      institution's fields passes the credential check. */
  lemma MissingFieldsAllowed(name: string, institution: string, accountType: string, entries: seq<(string, string)>)
    requires name != "" && IsInstitution(institution) && TypeOf(accountType).Some?
    requires forall i :: 0 <= i < |entries| ==> entries[i].0 in Lookup(institution).value.credentials
    ensures Validate(CreateBody(Some(name), Some(institution), Some(accountType), None, Some(entries)), false).Accepted?
  {
  }

  /** As written, an inherited name such as `toString` is taken for an
      institution: with credential fields the route throws (a 500), and
      without any the body passes and the account is stored. */
  lemma InheritedInstitutionOutcomes(name: string, institution: string, accountType: string,
                                     credentials: Option<seq<(string, string)>>)
    requires name != "" && institution in PrototypeNames && TypeOf(accountType).Some?
    ensures var r := Validate(CreateBody(Some(name), Some(institution), Some(accountType), None, credentials), false);
      && (credentials.Some? && credentials.value != [] ==> r == Threw(IncludesTypeError))
      && (credentials.None? || credentials.value == [] ==> r == Accepted(TypeOf(accountType).value))
  {
    assert institution != "";
    assert institution !in InstitutionKeys;
  }

  /** With the own-key test an inherited name is refused as unsupported,
      and the checks never throw. */
  lemma OwnKeysRefuseInherited(body: CreateBody)
    ensures !Validate(body, true).Threw?
    ensures IsSet(body.name) && IsSet(body.institution) && IsSet(body.accountType) && body.institution.value in PrototypeNames
      ==> Validate(body, true) == Rejected(UnsupportedMessage)
  {
    if IsSet(body.institution) && body.institution.value in PrototypeNames {
      assert body.institution.value !in InstitutionKeys;
    }
  }

  /** The two tests give the same verdict on every institution name that is
      not inherited. */
  lemma ValidateTestsAgree(body: CreateBody)
    requires body.institution.Some? ==> body.institution.value !in PrototypeNames
    ensures Validate(body, true) == Validate(body, false)
  {
    if body.institution.Some? {
      IsInstitutionExactly(body.institution.value);
    }
  }

  /** The sealed credentials `POST` stores: `seal` (`encrypt` of the JSON
      text) of a non-empty object, nothing for an empty or missing one, or
      the error `encrypt` throws (without a valid `ENCRYPTION_KEY`). */
  function StoredCredentials(credentials: Option<seq<(string, string)>>, seal: seq<(string, string)> -> Result<string>)
    : (r: Result<Option<string>>)
    ensures r.Err? <==> credentials.Some? && |credentials.value| > 0 && seal(credentials.value).Err?
    ensures r.Err? ==> r.message == seal(credentials.value).message
    ensures r.Ok? && r.value.Some? <==> credentials.Some? && |credentials.value| > 0 && seal(credentials.value).Ok?
    ensures r.Ok? && r.value.Some? ==> r.value.value == seal(credentials.value).value
  {
    if credentials.Some? && |credentials.value| > 0 then
      var sealed := seal(credentials.value);
      if sealed.Err? then Err(sealed.message) else Ok(Some(sealed.value))
    else Ok(None)
  }

  /** The row `POST` inserts: the given fields, the sealed credentials, and
      the column defaults (active, never synced, zero starting balance, no
      billing day, created now). */
  function NewAccount(householdId: string, body: CreateBody, accountType: AccountType, sealed: Option<string>, now: int)
    : (r: AccountRow)
    requires body.name.Some? && body.institution.Some?
    ensures r.householdId == householdId && r.name == body.name.value && r.institution == body.institution.value
    ensures r.accountType == accountType && r.lastFourDigits == body.lastFourDigits
    ensures r.encryptedCredentials == sealed
    ensures r.isActive && r.lastSyncedAt.None? && r.startingBalance == 0 && r.billingDay.None? && r.createdAt == now
  {
    AccountRow(householdId, body.name.value, body.institution.value, accountType, body.lastFourDigits,
               sealed, true, None, 0, None, now)
  }

  /** `POST`. `session` is what `requireAuth` gives, `body` what
      `request.json()` gives (its error when the body does not parse),
      `seal` encrypts the credentials' JSON text and `now` is the insert's
      clock reading. Nothing is written unless every check passes and the
      credentials are sealed. */
  method Post(session: Result<Session>, body: Result<CreateBody>, seal: seq<(string, string)> -> Result<string>,
              now: int, accounts: AccountTable)
    returns (response: Response)
    requires accounts.Valid()
    modifies accounts
    ensures accounts.Valid()
    ensures session.Err? ==> response == Failure(session.message) && accounts.rows == old(accounts.rows)
    ensures session.Ok? && body.Err? ==> response == Failure(body.message) && accounts.rows == old(accounts.rows)
    ensures session.Ok? && body.Ok? && Validate(body.value, false).Rejected? ==>
      response == Response(400, ErrorBody(Validate(body.value, false).message)) && accounts.rows == old(accounts.rows)
    ensures session.Ok? && body.Ok? && Validate(body.value, false).Threw? ==>
      response == Failure(Validate(body.value, false).message) && accounts.rows == old(accounts.rows)
    ensures session.Ok? && body.Ok? && Validate(body.value, false).Accepted?
            && StoredCredentials(body.value.credentials, seal).Err? ==>
      response == Failure(StoredCredentials(body.value.credentials, seal).message) && accounts.rows == old(accounts.rows)
    ensures session.Ok? && body.Ok? && Validate(body.value, false).Accepted?
            && StoredCredentials(body.value.credentials, seal).Ok? ==>
      && response.status == 201 && response.body.Created?
      && var id := response.body.account.id;
      && id !in old(accounts.rows)
      && accounts.rows == old(accounts.rows)[id := NewAccount(session.value.householdId, body.value,
                                                               Validate(body.value, false).accountType,
                                                               StoredCredentials(body.value.credentials, seal).value, now)]
      && response.body.account == View(id, accounts.rows[id])
  {
    if session.Err? {
      return Failure(session.message);
    }
    if body.Err? {
      return Failure(body.message);
    }
    var checked := Validate(body.value, false);
    if checked.Rejected? {
      return Response(400, ErrorBody(checked.message));
    }
    if checked.Threw? {
      return Failure(checked.message);
    }
    var sealed := StoredCredentials(body.value.credentials, seal);
    if sealed.Err? {
      return Failure(sealed.message);
    }
    var row := NewAccount(session.value.householdId, body.value, checked.accountType, sealed.value, now);
    var id := accounts.Insert(row);
    response := Response(201, Created(View(id, row)));
  }

  /** The route as written, end to end: an account under the institution
      `toString` without credentials is stored and answered with 201. */
  method InheritedInstitutionStored() returns (response: Response, stored: map<string, AccountRow>)
    ensures response.status == 201 && response.body.Created?
    ensures response.body.account.institution == "toString"
    ensures response.body.account.id in stored && stored[response.body.account.id].institution == "toString"
  {
    var accounts := new AccountTable();
    InheritedInstitutionOutcomes("Main", "toString", "bank", None);
    response := Post(Ok(Session("me", "mine")), Ok(CreateBody(Some("Main"), Some("toString"), Some("bank"), None, None)),
                     (c: seq<(string, string)>) => Ok("sealed"), 0, accounts);
    stored := accounts.rows;
  }

  /** The same request with a credential field throws in the credential
      check: 500 with the `TypeError`'s message, and nothing is stored. */
  method InheritedInstitutionThrows() returns (response: Response, stored: map<string, AccountRow>)
    ensures response == Response(500, ErrorBody(IncludesTypeError))
    ensures stored == map[]
  {
    var accounts := new AccountTable();
    InheritedInstitutionOutcomes("Main", "toString", "bank", Some([("id", "1")]));
    response := Post(Ok(Session("me", "mine")),
                     Ok(CreateBody(Some("Main"), Some("toString"), Some("bank"), None, Some([("id", "1")]))),
                     (c: seq<(string, string)>) => Ok("sealed"), 0, accounts);
    stored := accounts.rows;
  }

  // ---------------------------------------------------------------------
  // GET

  /** The key that orders accounts newest first. */
  function NewestFirst(v: AccountView): int {
    -v.createdAt
  }

  /** `GET`: the household's accounts, each once, ordered by creation time,
      newest first (accounts created at the same instant come in the order
      the database picks). */
  method List(session: Result<Session>, accounts: AccountTable) returns (response: Response)
    ensures session.Err? ==> response == Failure(session.message)
    ensures session.Ok? ==> response.status == 200 && response.body.Listed?
    ensures session.Ok? ==>
      var listed := response.body.accounts;
      && SortedBy(listed, NewestFirst)
      && (forall i :: 0 <= i < |listed| ==>
            listed[i].id in accounts.rows && accounts.rows[listed[i].id].householdId == session.value.householdId
            && listed[i] == View(listed[i].id, accounts.rows[listed[i].id]))
      && (forall id :: id in accounts.rows && accounts.rows[id].householdId == session.value.householdId ==>
            exists i :: 0 <= i < |listed| && listed[i].id == id)
      && (forall i, j :: 0 <= i < j < |listed| ==> listed[i].id != listed[j].id)
  {
    if session.Err? {
      return Failure(session.message);
    }
    var rows := accounts.rows;
    var h := session.value.householdId;
    var ids := SelectOrdered(rows, (r: AccountRow) => r.householdId == h, (r: AccountRow) => -r.createdAt);
    var listed := seq(|ids|, i requires 0 <= i < |ids| => View(ids[i], rows[ids[i]]));
    forall id | id in rows && rows[id].householdId == h
      ensures exists i :: 0 <= i < |listed| && listed[i].id == id
    {
      var i :| 0 <= i < |ids| && ids[i] == id;
      assert listed[i].id == id;
    }
    response := Response(200, Listed(listed));
  }
}
