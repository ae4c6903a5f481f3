/** `POST /api/auth/register/verify`: consumes the registration challenge
    and verifies the new passkey, then puts the new user in the household
    (joining the first one unless it already has two members, or creating
    "My Family" when there is none), stores the passkey with its public key
    as base64 text and signs the user in. Every failure answers 400 with
    its message. The writes are separate statements, not one transaction:
    a failure after the user insert leaves that user in place. */
module RegisterVerify {
  import opened Common
  import opened Db
  import opened WebAuthn
  import Base64

  const MissingMessage: string := "Missing response, challengeId, or displayName"
  const HouseholdFullMessage: string := "Household is full"
  const NewHouseholdName: string := "My Family"

  /** The JSON body; a field that is missing or `null` is None. */
  datatype VerifyBody = VerifyBody(response: Option<CredentialResponse>, challengeId: Option<string>,
                                   displayName: Option<string>)

  datatype ResponseBody = ErrorBody(error: string) | Registered
  datatype Response = Response(status: nat, body: ResponseBody)

  /** The first check: a field that is missing, `null` or empty fails it. */
  predicate Incomplete(body: VerifyBody) {
    body.response.None? || !IsSet(body.challengeId) || !IsSet(body.displayName)
  }

  /** What `verifyRegistration` makes of the request against the challenges
      as they were before it: the configuration error, the missing
      challenge, or the library's verdict on the live one. */
  function Verdict(env: RpEnv, challenges: map<string, ChallengeRow>, response: CredentialResponse, challengeId: string,
                   now: int, verify: RegistrationCheck -> Result<Option<NewCredential>>): Result<NewCredential>
  {
    if GetRpConfig(env).Err? then Err(MissingRpMessage)
    else if !Live(challenges, challengeId, now) then Err(ChallengeMissingMessage)
    else
      var rp := GetRpConfig(env).value;
      RegistrationOutcome(verify(RegistrationCheck(response, challenges[challengeId].challenge, rp.origin, rp.rpId)))
  }

  /** The state this route keeps: every user belongs to a stored household
      and no household has more than two members. */
  ghost predicate Admitted(households: map<string, HouseholdRow>, users: map<string, UserRow>) {
    && (forall id :: id in users ==> users[id].householdId in households)
    && (forall h :: MemberCount(users, h) <= HouseholdCapacity)
  }

  /** A new user adds one member to their household and none to others. */
  lemma MemberCountInsert(users: map<string, UserRow>, id: string, row: UserRow, h: string)
    requires id !in users
    ensures MemberCount(users[id := row], h) == MemberCount(users, h) + (if row.householdId == h then 1 else 0)
  {
    var before := set u | u in users && users[u].householdId == h;
    var m := users[id := row];
    var after := set u | u in m && m[u].householdId == h;
    if row.householdId == h {
      assert after == before + {id};
    } else {
      assert after == before;
    }
  }

  /** A household no user refers to has no members. */
  lemma MemberCountUnused(users: map<string, UserRow>, h: string)
    requires forall id :: id in users ==> users[id].householdId != h
    ensures MemberCount(users, h) == 0
  {
    var members := set u | u in users && users[u].householdId == h;
    assert members == {};
  }

  /** Adding a user to a household below capacity keeps every household
      within capacity. */
  lemma AdmitKeeps(households: map<string, HouseholdRow>, users: map<string, UserRow>, id: string, row: UserRow)
    requires Admitted(households, users)
    requires id !in users && row.householdId in households
    requires MemberCount(users, row.householdId) < HouseholdCapacity
    ensures Admitted(households, users[id := row])
  {
    var after := users[id := row];
    forall h
      ensures MemberCount(after, h) <= HouseholdCapacity
    {
      MemberCountInsert(users, id, row, h);
    }
  }

  /** A household just created has no members yet. */
  lemma NewHouseholdEmpty(households: map<string, HouseholdRow>, users: map<string, UserRow>, h: string)
    requires Admitted(households, users) && h !in households
    ensures MemberCount(users, h) == 0
    ensures Admitted(households[h := HouseholdRow(NewHouseholdName)], users)
  {
    MemberCountUnused(users, h);
  }

  /** The writes of a registration with room in the household: the
      household joined (the first one) or created, the one new user in it,
      and the passkey stored under its id unless that id is taken. */
  ghost predicate Enrolled(first: Option<string>,
                           householdsBefore: map<string, HouseholdRow>, households: map<string, HouseholdRow>,
                           usersBefore: map<string, UserRow>, users: map<string, UserRow>,
                           credentialsBefore: map<string, CredentialRow>, credentials: map<string, CredentialRow>,
                           c: NewCredential, displayName: string, clashMessage: string,
                           response: Response, session: Option<Session>, householdId: string, userId: string)
  {
    && (first.Some? ==> householdId == first.value && households == householdsBefore)
    && (first.None? ==>
          householdId !in householdsBefore && households == householdsBefore[householdId := HouseholdRow(NewHouseholdName)])
    && userId !in usersBefore
    && users == usersBefore[userId := UserRow(householdId, displayName)]
    && (c.id in credentialsBefore ==>
          response == Response(400, ErrorBody(clashMessage)) && session.None? && credentials == credentialsBefore)
    && (c.id !in credentialsBefore ==>
          && response == Response(200, Registered) && session == Some(Session(userId, householdId))
          && credentials == credentialsBefore[c.id := CredentialRow(userId, Base64.Encode(c.publicKey), c.counter,
                                                                     c.transports)])
  }

  /** The writes after a verified registration, given room in the first
      household (or no household yet). */
  method Enrol(c: NewCredential, displayName: string, clashMessage: string, households: HouseholdTable,
               users: UserTable, credentials: CredentialTable)
    returns (response: Response, session: Option<Session>, householdId: string, userId: string)
    requires households.Valid() && users.Valid() && credentials.Valid()
    requires Admitted(households.rows, users.rows)
    requires FirstHousehold(households.ids).Some? ==> !Full(users.rows, FirstHousehold(households.ids).value)
    modifies households, users, credentials
    ensures households.Valid() && users.Valid() && credentials.Valid()
    ensures Admitted(households.rows, users.rows)
    ensures Enrolled(FirstHousehold(old(households.ids)), old(households.rows), households.rows, old(users.rows),
                     users.rows, old(credentials.rows), credentials.rows, c, displayName, clashMessage, response,
                     session, householdId, userId)
  {
    var first := FirstHousehold(households.ids);
    if first.Some? {
      householdId := first.value;
    } else {
      ghost var before := households.rows;
      householdId := households.Insert(HouseholdRow(NewHouseholdName));
      NewHouseholdEmpty(before, users.rows, householdId);
    }
    ghost var people := users.rows;
    var row := UserRow(householdId, displayName);
    userId := users.Insert(row);
    AdmitKeeps(households.rows, people, userId, row);
    var key := Base64.Encode(c.publicKey);
    Base64.DecodeEncode(c.publicKey);
    var stored := credentials.Insert(c.id, CredentialRow(userId, key, c.counter, c.transports));
    if !stored {
      response, session := Response(400, ErrorBody(clashMessage)), None;
    } else {
      response, session := Response(200, Registered), Some(Session(userId, householdId));
    }
  }

  /** `POST`. `body` is what `request.json()` gives, `now` the clock,
      `verify` the library's registration check and `clashMessage` the
      database's error when the passkey id is already stored. `session` is
      the session issued, if any. */
  method Post(body: Result<VerifyBody>, env: RpEnv, now: int, verify: RegistrationCheck -> Result<Option<NewCredential>>,
              clashMessage: string, challenges: ChallengeTable, households: HouseholdTable, users: UserTable,
              credentials: CredentialTable)
    returns (response: Response, session: Option<Session>)
    requires challenges.Valid() && households.Valid() && users.Valid() && credentials.Valid()
    requires Admitted(households.rows, users.rows)
    modifies challenges, households, users, credentials
    ensures challenges.Valid() && households.Valid() && users.Valid() && credentials.Valid()
    ensures Admitted(households.rows, users.rows)
    // Nothing is written before the challenge is verified.
    ensures (body.Err? || Incomplete(body.value)) ==>
      && response == Response(400, ErrorBody(if body.Err? then body.message else MissingMessage)) && session.None?
      && challenges.rows == old(challenges.rows) && households.rows == old(households.rows)
      && users.rows == old(users.rows) && credentials.rows == old(credentials.rows)
    ensures body.Ok? && !Incomplete(body.value) ==>
      var b := body.value;
      && challenges.rows == (if GetRpConfig(env).Ok? && Live(old(challenges.rows), b.challengeId.value, now)
                             then old(challenges.rows) - {b.challengeId.value} else old(challenges.rows))
      && var verdict := Verdict(env, old(challenges.rows), b.response.value, b.challengeId.value, now, verify);
      && (verdict.Err? ==>
            response == Response(400, ErrorBody(verdict.message)) && session.None?
            && households.rows == old(households.rows) && users.rows == old(users.rows)
            && credentials.rows == old(credentials.rows))
      && (verdict.Ok? && FirstHousehold(old(households.ids)).Some?
          && Full(old(users.rows), FirstHousehold(old(households.ids)).value) ==>
            response == Response(400, ErrorBody(HouseholdFullMessage)) && session.None?
            && households.rows == old(households.rows) && users.rows == old(users.rows)
            && credentials.rows == old(credentials.rows))
      && (verdict.Ok? && !(FirstHousehold(old(households.ids)).Some?
                           && Full(old(users.rows), FirstHousehold(old(households.ids)).value)) ==>
            exists householdId, userId ::
              Enrolled(FirstHousehold(old(households.ids)), old(households.rows), households.rows, old(users.rows),
                       users.rows, old(credentials.rows), credentials.rows, verdict.value, b.displayName.value,
                       clashMessage, response, session, householdId, userId))
  {
    if body.Err? {
      return Response(400, ErrorBody(body.message)), None;
    }
    var b := body.value;
    if Incomplete(b) {
      return Response(400, ErrorBody(MissingMessage)), None;
    }
    var registered := VerifyRegistration(env, b.response.value, b.challengeId.value, now, verify, challenges);
    if registered.Err? {
      return Response(400, ErrorBody(registered.message)), None;
    }
    var first := FirstHousehold(households.ids);
    if first.Some? && MemberCount(users.rows, first.value) >= HouseholdCapacity {
      return Response(400, ErrorBody(HouseholdFullMessage)), None;
    }
    var householdId, userId;
    response, session, householdId, userId := Enrol(registered.value, b.displayName.value, clashMessage, households,
                                                    users, credentials);
  }

  /** Registrations one after another never give a household a third
      member: a household at capacity refuses the next one, whatever the
      passkey. */
  lemma ThirdMemberRefused(households: map<string, HouseholdRow>, users: map<string, UserRow>, h: string)
    requires Admitted(households, users) && MemberCount(users, h) == HouseholdCapacity
    ensures Full(users, h)
    ensures forall id: string, row: UserRow :: id !in users && row.householdId == h ==> MemberCount(users[id := row], h) > HouseholdCapacity
  {
    forall id: string, row: UserRow | id !in users && row.householdId == h
      ensures MemberCount(users[id := row], h) > HouseholdCapacity
    {
      MemberCountInsert(users, id, row, h);
    }
  }
}
