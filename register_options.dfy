/** `POST /api/auth/register/options`: checks the display name, refuses a
    household that already has two members, and asks for registration
    options that exclude the passkeys the household's members already
    have. The application holds one household: the first one stored. */
module RegisterOptions {
  import opened Common
  import opened Db
  import opened WebAuthn

  const DisplayNameMessage: string := "displayName is required (1-100 chars)"
  const FullMessage: string := "Household is full (max 2 members)"
  const FailedMessage: string := "Failed to generate registration options"

  /** The JSON body; `displayName` is None when it is missing or not a string. */
  datatype OptionsBody = OptionsBody(displayName: Option<string>)

  datatype ResponseBody = ErrorBody(error: string) | Issued(options: RegistrationOptions, challengeId: string)
  datatype Response = Response(status: nat, body: ResponseBody)

  /** The display name the route registers: the trimmed string, which must
      be 1 to 100 code units long. */
  function CheckDisplayName(displayName: Option<string>): (r: Result<string>)
    ensures displayName.None? ==> r == Err(DisplayNameMessage)
    ensures displayName.Some? ==> (r.Ok? <==> Trim(displayName.value) != [] && Utf16Length(Trim(displayName.value)) <= 100)
    ensures r.Ok? ==> r.value == Trim(displayName.value)
    ensures r.Err? ==> r.message == DisplayNameMessage
  {
    var name := if displayName.Some? then Trim(displayName.value) else "";
    if name == [] || Utf16Length(name) > 100 then Err(DisplayNameMessage) else Ok(name)
  }

  /** An accepted name is trimmed, not empty and at most 100 characters. */
  lemma AcceptedNameShape(displayName: Option<string>)
    requires CheckDisplayName(displayName).Ok?
    ensures var name := CheckDisplayName(displayName).value;
      IsTrimmed(name) && 1 <= |name| <= 100
  {
  }

  /** A name of only whitespace is refused. */
  lemma BlankNameRefused(displayName: string)
    requires forall i :: 0 <= i < |displayName| ==> IsJsWhitespace(displayName[i])
    ensures CheckDisplayName(Some(displayName)) == Err(DisplayNameMessage)
  {
    TrimBlank(displayName);
  }

  /** Trimming text of whitespace leaves nothing. */
  lemma {:induction false} TrimBlank(s: string)
    requires forall i :: 0 <= i < |s| ==> IsJsWhitespace(s[i])
    ensures Trim(s) == []
  {
    TrimKeeps(s);
  }

  /** The passkeys of a household: those whose user belongs to it (the
      inner join of credentials and users). */
  function HouseholdCredentials(credentials: map<string, CredentialRow>, users: map<string, UserRow>, h: string)
    : set<string>
  {
    set id | id in credentials && credentials[id].userId in users && users[credentials[id].userId].householdId == h
  }

  /** `POST`. `body` is what `request.json()` gives; `challenge` and `now`
      are those of the options call. A refused request stores nothing; an
      accepted one stores exactly one challenge. */
  method Post(body: Result<OptionsBody>, env: RpEnv, challenge: string, now: int, households: HouseholdTable,
              users: UserTable, credentials: CredentialTable, challenges: ChallengeTable)
    returns (response: Response)
    requires challenges.Valid()
    modifies challenges
    ensures challenges.Valid()
    ensures body.Err? ==> response == Response(500, ErrorBody(FailedMessage)) && challenges.rows == old(challenges.rows)
    ensures body.Ok? && CheckDisplayName(body.value.displayName).Err? ==>
      response == Response(400, ErrorBody(DisplayNameMessage)) && challenges.rows == old(challenges.rows)
    ensures body.Ok? && CheckDisplayName(body.value.displayName).Ok? && FirstHousehold(households.ids).Some?
            && Full(users.rows, FirstHousehold(households.ids).value) ==>
      response == Response(400, ErrorBody(FullMessage)) && challenges.rows == old(challenges.rows)
    ensures body.Ok? && CheckDisplayName(body.value.displayName).Ok?
            && !(FirstHousehold(households.ids).Some? && Full(users.rows, FirstHousehold(households.ids).value))
            && GetRpConfig(env).Err? ==>
      response == Response(500, ErrorBody(FailedMessage)) && challenges.rows == old(challenges.rows)
    ensures body.Ok? && CheckDisplayName(body.value.displayName).Ok?
            && !(FirstHousehold(households.ids).Some? && Full(users.rows, FirstHousehold(households.ids).value))
            && GetRpConfig(env).Ok? ==>
      && response.status == 200 && response.body.Issued?
      && var options := response.body.options;
      && var rp := GetRpConfig(env).value;
      && var name := CheckDisplayName(body.value.displayName).value;
      && options.rpName == rp.rpName && options.rpId == rp.rpId && options.challenge == challenge
      && options.userName == name && options.userDisplayName == name
      && (FirstHousehold(households.ids).None? ==> options.excludeCredentials == [])
      && (FirstHousehold(households.ids).Some? ==>
            forall id :: id in options.excludeCredentials <==>
              id in HouseholdCredentials(credentials.rows, users.rows, FirstHousehold(households.ids).value))
      && (forall i, j :: 0 <= i < j < |options.excludeCredentials| ==>
            options.excludeCredentials[i] != options.excludeCredentials[j])
      && response.body.challengeId !in old(challenges.rows)
      && challenges.rows == old(challenges.rows)[response.body.challengeId := ChallengeRow(None, challenge, now + ChallengeTtlMs)]
  {
    if body.Err? {
      return Response(500, ErrorBody(FailedMessage));
    }
    var checked := CheckDisplayName(body.value.displayName);
    if checked.Err? {
      return Response(400, ErrorBody(checked.message));
    }
    var exclude: seq<string> := [];
    var household := FirstHousehold(households.ids);
    if household.Some? {
      var h := household.value;
      if MemberCount(users.rows, h) >= HouseholdCapacity {
        return Response(400, ErrorBody(FullMessage));
      }
      var people := users.rows;
      exclude := SelectOrdered(credentials.rows,
                               (c: CredentialRow) => c.userId in people && people[c.userId].householdId == h,
                               (c: CredentialRow) => 0);
    }
    var issued := GetRegistrationOptions(env, checked.value, exclude, challenge, now, challenges);
    if issued.Err? {
      return Response(500, ErrorBody(FailedMessage));
    }
    response := Response(200, Issued(issued.value.0, issued.value.1));
  }
}
