/** Passkey registration and sign-in: each options call stores a fresh
    challenge that lives five minutes; each verification looks the challenge
    up (it must exist and not have expired), deletes it before anything else
    can fail, and only then asks the WebAuthn library to check the
    signature. A successful sign-in replaces the credential's signature
    counter. The library (option generation, attestation and assertion
    checks) is a black box: its challenge is an input and its verdicts are
    the `verify` parameters. Times are milliseconds. */
module WebAuthn {
  import opened Common
  import opened Db
  import Base64

  /** The three environment variables naming the relying party. */
  datatype RpEnv = RpEnv(rpId: Option<string>, rpName: Option<string>, origin: Option<string>)
  datatype RpConfig = RpConfig(rpId: string, rpName: string, origin: string)

  const MissingRpMessage: string := "Missing WEBAUTHN_RP_ID, WEBAUTHN_RP_NAME, or WEBAUTHN_ORIGIN env vars"
  const ChallengeMissingMessage: string := "Challenge not found or expired"
  const RegistrationFailedMessage: string := "Registration verification failed"
  const CredentialMissingMessage: string := "Credential not found"
  const AuthenticationFailedMessage: string := "Authentication verification failed"

  /** How long a challenge stays usable: five minutes. */
  const ChallengeTtlMs: int := 5 * 60 * 1000

  /** The options of `generateRegistrationOptions` that depend on the
      caller (attestation "none", resident key required and user
      verification preferred are fixed). */
  datatype RegistrationOptions = RegistrationOptions(
    rpName: string, rpId: string, userName: string, userDisplayName: string, excludeCredentials: seq<string>,
    challenge: string)

  datatype AuthenticationOptions = AuthenticationOptions(rpId: string, challenge: string)

  /** A credential response from the browser; `id` is the credential id. */
  datatype CredentialResponse = CredentialResponse(id: string, payload: string)

  /** What `verifyRegistrationResponse` is asked. */
  datatype RegistrationCheck = RegistrationCheck(
    response: CredentialResponse, expectedChallenge: string, expectedOrigin: string, expectedRpId: string)

  /** The credential a verified registration yields. */
  datatype NewCredential = NewCredential(id: string, publicKey: seq<byte>, counter: int, transports: Option<seq<string>>)

  /** What `verifyAuthenticationResponse` is asked: the stored credential
      with its public key decoded from base64, and its counter. */
  datatype AuthenticationCheck = AuthenticationCheck(
    response: CredentialResponse, expectedChallenge: string, expectedOrigin: string, expectedRpId: string,
    credentialId: string, publicKey: seq<byte>, counter: int, transports: Option<seq<string>>)

  /** `getRpConfig`: all three variables must be set and non-empty. */
  function GetRpConfig(env: RpEnv): (r: Result<RpConfig>)
    ensures r.Ok? <==> IsSet(env.rpId) && IsSet(env.rpName) && IsSet(env.origin)
    ensures r.Ok? ==> r.value == RpConfig(env.rpId.value, env.rpName.value, env.origin.value)
    ensures r.Err? ==> r.message == MissingRpMessage
  {
    if !IsSet(env.rpId) || !IsSet(env.rpName) || !IsSet(env.origin) then Err(MissingRpMessage)
    else Ok(RpConfig(env.rpId.value, env.rpName.value, env.origin.value))
  }

  /** The lookup both verifications start with: a challenge with this id
      whose expiry is after `now`. */
  predicate Live(rows: map<string, ChallengeRow>, id: string, now: int) {
    id in rows && rows[id].expiresAt > now
  }

  /** A challenge stored at `now` is live exactly until five minutes later. */
  lemma StoredChallengeLifetime(rows: map<string, ChallengeRow>, id: string, challenge: string, now: int, t: int)
    ensures Live(rows[id := ChallengeRow(None, challenge, now + ChallengeTtlMs)], id, t) <==> t < now + 300000
  {
  }

  // ---------------------------------------------------------------------
  // Registration

  /** `getRegistrationOptions`. `challenge` is the one the library
      generates, `now` the clock. The configuration is read before anything
      is stored. */
  method GetRegistrationOptions(env: RpEnv, displayName: string, existingCredentialIds: seq<string>, challenge: string,
                                now: int, challenges: ChallengeTable)
    returns (result: Result<(RegistrationOptions, string)>)
    requires challenges.Valid()
    modifies challenges
    ensures challenges.Valid()
    ensures GetRpConfig(env).Err? ==> result == Err(MissingRpMessage) && challenges.rows == old(challenges.rows)
    ensures GetRpConfig(env).Ok? ==>
      && result.Ok?
      && var rp := GetRpConfig(env).value;
      && var id := result.value.1;
      && result.value.0 == RegistrationOptions(rp.rpName, rp.rpId, displayName, displayName, existingCredentialIds, challenge)
      && id !in old(challenges.rows)
      && challenges.rows == old(challenges.rows)[id := ChallengeRow(None, challenge, now + ChallengeTtlMs)]
  {
    var rp := GetRpConfig(env);
    if rp.Err? {
      return Err(rp.message);
    }
    var options := RegistrationOptions(rp.value.rpName, rp.value.rpId, displayName, displayName, existingCredentialIds,
                                       challenge);
    var id := challenges.Insert(ChallengeRow(None, challenge, now + ChallengeTtlMs));
    result := Ok((options, id));
  }

  /** What a registration verdict of the library makes of the call: its
      error, a failure when it did not verify, or the new credential. */
  function RegistrationOutcome(verdict: Result<Option<NewCredential>>): (r: Result<NewCredential>)
    ensures verdict.Err? ==> r == Err(verdict.message)
    ensures r.Ok? <==> verdict.Ok? && verdict.value.Some?
    ensures r.Ok? ==> r.value == verdict.value.value
    ensures verdict == Ok(None) ==> r == Err(RegistrationFailedMessage)
  {
    match verdict
    case Err(m) => Err(m)
    case Ok(None) => Err(RegistrationFailedMessage)
    case Ok(Some(credential)) => Ok(credential)
  }

  /** `verifyRegistration`. A live challenge is deleted whether or not the
      library then verifies the response; a missing or expired one changes
      nothing. */
  method VerifyRegistration(env: RpEnv, response: CredentialResponse, challengeId: string, now: int,
                            verify: RegistrationCheck -> Result<Option<NewCredential>>, challenges: ChallengeTable)
    returns (result: Result<NewCredential>)
    requires challenges.Valid()
    modifies challenges
    ensures challenges.Valid()
    ensures GetRpConfig(env).Err? ==> result == Err(MissingRpMessage) && challenges.rows == old(challenges.rows)
    ensures GetRpConfig(env).Ok? && !Live(old(challenges.rows), challengeId, now) ==>
      result == Err(ChallengeMissingMessage) && challenges.rows == old(challenges.rows)
    ensures GetRpConfig(env).Ok? && Live(old(challenges.rows), challengeId, now) ==>
      && challenges.rows == old(challenges.rows) - {challengeId}
      && var rp := GetRpConfig(env).value;
      && result == RegistrationOutcome(verify(RegistrationCheck(response, old(challenges.rows)[challengeId].challenge,
                                                                rp.origin, rp.rpId)))
    ensures GetRpConfig(env).Ok? ==> forall t :: t >= now ==> !Live(challenges.rows, challengeId, t)
  {
    var rp := GetRpConfig(env);
    if rp.Err? {
      return Err(rp.message);
    }
    if !Live(challenges.rows, challengeId, now) {
      return Err(ChallengeMissingMessage);
    }
    var row := challenges.rows[challengeId];
    challenges.Delete(challengeId);
    var verdict := verify(RegistrationCheck(response, row.challenge, rp.value.origin, rp.value.rpId));
    result := RegistrationOutcome(verdict);
  }

  // ---------------------------------------------------------------------
  // Authentication

  /** `getAuthenticationOptions`: the same configuration check (all three
      variables, although only the id is used) and a stored challenge. */
  method GetAuthenticationOptions(env: RpEnv, challenge: string, now: int, challenges: ChallengeTable)
    returns (result: Result<(AuthenticationOptions, string)>)
    requires challenges.Valid()
    modifies challenges
    ensures challenges.Valid()
    ensures GetRpConfig(env).Err? ==> result == Err(MissingRpMessage) && challenges.rows == old(challenges.rows)
    ensures GetRpConfig(env).Ok? ==>
      && result.Ok?
      && var id := result.value.1;
      && result.value.0 == AuthenticationOptions(GetRpConfig(env).value.rpId, challenge)
      && id !in old(challenges.rows)
      && challenges.rows == old(challenges.rows)[id := ChallengeRow(None, challenge, now + ChallengeTtlMs)]
  {
    var rp := GetRpConfig(env);
    if rp.Err? {
      return Err(rp.message);
    }
    var id := challenges.Insert(ChallengeRow(None, challenge, now + ChallengeTtlMs));
    result := Ok((AuthenticationOptions(rp.value.rpId, challenge), id));
  }

  /** What a sign-in verdict of the library (the new counter when the
      assertion verified) makes of the call. */
  function AuthenticationOutcome(verdict: Result<Option<int>>, userId: string): (r: Result<string>)
    ensures verdict.Err? ==> r == Err(verdict.message)
    ensures r.Ok? <==> verdict.Ok? && verdict.value.Some?
    ensures r.Ok? ==> r.value == userId
    ensures verdict == Ok(None) ==> r == Err(AuthenticationFailedMessage)
  {
    match verdict
    case Err(m) => Err(m)
    case Ok(None) => Err(AuthenticationFailedMessage)
    case Ok(Some(_)) => Ok(userId)
  }

  /** `verifyAuthentication`. The challenge is consumed as in registration;
      the credential is looked up by the response's id; the counter is
      replaced, and the credential's user returned, only when the library
      verifies the assertion. */
  method VerifyAuthentication(env: RpEnv, response: CredentialResponse, challengeId: string, now: int,
                              verify: AuthenticationCheck -> Result<Option<int>>, challenges: ChallengeTable,
                              credentials: CredentialTable)
    returns (result: Result<string>)
    requires challenges.Valid() && credentials.Valid()
    modifies challenges, credentials
    ensures challenges.Valid() && credentials.Valid()
    ensures GetRpConfig(env).Err? ==>
      result == Err(MissingRpMessage) && challenges.rows == old(challenges.rows)
      && credentials.rows == old(credentials.rows)
    ensures GetRpConfig(env).Ok? && !Live(old(challenges.rows), challengeId, now) ==>
      result == Err(ChallengeMissingMessage) && challenges.rows == old(challenges.rows)
      && credentials.rows == old(credentials.rows)
    ensures GetRpConfig(env).Ok? && Live(old(challenges.rows), challengeId, now) ==>
      challenges.rows == old(challenges.rows) - {challengeId}
    ensures GetRpConfig(env).Ok? && Live(old(challenges.rows), challengeId, now) && response.id !in old(credentials.rows) ==>
      result == Err(CredentialMissingMessage) && credentials.rows == old(credentials.rows)
    ensures GetRpConfig(env).Ok? && Live(old(challenges.rows), challengeId, now) && response.id in old(credentials.rows) ==>
      var rp := GetRpConfig(env).value;
      var stored := old(credentials.rows)[response.id];
      var verdict := verify(AuthenticationCheck(response, old(challenges.rows)[challengeId].challenge, rp.origin, rp.rpId,
                                                response.id, Base64.Decode(stored.publicKey).value, stored.counter,
                                                stored.transports));
      && result == AuthenticationOutcome(verdict, stored.userId)
      && credentials.rows == if result.Ok? then old(credentials.rows)[response.id := stored.(counter := verdict.value.value)]
                             else old(credentials.rows)
    ensures GetRpConfig(env).Ok? ==> forall t :: t >= now ==> !Live(challenges.rows, challengeId, t)
  {
    var rp := GetRpConfig(env);
    if rp.Err? {
      return Err(rp.message);
    }
    if !Live(challenges.rows, challengeId, now) {
      return Err(ChallengeMissingMessage);
    }
    var row := challenges.rows[challengeId];
    challenges.Delete(challengeId);
    if response.id !in credentials.rows {
      return Err(CredentialMissingMessage);
    }
    var stored := credentials.rows[response.id];
    var verdict := verify(AuthenticationCheck(response, row.challenge, rp.value.origin, rp.value.rpId, response.id,
                                              Base64.Decode(stored.publicKey).value, stored.counter, stored.transports));
    result := AuthenticationOutcome(verdict, stored.userId);
    if result.Ok? {
      credentials.SetCounter(response.id, verdict.value.value);
    }
  }
}
