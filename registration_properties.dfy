/**
 * What the registration entry points promise, stated over the specification functions of
 * module Registration: the guard's decision table, and how many calls of each kind reach
 * the collaborators on each path.
 */
module RegistrationProperties {
  import opened Types
  import opened Text
  import opened Registration

  // ---------------------------------------------------------------------------
  // Counting calls in small logs

  lemma CountOne(c: Call)
    ensures forall k :: Count([c], k) == if KindOf(c) == k then 1 else 0
  {
    assert [c][1..] == [];
  }

  lemma CountTwo(a: seq<Call>, b: seq<Call>)
    ensures forall k :: Count(a + b, k) == Count(a, k) + Count(b, k)
  {
    forall k ensures Count(a + b, k) == Count(a, k) + Count(b, k) {
      CountAppend(a, b, k);
    }
  }

  lemma CountThree(a: seq<Call>, b: seq<Call>, c: seq<Call>)
    ensures forall k :: Count(a + b + c, k) == Count(a, k) + Count(b, k) + Count(c, k)
  {
    CountTwo(a + b, c);
    CountTwo(a, b);
  }

  /** The notifications after a successful creation: one Signup event, and one e-mail exactly when there is an initiation path. */
  lemma SignupCallCounts(email: string, initiationPath: Option<string>)
    ensures Count(SignupCalls(email, initiationPath), SignupEvent) == 1
    ensures Count(SignupCalls(email, initiationPath), WelcomeEmail) + Count(SignupCalls(email, initiationPath), TrialEmail)
            == if initiationPath.Some? then 1 else 0
    ensures forall k :: k in {CreateUserCall, OrganizationUserLookup, PolicyLookup, TwoFactorSetup} ==>
              Count(SignupCalls(email, initiationPath), k) == 0
  {
    var calls := SignupCalls(email, initiationPath);
    if initiationPath.Some? {
      assert calls == [calls[0]] + [calls[1]];
      CountTwo([calls[0]], [calls[1]]);
      CountOne(calls[0]);
      CountOne(calls[1]);
    } else {
      CountOne(calls[0]);
    }
  }

  /** The two-factor lookups make no creation and send nothing; the provider is set once exactly when the policy is enforced. */
  lemma TwoFactorCallCounts(orgUserId: Option<Guid>, answers: InviteAnswers)
    ensures Count(TwoFactorCalls(orgUserId, answers), OrganizationUserLookup) == if orgUserId.Some? then 1 else 0
    ensures Count(TwoFactorCalls(orgUserId, answers), PolicyLookup) ==
              if orgUserId.Some? && answers.orgUserLookup.Some? then 1 else 0
    ensures Count(TwoFactorCalls(orgUserId, answers), TwoFactorSetup) == if EnforcesTwoFactor(orgUserId, answers) then 1 else 0
    ensures forall k :: k in {CreateUserCall, WelcomeEmail, TrialEmail, SignupEvent} ==>
              Count(TwoFactorCalls(orgUserId, answers), k) == 0
  {
    var calls := TwoFactorCalls(orgUserId, answers);
    if orgUserId.Some? {
      var first := GetOrganizationUser(orgUserId.value);
      if answers.orgUserLookup.Some? {
        var second := GetTwoFactorPolicy(answers.orgUserLookup.value.organizationId);
        var rest := if EnforcesTwoFactor(orgUserId, answers) then [SetTwoFactorProvider(EmailProvider)] else [];
        assert calls == [first] + [second] + rest;
        CountThree([first], [second], rest);
        CountOne(first);
        CountOne(second);
        if rest != [] { CountOne(rest[0]); }
      } else {
        assert calls == [first];
        CountOne(first);
      }
    }
  }

  /** The log of a registration with an optional invite, split into its three parts. */
  lemma OrgInviteCallCounts(disableUserRegistration: bool, orgInviteToken: Option<string>, orgUserId: Option<Guid>,
                            masterPasswordHash: string, answers: InviteAnswers, user: UserView)
    requires ValidateOrgInvite(disableUserRegistration, orgInviteToken, orgUserId, answers.unprotectedInvite, user.email).None?
    ensures forall k ::
              Count(OrgInviteCalls(disableUserRegistration, orgInviteToken, orgUserId, masterPasswordHash, answers, user), k) ==
              Count(TwoFactorCalls(orgUserId, answers), k)
              + (if k == CreateUserCall then 1 else 0)
              + (if answers.createUserResult.succeeded then Count(SignupCalls(user.email, user.initiationPath), k) else 0)
  {
    var create := CreateUser(user.email, user.name, user.emailVerified, Some(masterPasswordHash));
    var tail := if answers.createUserResult.succeeded then SignupCalls(user.email, user.initiationPath) else [];
    CountThree(TwoFactorCalls(orgUserId, answers), [create], tail);
    CountOne(create);
    assert Count([], CreateUserCall) == 0;
  }

  // ---------------------------------------------------------------------------
  // RegisterUser

  /** Creation is attempted once; the welcome e-mail and the Signup event follow exactly when it succeeds. */
  lemma RegisterUserEffects(user: UserView, createUserResult: IdentityResult)
    ensures Count(RegisterUserCalls(user, createUserResult), CreateUserCall) == 1
    ensures Count(RegisterUserCalls(user, createUserResult), WelcomeEmail) == if createUserResult.succeeded then 1 else 0
    ensures Count(RegisterUserCalls(user, createUserResult), SignupEvent) == if createUserResult.succeeded then 1 else 0
    ensures SendWelcomeEmail(user.email) in RegisterUserCalls(user, createUserResult) <==> createUserResult.succeeded
    ensures !createUserResult.succeeded ==>
              forall c :: c in RegisterUserCalls(user, createUserResult) ==> !c.SendWelcomeEmail? && !c.RaiseSignupEvent?
  {
    var create := CreateUser(user.email, user.name, user.emailVerified, None);
    CountOne(create);
    if createUserResult.succeeded {
      var welcome, event := SendWelcomeEmail(user.email), RaiseSignupEvent(None, None);
      assert RegisterUserCalls(user, createUserResult) == [create] + [welcome] + [event];
      CountThree([create], [welcome], [event]);
      CountOne(welcome);
      CountOne(event);
    } else {
      var calls := RegisterUserCalls(user, createUserResult);
      assert calls == [create];
      CountZeroIffAbsent(calls, WelcomeEmail);
      CountZeroIffAbsent(calls, SignupEvent);
      forall c | c in calls ensures !c.SendWelcomeEmail? && !c.RaiseSignupEvent? {
        var i :| 0 <= i < |calls| && calls[i] == c;
        assert KindOf(calls[i]) != WelcomeEmail && KindOf(calls[i]) != SignupEvent;
      }
    }
  }

  // ---------------------------------------------------------------------------
  // RegisterUserWithOptionalOrgInvite: the guard's decision table

  /** Closed registration: a missing token, a missing organization-user id or a mismatched invite all report that registration is closed. */
  lemma ClosedRegistrationRejectsIncompleteInvite(orgInviteToken: Option<string>, orgUserId: Option<Guid>,
                                                  claim: Option<OrgUserInviteClaim>, email: string)
    requires orgInviteToken.None? || orgUserId.None? || !InviteMatches(orgUserId.value, claim, email)
    ensures ValidateOrgInvite(true, orgInviteToken, orgUserId, claim, email) == Some(DisabledRegistrationMessage)
  {
  }

  /** Open registration: an organization-user id without a token is refused with its own message. */
  lemma OpenRegistrationRejectsIdWithoutToken(orgUserId: Guid, claim: Option<OrgUserInviteClaim>, email: string)
    ensures ValidateOrgInvite(false, None, Some(orgUserId), claim, email) == Some(OrgUserIdWithoutTokenMessage)
  {
  }

  /** Open registration: a token without an organization-user id is refused with its own message. */
  lemma OpenRegistrationRejectsTokenWithoutId(orgInviteToken: string, claim: Option<OrgUserInviteClaim>, email: string)
    ensures ValidateOrgInvite(false, Some(orgInviteToken), None, claim, email) == Some(TokenWithoutOrgUserIdMessage)
  {
  }

  /** Open registration: a complete invite whose claim does not match the user is an invalid token. */
  lemma OpenRegistrationRejectsMismatchedInvite(orgInviteToken: string, orgUserId: Guid,
                                                claim: Option<OrgUserInviteClaim>, email: string)
    requires !InviteMatches(orgUserId, claim, email)
    ensures ValidateOrgInvite(false, Some(orgInviteToken), Some(orgUserId), claim, email) == Some(InvalidInviteTokenMessage)
  {
  }

  /** An invite addressed to the user's e-mail in another letter case still matches. */
  lemma InviteMatchIgnoresCase(orgUserId: Guid, inviteEmail: string, email: string)
    requires ToLower(inviteEmail) == ToLower(email)
    ensures InviteMatches(orgUserId, Some(OrgUserInviteClaim(orgUserId, Some(inviteEmail))), email)
  {
  }

  /** An invite whose organization user has no e-mail never matches. */
  lemma InviteWithoutEmailNeverMatches(orgUserId: Guid, claimedOrgUserId: Guid, email: string)
    ensures !InviteMatches(orgUserId, Some(OrgUserInviteClaim(claimedOrgUserId, None)), email)
  {
  }

  /** A rejected attempt touches neither the user nor any collaborator. */
  lemma RejectedInviteHasNoEffects(disableUserRegistration: bool, orgInviteToken: Option<string>, orgUserId: Option<Guid>,
                                   masterPasswordHash: string, answers: InviteAnswers, user: UserView)
    requires ValidateOrgInvite(disableUserRegistration, orgInviteToken, orgUserId, answers.unprotectedInvite, user.email).Some?
    ensures OrgInviteOutcome(disableUserRegistration, orgInviteToken, orgUserId, answers, user).BadRequest?
    ensures OrgInviteUser(disableUserRegistration, orgInviteToken, orgUserId, answers, user) == user
    ensures OrgInviteCalls(disableUserRegistration, orgInviteToken, orgUserId, masterPasswordHash, answers, user) == []
  {
  }

  // ---------------------------------------------------------------------------
  // RegisterUserWithOptionalOrgInvite: effects of an accepted attempt

  /** Open registration without any invite data: no lookup, one creation, and one Signup event when it succeeds. */
  lemma OpenRegistrationWithoutInvite(masterPasswordHash: string, answers: InviteAnswers, user: UserView)
    ensures OrgInviteOutcome(false, None, None, answers, user) == Completed(answers.createUserResult)
    ensures OrgInviteUser(false, None, None, answers, user) == user
    ensures Count(OrgInviteCalls(false, None, None, masterPasswordHash, answers, user), OrganizationUserLookup) == 0
    ensures Count(OrgInviteCalls(false, None, None, masterPasswordHash, answers, user), CreateUserCall) == 1
    ensures CreateUser(user.email, user.name, user.emailVerified, Some(masterPasswordHash))
              in OrgInviteCalls(false, None, None, masterPasswordHash, answers, user)
    ensures Count(OrgInviteCalls(false, None, None, masterPasswordHash, answers, user), SignupEvent)
            == if answers.createUserResult.succeeded then 1 else 0
  {
    OrgInviteCallCounts(false, None, None, masterPasswordHash, answers, user);
    TwoFactorCallCounts(None, answers);
    assert OrgInviteCalls(false, None, None, masterPasswordHash, answers, user)[0]
           == CreateUser(user.email, user.name, user.emailVerified, Some(masterPasswordHash));
    SignupCallCounts(user.email, user.initiationPath);
  }

  /**
   * A valid invite is accepted whether or not open registration is disabled. The invited
   * organization user is looked up once, its organization's policy once when it exists, and an
   * enforced policy sets an enabled e-mail provider whose metadata holds the lower-cased e-mail.
   */
  lemma ValidInviteAccepted(disableUserRegistration: bool, orgInviteToken: string, orgUserId: Guid,
                            masterPasswordHash: string, answers: InviteAnswers, user: UserView)
    requires InviteMatches(orgUserId, answers.unprotectedInvite, user.email)
    ensures OrgInviteOutcome(disableUserRegistration, Some(orgInviteToken), Some(orgUserId), answers, user)
            == Completed(answers.createUserResult)
    ensures Count(OrgInviteCalls(disableUserRegistration, Some(orgInviteToken), Some(orgUserId), masterPasswordHash, answers, user),
                  OrganizationUserLookup) == 1
    ensures Count(OrgInviteCalls(disableUserRegistration, Some(orgInviteToken), Some(orgUserId), masterPasswordHash, answers, user),
                  PolicyLookup) == if answers.orgUserLookup.Some? then 1 else 0
    ensures Count(OrgInviteCalls(disableUserRegistration, Some(orgInviteToken), Some(orgUserId), masterPasswordHash, answers, user),
                  TwoFactorSetup) == if EnforcesTwoFactor(Some(orgUserId), answers) then 1 else 0
    ensures Count(OrgInviteCalls(disableUserRegistration, Some(orgInviteToken), Some(orgUserId), masterPasswordHash, answers, user),
                  CreateUserCall) == 1
    ensures var calls := OrgInviteCalls(disableUserRegistration, Some(orgInviteToken), Some(orgUserId), masterPasswordHash, answers, user);
            && GetOrganizationUser(orgUserId) in calls
            && (answers.orgUserLookup.Some? ==> GetTwoFactorPolicy(answers.orgUserLookup.value.organizationId) in calls)
            && CreateUser(user.email, user.name, user.emailVerified, Some(masterPasswordHash)) in calls
    ensures EnforcesTwoFactor(Some(orgUserId), answers) ==>
              var after := OrgInviteUser(disableUserRegistration, Some(orgInviteToken), Some(orgUserId), answers, user);
              && after.twoFactorProviders.Keys == {EmailProvider}
              && after.twoFactorProviders[EmailProvider].enabled
              && after.twoFactorProviders[EmailProvider].metaData == map[EmailMetaDataKey := ToLower(user.email)]
              && ToLower(after.twoFactorProviders[EmailProvider].metaData[EmailMetaDataKey]) == ToLower(user.email)
  {
    var token, id := Some(orgInviteToken), Some(orgUserId);
    var calls := OrgInviteCalls(disableUserRegistration, token, id, masterPasswordHash, answers, user);
    var twoFactor := TwoFactorCalls(id, answers);
    var create := CreateUser(user.email, user.name, user.emailVerified, Some(masterPasswordHash));
    assert calls == twoFactor + [create] + (if answers.createUserResult.succeeded then SignupCalls(user.email, user.initiationPath) else []);
    assert twoFactor[0] == GetOrganizationUser(orgUserId) && calls[0] == twoFactor[0];
    if answers.orgUserLookup.Some? {
      assert calls[1] == twoFactor[1] == GetTwoFactorPolicy(answers.orgUserLookup.value.organizationId);
    }
    assert calls[|twoFactor|] == create;
    ToLowerIdempotent(user.email);
    OrgInviteCallCounts(disableUserRegistration, token, id, masterPasswordHash, answers, user);
    TwoFactorCallCounts(id, answers);
    SignupCallCounts(user.email, user.initiationPath);
  }

  /**
   * After a successful creation the e-mail follows the initiation path: a path containing
   * "Secrets Manager trial" sends the trial e-mail and no welcome e-mail, any other path the
   * welcome e-mail and no trial e-mail; the Signup event carries the path.
   */
  lemma InitiationPathChoosesEmail(disableUserRegistration: bool, orgInviteToken: Option<string>, orgUserId: Option<Guid>,
                                   masterPasswordHash: string, answers: InviteAnswers, user: UserView, path: string)
    requires ValidateOrgInvite(disableUserRegistration, orgInviteToken, orgUserId, answers.unprotectedInvite, user.email).None?
    requires answers.createUserResult.succeeded
    requires user.initiationPath == Some(path)
    ensures var calls := OrgInviteCalls(disableUserRegistration, orgInviteToken, orgUserId, masterPasswordHash, answers, user);
            && RaiseSignupEvent(Some(path), None) in calls
            && Count(calls, SignupEvent) == 1
            && (Contains(path, SecretsManagerTrialPath) ==>
                  && SendTrialInitiationEmail(user.email) in calls
                  && Count(calls, TrialEmail) == 1
                  && Count(calls, WelcomeEmail) == 0)
            && (!Contains(path, SecretsManagerTrialPath) ==>
                  && SendWelcomeEmail(user.email) in calls
                  && Count(calls, WelcomeEmail) == 1
                  && Count(calls, TrialEmail) == 0)
  {
    var calls := OrgInviteCalls(disableUserRegistration, orgInviteToken, orgUserId, masterPasswordHash, answers, user);
    var signup := SignupCalls(user.email, user.initiationPath);
    var prefix := TwoFactorCalls(orgUserId, answers) + [CreateUser(user.email, user.name, user.emailVerified, Some(masterPasswordHash))];
    assert calls == prefix + signup;
    assert signup[0] in calls && signup[1] in calls by {
      assert calls[|prefix|] == signup[0] && calls[|prefix| + 1] == signup[1];
    }
    OrgInviteCallCounts(disableUserRegistration, orgInviteToken, orgUserId, masterPasswordHash, answers, user);
    TwoFactorCallCounts(orgUserId, answers);
    assert signup == [signup[0]] + [signup[1]];
    CountTwo([signup[0]], [signup[1]]);
    CountOne(signup[0]);
    CountOne(signup[1]);
  }

  /** Without an initiation path a successful registration sends no e-mail and raises a Signup event without a path. */
  lemma NoInitiationPathSendsNoEmail(disableUserRegistration: bool, orgInviteToken: Option<string>, orgUserId: Option<Guid>,
                                     masterPasswordHash: string, answers: InviteAnswers, user: UserView)
    requires ValidateOrgInvite(disableUserRegistration, orgInviteToken, orgUserId, answers.unprotectedInvite, user.email).None?
    requires answers.createUserResult.succeeded
    requires user.initiationPath.None?
    ensures var calls := OrgInviteCalls(disableUserRegistration, orgInviteToken, orgUserId, masterPasswordHash, answers, user);
            && RaiseSignupEvent(None, None) in calls
            && Count(calls, WelcomeEmail) == 0
            && Count(calls, TrialEmail) == 0
  {
    var calls := OrgInviteCalls(disableUserRegistration, orgInviteToken, orgUserId, masterPasswordHash, answers, user);
    var prefix := TwoFactorCalls(orgUserId, answers) + [CreateUser(user.email, user.name, user.emailVerified, Some(masterPasswordHash))];
    assert calls == prefix + [RaiseSignupEvent(None, None)];
    assert calls[|prefix|] == RaiseSignupEvent(None, None);
    OrgInviteCallCounts(disableUserRegistration, orgInviteToken, orgUserId, masterPasswordHash, answers, user);
    TwoFactorCallCounts(orgUserId, answers);
    SignupCallCounts(user.email, user.initiationPath);
  }

  /** For every input: at most one creation, and a Signup event exactly when the registration completed successfully. */
  lemma OrgInviteSignupIffSucceeded(disableUserRegistration: bool, orgInviteToken: Option<string>, orgUserId: Option<Guid>,
                                    masterPasswordHash: string, answers: InviteAnswers, user: UserView)
    ensures var calls := OrgInviteCalls(disableUserRegistration, orgInviteToken, orgUserId, masterPasswordHash, answers, user);
            && Count(calls, CreateUserCall) <= 1
            && Count(calls, SignupEvent) <= 1
            && (Count(calls, SignupEvent) == 1 <==>
                  OrgInviteOutcome(disableUserRegistration, orgInviteToken, orgUserId, answers, user) == Completed(IdentityResult(true)))
  {
    if ValidateOrgInvite(disableUserRegistration, orgInviteToken, orgUserId, answers.unprotectedInvite, user.email).None? {
      OrgInviteCallCounts(disableUserRegistration, orgInviteToken, orgUserId, masterPasswordHash, answers, user);
      TwoFactorCallCounts(orgUserId, answers);
      SignupCallCounts(user.email, user.initiationPath);
    }
  }

  // ---------------------------------------------------------------------------
  // RegisterUserViaEmailVerificationToken

  /**
   * A token whose claim matches the user's e-mail creates the user once, with a verified
   * address and the claimed name; on success one welcome e-mail and one Signup event carrying
   * the claim's marketing preference follow.
   */
  lemma EmailVerificationAccepted(claim: EmailVerificationClaim, masterPasswordHash: string,
                                  createUserResult: IdentityResult, user: UserView)
    requires EqualsIgnoreCase(claim.email, user.email)
    ensures EmailVerificationOutcome(Some(claim), createUserResult, user) == Completed(createUserResult)
    ensures EmailVerificationUser(Some(claim), user) == user.(emailVerified := true, name := claim.name)
    ensures var calls := EmailVerificationCalls(Some(claim), masterPasswordHash, createUserResult, user);
            && calls[0] == CreateUser(user.email, claim.name, true, Some(masterPasswordHash))
            && Count(calls, CreateUserCall) == 1
            && Count(calls, WelcomeEmail) == (if createUserResult.succeeded then 1 else 0)
            && Count(calls, SignupEvent) == (if createUserResult.succeeded then 1 else 0)
            && (createUserResult.succeeded ==> RaiseSignupEvent(None, Some(claim.receiveMarketingEmails)) in calls)
  {
    var create := CreateUser(user.email, claim.name, true, Some(masterPasswordHash));
    var welcome, event := SendWelcomeEmail(user.email), RaiseSignupEvent(None, Some(claim.receiveMarketingEmails));
    CountOne(create);
    if createUserResult.succeeded {
      assert EmailVerificationCalls(Some(claim), masterPasswordHash, createUserResult, user) == [create] + [welcome] + [event];
      CountThree([create], [welcome], [event]);
      CountOne(welcome);
      CountOne(event);
    } else {
      assert EmailVerificationCalls(Some(claim), masterPasswordHash, createUserResult, user) == [create];
    }
  }

  /** A token for another e-mail (or one that cannot be unprotected) is refused: nothing is created, sent or changed. */
  lemma EmailVerificationRejected(claim: Option<EmailVerificationClaim>, masterPasswordHash: string,
                                  createUserResult: IdentityResult, user: UserView)
    requires claim.None? || !EqualsIgnoreCase(claim.value.email, user.email)
    ensures EmailVerificationOutcome(claim, createUserResult, user) == BadRequest(InvalidEmailVerificationTokenMessage)
    ensures EmailVerificationUser(claim, user) == user
    ensures EmailVerificationCalls(claim, masterPasswordHash, createUserResult, user) == []
  {
  }
}
