/**
 * User registration: plain registration, registration with an optional organization invite,
 * and registration through an e-mail verification token. The redemption guard decides from
 * the open-registration switch, the invite token, the organization-user id and the invite's
 * claim whether registration may proceed and, if not, which error message is raised.
 * Collaborators (token unprotection, repositories, user creation, mail, reference events) are
 * represented by their answers, passed in, and by the calls made to them, kept in a log.
 */
module Registration {
  import opened Types
  import opened Text

  const DisabledRegistrationMessage: string := "Open registration has been disabled by the system administrator."
  const OrgUserIdWithoutTokenMessage: string := "Organization user id cannot be provided without an organization invite token."
  const TokenWithoutOrgUserIdMessage: string := "Organization invite token cannot be validated without an organization user id."
  const InvalidInviteTokenMessage: string := "Organization invite token is invalid."
  const InvalidEmailVerificationTokenMessage: string := "Invalid email verification token."

  /** An initiation path containing this text comes from the Secrets Manager trial sign-up. */
  const SecretsManagerTrialPath: string := "Secrets Manager trial"

  /** The claim carried by an organization invite token. */
  datatype OrgUserInviteClaim = OrgUserInviteClaim(orgUserId: Guid, orgUserEmail: Option<string>)

  /** The claim carried by a registration e-mail verification token. */
  datatype EmailVerificationClaim = EmailVerificationClaim(email: string, name: string, receiveMarketingEmails: bool)

  datatype OrganizationUser = OrganizationUser(id: Guid, organizationId: Guid, email: Option<string>)

  /** An organization's two-factor-authentication policy. */
  datatype Policy = Policy(enabled: bool)

  /** A `TwoFactorProviderType` enum value, as its code. */
  newtype TwoFactorProviderType = x: int | 0 <= x < 256

  /** The e-mail provider, serialized under key 1. */
  const EmailProvider: TwoFactorProviderType := 1

  const EmailMetaDataKey: string := "Email"

  datatype TwoFactorProvider = TwoFactorProvider(enabled: bool, metaData: map<string, string>)

  datatype IdentityResult = IdentityResult(succeeded: bool)

  /** What a registration entry point yields: a `BadRequestException` with its message, or the identity result. */
  datatype Outcome = BadRequest(message: string) | Completed(result: IdentityResult)

  /** The answers the collaborators give during one registration with an optional invite. */
  datatype InviteAnswers = InviteAnswers(
    unprotectedInvite: Option<OrgUserInviteClaim>,  // what unprotecting the invite token yields, if it succeeds
    orgUserLookup: Option<OrganizationUser>,         // the organization user stored under the given id
    twoFactorPolicyLookup: Option<Policy>,           // the two-factor policy of that user's organization
    createUserResult: IdentityResult)

  /** A call made to a collaborator. `CreateUser` records the user as it was handed over. */
  datatype Call =
    | CreateUser(email: string, name: string, emailVerified: bool, masterPasswordHash: Option<string>)
    | GetOrganizationUser(orgUserId: Guid)
    | GetTwoFactorPolicy(organizationId: Guid)
    | SetTwoFactorProvider(provider: TwoFactorProviderType)
    | SendWelcomeEmail(email: string)
    | SendTrialInitiationEmail(email: string)
    | RaiseSignupEvent(initiationPath: Option<string>, receiveMarketingEmails: Option<bool>)

  datatype CallKind =
    | CreateUserCall | OrganizationUserLookup | PolicyLookup | TwoFactorSetup
    | WelcomeEmail | TrialEmail | SignupEvent

  function KindOf(c: Call): CallKind {
    match c
    case CreateUser(_, _, _, _) => CreateUserCall
    case GetOrganizationUser(_) => OrganizationUserLookup
    case GetTwoFactorPolicy(_) => PolicyLookup
    case SetTwoFactorProvider(_) => TwoFactorSetup
    case SendWelcomeEmail(_) => WelcomeEmail
    case SendTrialInitiationEmail(_) => TrialEmail
    case RaiseSignupEvent(_, _) => SignupEvent
  }

  /** How many calls of kind `k` the log holds. */
  function Count(calls: seq<Call>, k: CallKind): (n: nat)
  {
    if calls == [] then 0
    else (if KindOf(calls[0]) == k then 1 else 0) + Count(calls[1..], k)
  }

  /** No call of kind `k` is logged exactly when the count is zero. */
  lemma {:induction false} CountZeroIffAbsent(calls: seq<Call>, k: CallKind)
    ensures Count(calls, k) == 0 <==> forall i :: 0 <= i < |calls| ==> KindOf(calls[i]) != k
  {
    if calls != [] {
      CountZeroIffAbsent(calls[1..], k);
      assert forall i :: 1 <= i < |calls| ==> calls[i] == calls[1..][i - 1];
    }
  }

  lemma {:induction false} CountAppend(a: seq<Call>, b: seq<Call>, k: CallKind)
    ensures Count(a + b, k) == Count(a, k) + Count(b, k)
  {
    if a == [] {
      assert a + b == b;
    } else {
      assert (a + b)[1..] == a[1..] + b;
      CountAppend(a[1..], b, k);
    }
  }

  /** The user fields the registration flow reads or writes. */
  datatype UserView = UserView(
    email: string,
    name: string,
    emailVerified: bool,
    initiationPath: Option<string>,  // the "initiationPath" entry of the user's reference data
    twoFactorProviders: map<TwoFactorProviderType, TwoFactorProvider>)

  class User {
    var email: string
    var name: string
    var emailVerified: bool
    var initiationPath: Option<string>
    var twoFactorProviders: map<TwoFactorProviderType, TwoFactorProvider>

    constructor (email: string, name: string, initiationPath: Option<string>)
      ensures View() == UserView(email, name, false, initiationPath, map[])
    {
      this.email, this.name, this.initiationPath := email, name, initiationPath;
      emailVerified, twoFactorProviders := false, map[];
    }

    function View(): UserView
      reads this
    {
      UserView(email, name, emailVerified, initiationPath, twoFactorProviders)
    }
  }

  // ---------------------------------------------------------------------------
  // Redemption guard for the organization invite

  /**
   * The invite claim names this organization user and is addressed to `email`: a claim for
   * another organization user, or whose organization user has no e-mail, never matches, and a
   * claim built from this organization user with the registering e-mail always does.
   */
  function InviteMatches(orgUserId: Guid, claim: Option<OrgUserInviteClaim>, email: string): (r: bool)
    ensures r ==> claim.Some? && claim.value.orgUserId == orgUserId
    ensures r ==> claim.value.orgUserEmail.Some? && EqualsIgnoreCase(claim.value.orgUserEmail.value, email)
    ensures claim == Some(OrgUserInviteClaim(orgUserId, Some(email))) ==> r
  {
    && claim.Some?
    && claim.value.orgUserId == orgUserId
    && claim.value.orgUserEmail.Some?
    && EqualsIgnoreCase(claim.value.orgUserEmail.value, email)
  }

  /** Both halves of the invite are supplied and the claim matches the registering user. */
  predicate ValidInvite(orgInviteToken: Option<string>, orgUserId: Option<Guid>, claim: Option<OrgUserInviteClaim>, email: string) {
    orgInviteToken.Some? && orgUserId.Some? && InviteMatches(orgUserId.value, claim, email)
  }

  /**
   * The guard run before anything else: `None` lets registration proceed, `Some(m)` raises
   * a bad request with message `m`. Registration proceeds exactly for a valid invite, or for
   * open registration without any invite data; a closed registration reports only that it is closed.
   */
  function ValidateOrgInvite(disableUserRegistration: bool, orgInviteToken: Option<string>, orgUserId: Option<Guid>,
                             claim: Option<OrgUserInviteClaim>, email: string): (r: Option<string>)
    ensures r.None? <==>
              || ValidInvite(orgInviteToken, orgUserId, claim, email)
              || (!disableUserRegistration && orgInviteToken.None? && orgUserId.None?)
    ensures disableUserRegistration && r.Some? ==> r.value == DisabledRegistrationMessage
    ensures !disableUserRegistration && r.Some? ==>
              r.value == (if orgInviteToken.None? then OrgUserIdWithoutTokenMessage
                          else if orgUserId.None? then TokenWithoutOrgUserIdMessage
                          else InvalidInviteTokenMessage)
  {
    if orgInviteToken.Some? && orgUserId.Some? then
      if InviteMatches(orgUserId.value, claim, email) then None
      else if disableUserRegistration then Some(DisabledRegistrationMessage)
      else Some(InvalidInviteTokenMessage)
    else if disableUserRegistration then Some(DisabledRegistrationMessage)
    else if orgInviteToken.Some? then Some(TokenWithoutOrgUserIdMessage)
    else if orgUserId.Some? then Some(OrgUserIdWithoutTokenMessage)
    else None
  }

  // ---------------------------------------------------------------------------
  // Specification of the effects of each entry point

  /** The provider set given to a user of an organization that enforces two-factor authentication. */
  function EmailTwoFactorProviders(email: string): map<TwoFactorProviderType, TwoFactorProvider> {
    map[EmailProvider := TwoFactorProvider(true, map[EmailMetaDataKey := ToLower(email)])]
  }

  /** The organization user was found and its organization's two-factor policy is enabled. */
  predicate EnforcesTwoFactor(orgUserId: Option<Guid>, answers: InviteAnswers) {
    && orgUserId.Some?
    && answers.orgUserLookup.Some?
    && answers.twoFactorPolicyLookup.Some?
    && answers.twoFactorPolicyLookup.value.enabled
  }

  /** The lookups made for the two-factor policy, and its setup when the policy is enabled. */
  function TwoFactorCalls(orgUserId: Option<Guid>, answers: InviteAnswers): seq<Call> {
    if orgUserId.None? then []
    else
      [GetOrganizationUser(orgUserId.value)] +
      match answers.orgUserLookup
      case None => []
      case Some(orgUser) =>
        [GetTwoFactorPolicy(orgUser.organizationId)] +
        (if EnforcesTwoFactor(orgUserId, answers) then [SetTwoFactorProvider(EmailProvider)] else [])
  }

  /** After a successful creation: the welcome or trial e-mail, then the Signup event carrying the path. */
  function SignupCalls(email: string, initiationPath: Option<string>): seq<Call> {
    match initiationPath
    case None => [RaiseSignupEvent(None, None)]
    case Some(path) =>
      [if Contains(path, SecretsManagerTrialPath) then SendTrialInitiationEmail(email) else SendWelcomeEmail(email),
       RaiseSignupEvent(Some(path), None)]
  }

  function RegisterUserCalls(user: UserView, createUserResult: IdentityResult): seq<Call> {
    [CreateUser(user.email, user.name, user.emailVerified, None)] +
    (if createUserResult.succeeded then [SendWelcomeEmail(user.email), RaiseSignupEvent(None, None)] else [])
  }

  function OrgInviteOutcome(disableUserRegistration: bool, orgInviteToken: Option<string>, orgUserId: Option<Guid>,
                            answers: InviteAnswers, user: UserView): (r: Outcome)
    ensures r.BadRequest? <==> ValidateOrgInvite(disableUserRegistration, orgInviteToken, orgUserId, answers.unprotectedInvite, user.email).Some?
    ensures r.BadRequest? ==>
              r.message == ValidateOrgInvite(disableUserRegistration, orgInviteToken, orgUserId, answers.unprotectedInvite, user.email).value
    ensures r.Completed? ==> r.result == answers.createUserResult
  {
    match ValidateOrgInvite(disableUserRegistration, orgInviteToken, orgUserId, answers.unprotectedInvite, user.email)
    case Some(message) => BadRequest(message)
    case None => Completed(answers.createUserResult)
  }

  function OrgInviteUser(disableUserRegistration: bool, orgInviteToken: Option<string>, orgUserId: Option<Guid>,
                         answers: InviteAnswers, user: UserView): UserView {
    if ValidateOrgInvite(disableUserRegistration, orgInviteToken, orgUserId, answers.unprotectedInvite, user.email).None?
       && EnforcesTwoFactor(orgUserId, answers)
    then user.(twoFactorProviders := EmailTwoFactorProviders(user.email))
    else user
  }

  function OrgInviteCalls(disableUserRegistration: bool, orgInviteToken: Option<string>, orgUserId: Option<Guid>,
                          masterPasswordHash: string, answers: InviteAnswers, user: UserView): seq<Call> {
    if ValidateOrgInvite(disableUserRegistration, orgInviteToken, orgUserId, answers.unprotectedInvite, user.email).Some? then []
    else
      TwoFactorCalls(orgUserId, answers) +
      [CreateUser(user.email, user.name, user.emailVerified, Some(masterPasswordHash))] +
      (if answers.createUserResult.succeeded then SignupCalls(user.email, user.initiationPath) else [])
  }

  /** Unprotecting succeeded and the verified address is the one being registered. */
  function ValidateEmailVerificationToken(claim: Option<EmailVerificationClaim>, email: string): (r: Result<EmailVerificationClaim, string>)
    ensures r.Success? <==> claim.Some? && EqualsIgnoreCase(claim.value.email, email)
    ensures r.Success? ==> r.value == claim.value
    ensures r.Failure? ==> r.error == InvalidEmailVerificationTokenMessage
  {
    if claim.Some? && EqualsIgnoreCase(claim.value.email, email) then Success(claim.value)
    else Failure(InvalidEmailVerificationTokenMessage)
  }

  function EmailVerificationOutcome(claim: Option<EmailVerificationClaim>, createUserResult: IdentityResult, user: UserView): (r: Outcome)
    ensures r.BadRequest? <==> ValidateEmailVerificationToken(claim, user.email).Failure?
    ensures r.BadRequest? ==> r.message == InvalidEmailVerificationTokenMessage
    ensures r.Completed? ==> r.result == createUserResult
  {
    match ValidateEmailVerificationToken(claim, user.email)
    case Failure(message) => BadRequest(message)
    case Success(_) => Completed(createUserResult)
  }

  function EmailVerificationUser(claim: Option<EmailVerificationClaim>, user: UserView): UserView {
    match ValidateEmailVerificationToken(claim, user.email)
    case Failure(_) => user
    case Success(c) => user.(emailVerified := true, name := c.name)
  }

  function EmailVerificationCalls(claim: Option<EmailVerificationClaim>, masterPasswordHash: string,
                                  createUserResult: IdentityResult, user: UserView): seq<Call> {
    match ValidateEmailVerificationToken(claim, user.email)
    case Failure(_) => []
    case Success(c) =>
      [CreateUser(user.email, c.name, true, Some(masterPasswordHash))] +
      (if createUserResult.succeeded
       then [SendWelcomeEmail(user.email), RaiseSignupEvent(None, Some(c.receiveMarketingEmails))]
       else [])
  }

  // ---------------------------------------------------------------------------
  // The command

  class RegisterUserCommand {
    /** The `DisableUserRegistration` global setting. */
    const disableUserRegistration: bool
    /** Every call made to a collaborator, in order. */
    ghost var calls: seq<Call>

    constructor (disableUserRegistration: bool)
      ensures this.disableUserRegistration == disableUserRegistration && calls == []
    {
      this.disableUserRegistration := disableUserRegistration;
      calls := [];
    }

    /** Creates the user; on success sends the welcome e-mail and raises the Signup event. */
    method RegisterUser(user: User, createUserResult: IdentityResult) returns (r: IdentityResult)
      modifies this`calls
      ensures r == createUserResult
      ensures calls == old(calls) + RegisterUserCalls(user.View(), createUserResult)
    {
      calls := calls + [CreateUser(user.email, user.name, user.emailVerified, None)];
      r := createUserResult;
      if r.succeeded {
        calls := calls + [SendWelcomeEmail(user.email)];
        calls := calls + [RaiseSignupEvent(None, None)];
      }
    }

    /**
     * Runs the invite guard, enrols the user in e-mail two-factor authentication when the
     * inviting organization requires it, creates the user and, on success, sends the e-mail
     * chosen by the initiation path and raises the Signup event.
     */
    method RegisterUserWithOptionalOrgInvite(user: User, masterPasswordHash: string, orgInviteToken: Option<string>,
                                             orgUserId: Option<Guid>, answers: InviteAnswers) returns (r: Outcome)
      modifies this`calls, user
      ensures r == OrgInviteOutcome(disableUserRegistration, orgInviteToken, orgUserId, answers, old(user.View()))
      ensures user.View() == OrgInviteUser(disableUserRegistration, orgInviteToken, orgUserId, answers, old(user.View()))
      ensures calls == old(calls) + OrgInviteCalls(disableUserRegistration, orgInviteToken, orgUserId,
                                                   masterPasswordHash, answers, old(user.View()))
    {
      var error := ValidateOrgInvite(disableUserRegistration, orgInviteToken, orgUserId, answers.unprotectedInvite, user.email);
      if error.Some? {
        return BadRequest(error.value);
      }
      SetEmailTwoFactorIfPolicyEnabled(user, orgUserId, answers);
      calls := calls + [CreateUser(user.email, user.name, user.emailVerified, Some(masterPasswordHash))];
      r := Completed(answers.createUserResult);
      if answers.createUserResult.succeeded {
        SendSignupNotifications(user);
      }
    }

    /** Looks up the invited organization user and its organization's two-factor policy, enrolling the user when it is enabled. */
    method SetEmailTwoFactorIfPolicyEnabled(user: User, orgUserId: Option<Guid>, answers: InviteAnswers)
      modifies this`calls, user`twoFactorProviders
      ensures calls == old(calls) + TwoFactorCalls(orgUserId, answers)
      ensures user.twoFactorProviders ==
                if EnforcesTwoFactor(orgUserId, answers) then EmailTwoFactorProviders(user.email)
                else old(user.twoFactorProviders)
    {
      if orgUserId.Some? {
        calls := calls + [GetOrganizationUser(orgUserId.value)];
        if answers.orgUserLookup.Some? {
          calls := calls + [GetTwoFactorPolicy(answers.orgUserLookup.value.organizationId)];
          var policy := answers.twoFactorPolicyLookup;
          if policy.Some? && policy.value.enabled {
            user.twoFactorProviders := EmailTwoFactorProviders(user.email);
            calls := calls + [SetTwoFactorProvider(EmailProvider)];
          }
        }
      }
    }

    /** Sends the e-mail the initiation path calls for and raises the Signup event carrying the path. */
    method SendSignupNotifications(user: User)
      modifies this`calls
      ensures calls == old(calls) + SignupCalls(user.email, user.initiationPath)
    {
      match user.initiationPath {
        case None =>
        case Some(path) =>
          if Contains(path, SecretsManagerTrialPath) {
            calls := calls + [SendTrialInitiationEmail(user.email)];
          } else {
            calls := calls + [SendWelcomeEmail(user.email)];
          }
      }
      calls := calls + [RaiseSignupEvent(user.initiationPath, None)];
    }

    /**
     * Redeems an e-mail verification token: the user is created with a verified address and
     * the name from the token; on success the welcome e-mail is sent and the Signup event
     * carries the marketing preference from the token.
     */
    method RegisterUserViaEmailVerificationToken(user: User, masterPasswordHash: string,
                                                 unprotectedClaim: Option<EmailVerificationClaim>,
                                                 createUserResult: IdentityResult) returns (r: Outcome)
      modifies this`calls, user
      ensures r == EmailVerificationOutcome(unprotectedClaim, createUserResult, old(user.View()))
      ensures user.View() == EmailVerificationUser(unprotectedClaim, old(user.View()))
      ensures calls == old(calls) + EmailVerificationCalls(unprotectedClaim, masterPasswordHash, createUserResult, old(user.View()))
    {
      var token := ValidateEmailVerificationToken(unprotectedClaim, user.email);
      if token.Failure? {
        return BadRequest(token.error);
      }

      user.emailVerified := true;
      user.name := token.value.name;

      calls := calls + [CreateUser(user.email, user.name, user.emailVerified, Some(masterPasswordHash))];
      r := Completed(createUserResult);
      if createUserResult.succeeded {
        calls := calls + [SendWelcomeEmail(user.email)];
        calls := calls + [RaiseSignupEvent(None, Some(token.value.receiveMarketingEmails))];
      }
    }
  }
}
