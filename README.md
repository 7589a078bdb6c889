# Authentication requests and user registration, modelled in Dafny

This project models two small pieces of the server's authentication code and proves what they promise.

**Authentication requests** (`AuthRequests`, file `auth_request.dfy`). An `AuthRequest` is the record a new device creates when it asks an already-authenticated device to approve a login. It is modelled as a class with the entity's settable properties. `SetNewId` assigns the identifier in place. `GetExpirationDate` gives the fixed 15-minute window after `CreationDate`. `IsSpent` says whether the request can no longer be used. That holds once it has a response date or an authentication date, or once its window closed strictly before "now". `DateTime` values are tick counts bounded by `DateTime.MaxValue`. "Now" is a parameter. `AddMinutes` throws when the result would pass `DateTime.MaxValue`, and the model returns that exception as a `Failure`. Because `||` short-circuits, a request with a response or authentication date never reaches the expiry computation and never throws.

**Registration** (`Registration`, `RegistrationProperties`, files `registration.dfy` and `registration_properties.dfy`). `RegisterUserCommand` has three entry points:
- plain registration;
- registration with an optional organization invite;
- registration through an e-mail verification token.

The command's implementation is not part of this model. Its behaviour is the one its unit tests fix. The redemption guard `ValidateOrgInvite` decides from four inputs whether registration proceeds, and otherwise which `BadRequestException` message is raised:
- the `DisableUserRegistration` setting;
- whether an invite token is present;
- whether an organization-user id is present;
- whether the unprotected invite claim names that organization user and the registering e-mail, ignoring case.

On success the user may be enrolled in e-mail two-factor authentication, when the inviting organization's policy requires it. The user is then created, and the welcome or Secrets Manager trial e-mail and the Signup reference event follow. Collaborators are represented in two ways:
- their answers are inputs: the unprotected token, the organization-user and policy lookups, and the `CreateUserAsync` result;
- the calls made to them are appended to a ghost log `calls`.

Each entry point is specified by pure functions of its inputs and the user's prior state: the outcome, the user's new fields, and the calls it makes. The lemmas in `RegistrationProperties` state the tests' `Received(1)` and `DidNotReceive` expectations as counts over that log.

Shared pieces: `types.dfy` (`Option`, `Result`, 128-bit `Guid`) and `text.dfy` (invariant lower-casing, case-insensitive comparison, `string.Contains`).

## Model

| member | source | states |
|---|---|---|
| `AuthRequests.AuthRequest.constructor` | src/Core/Auth/Entities/AuthRequest.cs:13-31 | A new entity has `CreationDate` = now, null response/authentication dates, default values elsewhere, and satisfies the `[MaxLength]` bounds (`RequestDeviceIdentifier` and `RequestIpAddress` at most 50 characters, `AccessCode` at most 25). It is live at its creation instant whenever its window is representable. |
| `AuthRequests.AuthRequest.SetNewId` | src/Core/Auth/Entities/AuthRequest.cs:33-36 | Only `Id` changes (the method's frame is that one field), to the generated value. The `[MaxLength]` bounds the constructor establishes are preserved, and `IsSpent` at every instant is unchanged. |
| `AuthRequests.AuthRequest.GetExpirationDate` | src/Core/Auth/Entities/AuthRequest.cs:43-46 | The result is exactly 15 minutes (9,000,000,000 ticks) after `CreationDate`. It fails with `ArgumentOutOfRange` exactly when that would pass `DateTime.MaxValue`. |
| `AuthRequests.AuthRequest.IsSpent` | src/Core/Auth/Entities/AuthRequest.cs:38-41 | Spent iff a response date is set, or an authentication date is set, or creation + 15 min < now. A set date always gives `true` without evaluating the expiry. |
| `AuthRequests.ResponseSpends` | src/Core/Auth/Entities/AuthRequest.cs:40 | A request with a `ResponseDate` is spent at every instant. |
| `AuthRequests.AuthenticationSpends` | src/Core/Auth/Entities/AuthRequest.cs:40 | A request with an `AuthenticationDate` is spent at every instant. |
| `AuthRequests.UntouchedSpentIffExpired` | src/Core/Auth/Entities/AuthRequest.cs:38-46 | With both dates null, spent iff expiration date < now (strict). |
| `AuthRequests.LiveAtExpirationInstant` | src/Core/Auth/Entities/AuthRequest.cs:40-46 | At now == expiration date an untouched request is still live. One tick later it is spent. |
| `AuthRequests.UnrepresentableExpiryThrows` | src/Core/Auth/Entities/AuthRequest.cs:40-46 | An untouched request created within 15 minutes of `DateTime.MaxValue` makes `IsSpent` throw at every instant. |
| `AuthRequests.SpentIsMonotone` | src/Core/Auth/Entities/AuthRequest.cs:38-46 | With the fields unchanged, spent at t implies spent at every t' ≥ t. |
| `AuthRequests.LiveIsAntitone` | src/Core/Auth/Entities/AuthRequest.cs:38-46 | Live at t' implies live at every earlier t. |
| `AuthRequests.FreshRequestNotSpent` | src/Core/Auth/Entities/AuthRequest.cs:29-40 | With both dates null, a request is not spent at its own creation instant. |
| `Text.ToLower` | test/Core.Test/Auth/UserFeatures/Registration/RegisterUserCommandTests.cs:181 | `ToLowerInvariant` keeps the length and maps every character to its lower-case form. |
| `Text.EqualsIgnoreCase` | test/Core.Test/Auth/UserFeatures/Registration/RegisterUserCommandTests.cs:132-143 | Two e-mails are equal ignoring case iff they have the same length and agree character by character after lower-casing. Equal strings are always equal ignoring case. |
| `Text.Contains` | test/Core.Test/Auth/UserFeatures/Registration/RegisterUserCommandTests.cs:197 | `Contains(s, sub)` iff `sub` occurs in `s` at some index. |
| `Registration.ValidateOrgInvite` | test/Core.Test/Auth/UserFeatures/Registration/RegisterUserCommandTests.cs:226-311 | Registration proceeds iff the invite is valid, or registration is open and neither token nor id is given. When closed, the only error is the "disabled" message. When open, the error names the missing half or says the token is invalid. |
| `Registration.InviteMatches` | test/Core.Test/Auth/UserFeatures/Registration/RegisterUserCommandTests.cs:132-143 | A matching claim names exactly this organization user and carries an e-mail equal to the user's ignoring case. A claim built from this organization user with the user's e-mail always matches. |
| `Registration.OrgInviteOutcome` | test/Core.Test/Auth/UserFeatures/Registration/RegisterUserCommandTests.cs:122-311 | A bad request iff the guard fails, carrying exactly the guard's message. Otherwise the result is `CreateUserAsync`'s. |
| `Registration.ValidateEmailVerificationToken` | test/Core.Test/Auth/UserFeatures/Registration/RegisterUserCommandTests.cs:317-367 | Accepts iff the token unprotects and its e-mail equals the user's, ignoring case. Otherwise fails with "Invalid email verification token.". |
| `Registration.EmailVerificationOutcome` | test/Core.Test/Auth/UserFeatures/Registration/RegisterUserCommandTests.cs:317-367 | A bad request with "Invalid email verification token." iff the token check fails. Otherwise the result is `CreateUserAsync`'s. |
| `Registration.RegisterUserCommand.constructor` | test/Core.Test/Auth/UserFeatures/Registration/RegisterUserCommandTests.cs:126-130 | The command reads the `DisableUserRegistration` setting it is given, and starts with no calls made. |
| `Registration.RegisterUserCommand.RegisterUser` | test/Core.Test/Auth/UserFeatures/Registration/RegisterUserCommandTests.cs:31-85 | Returns `CreateUserAsync`'s result. Logs the creation, then the welcome e-mail and Signup event only on success. |
| `Registration.RegisterUserCommand.RegisterUserWithOptionalOrgInvite` | test/Core.Test/Auth/UserFeatures/Registration/RegisterUserCommandTests.cs:87-311 | Outcome, new user fields and logged calls are those of `OrgInviteOutcome`, `OrgInviteUser` and `OrgInviteCalls` on the prior user. |
| `Registration.RegisterUserCommand.SetEmailTwoFactorIfPolicyEnabled` | test/Core.Test/Auth/UserFeatures/Registration/RegisterUserCommandTests.cs:145-189 | Looks up the org user, then its organization's two-factor policy. Sets the e-mail provider exactly when the policy is enabled. |
| `Registration.RegisterUserCommand.SendSignupNotifications` | test/Core.Test/Auth/UserFeatures/Registration/RegisterUserCommandTests.cs:195-220 | Logs the trial or welcome e-mail chosen by the initiation path, then the Signup event carrying that path. |
| `Registration.RegisterUserCommand.RegisterUserViaEmailVerificationToken` | test/Core.Test/Auth/UserFeatures/Registration/RegisterUserCommandTests.cs:314-367 | Outcome, new user fields (`EmailVerified`, name from the token) and logged calls are those of the e-mail verification specification functions. |
| `RegistrationProperties.RegisterUserEffects` | test/Core.Test/Auth/UserFeatures/Registration/RegisterUserCommandTests.cs:31-85 | One creation. One welcome e-mail and one Signup event when creation succeeds, none when it fails. A welcome e-mail is sent iff creation succeeded. On failure no welcome e-mail and no event appear in the log at all. |
| `RegistrationProperties.ClosedRegistrationRejectsIncompleteInvite` | test/Core.Test/Auth/UserFeatures/Registration/RegisterUserCommandTests.cs:226-262 | With registration disabled, each of a missing token, a missing org-user id or a mismatched invite fails with "Open registration has been disabled by the system administrator.". |
| `RegistrationProperties.OpenRegistrationRejectsIdWithoutToken` | test/Core.Test/Auth/UserFeatures/Registration/RegisterUserCommandTests.cs:292-294 | With registration open, an id without a token fails with "Organization user id cannot be provided without an organization invite token.". |
| `RegistrationProperties.OpenRegistrationRejectsTokenWithoutId` | test/Core.Test/Auth/UserFeatures/Registration/RegisterUserCommandTests.cs:296-298 | With registration open, a token without an id fails with "Organization invite token cannot be validated without an organization user id.". |
| `RegistrationProperties.OpenRegistrationRejectsMismatchedInvite` | test/Core.Test/Auth/UserFeatures/Registration/RegisterUserCommandTests.cs:278-290 | With registration open, a complete invite whose claim does not match fails with "Organization invite token is invalid.". |
| `RegistrationProperties.InviteWithoutEmailNeverMatches` | test/Core.Test/Auth/UserFeatures/Registration/RegisterUserCommandTests.cs:239-249 | An invite claim whose organization user has no e-mail never matches. |
| `RegistrationProperties.InviteMatchIgnoresCase` | test/Core.Test/Auth/UserFeatures/Registration/RegisterUserCommandTests.cs:132-143 | An invite for this org user whose e-mail equals the user's, ignoring case, matches. |
| `RegistrationProperties.RejectedInviteHasNoEffects` | test/Core.Test/Auth/UserFeatures/Registration/RegisterUserCommandTests.cs:226-311 | A rejected attempt is a bad request. It leaves the user unchanged and makes no call at all: no creation, e-mail or event. |
| `RegistrationProperties.OpenRegistrationWithoutInvite` | test/Core.Test/Auth/UserFeatures/Registration/RegisterUserCommandTests.cs:89-115 | Open registration without invite data completes. It does no lookup, creates the user once with the given master password hash, and raises one Signup event when creation succeeds. |
| `RegistrationProperties.ValidInviteAccepted` | test/Core.Test/Auth/UserFeatures/Registration/RegisterUserCommandTests.cs:117-193 | A matching invite completes even with registration disabled. One org-user lookup, for the given id. One policy lookup when the org user exists, for that user's organization. One creation, with the user's fields and the master password hash. An enforced policy sets the e-mail provider once, enabled, with the lower-cased e-mail as metadata, which equals the user's e-mail ignoring case. |
| `RegistrationProperties.InitiationPathChoosesEmail` | test/Core.Test/Auth/UserFeatures/Registration/RegisterUserCommandTests.cs:195-214 | A path containing "Secrets Manager trial" sends the trial e-mail exactly once and no welcome e-mail. Any other path sends the welcome e-mail exactly once and no trial e-mail. Exactly one Signup event is raised, and it carries the path. |
| `RegistrationProperties.NoInitiationPathSendsNoEmail` | test/Core.Test/Auth/UserFeatures/Registration/RegisterUserCommandTests.cs:215-220 | Without an initiation path the Signup event carries no path. No e-mail is sent. |
| `RegistrationProperties.OrgInviteSignupIffSucceeded` | test/Core.Test/Auth/UserFeatures/Registration/RegisterUserCommandTests.cs:92-222 | For every input: at most one creation and at most one Signup event. The event is raised iff the registration completed successfully. |
| `RegistrationProperties.EmailVerificationAccepted` | test/Core.Test/Auth/UserFeatures/Registration/RegisterUserCommandTests.cs:315-349 | A matching token creates the user once, first, with `EmailVerified` true and the claimed name. On success there is one welcome e-mail and one Signup event carrying the claim's marketing flag. |
| `RegistrationProperties.EmailVerificationRejected` | test/Core.Test/Auth/UserFeatures/Registration/RegisterUserCommandTests.cs:351-367 | A token for another e-mail fails with "Invalid email verification token.". Nothing is created, sent or changed. |

## Left out

- `IUpdateSecretsManagerSubscriptionCommand` declares only asynchronous signatures, with no behaviour to model.
- `CoreHelpers.GenerateComb`: the generated identifier is the parameter of `SetNewId`. `DateTime.UtcNow` is the parameter `now`.
- The `[MaxLength]` bounds count UTF-16 code units. The model counts Dafny characters (Unicode scalar values).
- Properties initialised with `null!` (the device identifier, IP address, access code and public key) start as the empty string in the constructor.
- `AuthRequestType` and `DeviceType` are kept as one-byte codes. Their enum definitions are not part of this model.
- Token protection (`IDataProtectorTokenFactory.TryUnprotect`): its result is an input `Option` of the claim. Cryptography is not modelled, and neither is the tokenable's own expiry check, which is folded into that result.
- The `ReferenceData` JSON is represented by its parsed `initiationPath` entry. The serialized `TwoFactorProviders` JSON is a map from provider type to provider.
- Mail, reference events, repositories and `IUserService` are I/O. They appear only as logged calls, with their answers as inputs. Async/await, NSubstitute, xUnit and AutoFixture are test machinery.
- `ToLower` and `EqualsIgnoreCase` only fold the ASCII letters. Culture-invariant Unicode case mapping is not modelled.
- `InviteMatches`: comparing the claim's e-mail with the user's ignoring case is a modelling choice. The tests only ever use an identical address, so they neither confirm nor refute case-insensitive matching.
- An invite token counts as present when it is given. The tests only use null tokens, so whitespace-only tokens are not treated separately.
- The tests leave some behaviour of the command open. In each case the model chooses the simplest reading:
  - `RegisterUserViaEmailVerificationToken` ignores `DisableUserRegistration`, since no test sets it on that path;
  - `RegisterUserWithOptionalOrgInvite` sends no e-mail when the user has no initiation path, since the tests make no assertion about e-mail there;
  - it leaves `EmailVerified` untouched on the invite path;
  - it does not treat an empty initiation path specially.
- The user's API key and password hashing are not modelled. The master password hash is only recorded in the `CreateUser` call.
- Registration errors are one `BadRequestException` told apart by its message. The model has no separate error kinds.
- `AuthRequest` has no create, approve, deny, respond or authenticate operations and no tagged request state: it has only nullable fields and `IsSpent`. The model follows the code and adds none, so it never sets a response or authentication date itself.
