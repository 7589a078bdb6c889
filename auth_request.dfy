/**
 * The login-with-device authentication request entity and its spent/expiry rule.
 * Timestamps are `DateTime` values counted in ticks of 100 ns; "now" is passed in.
 */
module AuthRequests {
  import opened Types

  const TicksPerMinute: int := 600_000_000

  /** `DateTime.MaxValue.Ticks`: the last representable instant (31 Dec 9999, 23:59:59.9999999). */
  const MaxTicks: int := 3_155_378_975_999_999_999

  /** A `DateTime`, as its tick count. */
  type Ticks = t: int | 0 <= t <= MaxTicks

  /** The fixed approval window of every request: 15 minutes. */
  const ExpiryWindow: int := 15 * TicksPerMinute

  /** What `DateTime.AddMinutes` throws when the result falls outside the representable range. */
  datatype DateTimeError = ArgumentOutOfRange

  /** A one-byte enum value (`AuthRequestType`, `DeviceType`), kept as its code. */
  newtype EnumCode = x: int | 0 <= x < 256

  /** The `[MaxLength]` bounds declared on the entity's string columns. */
  const MaxDeviceIdentifierLength: nat := 50
  const MaxIpAddressLength: nat := 50
  const MaxAccessCodeLength: nat := 25

  class AuthRequest {
    var id: Guid
    var userId: Guid
    var organizationId: Option<Guid>
    var requestType: EnumCode
    var requestDeviceIdentifier: string
    var requestDeviceType: EnumCode
    var requestIpAddress: string
    var responseDeviceId: Option<Guid>
    var accessCode: string
    var publicKey: string
    var key: Option<string>
    var masterPasswordHash: Option<string>
    var approved: Option<bool>
    var creationDate: Ticks
    var responseDate: Option<Ticks>
    var authenticationDate: Option<Ticks>

    /**
     * A new entity with its property initialisers applied: `CreationDate` is the current
     * time, every nullable property is null and every other property holds its default.
     */
    constructor (now: Ticks)
      ensures id == EmptyGuid && userId == EmptyGuid && organizationId == None
      ensures requestType == 0 && requestDeviceType == 0
      ensures requestDeviceIdentifier == "" && requestIpAddress == "" && accessCode == "" && publicKey == ""
      ensures responseDeviceId == None && key == None && masterPasswordHash == None && approved == None
      ensures creationDate == now && responseDate == None && authenticationDate == None
      ensures WellFormed()
      ensures IsSpent(now) == Success(false) <==> now <= MaxTicks - ExpiryWindow
    {
      id, userId, organizationId := EmptyGuid, EmptyGuid, None;
      requestType, requestDeviceType := 0, 0;
      requestDeviceIdentifier, requestIpAddress, accessCode, publicKey := "", "", "", "";
      responseDeviceId, key, masterPasswordHash, approved := None, None, None, None;
      creationDate, responseDate, authenticationDate := now, None, None;
    }

    /** The declared column bounds hold. */
    predicate WellFormed()
      reads this
    {
      && |requestDeviceIdentifier| <= MaxDeviceIdentifierLength
      && |requestIpAddress| <= MaxIpAddressLength
      && |accessCode| <= MaxAccessCodeLength
    }

    /** `CreationDate + 15 minutes` is still a representable `DateTime`. */
    predicate ExpiryRepresentable()
      reads this
    {
      creationDate <= MaxTicks - ExpiryWindow
    }

    /** Replaces the identifier with a freshly generated one (`newId`); nothing else changes. */
    method SetNewId(newId: Guid)
      modifies this`id
      ensures id == newId
      ensures WellFormed() == old(WellFormed())
      ensures forall now: Ticks :: IsSpent(now) == old(IsSpent(now))
    {
      id := newId;
    }

    /** The end of the approval window: 15 minutes after creation, or the exception `AddMinutes` throws. */
    function GetExpirationDate(): (r: Result<Ticks, DateTimeError>)
      reads this
      ensures r.Success? <==> ExpiryRepresentable()
      ensures r.Success? ==> r.value - creationDate == 15 * TicksPerMinute
      ensures r.Failure? ==> r.error == ArgumentOutOfRange
    {
      var expiry := creationDate + ExpiryWindow;
      if expiry <= MaxTicks then Success(expiry) else Failure(ArgumentOutOfRange)
    }

    /**
     * Whether the request can no longer be used at time `now`: it has been answered,
     * it has been used to log in, or its window closed strictly before `now`.
     * The disjunction short-circuits, so the expiry is only computed for an untouched request.
     */
    function IsSpent(now: Ticks): (r: Result<bool, DateTimeError>)
      reads this
      ensures responseDate.Some? || authenticationDate.Some? ==> r == Success(true)
      ensures responseDate.None? && authenticationDate.None? ==> (r.Success? <==> ExpiryRepresentable())
      ensures r.Success? ==>
                (r.value <==> responseDate.Some? || authenticationDate.Some? || creationDate + ExpiryWindow < now)
    {
      if responseDate.Some? || authenticationDate.Some? then
        Success(true)
      else
        match GetExpirationDate()
        case Failure(e) => Failure(e)
        case Success(expiry) => Success(expiry < now)
    }
  }

  /** A recorded response spends the request at every instant. */
  lemma ResponseSpends(r: AuthRequest, now: Ticks)
    requires r.responseDate.Some?
    ensures r.IsSpent(now) == Success(true)
  {
  }

  /** A recorded authentication spends the request at every instant. */
  lemma AuthenticationSpends(r: AuthRequest, now: Ticks)
    requires r.authenticationDate.Some?
    ensures r.IsSpent(now) == Success(true)
  {
  }

  /** An untouched request is spent exactly when its expiration date lies strictly before `now`. */
  lemma UntouchedSpentIffExpired(r: AuthRequest, now: Ticks)
    requires r.responseDate.None? && r.authenticationDate.None?
    requires r.ExpiryRepresentable()
    ensures r.IsSpent(now) == Success(r.GetExpirationDate().value < now)
  {
  }

  /** At the expiration instant itself an untouched request is still live; one tick later it is spent. */
  lemma LiveAtExpirationInstant(r: AuthRequest)
    requires r.responseDate.None? && r.authenticationDate.None?
    requires r.ExpiryRepresentable()
    ensures r.IsSpent(r.creationDate + ExpiryWindow) == Success(false)
    ensures r.creationDate + ExpiryWindow < MaxTicks ==> r.IsSpent(r.creationDate + ExpiryWindow + 1) == Success(true)
  {
  }

  /** An untouched request whose window cannot be represented makes `IsSpent` throw at every instant. */
  lemma UnrepresentableExpiryThrows(r: AuthRequest, now: Ticks)
    requires r.responseDate.None? && r.authenticationDate.None?
    requires !r.ExpiryRepresentable()
    ensures r.IsSpent(now) == Failure(ArgumentOutOfRange)
  {
  }

  /** With the fields unchanged, once spent a request stays spent at every later instant. */
  lemma SpentIsMonotone(r: AuthRequest, t: Ticks, t': Ticks)
    requires t <= t'
    requires r.IsSpent(t) == Success(true)
    ensures r.IsSpent(t') == Success(true)
  {
  }

  /** Live at a later instant means live at every earlier one. */
  lemma LiveIsAntitone(r: AuthRequest, t: Ticks, t': Ticks)
    requires t <= t'
    requires r.IsSpent(t') == Success(false)
    ensures r.IsSpent(t) == Success(false)
  {
  }

  /** A request that is neither answered nor used is not spent at the instant it was created. */
  lemma FreshRequestNotSpent(r: AuthRequest)
    requires r.responseDate.None? && r.authenticationDate.None?
    requires r.ExpiryRepresentable()
    ensures r.IsSpent(r.creationDate) == Success(false)
  {
  }
}
