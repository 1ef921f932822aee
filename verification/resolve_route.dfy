/**
 * Service A's `/resolve` handler (`resolve_ip_address`): a successful result
 * becomes a `CoordinateStorageResponse`; a failed one becomes an HTTP error
 * whose status a case-sensitive substring test on the message picks; any
 * other exception becomes a 500.
 */
module ResolveRoute {
  import opened Wrappers
  import opened GeoLookup

  const HttpBadGateway := 502
  const HttpServiceUnavailable := 503
  const HttpInternalServerError := 500

  /** `sub` occurs in `s` starting at index i. */
  predicate OccursAt(s: string, sub: string, i: int) {
    0 <= i <= |s| - |sub| && s[i..i + |sub|] == sub
  }

  /** Python's `sub in s` on strings: a case-sensitive substring test. */
  predicate Contains(s: string, sub: string) {
    exists i | 0 <= i <= |s| - |sub| :: OccursAt(s, sub, i)
  }

  datatype CoordinateStorageResponse = CoordinateStorageResponse(
    success: bool,
    message: string,
    ip: string,
    coordinates: Option<Coordinates>)

  /** The `detail` of an HTTPException: the result's message, or "Internal server error: " and the exception. */
  datatype Detail = Message(text: string) | InternalError(cause: ResolveError)

  datatype Reply = Ok(body: CoordinateStorageResponse) | HttpError(status: int, detail: Detail)

  /** The status chosen for a failed result; the tests run in order and the first match wins. */
  function FailureStatus(message: string): (status: int)
    ensures Contains(message, "Failed to resolve") ==> status == HttpBadGateway
    ensures !Contains(message, "Failed to resolve") && Contains(message, "failed to store") ==>
              status == HttpServiceUnavailable
    ensures !Contains(message, "Failed to resolve") && !Contains(message, "failed to store") ==>
              status == HttpInternalServerError
  {
    if Contains(message, "Failed to resolve") then HttpBadGateway
    else if Contains(message, "failed to store") then HttpServiceUnavailable
    else HttpInternalServerError
  }

  /** `resolve_ip_address` given what `resolve_ip` returned or raised. */
  function ResolveIpAddress(outcome: Result<ResolveResult, ResolveError>): (reply: Reply)
    ensures reply.Ok? <==> outcome.Success? && outcome.value.success
    ensures reply.Ok? ==>
              var r := outcome.value;
              reply.body == CoordinateStorageResponse(r.success, r.message, r.ip, r.coordinates)
    ensures outcome.Success? && !outcome.value.success ==>
              reply == HttpError(FailureStatus(outcome.value.message), Message(outcome.value.message))
    ensures outcome.Failure? ==> reply == HttpError(HttpInternalServerError, InternalError(outcome.error))
    ensures reply.HttpError? ==>
              reply.status in {HttpBadGateway, HttpServiceUnavailable, HttpInternalServerError}
  {
    match outcome
    case Failure(e) => HttpError(HttpInternalServerError, InternalError(e))
    case Success(r) =>
      if !r.success then HttpError(FailureStatus(r.message), Message(r.message))
      else Ok(CoordinateStorageResponse(r.success, r.message, r.ip, r.coordinates))
  }

  /** When `a + sub` is a prefix of s, sub occurs in s right after a. */
  lemma PrefixOccurs(s: string, a: string, sub: string)
    requires a + sub <= s
    ensures Contains(s, sub)
  {
    assert s[|a|..|a| + |sub|] == (a + sub)[|a|..];
    assert OccursAt(s, sub, |a|);
  }

  /** The provider-failure message matches the 502 test. */
  lemma ResolveFailedMatches()
    ensures Contains(MsgResolveFailed, "Failed to resolve")
  {
    assert "" + "Failed to resolve" <= MsgResolveFailed;
    PrefixOccurs(MsgResolveFailed, "", "Failed to resolve");
  }

  /** A string without the first character of `sub` does not contain `sub`. */
  lemma MissingFirstChar(s: string, sub: string)
    requires |sub| > 0 && sub[0] !in s
    ensures !Contains(s, sub)
  {
    forall i | 0 <= i <= |s| - |sub| ensures !OccursAt(s, sub, i) {
      assert s[i] in s;
      assert s[i] != sub[0];
      assert s[i..i + |sub|][0] == s[i];
    }
  }

  /** The forward-failure message misses the 502 test: it has no capital F. */
  lemma StoreFailedMissesResolve()
    ensures !Contains(MsgStoreFailed, "Failed to resolve")
  {
    assert 'F' !in MsgStoreFailed;
    MissingFirstChar(MsgStoreFailed, "Failed to resolve");
  }

  /** The forward-failure message matches the 503 test. */
  lemma StoreFailedMatchesStore()
    ensures Contains(MsgStoreFailed, "failed to store")
  {
    assert "IP resolved but " + "failed to store" <= MsgStoreFailed;
    PrefixOccurs(MsgStoreFailed, "IP resolved but ", "failed to store");
  }

  /** End to end: when the lookup yields None, the endpoint answers 502 with the provider-failure message. */
  lemma ProviderFailureIsBadGateway(ip: string, outcomes: seq<Attempt>, host: string, reply: ForwardReply)
    requires |outcomes| >= MaxRetries
    requires Lookup(outcomes).None?
    ensures ResolveIpAddress(ResolveIp(ip, outcomes, host, reply).outcome) ==
            HttpError(HttpBadGateway, Message(MsgResolveFailed))
  {
    ResolveFailedMatches();
  }

  /** End to end: a lookup with coordinates whose forward fails answers 503, because the match is case-sensitive. */
  lemma ForwardFailureIsServiceUnavailable(ip: string, outcomes: seq<Attempt>, host: string, reply: ForwardReply)
    requires |outcomes| >= MaxRetries
    requires Lookup(outcomes).Some? && Lookup(outcomes).value.lat.Some? && Lookup(outcomes).value.lon.Some?
    requires !ForwardToServiceB(host, reply)
    ensures ResolveIpAddress(ResolveIp(ip, outcomes, host, reply).outcome) ==
            HttpError(HttpServiceUnavailable, Message(MsgStoreFailed))
  {
    StoreFailedMissesResolve();
    StoreFailedMatchesStore();
  }

  /** End to end: a lookup with coordinates whose forward succeeds answers with the provider's lat/lon and the request's ip. */
  lemma StoredIsOk(ip: string, outcomes: seq<Attempt>, host: string, reply: ForwardReply)
    requires |outcomes| >= MaxRetries
    requires Lookup(outcomes).Some? && Lookup(outcomes).value.lat.Some? && Lookup(outcomes).value.lon.Some?
    requires ForwardToServiceB(host, reply)
    ensures var g := Lookup(outcomes).value;
            ResolveIpAddress(ResolveIp(ip, outcomes, host, reply).outcome) ==
            Ok(CoordinateStorageResponse(true, MsgStored, ip, Some(Coordinates(g.lat.value, g.lon.value))))
  {
  }

  /** A "success" reply without lat or lon makes building the payload raise; the endpoint answers 500 and nothing is forwarded. */
  lemma MissingCoordinatesIsInternalError(ip: string, outcomes: seq<Attempt>, host: string, reply: ForwardReply)
    requires |outcomes| >= MaxRetries
    requires Lookup(outcomes).Some? && (Lookup(outcomes).value.lat.None? || Lookup(outcomes).value.lon.None?)
    ensures ResolveIp(ip, outcomes, host, reply).forwarded == []
    ensures ResolveIpAddress(ResolveIp(ip, outcomes, host, reply).outcome) ==
            HttpError(HttpInternalServerError, InternalError(PayloadValidationError))
  {
  }

  /**
   * Two timeouts followed by a provider that would answer: no third attempt
   * is made, so the endpoint answers 502 and nothing is forwarded.
   */
  lemma NoThirdAttempt(ip: string, good: ProviderReply, host: string, reply: ForwardReply)
    requires good.status == "success"
    ensures var outcomes := [Timeout, Timeout, Response(200, Some(good))];
            && ResolveIp(ip, outcomes, host, reply).forwarded == []
            && ResolveIpAddress(ResolveIp(ip, outcomes, host, reply).outcome) ==
               HttpError(HttpBadGateway, Message(MsgResolveFailed))
  {
    var outcomes := [Timeout, Timeout, Response(200, Some(good))];
    TwoTransportFailuresGiveUp(outcomes);
    ProviderFailureIsBadGateway(ip, outcomes, host, reply);
  }
}
