/**
 * Service A's resolution pipeline: `call_external_ip_api` (a bounded retry
 * loop against the geolocation provider), `forward_to_service_b` (one POST,
 * no retry) and `resolve_ip`, which sequences them into one of three result
 * shapes. The provider and Service B are given as the outcome of each call.
 */
module GeoLookup {
  import opened Wrappers

  /** `MAX_RETRIES`: `range(MAX_RETRIES)` makes this many attempts in total. */
  const MaxRetries: nat := 2

  /** The provider's JSON after the `ExternalAPIResponse` check. */
  datatype ProviderReply = ProviderReply(
    status: string,
    lat: Option<real>,
    lon: Option<real>,
    city: Option<string>,
    country: Option<string>)

  /** How one provider attempt ends. */
  datatype Attempt =
    | Response(code: int, body: Option<ProviderReply>)  // body None: `response.json()` or the schema check raised
    | Timeout                                           // httpx.TimeoutException
    | ConnectError                                      // httpx.ConnectError
    | OtherError                                        // any other exception

  /** The dict returned on success: lat, lon, city and country as the provider gave them. */
  datatype GeoData = GeoData(lat: Option<real>, lon: Option<real>, city: Option<string>, country: Option<string>)

  /** What the body of the loop makes of one attempt: return the data, return None, or go round again. */
  datatype Verdict = Found(geo: GeoData) | Refused | TryAgain

  function Judge(a: Attempt): (v: Verdict) {
    match a
    case Response(code, body) =>
      if code != 200 then TryAgain
      else if body.None? then TryAgain  // the exception is caught by `except Exception`
      else if body.value.status == "success" then
        Found(GeoData(body.value.lat, body.value.lon, body.value.city, body.value.country))
      else Refused
    case _ => TryAgain
  }

  /** The result of the loop from attempt number `attempt` on. */
  function LookupFrom(outcomes: seq<Attempt>, attempt: nat): (geo: Option<GeoData>)
    requires |outcomes| >= MaxRetries && attempt <= MaxRetries
    decreases MaxRetries - attempt
  {
    if attempt == MaxRetries then None
    else match Judge(outcomes[attempt])
      case Found(g) => Some(g)
      case Refused => None
      case TryAgain => LookupFrom(outcomes, attempt + 1)
  }

  /** What `call_external_ip_api` returns when attempt i ends as `outcomes[i]`. */
  function Lookup(outcomes: seq<Attempt>): (geo: Option<GeoData>)
    requires |outcomes| >= MaxRetries
  {
    LookupFrom(outcomes, 0)
  }

  /**
   * `call_external_ip_api`: tries at most MaxRetries times; a 200 with status
   * "success" returns its data at once, a 200 with any other status returns
   * None at once, and everything else goes on to the next attempt.
   */
  method CallExternalIpApi(outcomes: seq<Attempt>) returns (geo: Option<GeoData>, made: nat)
    requires |outcomes| >= MaxRetries
    ensures 1 <= made <= MaxRetries
    ensures forall i :: 0 <= i < made - 1 ==> Judge(outcomes[i]).TryAgain?
    ensures made < MaxRetries ==> !Judge(outcomes[made - 1]).TryAgain?
    ensures geo.Some? <==> Judge(outcomes[made - 1]).Found?
    ensures geo.Some? ==> geo.value == Judge(outcomes[made - 1]).geo
    ensures geo == Lookup(outcomes)
  {
    var attempt := 0;
    while attempt < MaxRetries
      invariant 0 <= attempt <= MaxRetries
      invariant forall i :: 0 <= i < attempt ==> Judge(outcomes[i]).TryAgain?
      invariant LookupFrom(outcomes, attempt) == Lookup(outcomes)
    {
      match Judge(outcomes[attempt]) {
        case Found(g) =>
          return Some(g), attempt + 1;
        case Refused =>
          return None, attempt + 1;
        case TryAgain =>
      }
      attempt := attempt + 1;
    }
    return None, MaxRetries;
  }

  /** The lookup succeeds exactly when some attempt within the budget is a success and all before it are retried. */
  lemma {:induction false} LookupFromFound(outcomes: seq<Attempt>, attempt: nat)
    requires |outcomes| >= MaxRetries && attempt <= MaxRetries
    ensures LookupFrom(outcomes, attempt).Some? <==>
            exists i :: attempt <= i < MaxRetries && Judge(outcomes[i]).Found? &&
                        forall j :: attempt <= j < i ==> Judge(outcomes[j]).TryAgain?
    decreases MaxRetries - attempt
  {
    if attempt < MaxRetries {
      LookupFromFound(outcomes, attempt + 1);
      if Judge(outcomes[attempt]).Found? {
        assert attempt <= attempt < MaxRetries && Judge(outcomes[attempt]).Found?;
      }
    }
  }

  /** No attempt past the budget is ever made: outcomes after the first MaxRetries do not matter. */
  lemma {:induction false} LookupFromIgnoresLaterAttempts(a: seq<Attempt>, b: seq<Attempt>, attempt: nat)
    requires |a| >= MaxRetries && |b| >= MaxRetries && attempt <= MaxRetries
    requires a[..MaxRetries] == b[..MaxRetries]
    ensures LookupFrom(a, attempt) == LookupFrom(b, attempt)
    decreases MaxRetries - attempt
  {
    if attempt < MaxRetries {
      assert a[attempt] == a[..MaxRetries][attempt] == b[attempt];
      LookupFromIgnoresLaterAttempts(a, b, attempt + 1);
    }
  }

  /** Two failed transports end the lookup with None, whatever a third attempt would have given. */
  lemma TwoTransportFailuresGiveUp(outcomes: seq<Attempt>)
    requires |outcomes| >= MaxRetries
    requires Judge(outcomes[0]).TryAgain? && Judge(outcomes[1]).TryAgain?
    ensures Lookup(outcomes) == None
  {
  }

  /** A provider-side refusal and exhausted timeouts are indistinguishable to the caller: both give None. */
  lemma RefusalLooksLikeTimeout(reply: ProviderReply, next: Attempt)
    requires reply.status != "success"
    ensures Lookup([Response(200, Some(reply)), next]) == Lookup([Timeout, Timeout]) == None
  {
  }

  const MsgResolveFailed := "Failed to resolve IP address from external service"
  const MsgStoreFailed := "IP resolved but failed to store coordinates"
  const MsgStored := "IP resolved and coordinates stored successfully"

  /** `CoordinatesPayload`: what is posted to Service B. */
  datatype CoordinatesPayload = CoordinatesPayload(
    ip: string,
    lat: real,
    lon: real,
    city: Option<string>,
    country: Option<string>)

  /** How the one POST to Service B ends. */
  datatype ForwardReply =
    | Answered(code: int)
    | ForwardTimeout        // httpx.TimeoutException
    | ForwardConnectError   // httpx.ConnectError
    | ForwardOtherError     // any other exception

  /**
   * `forward_to_service_b`: True exactly when SERVICE_B_HOST is non-empty and
   * Service B answers 200; every other status and every exception give False.
   */
  function ForwardToServiceB(host: string, reply: ForwardReply): (ok: bool)
    ensures ok <==> host != "" && reply == Answered(200)
  {
    if host == "" then false
    else match reply
      case Answered(code) => code == 200
      case _ => false
  }

  datatype Coordinates = Coordinates(lat: real, lon: real)

  /** The dict `resolve_ip` returns. */
  datatype ResolveResult = ResolveResult(
    success: bool,
    message: string,
    ip: string,
    coordinates: Option<Coordinates>)

  /** The exception that escapes `resolve_ip`: the payload check refuses a None lat or lon. */
  datatype ResolveError = PayloadValidationError

  /** A run of `resolve_ip`: its result or exception, and the payloads handed to `forward_to_service_b`. */
  datatype Resolution = Resolution(outcome: Result<ResolveResult, ResolveError>, forwarded: seq<CoordinatesPayload>)

  /**
   * `resolve_ip`: looks the address up; on None, reports the provider failure
   * without forwarding; otherwise builds the payload and forwards it exactly
   * once, reporting success only when the forward succeeded.
   */
  function ResolveIp(ip: string, outcomes: seq<Attempt>, host: string, reply: ForwardReply): (res: Resolution)
    requires |outcomes| >= MaxRetries
    ensures Lookup(outcomes).None? ==>
              res == Resolution(Success(ResolveResult(false, MsgResolveFailed, ip, None)), [])
    ensures res.outcome.Failure? <==>
              Lookup(outcomes).Some? && (Lookup(outcomes).value.lat.None? || Lookup(outcomes).value.lon.None?)
    ensures res.outcome.Failure? ==> res.forwarded == []
    ensures |res.forwarded| <= 1
    ensures Lookup(outcomes).Some? && Lookup(outcomes).value.lat.Some? && Lookup(outcomes).value.lon.Some? ==>
              |res.forwarded| == 1 && res.outcome.Success? &&
              res.outcome.value.success == ForwardToServiceB(host, reply)
    ensures res.outcome.Success? ==> res.outcome.value.ip == ip
    ensures res.outcome.Success? && res.outcome.value.success <==>
              |res.forwarded| == 1 && ForwardToServiceB(host, reply)
    ensures |res.forwarded| == 1 ==>
              var g := Lookup(outcomes).value;
              && Lookup(outcomes).Some? && g.lat.Some? && g.lon.Some?
              && res.forwarded[0] == CoordinatesPayload(ip, g.lat.value, g.lon.value, g.city, g.country)
              && res.outcome.Success?
              && res.outcome.value.coordinates == Some(Coordinates(g.lat.value, g.lon.value))
              && res.outcome.value.message == (if ForwardToServiceB(host, reply) then MsgStored else MsgStoreFailed)
  {
    match Lookup(outcomes)
    case None =>
      Resolution(Success(ResolveResult(false, MsgResolveFailed, ip, None)), [])
    case Some(geo) =>
      if geo.lat.None? || geo.lon.None? then
        Resolution(Failure(PayloadValidationError), [])
      else
        var payload := CoordinatesPayload(ip, geo.lat.value, geo.lon.value, geo.city, geo.country);
        var coordinates := Some(Coordinates(geo.lat.value, geo.lon.value));
        if ForwardToServiceB(host, reply) then
          Resolution(Success(ResolveResult(true, MsgStored, ip, coordinates)), [payload])
        else
          Resolution(Success(ResolveResult(false, MsgStoreFailed, ip, coordinates)), [payload])
  }
}
