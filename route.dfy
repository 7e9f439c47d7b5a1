/**
 * The `GET` handler of the connection-details route: it checks the three
 * configuration values, builds a participant identity and a room name from
 * two random suffixes, asks the token library for a token carrying a room
 * grant, and answers with the connection details, or with a 500 response
 * carrying the message of whatever `Error` was thrown on the way.
 *
 * The random suffixes are parameters (each in [0, 10000)), and the token
 * library's signing step is the parameter `toJwt`, which may return a token
 * or throw.
 */
module Route {
  import opened Wrappers
  import Decimal

  const UserPrefix: string := "voice_assistant_user_"
  const RoomPrefix: string := "voice_assistant_room_"
  /** `Math.floor(Math.random() * 10_000)` lies in [0, SuffixBound). */
  const SuffixBound: nat := 10000
  const TokenTtl: string := "15m"

  const UrlMissing: string := "LIVEKIT_URL is not defined"
  const ApiKeyMissing: string := "LIVEKIT_API_KEY is not defined"
  const ApiSecretMissing: string := "LIVEKIT_API_SECRET is not defined"

  /** The environment as the handler reads it; `None` is an undefined variable. */
  datatype Env = Env(livekitUrl: Option<string>, apiKey: Option<string>, apiSecret: Option<string>)

  /** The three values once all are known to be defined. */
  datatype Config = Config(serverUrl: string, apiKey: string, apiSecret: string)

  /** What a `throw` can carry: an `Error` object with its message, or any other value. */
  datatype Thrown = ErrorValue(message: string) | NonErrorValue

  /** The completion of a step inside the handler's `try` block. */
  datatype Outcome<+T> = Returned(value: T) | Threw(thrown: Thrown)

  /** The `VideoGrant` record of the token library. */
  datatype VideoGrant = VideoGrant(
    room: string,
    roomJoin: bool,
    canPublish: bool,
    canPublishData: bool,
    canSubscribe: bool)

  /** What `createParticipantToken` hands to the token library to sign. */
  datatype TokenRequest = TokenRequest(
    apiKey: string,
    apiSecret: string,
    identity: string,
    ttl: string,
    grant: VideoGrant)

  /** The `ConnectionDetails` JSON body. */
  datatype ConnectionDetails = ConnectionDetails(
    serverUrl: string,
    roomName: string,
    participantName: string,
    participantToken: string)

  /** What the handler answers: JSON with its cache header, a plain-text status response, or nothing. */
  datatype Response =
    | JsonResponse(details: ConnectionDetails, cacheControl: string)
    | TextResponse(status: nat, body: string)
    | NoResponse

  /** The three early throws, in their fixed order: the first undefined value decides the message. */
  function CheckConfig(env: Env): (r: Outcome<Config>)
    ensures env.livekitUrl.None? ==> r == Threw(ErrorValue(UrlMissing))
    ensures env.livekitUrl.Some? && env.apiKey.None? ==> r == Threw(ErrorValue(ApiKeyMissing))
    ensures env.livekitUrl.Some? && env.apiKey.Some? && env.apiSecret.None? ==>
              r == Threw(ErrorValue(ApiSecretMissing))
    ensures r.Returned? <==> env.livekitUrl.Some? && env.apiKey.Some? && env.apiSecret.Some?
    ensures r.Returned? ==>
              && env.livekitUrl == Some(r.value.serverUrl)
              && env.apiKey == Some(r.value.apiKey)
              && env.apiSecret == Some(r.value.apiSecret)
  {
    if env.livekitUrl.None? then Threw(ErrorValue(UrlMissing))
    else if env.apiKey.None? then Threw(ErrorValue(ApiKeyMissing))
    else if env.apiSecret.None? then Threw(ErrorValue(ApiSecretMissing))
    else Returned(Config(env.livekitUrl.value, env.apiKey.value, env.apiSecret.value))
  }

  /** The `catch` block: an `Error` becomes a 500 response with its message; anything else gives no response. */
  function Catch(t: Thrown): (r: Response)
    ensures t.ErrorValue? <==> r.TextResponse?
    ensures t.ErrorValue? ==> r.status == 500 && r.body == t.message
    ensures t.NonErrorValue? ==> r.NoResponse?
  {
    match t
    case ErrorValue(message) => TextResponse(500, message)
    case NonErrorValue => NoResponse
  }

  /** A fixed prefix followed by the decimal form of a suffix. */
  function Suffixed(prefix: string, n: nat): (s: string)
    ensures |s| > |prefix| && s[..|prefix|] == prefix
    ensures Decimal.IsCanonical(s[|prefix|..]) && Decimal.ToNat(s[|prefix|..]) == n
  {
    var digits := Decimal.FromNat(n);
    Decimal.ToNatFromNat(n);
    assert (prefix + digits)[|prefix|..] == digits;
    prefix + digits
  }

  /** Reads a prefixed name back to its suffix, if it has the form `Suffixed` builds. */
  function ParseSuffixed(prefix: string, s: string): (r: Option<nat>)
    ensures r.Some? ==> Suffixed(prefix, r.value) == s
  {
    if |s| > |prefix| && s[..|prefix|] == prefix && Decimal.IsCanonical(s[|prefix|..]) then
      var n := Decimal.ToNat(s[|prefix|..]);
      Decimal.FromNatToNat(s[|prefix|..]);
      assert s == prefix + s[|prefix|..];
      Some(n)
    else
      None
  }

  /** Parsing undoes building: the suffix is recovered exactly. */
  lemma ParseSuffixedRoundTrip(prefix: string, n: nat)
    ensures ParseSuffixed(prefix, Suffixed(prefix, n)) == Some(n)
  {
  }

  /** Distinct suffixes give distinct names. */
  lemma SuffixedInjective(prefix: string, a: nat, b: nat)
    requires Suffixed(prefix, a) == Suffixed(prefix, b)
    ensures a == b
  {
  }

  /** The participant identity `voice_assistant_user_<n>`. */
  function ParticipantIdentity(n: nat): (s: string)
    requires n < SuffixBound
    ensures ParseSuffixed(UserPrefix, s) == Some(n)
  {
    ParseSuffixedRoundTrip(UserPrefix, n);
    Suffixed(UserPrefix, n)
  }

  /** The room name `voice_assistant_room_<m>`. */
  function RoomName(m: nat): (s: string)
    requires m < SuffixBound
    ensures ParseSuffixed(RoomPrefix, s) == Some(m)
  {
    ParseSuffixedRoundTrip(RoomPrefix, m);
    Suffixed(RoomPrefix, m)
  }

  /** A participant identity is never a room name. */
  lemma IdentityIsNotRoomName(n: nat, m: nat)
    requires n < SuffixBound && m < SuffixBound
    ensures ParticipantIdentity(n) != RoomName(m)
  {
  }

  /** The grant literal in `createParticipantToken`: scoped to one room, all four capabilities on. */
  function RoomGrant(roomName: string): (g: VideoGrant)
    ensures g.room == roomName
    ensures g.roomJoin && g.canPublish && g.canPublishData && g.canSubscribe
  {
    VideoGrant(room := roomName, roomJoin := true, canPublish := true, canPublishData := true, canSubscribe := true)
  }

  /** What is signed for a participant: the configured key pair, the identity, a 15-minute ttl and the room grant. */
  function ParticipantTokenRequest(config: Config, identity: string, roomName: string): (req: TokenRequest)
    ensures req.apiKey == config.apiKey && req.apiSecret == config.apiSecret
    ensures req.identity == identity && req.ttl == TokenTtl
    ensures req.grant == RoomGrant(roomName)
  {
    TokenRequest(config.apiKey, config.apiSecret, identity, TokenTtl, RoomGrant(roomName))
  }

  /** `createParticipantToken`: signs the participant's request; the signer may throw. */
  function CreateParticipantToken(
    config: Config, identity: string, roomName: string, toJwt: TokenRequest -> Outcome<string>): (r: Outcome<string>)
    ensures r == toJwt(TokenRequest(config.apiKey, config.apiSecret, identity, TokenTtl, RoomGrant(roomName)))
  {
    toJwt(ParticipantTokenRequest(config, identity, roomName))
  }

  /** The whole handler. */
  function Get(env: Env, userSuffix: nat, roomSuffix: nat, toJwt: TokenRequest -> Outcome<string>): (r: Response)
    requires userSuffix < SuffixBound && roomSuffix < SuffixBound
    ensures env.livekitUrl.None? ==> r == TextResponse(500, UrlMissing)
    ensures env.livekitUrl.Some? && env.apiKey.None? ==> r == TextResponse(500, ApiKeyMissing)
    ensures env.livekitUrl.Some? && env.apiKey.Some? && env.apiSecret.None? ==>
              r == TextResponse(500, ApiSecretMissing)
    ensures r.JsonResponse? ==>
              && env.livekitUrl == Some(r.details.serverUrl)
              && r.details.participantName == ParticipantIdentity(userSuffix)
              && r.details.roomName == RoomName(roomSuffix)
              && r.cacheControl == "no-store"
  {
    match CheckConfig(env)
    case Threw(t) => Catch(t)
    case Returned(config) =>
      var identity := ParticipantIdentity(userSuffix);
      var roomName := RoomName(roomSuffix);
      match CreateParticipantToken(config, identity, roomName, toJwt)
      case Threw(t) => Catch(t)
      case Returned(token) =>
        JsonResponse(ConnectionDetails(config.serverUrl, roomName, identity, token), "no-store")
  }

  /** The HTTP status of a response; JSON responses carry 200. */
  function Status(r: Response): (s: Option<nat>)
    ensures r.JsonResponse? ==> s == Some(200)
    ensures s.None? <==> r.NoResponse?
    ensures r.TextResponse? ==> s == Some(r.status)
  {
    match r
    case JsonResponse(_, _) => Some(200)
    case TextResponse(status, _) => Some(status)
    case NoResponse => None
  }

  /**
   * With all three values defined, the handler succeeds exactly when the
   * signer returns, and then the token in the body is what the signer
   * returned for the participant's own identity, room and key pair.
   */
  lemma GetSucceedsIffSigned(env: Env, userSuffix: nat, roomSuffix: nat, toJwt: TokenRequest -> Outcome<string>)
    requires userSuffix < SuffixBound && roomSuffix < SuffixBound
    requires env.livekitUrl.Some? && env.apiKey.Some? && env.apiSecret.Some?
    ensures var config := Config(env.livekitUrl.value, env.apiKey.value, env.apiSecret.value);
            var req := ParticipantTokenRequest(config, ParticipantIdentity(userSuffix), RoomName(roomSuffix));
            var r := Get(env, userSuffix, roomSuffix, toJwt);
            && (r.JsonResponse? <==> toJwt(req).Returned?)
            && (r.JsonResponse? ==> r.details.participantToken == toJwt(req).value && Status(r) == Some(200))
            && (toJwt(req).Threw? ==> r == Catch(toJwt(req).thrown))
  {
  }

  /**
   * The token of a successful response was signed over a grant for the
   * returned room, with all four capabilities, for the returned participant.
   */
  lemma TokenGrantMatchesDetails(env: Env, userSuffix: nat, roomSuffix: nat, toJwt: TokenRequest -> Outcome<string>)
    requires userSuffix < SuffixBound && roomSuffix < SuffixBound
    requires Get(env, userSuffix, roomSuffix, toJwt).JsonResponse?
    ensures var d := Get(env, userSuffix, roomSuffix, toJwt).details;
            exists req: TokenRequest ::
              && toJwt(req) == Returned(d.participantToken)
              && req.identity == d.participantName
              && req.grant.room == d.roomName
              && req.grant.roomJoin && req.grant.canPublish && req.grant.canPublishData && req.grant.canSubscribe
              && req.ttl == TokenTtl
  {
  }

  /** A configuration error is decided before any token is requested: the signer and the suffixes play no part. */
  lemma ConfigErrorSignsNothing(
    env: Env, u1: nat, m1: nat, u2: nat, m2: nat,
    toJwt1: TokenRequest -> Outcome<string>, toJwt2: TokenRequest -> Outcome<string>)
    requires u1 < SuffixBound && m1 < SuffixBound && u2 < SuffixBound && m2 < SuffixBound
    requires CheckConfig(env).Threw?
    ensures Get(env, u1, m1, toJwt1) == Get(env, u2, m2, toJwt2)
    ensures Status(Get(env, u1, m1, toJwt1)) == Some(500)
  {
  }

  /** Two requests with different suffixes get different participant names and room names. */
  lemma DistinctSuffixesDistinctNames(n1: nat, n2: nat, m1: nat, m2: nat)
    requires n1 < SuffixBound && n2 < SuffixBound && m1 < SuffixBound && m2 < SuffixBound
    ensures n1 != n2 ==> ParticipantIdentity(n1) != ParticipantIdentity(n2)
    ensures m1 != m2 ==> RoomName(m1) != RoomName(m2)
  {
  }
}
