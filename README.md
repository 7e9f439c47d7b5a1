# Connection-details route: a Dafny model

This project models the one route handler of the voice-assistant demo app,
`GET /api/connection-details`. The handler does these things:

- It checks that the LiveKit server URL, API key and API secret are defined.
  The first one missing decides the error.
- It builds a participant identity `voice_assistant_user_<n>` and a room name
  `voice_assistant_room_<m>` from two random numbers below 10000.
- It asks the token library to sign a request carrying a room grant with four
  capabilities.
- It answers with the `ConnectionDetails` JSON and a `Cache-Control: no-store`
  header. If an `Error` is thrown on the way, it answers 500 with that error's
  message as plain text.

It also models the survey-question formatter (`questions_text`) that
`createParticipantToken` runs over the demo survey.

Modules:

- `Wrappers`: `Option`, where `None` stands for an undefined value.
- `Decimal`: the decimal form of a non-negative integer, with its
  parser. The two are proved to be inverse bijections between naturals and
  canonical digit strings.
- `Route`: the configuration checks, the `catch` block, identity and room-name
  construction and parsing, the `VideoGrant`, the request handed to the
  signer, and the whole handler `Get`.
- `SurveyText`: the formatter. It has specification functions (`Block`,
  `QuestionsText`, `OptionLines`) and three imperative methods.
  `FormatQuestion` builds one block step by step with `+=`, as the source
  does. `AppendOptionLines` is the `forEach` loop over the option entries.
  `FormatQuestions` is a loop standing in for `questions.map(...).join("")`.
  These are proved equal to `Block`, `OptionLines` and `QuestionsText`
  respectively.

Parameters stand in for the parts that cannot be seen or are not
deterministic:

- The two random suffixes are natural numbers `userSuffix` and `roomSuffix`,
  each below 10000. They replace `Math.floor(Math.random() * 10_000)`.
- The signing step (`new AccessToken(...)`, `addGrant`, `toJwt`) is a function
  `toJwt: TokenRequest -> Outcome<string>`. It either returns a token or
  throws.
- The environment is an `Env` of three `Option<string>` values.

Three points of the handler's behaviour are easy to miss:

- The handler only checks that each value is defined, so an empty
  `LIVEKIT_URL` goes through to `serverUrl` unchanged.
- Each configuration failure throws a plain `Error`.
- A thrown value that is not an `Error` gives no response (`NoResponse`).

## Model

| member | source | states |
|---|---|---|
| Route.CheckConfig | app/api/connection-details/route.ts:22-30 | A missing URL gives "LIVEKIT_URL is not defined", whatever the other two values are. Otherwise a missing key gives "LIVEKIT_API_KEY is not defined". Otherwise a missing secret gives "LIVEKIT_API_SECRET is not defined". The check succeeds exactly when all three are defined, and then it carries their values. |
| Route.Catch | app/api/connection-details/route.ts:51-56 | A thrown `Error` becomes a status-500 response whose body is exactly its message. Any other thrown value gives no response. |
| Route.Get | app/api/connection-details/route.ts:20-57 | Each missing configuration value gives its 500 response, in precedence order. On success: `serverUrl` is the configured URL, `participantName` is the identity built from the user suffix, `roomName` is the room name built from the room suffix, and the cache header is `no-store`. |
| Route.GetSucceedsIffSigned | app/api/connection-details/route.ts:35-50 | With the configuration complete, the handler answers 200 JSON exactly when signing returns. The token in the body is what the signer returned for this participant's key pair, identity and room. A throw from signing goes through the `catch` block. |
| Route.TokenGrantMatchesDetails | app/api/connection-details/route.ts:35-46 | The token of a successful response was signed over a request with these properties: its identity is the returned `participantName`, its grant's room is the returned `roomName`, all four capabilities are true, and its ttl is "15m". |
| Route.ConfigErrorSignsNothing | app/api/connection-details/route.ts:22-30 | When the configuration check fails, the response is a 500. It is the same for every signer and every pair of suffixes, so no token is requested. |
| Route.RoomGrant | app/api/connection-details/route.ts:64-70 | The grant's room is the given room name, and `roomJoin`, `canPublish`, `canPublishData` and `canSubscribe` are all true. |
| Route.ParticipantTokenRequest | app/api/connection-details/route.ts:59-71 | The request handed to the signer carries the configured key and secret, the given identity, the ttl "15m" and the room grant for the given room. |
| Route.CreateParticipantToken | app/api/connection-details/route.ts:59-71 | The signer is handed exactly the request with the configured key and secret, the identity, the ttl "15m" and the room grant for the room name. Its outcome, a token or a throw, is returned unchanged (the `return at.toJwt()` at line 181). |
| Route.Status | app/api/connection-details/route.ts:50-54 | A JSON response has the default status 200 of `NextResponse.json`. A text response has its own status. Only the missing response has no status. |
| Route.Suffixed | app/api/connection-details/route.ts:33-34 | A built name starts with its prefix. The rest is a canonical decimal numeral whose value is the suffix. |
| Route.ParseSuffixed | app/api/connection-details/route.ts:33-34 | The source has no parser: this is the model's own inverse of the name format, used only to state it. Whatever it accepts is exactly the name built from the suffix it returns. |
| Route.ParseSuffixedRoundTrip | app/api/connection-details/route.ts:33-34 | Parsing a built name recovers its suffix. |
| Route.SuffixedInjective | app/api/connection-details/route.ts:33-34 | Two equal built names have equal suffixes. |
| Route.ParticipantIdentity | app/api/connection-details/route.ts:33 | The identity is "voice_assistant_user_" followed by the decimal form of n, for some n with 0 <= n <= 9999. Parsing it gives n. |
| Route.RoomName | app/api/connection-details/route.ts:34 | The room name is "voice_assistant_room_" followed by the decimal form of m, for some m with 0 <= m <= 9999. Parsing it gives m. |
| Route.IdentityIsNotRoomName | app/api/connection-details/route.ts:33-34 | No participant identity equals any room name. |
| Route.DistinctSuffixesDistinctNames | app/api/connection-details/route.ts:33-34 | Different random suffixes give different identities and different room names. |
| Decimal.FromNat | app/api/connection-details/route.ts:33-34 | The decimal form of n, which is `${n}` for the suffixes below 10000 drawn here, is non-empty, all digits, with no leading zero. It starts with '0' exactly when n is 0. |
| Decimal.ToNatFromNat | app/api/connection-details/route.ts:33-34 | Reading the decimal form of n gives n back. |
| Decimal.FromNatToNat | app/api/connection-details/route.ts:33-34 | Every canonical digit string is the decimal form of its value. |
| Decimal.FromNatInjective | app/api/connection-details/route.ts:33-34 | Different numbers have different decimal forms. |
| SurveyText.FormatQuestion | app/api/connection-details/route.ts:128-146 | The text built step by step for one question, including the loop over its option entries, is exactly that question's block. |
| SurveyText.FormatQuestions | app/api/connection-details/route.ts:128-147 | The text built by joining the blocks in order is exactly the specified questions text. |
| SurveyText.JoinAppend | app/api/connection-details/route.ts:147 | Joining two lists of parts placed one after the other gives the two joined texts placed one after the other. |
| SurveyText.JoinAt | app/api/connection-details/route.ts:147 | A joined text is the parts before the k-th, then the k-th part, then the parts after it. |
| SurveyText.QuestionsTextAppend | app/api/connection-details/route.ts:128-147 | The text of two question lists placed one after the other is the two texts placed one after the other. |
| SurveyText.QuestionsTextAt | app/api/connection-details/route.ts:128-147 | The text is the blocks of the earlier questions, then the k-th question's block, then the blocks of the later ones, for every k. |
| SurveyText.BlockFraming | app/api/connection-details/route.ts:128-147 | An empty list gives the empty string. Every block starts with "Question ID: <id>\nQuestion: <text>\n" and ends with "\n". |
| SurveyText.RatingBlock | app/api/connection-details/route.ts:132-133 | A rating question's type line is exactly "Type: Rating scale from <min> to <max>\n". Changing its options leaves its block unchanged. |
| SurveyText.PlainTypeBlock | app/api/connection-details/route.ts:132-143 | Every type other than rating and multiple_choice gets "Type: <type>\n". So does a multiple_choice question with an empty options string. |
| SurveyText.MultipleChoiceBlock | app/api/connection-details/route.ts:134-140 | A multiple_choice question with a non-empty options string gets "Type: Multiple choice\nOptions:\n", then its option lines, then "\n". The order of those lines is given by `SurveyText.OptionLinesAt`. |
| SurveyText.AppendOptionLines | app/api/connection-details/route.ts:138-140 | The `forEach` loop appends to the text exactly the option lines of the entries, one "- <key>: <value>\n" per entry, in entry order. |
| SurveyText.OptionLinesAt | app/api/connection-details/route.ts:138-140 | The option lines are the lines of the earlier entries, then the k-th entry's line, then the lines of the later ones, for every k. |

## Left out

- Token signing (`AccessToken`, `addGrant` merge semantics, `toJwt`, HMAC) lives in the external token library. It is the parameter `toJwt`. The token's 15-minute validity window is therefore only the ttl string "15m" carried in the request.
- The second `addGrant({ roomJoin: true, room: roomName })` (line 171) and the `roomConfig` agent dispatch (lines 172-180) only change the library's token object. They are not part of `TokenRequest`.
- The `JSON.stringify` of the dispatch metadata is not modelled, and neither is JSON parsing of a question's `options` or the key order of `Object.entries`. Each question's parsed entries are given as the ordered `optionEntries`, with values already turned into strings. A malformed options string, which would make `JSON.parse` throw, is not modelled.
- `Math.random` and `Math.floor` use floating point. They are replaced by suffix parameters below 10000. Two requests can draw the same suffixes; the model says nothing about how likely that is. What is proved instead is that different suffixes give different names.
- Decimal.FromNat: matches JavaScript's number-to-text conversion only for integers up to 2^53. Above that JavaScript prints shortest round-trip digits or exponent notation, which is not modelled. The handler's suffixes are below 10000, so it never reaches that range.
- Reading `process.env`, `NextResponse`/`Headers` serialisation, `console.error`, and `async`/`await` scheduling are left out. The response is a datatype carrying the body, the status and the cache header.
- The hardcoded demo literals (customer, survey text, phone numbers) are left out. So is `metadata2`, which is built but never attached. `questions_text` only feeds `metadata2`, so `Route.Get` does not call the formatter.
