# Call-event relay: a Dafny model

This project models a small call-notification system written in JavaScript.
A Socket.IO server (`index.js`) relays call events to connected clients. The
client and test scripts around it build registration records, check phone
numbers and prepare test payloads.

- **Relay** (`index.js`). The server keeps the set `connectedSockets`. The
  `connection` handler adds a socket to it and `disconnect` removes it.
  `POST /api/:type` first checks the type against the whitelist `incomingCall`,
  `outgoingCall`, `callRecording` (400 otherwise). It then emits `(type, body)`
  to every connected socket and reports how many there were, or answers 503
  when none is connected. The model is the class `Relay.Relay`. Its field is
  a duplicate-free sequence in the Set's insertion order, because a JavaScript
  Set iterates in insertion order. `Post` returns the response and the emits,
  in order, and changes nothing.
- **Phone check** (`example-agent.js`, `android-client-example.js`,
  `test-api-production.js`). Each script tests the phone with
  `^\+[1-9]\d{1,14}$`. Module `Pattern` models that expression with a small
  anchored, backtracking matcher. It proves the expression accepts exactly
  the E.164 shape: `+`, a first digit 1-9, then 1 to 14 more digits. Clause 6
  of ITU-T Recommendation E.164 allows at most 15 digits and no country code
  starting with 0.
- **Registration records**. Each client builds an `agentConfig` from the
  phone: an id made of a prefix and the phone's digits, the phone itself, a
  name and a type. `example-agent.js` also upper-cases the first letter of
  the agent type in the name. Modules `ExampleAgent`, `AndroidClient` and `TestClient` model this,
  together with the exit-before-configuration error paths.
- **Test scripts**. `TestApiProduction` models the test payloads, the
  `connectedNumbers` map and the multi-number request body.
  `TestAndroidApi` models the default target and the `mobile_client` filter.
- **Launcher** (`start-all-services.js`). The pure part is the per-chunk
  transform: split on line feeds, drop blank lines, prefix each line with a
  tag. The `ServiceManager` class holds the `processes` list that
  `startService` appends to and the shutdown loop walks.

Shared modules: `Common` (Option, Result), `Text` (digit stripping, ASCII
upper case, decimal rendering, `trim`, `split`/`join`), `Sequences`
(subsequence), `Events` (the three event names), `Agents` (the record,
`process.argv` access and `||` on strings).

The client scripts expect server features that `index.js` does not have: an
identity registry keyed by phone number, `registerAgent` handling, per-number
and Android routes, agent listing, and connect/disconnect notifications. The
scripts emit `registerAgent` and call such routes, but `index.js` ignores
`registerAgent` and routes only `POST /api/:type`. This model follows
`index.js`, so nothing of such a registry is modelled. `server.js` is entirely
commented out and is not part of this model.

## Model

| member | source | states |
|---|---|---|
| `Relay.Relay.constructor` | index.js:24 | the relay starts with no connected socket |
| `Relay.Relay.Connect` | index.js:26-28 | the socket is in the set afterwards; its set is the old set plus that socket; a socket already present leaves the sequence unchanged; no duplicates arise |
| `Relay.Relay.Disconnect` | index.js:30-33 | the set afterwards is the old set minus that socket; the other members keep their order; an absent socket is a no-op; no duplicates arise |
| `Relay.Relay.Post` | index.js:37-56 | an unknown type gets 400 "Invalid event type" and no emit, whether or not anyone is connected; a known type with nobody connected gets 503 "No socket client connected" and no emit; otherwise 200 with "`<type>` event sent to `<n>` client(s)", n = number of sockets, and exactly one emit of the unmodified (type, body) per socket in set order; the set is never modified |
| `Relay.Relay.CountIsSetSize` | index.js:52 | the count reported is the size of the connection set |
| `Relay.SuccessMessage` | index.js:52 | the message is the type, " event sent to ", a run of decimal digits that reads back as the count, then " client(s)" |
| `Relay.SuccessMessageDeterminesCount` | index.js:52 | the success message determines the count: two messages for one type are equal only for equal counts |
| `Relay.FanoutExactlyOnce` | index.js:47-51 | in a fan-out over the connection set, each member receives exactly one emit and a non-member none; every emit carries the type and body unchanged |
| `Relay.Without` | index.js:32 | `Set.delete`: the result lacks the socket and keeps exactly the other members |
| `Relay.WithoutAbsent` | index.js:32 | deleting an absent socket leaves the sequence unchanged |
| `Relay.DeleteExactlyOne` | index.js:30-33 | deleting a member removes that one entry and keeps all others in their order |
| `Relay.WithoutNoDuplicates` | index.js:32 | deletion keeps the connection sequence duplicate-free |
| `Events.Name` | index.js:39 | every event's wire name is one of the three whitelisted types |
| `Events.Parse` | index.js:39-41 | a type is recognised exactly when it is on the three-element whitelist, and its name is the type itself |
| `Events.ParseName` | index.js:39 | every event name is on the whitelist and is recognised as that event |
| `Pattern.ValidPhone` | example-agent.js:17 | the phone check `phone.match(/^\+[1-9]\d{1,14}$/)` (also android-client-example.js:18 and test-api-production.js:17), run by the backtracking matcher on the expression, is true exactly for E.164-shaped strings |
| `Pattern.ValidPhoneIffShaped` | example-agent.js:17 | the matcher run on the expression accepts a string iff it is `+`, a digit 1-9, then 1 to 14 ASCII digits, and nothing else |
| `Pattern.ValidPhoneBounds` | example-agent.js:17 | every accepted phone has length 3..16 and at most 15 digits (the E.164 maximum) |
| `Pattern.ValidPhoneDigits` | example-agent.js:24 | stripping the non-digits of an accepted phone removes exactly its leading `+` |
| `Pattern.TrailingNewlineRejected` | example-agent.js:17 | no phone followed by a line feed is accepted (`$` is the end of input) |
| `Text.DigitsOnly` | example-agent.js:24 | `replace(/[^0-9]/g, '')` yields only digits, taken from the input in their order (a subsequence), and is no longer than its input |
| `Text.DigitsOnlyLength` | example-agent.js:24 | the stripped string has exactly as many characters as the input has digits |
| `Text.DigitsOnlyOfDigits` | android-client-example.js:34 | a string of digits passes the strip unchanged |
| `Text.DigitsOnlyEmpty` | test-client.js:18 | the strip yields "" exactly when the input has no digit |
| `Text.ToUpper` | example-agent.js:26 | `toUpperCase()` on one character: an ASCII lower-case letter becomes its upper-case letter (code point minus 32), every other character is unchanged |
| `Text.Capitalize` | example-agent.js:26 | only the first character is upper-cased; the length and every later character are unchanged |
| `Text.CapitalizeIdempotent` | example-agent.js:26 | capitalising twice is the same as once |
| `Text.NatToString` | index.js:52 | the decimal rendering of a count is a non-empty digit string with no leading zero except for 0 |
| `Text.ParseNatToString` | index.js:52 | reading the rendering back gives the number |
| `Text.TrimEmptyIffBlank` | start-all-services.js:21 | `line.trim()` is empty exactly when every character is ECMAScript whitespace |
| `Text.Trim` | start-all-services.js:21 | `trim()` is no longer than its input, and neither end of a non-empty result is whitespace |
| `Text.TrimIsSlice` | start-all-services.js:21 | `trim()` is a contiguous slice of its input, with only whitespace cut on either side |
| `Text.Split` | start-all-services.js:21 | `split('\n')` gives at least one piece and no piece contains a line feed |
| `Text.Join` | start-all-services.js:21 | a reference inverse of this line's `split`, not called in the source: the join of n pieces is their total length plus n-1 separators long, starts with the first piece and, for two or more pieces, has the separator right after it |
| `Text.JoinSplit` | start-all-services.js:21 | joining the pieces with the separator restores the string |
| `Text.SplitJoin` | start-all-services.js:21 | splitting the join of separator-free pieces restores the pieces |
| `Agents.Arg` | example-agent.js:5 | `process.argv[2 + i]` is present exactly when there are more than i arguments, and is then that argument |
| `Agents.Truthy` | example-agent.js:8 | a possibly `undefined` string is falsy exactly when it is `undefined` or empty, as in the `!phone` exits of every script and in `\|\|` |
| `Agents.Or` | example-agent.js:6 | `a \|\| b` is `a` when it is a non-empty string and `b` otherwise |
| `ExampleAgent.AgentType` | example-agent.js:6 | the type is the second argument when that is present and non-empty, and `call_processor` otherwise; never empty |
| `ExampleAgent.MakeConfig` | example-agent.js:23-28 | `agentNumber` is the phone and `agentType` the type; `agentId` is type + "-" then only the phone's digits, in their order, and for an E.164-shaped phone the phone without `+`; `agentName` is the type with its first character upper-cased and the rest unchanged, then " - " and the phone |
| `ExampleAgent.Startup` | example-agent.js:5-28 | a missing or empty phone exits as missing; a present phone not E.164-shaped exits as invalid; otherwise the configuration is built from the phone and the chosen type |
| `ExampleAgent.HandlerFor` | example-agent.js:69-111 | `call_processor` gets storage, `notification_service` notification and `analytics_processor` analytics; any other type gets no handler |
| `ExampleAgent.HandlerSameForEveryEvent` | example-agent.js:69-111 | the choice of handler is the same for all three events |
| `AndroidClient.MakeConfig` | android-client-example.js:33-38 | `agentId` is `android-` then only the phone's digits, in their order (the phone without `+` when E.164-shaped); `agentNumber` is the phone; `agentName` is "Android User " + phone; `agentType` is `mobile_client` |
| `AndroidClient.TypeIsFixed` | android-client-example.js:37 | the type is `mobile_client` whatever the phone |
| `AndroidClient.Startup` | android-client-example.js:8-21 | a missing or empty phone exits as missing; a phone not E.164-shaped exits as invalid; otherwise the Android configuration |
| `TestClient.PhoneSource` | test-client.js:8 | the phone is `AGENT_PHONE_NUMBER` when non-empty, otherwise the first argument |
| `TestClient.MakeConfig` | test-client.js:17-22 | `agentId` is `call-logger-` then only the phone's digits, in their order, so exactly `call-logger-` iff the phone has no digit; number the phone; name "Call Logger - " + phone; type `call_processor` |
| `TestClient.Startup` | test-client.js:8-22 | exits as missing exactly when both sources are absent or empty; otherwise builds the configuration from the chosen phone without a format check |
| `TestClient.LogRowFor` | test-client.js:52-57 | the row for each event is labelled with that event's own name and keeps the data unchanged (same at lines 74-79 and 96-101) |
| `TestApiProduction.Startup` | test-api-production.js:7-20 | a missing target exits as missing; a target not E.164-shaped exits as invalid; otherwise the target is used verbatim |
| `TestApiProduction.CallId` | test-api-production.js:25 | a call id is `call-` then decimal digits that read back as the clock reading |
| `TestApiProduction.MakeTestData` | test-api-production.js:23-45 | the incoming payload goes from `+911234567890` to the target with status `ringing`, the outgoing one from the target to `+911234567890` with status `dialing`; durations 0, 0 and 120; the recording URL `https://example.com/recording.mp3`; each timestamp is its own clock reading; the call ids read back as the incoming, outgoing-plus-one and recording clock readings |
| `TestApiProduction.CallIdsDiffer` | test-api-production.js:25-33 | if the clock does not go backwards, the incoming and outgoing call ids differ |
| `TestApiProduction.ConnectedNumbers` | test-api-production.js:120 | same length and order as the agent list, each element that agent's `agentNumber` |
| `TestApiProduction.MultiNumberRequest` | test-api-production.js:119-125 | a body exists iff more than one agent is listed; it carries the agents' numbers in order and every field of the incoming-call payload |
| `TestAndroidApi.Target` | test-android-api.js:7 | the target is the first argument verbatim when non-empty, otherwise `+919876543210` |
| `TestAndroidApi.IsMobile` | test-android-api.js:124 | an agent passes the filter exactly when its type is `mobile_client`, the type the Android client registers with |
| `TestAndroidApi.AndroidConfigIsMobile` | test-android-api.js:124 | every configuration built by the Android client passes the filter |
| `TestAndroidApi.MobileClients` | test-android-api.js:123-125 | every `mobile_client` agent occurs in the result exactly as often as in the list, and no other agent occurs |
| `TestAndroidApi.MobileClientsSubsequence` | test-android-api.js:123-125 | the result is a subsequence of the list, so its order is kept and it is no longer |
| `TestAndroidApi.MobileClientsIdempotent` | test-android-api.js:123-125 | filtering the result again changes nothing |
| `TestAndroidApi.CheckConnectedAgents` | test-android-api.js:127-135 | "no mobile clients" is chosen iff no listed agent is a mobile client; otherwise one line per client, in filter order |
| `TestAndroidApi.ListingLine` | test-android-api.js:130 | the line is three spaces, the number, " - " and the name, at those positions |
| `TestAndroidApi.ListingLines` | test-android-api.js:129-131 | each client is listed as three spaces, its number, " - " and its name |
| `StartAllServices.KeepNonBlank` | start-all-services.js:21 | every non-blank piece survives exactly as often as it occurs, and no blank piece survives |
| `StartAllServices.KeepNonBlankSubsequence` | start-all-services.js:21 | the surviving pieces keep their original order |
| `StartAllServices.KeptLines` | start-all-services.js:21 | the kept lines are a subsequence of the chunk's line-feed pieces, each non-blank piece occurring as often as in the chunk; none holds a line feed or trims to "" |
| `StartAllServices.Prefixed` | start-all-services.js:22-24 | one output line per kept line, in order, each the prefix followed by the line |
| `StartAllServices.StdoutTag` | start-all-services.js:23 | the stdout tag is the colour, `[description]`, the reset code and a space, at those positions |
| `StartAllServices.StderrTag` | start-all-services.js:30 | the stderr tag is the colour, `[description ERROR]`, the reset code and a space, at those positions |
| `StartAllServices.TagsDiffer` | start-all-services.js:23-30 | for one service, stdout and stderr tags differ |
| `StartAllServices.StdoutLines` | start-all-services.js:20-25 | one printed line per kept line of the chunk, in order, each the stdout tag followed by the line |
| `StartAllServices.StderrLines` | start-all-services.js:27-32 | one printed line per kept line of the chunk, in order, each the stderr tag followed by the line |
| `StartAllServices.SingleLineChunk` | start-all-services.js:21-24 | a non-blank chunk with no line feed is printed as exactly one line |
| `StartAllServices.NothingLostWithoutBlankLines` | start-all-services.js:21-24 | when no piece is blank, the printed lines joined with line feeds are the chunk |
| `StartAllServices.ColorOrDefault` | start-all-services.js:11 | the colour is the one given, and `\x1b[36m` when none is |
| `StartAllServices.ServiceManager.constructor` | start-all-services.js:8 | `processes` starts empty |
| `StartAllServices.ServiceManager.StartService` | start-all-services.js:11-39 | appends exactly one entry `{child, description}` to `processes`; returns the stdout and stderr tags in the chosen colour |
| `StartAllServices.ServiceManager.Shutdown` | start-all-services.js:66-73 | one "Stopping" notice and one SIGINT per recorded service, in start order; `processes` is not changed |
| `StartAllServices.KillsMatchEntries` | start-all-services.js:70-73 | each child gets as many SIGINTs as it has entries in `processes`: exactly one for a child started once |

## Left out

- Express, body-parser, `http`, the Socket.IO server, CORS and `listen` (index.js:2-21, 58-61): library wiring. Sockets are opaque ids, emits are an output sequence and a response is a status code with its JSON fields.
- Interleaving of socket events: connect, disconnect and POST are sequential calls on one object.
- Console output: the connect and disconnect log lines and the start-up banner of index.js (index.js:27, 31, 60), and the other log lines of the scripts. Three printed outputs are modelled: the tagged lines of start-all-services.js:23 and 30 (`StdoutLines`, `StderrLines`), the `Stopping` notices of start-all-services.js:71 (`ServiceManager.Shutdown`) and the client listing of test-android-api.js:130 (`ListingLines`).
- The client side of Socket.IO, `process.exit`, SIGINT handlers, `setTimeout` delays and every axios call in the scripts: process and network I/O. A script's exit appears as the `Failure` of its `Startup`.
- `db.js` and the `db.query` calls in test-client.js: a foreign database client. `JSON.stringify(data)` is not modelled; the row holds the data as received. The undefined `res` in the error callbacks is part of that database path.
- `server.js` is entirely commented out and is not part of this model.
- `child_process.spawn` and the pipe events of start-all-services.js: the child is a parameter of `StartService`. The transform is modelled per `data` chunk; a line split across two chunks prints as two lines, as in the code.
- `Date.now()` and `new Date().toISOString()` are nondeterministic: they are the fields of the `Clock` parameter of `MakeTestData`.
- The log texts of the example agent's handlers: only the kind of handler is modelled.
- The per-number, Android and listing routes, `registerAgent` handling and registration replies expected by the scripts: no server file implements them.
- Text.ToUpper: upper-cases only the ASCII letters `a`-`z`; full Unicode case mapping of `toUpperCase` is not modelled.
