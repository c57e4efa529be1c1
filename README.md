# Construction MCP server: registry, notifications and WhatsApp pipelines in Dafny

This project models the in-memory logic of four MCP tool servers of a construction
assistant, and proves properties of that model.

- **advanced-server.js**: a project registry (`PROJECTS`, a map from project id to
  record) and an append-only notification log (`NOTIFICATIONS`). `create_project`
  stores a record. `send_whatsapp_update` logs one update to the project's contact.
  `schedule_inspection` always logs one `medium` reminder. `track_progress`
  overwrites phase and progress, and logs one `low` milestone update when the
  completion is a positive multiple of 25. The last three fail on an unknown
  project before anything changes. Modelled as the class `AdvancedServer.Registry`.
- **real-whatsapp-server.js**: a readiness flag, set by the client's `ready` event
  and cleared by `disconnected`, gates `list_groups`, `read_group_messages` and
  `send_group_message`. A group is the first group chat whose lower-cased name
  contains the lower-cased query. Reads ask for `min(limit, 50)` messages (default
  20), reverse the batch and normalise each record. Modelled as the class
  `RealWhatsAppServer.Session`.
- **whatsapp-server.js**: the earlier variant. Only `ready` writes the flag, so it
  never goes back to false. Groups match by exact name. The limit (default 10) is
  passed on unclamped. The sender is the stripped author id, and the body is shown
  as it is. Modelled as `WhatsAppServer.Session`; `Variants` relates the two.
- **simple-whatsapp-server.js**: a simulated server. A read returns a prefix of ten
  fixed messages and appends it to the group's stored list. A send appends one
  message from "You". Modelled as the class `SimpleWhatsAppServer.GroupStore`.

The whatsapp-web.js client is not modelled. Its answers are inputs to the handlers:
a `Client` value holds the result of `getChats()`, the batch `fetchMessages` returns
and the outcome of `sendMessage`. Each of them may be a value or a thrown error.
Every WhatsApp handler returns the calls it made on the client (`Response.calls`).
So "no client call while not connected" is stated as `calls == []`.

Times are parameters: `now` (milliseconds) in the registry, a rendered timestamp
string in the simulated server. Tool replies are tagged values with the data they
show (`Reply`), not the rendered text with its emoji.

Three facts about the code that the model keeps:
- the real server's default limit is 20;
- containment is checked one way only, the query in the name
  (`RealWhatsAppServer.QueryLongerThanNameNeverMatches`);
- a project's `status` stays `planning`. Progress is recorded in the separate
  `phase` and `progress` fields that `track_progress` writes.

## Model

| member | source | states |
|---|---|---|
| `Text.Lower` | real-whatsapp-server.js:193 | `toLowerCase` keeps the length, turns each A-Z letter into its lower-case letter (code point + 32), and changes no other character |
| `Text.LowerIdempotent` | real-whatsapp-server.js:193 | lower-casing twice equals lower-casing once |
| `Text.Contains` | real-whatsapp-server.js:193 | `includes`: the needle is a prefix of some suffix of the haystack (its meaning is stated by `Text.ContainsAt`) |
| `Text.ContainsAt` | real-whatsapp-server.js:193 | `includes` holds exactly when the needle occurs at some offset of the haystack |
| `Text.ContainsLength` | real-whatsapp-server.js:193 | a contained string is no longer than the one containing it |
| `Text.ReplaceFirst` | real-whatsapp-server.js:225 | `replace` with a string pattern: when the first occurrence of `pat` is at `i`, the result is `s[..i] + rep + s[i + |pat|..]`; a string without the pattern is unchanged |
| `Text.ContainsFirst` | real-whatsapp-server.js:225 | a string that contains the pattern has a first occurrence, so the equation above always applies |
| `Text.ReplaceFirstAfter` | real-whatsapp-server.js:225 | when no occurrence starts inside `x`, `x + pat + y` becomes `x + rep + y`: later occurrences in `y` stay |
| `Text.ReplaceFirstSuffix` | real-whatsapp-server.js:225 | removing a pattern that ends the string and occurs nowhere earlier leaves the part before it |
| `Text.OrElse` | real-whatsapp-server.js:231 | `o || fallback` gives the value when it is present and non-empty, else the fallback |
| `Text.Decimal` | advanced-server.js:235 | the rendering of `Date.now()` is a non-empty string of digits, two or more from 10 up |
| `Text.DecimalInjective` | advanced-server.js:235 | different numbers render differently |
| `Channel.StripUserSuffix` | real-whatsapp-server.js:225 | `<phone>@c.us` with no `@` in the phone part strips to `<phone>`, for both sender rules |
| `Channel.ReverseMap` | real-whatsapp-server.js:218-234 | `reverse().map(f)`: same length as the batch, entry k is `f` of record `n-1-k` |
| `Channel.Replay` | real-whatsapp-server.js:57-73 | the flag after a sequence of events: each event applies the listeners' step to the flag, in order |
| `Channel.Groups` | real-whatsapp-server.js:148 | `filter(chat => chat.isGroup)` keeps exactly the group chats |
| `Channel.GroupsAppend` | real-whatsapp-server.js:148 | the filter distributes over concatenation, so list order is kept |
| `Channel.GroupNames` | real-whatsapp-server.js:196 | the available names are the group chats' names, one per group, in list order |
| `Channel.FindFirst` | real-whatsapp-server.js:193 | `find` gives the first position whose chat satisfies the predicate, or none when no chat does |
| `Channel.FindFirstAgree` | real-whatsapp-server.js:193 | predicates that agree on every listed chat find the same chat |
| `RealWhatsAppServer.Route` | real-whatsapp-server.js:122-131 | a known name routes to the tool of that name; any other name fails with "Unknown tool: <name>" |
| `RealWhatsAppServer.Matches` | real-whatsapp-server.js:193 | the find predicate: a group chat whose lower-cased name contains the lower-cased query |
| `RealWhatsAppServer.Resolve` | real-whatsapp-server.js:193 | the resolved chat is a group whose lower-cased name contains the lower-cased query, no earlier chat matches, and none is found only when no chat matches |
| `RealWhatsAppServer.RequestedLimit` | real-whatsapp-server.js:179-206 | the requested count is at most 50, 20 by default, the limit itself up to 50 |
| `RealWhatsAppServer.Sender` | real-whatsapp-server.js:220-226 | "System" without an author, else contact name, else push name, else the author with its first "@c.us" removed |
| `RealWhatsAppServer.Body` | real-whatsapp-server.js:231 | the body is never empty: its own text, or "[Media/Attachment]" when empty or absent |
| `RealWhatsAppServer.Normalize` | real-whatsapp-server.js:218-234 | one record as shown: its own timestamp and type, `Sender` as its sender and `Body` as its body, which is never empty |
| `RealWhatsAppServer.Display` | real-whatsapp-server.js:218-234 | the fetched batch reversed and normalised (`Channel.ReverseMap` with `Normalize`) |
| `RealWhatsAppServer.NextReady` | real-whatsapp-server.js:57-73 | `ready` sets the flag, `disconnected` clears it, the other events leave it |
| `RealWhatsAppServer.ReplayFromStart` | real-whatsapp-server.js:57-73 | from start, the flag is set exactly when some `ready` event has no later `disconnected` |
| `RealWhatsAppServer.ResolveIgnoresQueryCase` | real-whatsapp-server.js:193 | a query and its lower-cased form resolve to the same group |
| `RealWhatsAppServer.QueryLongerThanNameNeverMatches` | real-whatsapp-server.js:193 | containment is one-way: a query longer than the name never selects that chat |
| `RealWhatsAppServer.SenderFromPhoneNumber` | real-whatsapp-server.js:225 | an author `<phone>@c.us` without contact data is shown as `<phone>` |
| `RealWhatsAppServer.DisplayChronological` | real-whatsapp-server.js:218 | a batch that arrives newest first is shown with non-decreasing timestamps |
| `RealWhatsAppServer.Session.constructor` | real-whatsapp-server.js:12 | the flag starts false |
| `RealWhatsAppServer.Session.Handle` | real-whatsapp-server.js:51-73 | `ready` sets the flag, `disconnected` clears it, `qr`, `authenticated` and `auth_failure` leave it |
| `RealWhatsAppServer.Session.ListGroups` | real-whatsapp-server.js:135-177 | not connected: no client call; otherwise one `getChats`, a dedicated reply for zero groups, else the groups numbered from 1 with their count |
| `RealWhatsAppServer.Session.ReadGroupMessages` | real-whatsapp-server.js:179-255 | not connected: no call; no match: not-found with every group name in order; match: fetch `min(limit, 50)` from the first match, "no recent messages" for an empty batch, else the reversed, normalised batch |
| `RealWhatsAppServer.Session.SendGroupMessage` | real-whatsapp-server.js:257-300 | not connected: no call; no match: not-found without a list and no send; match: one send of the text to the first match |
| `RealWhatsAppServer.Session.Call` | real-whatsapp-server.js:119-132 | each of the three names runs its handler; any other name fails with "Unknown tool" |
| `RealWhatsAppServer.NotReadyMakesNoCall` | real-whatsapp-server.js:136-143 | while not connected every routed tool replies "not connected" and makes no client call |
| `RealWhatsAppServer.ReadShowsAtMostFifty` | real-whatsapp-server.js:206-218 | if the client returns no more than was asked, at most 50 messages are shown |
| `WhatsAppServer.Route` | whatsapp-server.js:149-162 | the five known names route to their tools; any other name fails with "Unknown tool: <name>" |
| `WhatsAppServer.Matches` | whatsapp-server.js:263 | the find predicate: a group chat whose name equals the query |
| `WhatsAppServer.Resolve` | whatsapp-server.js:263 | the resolved chat is the first group chat whose name equals the query; none exactly when no group chat has that name |
| `WhatsAppServer.RequestedLimit` | whatsapp-server.js:251 | the limit is passed on unclamped, 10 by default |
| `WhatsAppServer.Sender` | whatsapp-server.js:277 | the author with its first "@c.us" removed, else "System" |
| `WhatsAppServer.Body` | whatsapp-server.js:278 | a present body is shown unchanged |
| `WhatsAppServer.Normalize` | whatsapp-server.js:276-278 | one line's data: its own timestamp, `Sender` and `Body`, so "System" without an author and a present body unchanged |
| `WhatsAppServer.Display` | whatsapp-server.js:275-279 | the lines follow the reversed batch, one per record (`Channel.ReverseMap` with `Normalize`) |
| `WhatsAppServer.NextReady` | whatsapp-server.js:54-57 | after an event the flag is set exactly when it was set before or the event is `ready` |
| `WhatsAppServer.ReadyIsSticky` | whatsapp-server.js:54-57 | once the flag is set no event sequence clears it |
| `WhatsAppServer.ReplayFromStart` | whatsapp-server.js:54-57 | from start, the flag is set exactly when some `ready` event has occurred |
| `WhatsAppServer.SenderFromPhoneNumber` | whatsapp-server.js:277 | an author `<phone>@c.us` is shown as `<phone>` |
| `WhatsAppServer.Session.constructor` | whatsapp-server.js:20 | the flag starts false |
| `WhatsAppServer.Session.Handle` | whatsapp-server.js:54-57 | only `ready` writes the flag, and it writes true; `disconnected` has no handler |
| `WhatsAppServer.Session.ListGroups` | whatsapp-server.js:217-249 | not connected: no client call; otherwise every group chat with its members, and a count equal to the number of group chats |
| `WhatsAppServer.Session.ReadGroupMessages` | whatsapp-server.js:251-295 | not connected: no call; no exact match: not-found and no fetch; match: fetch the unclamped limit, show the reversed batch and its size |
| `WhatsAppServer.Session.SendGroupMessage` | whatsapp-server.js:297-337 | not connected: no call; no exact match: not-found and no send; match: one send to that group |
| `WhatsAppServer.Session.Call` | whatsapp-server.js:146-163 | each WhatsApp name runs its handler; the calculators are routed but not modelled; other names fail |
| `WhatsAppServer.NotFoundMakesNoFurtherCall` | whatsapp-server.js:265-272 | without an exact match nothing is fetched or sent |
| `Variants.ExactImpliesContains` | whatsapp-server.js:263 | whenever the earlier resolver finds a group, the later one finds one at the same place or before |
| `Variants.PartialNameOnlyFoundByLater` | real-whatsapp-server.js:193 | "family" finds "Family Group" only with the later resolver |
| `Variants.SendersAgreeWithoutContact` | real-whatsapp-server.js:220-226 | without contact data both sender rules give the same name |
| `Variants.ContactNameOnlyUsedByLater` | real-whatsapp-server.js:225 | a contact name is used only by the later variant |
| `Variants.BodiesAgreeOnText` | real-whatsapp-server.js:231 | non-empty bodies are shown alike; an empty body is the placeholder only in the later variant |
| `Variants.LimitAboveCeiling` | real-whatsapp-server.js:206 | above 50 the later variant asks for 50 and the earlier one for the limit itself |
| `SimpleWhatsAppServer.Simulated` | simple-whatsapp-server.js:69-80 | the ten fixed messages, in array order (that none is from "You" is `SentNeverRead`) |
| `SimpleWhatsAppServer.SliceEnd` | simple-whatsapp-server.js:82 | `slice(0, end)` stops at `min(end, len)`, or at `len + end` (at least 0) for a negative end |
| `SimpleWhatsAppServer.Recent` | simple-whatsapp-server.js:67-82 | a read's batch is a prefix of the fixed array, of length `min(limit, 10)` for a non-negative limit |
| `SimpleWhatsAppServer.Appended` | simple-whatsapp-server.js:85-88 | the group's list becomes its old contents (empty if absent) followed by the batch; other groups keep theirs |
| `SimpleWhatsAppServer.AppendedTwice` | simple-whatsapp-server.js:88 | two appends equal one append of both batches: no de-duplication |
| `SimpleWhatsAppServer.SentNeverRead` | simple-whatsapp-server.js:69-82 | no read returns a message from "You": reads never return what was sent |
| `SimpleWhatsAppServer.Route` | simple-whatsapp-server.js:56-62 | only the two tool names route; any other fails with "Unknown tool: <name>" |
| `SimpleWhatsAppServer.GroupStore.constructor` | simple-whatsapp-server.js:7 | the store starts empty |
| `SimpleWhatsAppServer.GroupStore.ReadGroupMessages` | simple-whatsapp-server.js:67-101 | returns the first `limit` (default 10) fixed messages, independent of the store, and appends them to that group's list |
| `SimpleWhatsAppServer.GroupStore.SendGroupMessage` | simple-whatsapp-server.js:103-124 | appends exactly one `{sender: 'You', message, groupName}` entry to that group's list, creating it if absent |
| `SimpleWhatsAppServer.GroupStore.Call` | simple-whatsapp-server.js:53-64 | routes the two tools to their handlers; an unknown name fails and leaves the store unchanged |
| `SimpleWhatsAppServer.ReadTwice` | simple-whatsapp-server.js:85-88 | two reads append the batch twice and leave other groups alone |
| `SimpleWhatsAppServer.SendThenRead` | simple-whatsapp-server.js:103-116 | after a send and a read, the list ends with the sent message and the batch, and the batch holds no message from "You" |
| `AdvancedServer.Route` | advanced-server.js:160-178 | the eight known names route to their tools; any other name fails with `UnknownTool` |
| `AdvancedServer.ProjectId` | advanced-server.js:235 | an id is `proj_` followed by at least one decimal digit |
| `AdvancedServer.ProjectIdsDistinct` | advanced-server.js:235 | ids from different milliseconds differ; only same-millisecond creations collide |
| `AdvancedServer.NewProject` | advanced-server.js:236-246 | a new record keeps the given id, name, location and contact, has status `planning`, progress 0, and no phase or update time yet |
| `AdvancedServer.Tracked` | advanced-server.js:312-314 | tracking sets phase, progress and update time, and no other field |
| `AdvancedServer.IsMilestone` | advanced-server.js:317 | the logging rule: a positive multiple of 25 |
| `AdvancedServer.AnnouncesMilestone` | advanced-server.js:328 | the reply's rule: any multiple of 25, zero included |
| `AdvancedServer.MilestoneValues` | advanced-server.js:317 | within 0..100 the rule fires exactly at 25, 50, 75 and 100 |
| `AdvancedServer.AnnouncedButNotLogged` | advanced-server.js:317-328 | the reply announces a milestone with none logged exactly at the non-positive multiples of 25, 0 among them |
| `AdvancedServer.Notice` | advanced-server.js:263-268 | an update goes to the project's contact and names the project |
| `AdvancedServer.Registry.constructor` | advanced-server.js:15-16 | both the map and the log start empty |
| `AdvancedServer.Registry.CreateProject` | advanced-server.js:234-256 | stores under `proj_<now>` a record with the given name, location and contact, status `planning` and progress 0; other ids unchanged; log unchanged |
| `AdvancedServer.Registry.SendWhatsAppUpdate` | advanced-server.js:258-278 | unknown id: error and nothing changes; otherwise exactly one notification appended, to the contact, with the given urgency or `medium`; keeps the registry invariant |
| `AdvancedServer.Registry.ScheduleInspection` | advanced-server.js:280-306 | unknown id: error and nothing changes; otherwise one `medium` reminder, inspector "TBD" when none given; projects unchanged; keeps the registry invariant |
| `AdvancedServer.Registry.TrackProgress` | advanced-server.js:308-331 | unknown id: error and nothing changes; otherwise that project's phase and progress are overwritten, no other project changes, and one `low` notification is appended exactly when `completion > 0 && completion % 25 == 0` |
| `AdvancedServer.Registry.Call` | advanced-server.js:157-180 | unknown names fail with nothing changed; `create_project` stores the new record; `send_whatsapp_update`, `schedule_inspection` and `track_progress` have exactly their handler's effect and reply on a known id, and fail with nothing changed on an unknown one; the log is only ever extended |
| `AdvancedServer.RepeatedMilestone` | advanced-server.js:316-323 | two updates at 25 append two `low` notifications: the rule is level-triggered |

## Left out

- `calculate_materials`, `estimate_cost`, `weather_impact` and `compliance_check`: floating-point arithmetic, `Math.random`, and a crash on the `industrial` type. The dispatchers route these names and reply `NotModelled`. server.js is not part of this model.
- The whatsapp-web.js client (`initialize`, `getChats`, `fetchMessages`, `sendMessage`, `destroy`): foreign code. Its answers are inputs, and the calls are recorded as a trace.
- `getContact`: asynchronous in the library. The contact is an optional input. In the library the handler gets a Promise, so the name and push-name steps never fire there. The model keeps the chain as the code writes it.
- QR rendering, console logging, the MCP `Server`/stdio wiring, the `ListTools` schemas, `run()` and the SIGINT handler: I/O and declarative metadata. Schema validation is assumed to happen upstream.
- `Date.now()`, `toISOString`, `toLocaleString`: the instant is a parameter, and the rendered times are not modelled.
- async/await: each handler is one sequential step.
- Reply texts (emoji, line layout, `join(", ")` of the available names): replies are tagged values with their data. The available group names are a sequence in list order.
- `Text.Lower`: models `toLowerCase` for ASCII A-Z only, not Unicode case mapping.
- JavaScript numbers: `limit` and `completion` are integers. Fractional and NaN values are not modelled.
- Notification messages: a logged notification holds its structured content (`Body`: note, inspection reminder or milestone) and the urgency as a value. The rendered template, with `urgency.toUpperCase()` and a `toLocaleString` time, is not modelled.
- Carol's simulated message ends in the emoji U+1F389. The source file holds its UTF-8 bytes mis-decoded as single-byte characters.
- `budget`, `timeline` and the inspection's `id`/`status`: stored or built but never read. The inspection object is not kept in the source, and not in the model.
