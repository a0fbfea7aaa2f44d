# RideConnect tour chat and client rules, in Dafny

RideConnect lets motorcycle riders publish group tours, join them and talk in a
per-tour chat. This project models the parts of it that make decisions:

- the server's WebSocket `message` handler, which keeps a tourId and userId on
  each connection, checks membership, persists chat messages and broadcasts
  them to the OPEN connections of the same tour (`Routes.ChatServer`), and the
  HTTP join, leave and history routes on top of the same store (`Routes`);
- the storage layer those handlers call, as in-memory tables of users, tours,
  membership rows and chat messages (`Store.Storage`);
- the two client reconnect managers, the `WebSocketManager` class
  (`WebSocketClient`) and the `useWebSocket` hook (`WebSocketHook`), with
  their shared backoff rule of at most five reconnects, each armed after
  2000 ms times the new attempt count (`Backoff`);
- the chat panel's join frame, cache update and guarded send (`ChatPanel`);
- the pure page rules: the discover filters (`Discover`), the tour card's
  badge and shortened description (`TourCard`), the tour page's membership
  test, join button and chat visibility (`TourDetails`), the created and
  joined sections of "My Tours" (`MyTours`), the tour form's schema
  (`TourForm`), the community composer and relative post times
  (`Community`), and the theme button (`ThemeToggle`).

Stateful code is modelled as classes. Examples are the handler's session map,
the store's tables, the reconnect counters, the handler list, the chat input
and the composer. Their methods state the whole new state. Pure code is
modelled as functions and lemmas. JavaScript behaviour that the rules depend
on is written out in `Text`:

- the whitespace set of `trim`;
- `includes` as "occurs at some index";
- truthiness of "" and 0;
- `Math.floor` over integer milliseconds.

`Seqs` gives `filter` and order-preserving subsequences.

Timers, sockets, the database and the clock are not run. A pending
`setTimeout` is a recorded delay that the environment fires with `FireTimer`. A
socket is its readyState. Database ids for tours are parameters. Message ids
and all timestamps come from one counter, so "ordered by timestamp" is
"ordered by insertion". The database's foreign keys are kept: an insert naming
a missing tour or user is rejected. Such a rejection reaches the chat client as
"Invalid message format" and the join route as a 500.

Two small runs are verified as methods: `ChatScenario.RejectedJoinThenSend`, a
refused join followed by a message that is still stored and delivered, and
`WebSocketClient.DisconnectThenClose`, a disconnect after which the old
socket's close still arms a reconnect. `WebSocketHook.SocketBeforeOpen` shows
that the hook's socket is set before it opens and that cleanup closes nothing.

Behaviours of the code worth noting:

- A refused `join_tour_chat` still sets the connection's tourId and userId. A
  later `send_message` on it is therefore stored and broadcast; it does not get
  "Not joined to any tour chat".
- The reconnect delay is 2000 ms times the counter after the increment, so the
  delays are 2000, 4000, …, 10000 ms. It is not the count before the increment.
- `disconnect` and the hook's cleanup cancel no pending reconnect. The hook's
  cleanup closes no socket at all.
- The server's own close handler only logs. The `ws` library removes the
  closed socket from `wss.clients`; the model does not capture that and only
  marks the connection not OPEN, which broadcasts skip.

## Model

| member | source | states |
|---|---|---|
| Store.FindMembership | RideConnect/server/storage.ts:214-223 | finds a row exactly when some membership row matches both the tour and the user |
| Store.Without | RideConnect/server/storage.ts:173-178 | after the delete, a row survives exactly when it was there and does not match (tourId, userId); every non-matching row keeps its multiplicity |
| Store.WithoutKeepsOrder | RideConnect/server/storage.ts:173-178 | the surviving rows keep their relative order |
| Store.WithoutKeepsOtherCounts | RideConnect/server/storage.ts:173-178 | deleting one tour's membership leaves every other tour's member count unchanged |
| Store.Bump | RideConnect/server/storage.ts:162-167 | only the named tour's currentParticipants moves, by exactly delta; every other field and tour is unchanged |
| Store.CountMembers | RideConnect/server/storage.ts:77-88 | the member count is 0 exactly when the tour has no membership row |
| Store.CountMembersAppend | RideConnect/server/storage.ts:152-170 | a new membership row raises its own tour's count by one and no other tour's |
| Store.MessagesOf | RideConnect/server/storage.ts:225-234 | keeps exactly the messages of the requested tour |
| Store.MessagesOfAscending | RideConnect/server/storage.ts:225-234 | selecting one tour's messages keeps them in strictly ascending timestamp order |
| Store.ListTours | RideConnect/server/storage.ts:72-90 | one row per tour, newest first, each with its creator and its membership-row count |
| Store.ListToursFacts | RideConnect/server/storage.ts:72-90 | the listing is in strictly descending createdAt order, lists every tour, and pairs each with its own creator |
| Store.WithAuthors | RideConnect/server/storage.ts:236-239 | pairs each message with the user row of its author, in order |
| Store.HistoryFacts | RideConnect/server/storage.ts:225-240 | the history holds exactly the tour's messages, oldest first, each with its author |
| Store.Storage.IsTourMember | RideConnect/server/storage.ts:214-223 | true iff some membership row matches both tourId and userId |
| Store.Storage.GetChatMessages | RideConnect/server/storage.ts:225-240 | only that tour's messages, all of them, ascending by timestamp, each with its author |
| Store.Storage.GetTours | RideConnect/server/storage.ts:72-90 | every tour once, by createdAt descending, with its creator and memberCount equal to its number of membership rows |
| Store.StoredBikeType | RideConnect/shared/schema.ts:32 | the nullable `bike_type` column holds NULL exactly for an explicit null, the default "Any" when the field is left out, and the given value otherwise |
| Store.Storage.CreateTour | RideConnect/server/storage.ts:123-141 | stores the tour with currentParticipants 1, the default status and the bike type the insert schema yields (see `Store.StoredBikeType`), and adds exactly one membership row for the creator with role "creator"; rejected with nothing changed if the creator does not exist |
| Store.Storage.JoinTour | RideConnect/server/storage.ts:152-170 | appends one membership row (role "member") and raises that tour's count by exactly 1, with no duplicate check; rejected with nothing changed when the tour or user does not exist |
| Store.Storage.LeaveTour | RideConnect/server/storage.ts:172-187 | deletes every matching row and lowers the count by 1 even when no row was deleted |
| Store.Storage.CreateChatMessage | RideConnect/server/storage.ts:242-257 | appends one message with the next id and timestamp and returns it with its author's row; no other table changes; rejected when the tour or user does not exist |
| Routes.Fanout | RideConnect/server/routes.ts:55-62 | a connection receives the frame exactly when its tourId equals the sender's and it is OPEN, the sender included; each connection at most once |
| Routes.ChatServer.Connect | RideConnect/server/routes.ts:20-21 | a new OPEN connection is registered with no tourId or userId |
| Routes.ChatServer.Close | RideConnect/server/routes.ts:71-73 | the closed connection stops being OPEN; the registry and its other sessions are unchanged |
| Routes.ChatServer.HandleFrame | RideConnect/server/routes.ts:23-69 | join: sets tourId and userId first, then replies joined_chat or "Not a member of this tour" by membership; send: without both fields "Not joined to any tour chat" and no store change; otherwise one message from the session's tour and user and the frame's text, with users and the other tables unchanged and the clock advanced by one, broadcast to the room; rejected insert or malformed frame: one "Invalid message format"; unknown type: nothing |
| Routes.ChatServer.Broadcast | RideConnect/server/routes.ts:55-62 | the forEach loop produces exactly the room's fan-out, in registry order |
| Routes.JoinRoute | RideConnect/server/routes.ts:156-173 | 401 without a user; 400 and no change for an existing member; otherwise joinTour runs once and the reply is its membership, with users, messages and the clock unchanged, or 500 when it is rejected |
| Routes.LeaveRoute | RideConnect/server/routes.ts:175-187 | 401 without a user; otherwise leaveTour runs, users, messages and the clock stay unchanged, and the reply is "Left tour successfully" |
| Routes.MessagesRoute | RideConnect/server/routes.ts:189-206 | status 200 iff a user is present and is a member, and then the body is that tour's complete history, oldest first, each message with its author; 401 without a user; 403 for a non-member |
| Backoff.AfterClose | RideConnect/client/src/lib/websocket.ts:24-34 | a reconnect is armed iff attempts < 5; the counter then goes up by one and the delay is 2000 times the new count; otherwise nothing changes |
| Backoff.Schedule | RideConnect/client/src/lib/websocket.ts:29-33 | k closes without an open leave the counter at min(attempts + k, 5) and arm delays 2000 × (attempts + i + 1), never more than 5 − attempts of them |
| Backoff.FromFreshCounter | RideConnect/client/src/lib/websocket.ts:24-34 | from 0, the delays are 2000, 4000, …; five or more closes arm exactly 2000, 4000, 6000, 8000, 10000 and the counter stays at most 5 |
| WebSocketClient.RemoveFirstSpec | RideConnect/client/src/lib/websocket.ts:61-66 | unsubscribe removes exactly one registration of a present handler and is a no-op for an absent one |
| WebSocketClient.RemoveFirstAt | RideConnect/client/src/lib/websocket.ts:62-65 | at the first index of the handler, splice removes its first occurrence |
| WebSocketClient.WebSocketManager.constructor | RideConnect/client/src/lib/websocket.ts:2-10 | counter 0, no handlers, no timers, and a connection is already being opened |
| WebSocketClient.WebSocketManager.FireTimer | RideConnect/client/src/lib/websocket.ts:32 | the fired reconnect is consumed and a new socket is connecting |
| WebSocketClient.WebSocketManager.OnOpen | RideConnect/client/src/lib/websocket.ts:19-22 | the socket is OPEN and the counter is 0 |
| WebSocketClient.WebSocketManager.OnClose | RideConnect/client/src/lib/websocket.ts:24-34 | the socket is cleared and the counter and timers follow Backoff.AfterClose; handlers are kept |
| WebSocketClient.WebSocketManager.Send | RideConnect/client/src/lib/websocket.ts:50-56 | the payload goes out iff the socket is OPEN; otherwise it is dropped |
| WebSocketClient.WebSocketManager.OnMessage | RideConnect/client/src/lib/websocket.ts:58-60 | the handler is appended at the end |
| WebSocketClient.WebSocketManager.Unsubscribe | RideConnect/client/src/lib/websocket.ts:61-66 | the handler list becomes the list with the first occurrence removed |
| WebSocketClient.WebSocketManager.Dispatch | RideConnect/client/src/lib/websocket.ts:40-47 | a parsed frame is passed to every handler in registration order; an unparsable one to none |
| WebSocketClient.WebSocketManager.Disconnect | RideConnect/client/src/lib/websocket.ts:69-74 | the socket is cleared; the counter and any armed reconnect are kept |
| WebSocketHook.ReconnectHook.constructor | RideConnect/client/src/hooks/use-websocket.tsx:4-7 | no socket, not connected, counter 0 |
| WebSocketHook.ReconnectHook.Connect | RideConnect/client/src/hooks/use-websocket.tsx:10-40 | the new socket becomes the state before it opens; isConnected is not touched |
| WebSocketHook.ReconnectHook.Mount | RideConnect/client/src/hooks/use-websocket.tsx:9-43 | the effect runs once and opens one socket |
| WebSocketHook.ReconnectHook.OnOpen | RideConnect/client/src/hooks/use-websocket.tsx:17-21 | connected, counter 0 |
| WebSocketHook.ReconnectHook.OnClose | RideConnect/client/src/hooks/use-websocket.tsx:23-34 | not connected, no socket; counter and timers follow Backoff.AfterClose |
| WebSocketHook.ReconnectHook.FireTimer | RideConnect/client/src/hooks/use-websocket.tsx:32 | the fired reconnect is consumed and a new socket becomes the state |
| WebSocketHook.ReconnectHook.Cleanup | RideConnect/client/src/hooks/use-websocket.tsx:45-50 | closes nothing, even when a socket is live, and cancels no timer |
| ChatPanel.JoinEffect | RideConnect/client/src/components/ui/chat.tsx:39-47 | a join frame with the tour id and the user's id is sent iff socket, user and tour id are all present |
| ChatPanel.ApplyInbound | RideConnect/client/src/components/ui/chat.tsx:49-56 | new_message appends its message after the cached list, an absent list counting as empty; any other type leaves the cache unchanged |
| ChatPanel.ApplyAllAppends | RideConnect/client/src/components/ui/chat.tsx:49-56 | over any stream, the cache is the earlier list followed by every delivered message in arrival order |
| ChatPanel.EnabledButtonSends | RideConnect/client/src/components/ui/chat.tsx:144 | with a socket, the button is enabled iff sendMessage would send, and the text sent is non-empty with no whitespace at either end |
| ChatPanel.ChatInput.SetMessage | RideConnect/client/src/components/ui/chat.tsx:135 | typing replaces the input text |
| ChatPanel.ChatInput.SendMessage | RideConnect/client/src/components/ui/chat.tsx:71-80 | sends iff the text is not blank, a socket exists and it is connected; then exactly one send_message with the trimmed text and an empty input; otherwise nothing and the text is kept |
| ChatPanel.ChatInput.HandleKeyPress | RideConnect/client/src/components/ui/chat.tsx:82-87 | Enter without Shift prevents the default and runs sendMessage; Shift+Enter and other keys do nothing |
| Text.TrimStart | RideConnect/client/src/components/ui/chat.tsx:72 | drops exactly the leading whitespace |
| Text.TrimEnd | RideConnect/client/src/components/ui/chat.tsx:72 | drops exactly the trailing whitespace |
| Text.TrimIsSlice | RideConnect/client/src/components/ui/chat.tsx:74-77 | the trimmed text is a slice of the input that neither starts nor ends with whitespace |
| Text.BlankIffAllWhitespace | RideConnect/client/src/pages/community.tsx:67 | a text is blank after trim iff every character is whitespace |
| Text.ToLower | RideConnect/client/src/pages/discover.tsx:28 | lower-cases A to Z and keeps every other character |
| Text.IncludesIffOccurs | RideConnect/client/src/pages/discover.tsx:28-30 | includes holds iff the needle occurs at some index; "" occurs everywhere |
| Text.DecimalString | RideConnect/client/src/pages/community.tsx:86 | decimal digits with no leading zero whose value, read most significant first, is the number |
| TourForm.Required | RideConnect/client/src/components/ui/tour-creation-modal.tsx:36-40 | one issue with the field's message iff the text is empty |
| TourForm.TitleIssues | RideConnect/client/src/components/ui/tour-creation-modal.tsx:34 | accepted iff 1 ≤ length ≤ 100, otherwise "Title is required" or "Title too long" |
| TourForm.DescriptionIssues | RideConnect/client/src/components/ui/tour-creation-modal.tsx:35 | accepted iff length ≥ 10 |
| TourForm.ParticipantIssues | RideConnect/client/src/components/ui/tour-creation-modal.tsx:41 | accepted iff 2 ≤ n ≤ 50, with the two messages |
| TourForm.DifficultyIssues | RideConnect/client/src/components/ui/tour-creation-modal.tsx:42 | accepted iff the value is exactly "Easy", "Moderate" or "Challenging" |
| TourForm.Issues | RideConnect/client/src/components/ui/tour-creation-modal.tsx:33-44 | no issue iff every field rule holds |
| TourForm.IssuesInSchemaOrder | RideConnect/client/src/components/ui/tour-creation-modal.tsx:33-44 | the issues are each field's rule issues taken field by field in the schema's declaration order; each sits on its own field's key and none follows an issue of a later field |
| TourForm.Validate | RideConnect/client/src/components/ui/tour-creation-modal.tsx:33-44 | accepts iff every rule holds, passing the values through with bikeType defaulted to "Any"; otherwise returns the issues |
| TourForm.DefaultsRejected | RideConnect/client/src/components/ui/tour-creation-modal.tsx:59-70 | the default values fail on exactly title, description, both locations, start date and distance; duration, participants and difficulty pass |
| TourForm.AcceptedTourShape | RideConnect/client/src/components/ui/tour-creation-modal.tsx:42-43 | an accepted tour has an enum difficulty and always sends a bike type, "Any" when none was given, so the form never stores NULL |
| Discover.FilteredTours | RideConnect/client/src/pages/discover.tsx:26-41 | [] before loading; otherwise a tour is kept iff it passes all four filters |
| Discover.Subsequence | RideConnect/client/src/pages/discover.tsx:26-41 | the result keeps the listing's order |
| Discover.ClearedShowsAll | RideConnect/client/src/pages/discover.tsx:43-48 | after clearing the filters every tour is shown, in order |
| Discover.MoreFiltersNarrow | RideConnect/client/src/pages/discover.tsx:40 | setting another filter keeps an ordered part of the previous result |
| Discover.SearchIsSubstring | RideConnect/client/src/pages/discover.tsx:27-30 | a non-empty search matches iff the lower-cased query occurs in the lower-cased title, start or end location |
| Discover.MatchesTextIffOccurs | RideConnect/client/src/pages/discover.tsx:32-34 | a location match is a case-insensitive substring occurrence |
| Discover.OptionsMissFormValues | RideConnect/client/src/pages/discover.tsx:121-141 | a selected difficulty or duration option hides every tour whose value came from the creation form's choices |
| TourCard.ParticipantCount | RideConnect/client/src/components/ui/tour-card.tsx:32 | the stored count when present and non-zero, otherwise the member count |
| TourCard.StatusBadge | RideConnect/client/src/components/ui/tour-card.tsx:34-37 | Closed iff status "closed"; Full iff not closed and count ≥ max; Almost Full iff below max and 5·count ≥ 4·max; Open otherwise |
| TourCard.BadgeMonotone | RideConnect/client/src/components/ui/tour-card.tsx:34-37 | more participants never move the badge back towards Open |
| TourCard.CardBadge | RideConnect/client/src/components/ui/tour-card.tsx:31-38 | with a non-zero stored count the card's badge is the status badge of that count; with an absent or zero count, the status badge of the member count |
| TourCard.ShortDescription | RideConnect/client/src/components/ui/tour-card.tsx:87-90 | over 150 characters: the first 150 followed by "..."; otherwise unchanged |
| TourCard.ShortDescriptionIdempotent | RideConnect/client/src/components/ui/tour-card.tsx:87-90 | shortening a shown description changes nothing |
| TourDetails.IsUserMember | RideConnect/client/src/pages/tour-details.tsx:43 | true iff a user is loaded and some member's user id equals it |
| TourDetails.Render | RideConnect/client/src/pages/tour-details.tsx:45-238 | spinner while loading, Not Found without a tour; else the badge from currentParticipants, a join button for non-members (disabled while pending or at capacity) and the chat only for members |
| TourDetails.ChatOnlyForMembers | RideConnect/client/src/pages/tour-details.tsx:208-238 | the chat panel is shown iff "Already Joined" is shown |
| TourDetails.PageBadge | RideConnect/client/src/pages/tour-details.tsx:70-75 | Closed iff the status is "closed"; Full iff not closed and the stored count is at or above the maximum (the same test that disables joining); Almost Full iff below it and 5·count ≥ 4·max |
| TourDetails.CardAndPageDiffer | RideConnect/client/src/pages/tour-details.tsx:70-75 | with a stored count of 0, the page judges the tour by 0 and the card by its member count; so for an open tour with a positive maximum whose members reach four fifths of it, the page shows Open and the card does not |
| TourDetails.CardAgreesWithPage | RideConnect/client/src/pages/tour-details.tsx:70-75 | with a non-zero stored count, page and card show the same badge |
| MyTours.Created | RideConnect/client/src/pages/my-tours.tsx:21 | the tours whose creator is the user; [] before tours or the user are loaded |
| MyTours.Joined | RideConnect/client/src/pages/my-tours.tsx:22-24 | the tours of other creators with memberCount > 0; [] before loading |
| MyTours.Partition | RideConnect/client/src/pages/my-tours.tsx:21-24 | the two sections are disjoint and both keep the listing's order |
| MyTours.JoinedIgnoresMembership | RideConnect/client/src/pages/my-tours.tsx:22-24 | when every tour has members, the joined section is every tour someone else created, whether or not the user joined it |
| Community.Composer.constructor | RideConnect/client/src/pages/community.tsx:14-16 | empty text, no image, no preview |
| Community.Composer.SetText | RideConnect/client/src/pages/community.tsx:120 | typing replaces the text and keeps the image |
| Community.Composer.SelectImage | RideConnect/client/src/pages/community.tsx:46-56 | a picked file becomes the selection; no file changes nothing |
| Community.Composer.PreviewLoaded | RideConnect/client/src/pages/community.tsx:51-53 | the preview becomes the loaded data URL |
| Community.Composer.CreatePost | RideConnect/client/src/pages/community.tsx:66-78 | nothing for blank text; otherwise the trimmed text, with imageData iff a file is selected and its preview is non-empty, and then equal to the preview |
| Community.Composer.RemoveImage | RideConnect/client/src/pages/community.tsx:58-64 | selection and preview are both cleared; the text is kept |
| Community.Composer.PostSucceeded | RideConnect/client/src/pages/community.tsx:33-35 | text, selection and preview are all cleared |
| Community.EnabledShareSubmits | RideConnect/client/src/pages/community.tsx:166-168 | an enabled Share button always produces a payload, with no image once the image was removed |
| Community.HoursBetween | RideConnect/client/src/pages/community.tsx:83 | the whole hours elapsed, rounded down |
| Community.FormatDate | RideConnect/client/src/pages/community.tsx:80-89 | "Just now" under one hour (the future included); h hours ago for 1 ≤ h < 24; "Yesterday" for 24 ≤ h < 48; a date beyond |
| Community.Caption | RideConnect/client/src/pages/community.tsx:85-88 | "Just now", "{h}h ago" with h in decimal, "Yesterday"; absent only for the locale date |
| Community.HoursCaption | RideConnect/client/src/pages/community.tsx:83-86 | between one hour and one day the caption is one or two digits that denote the whole hours elapsed, followed by "h ago" |
| Community.CaptionsAge | RideConnect/client/src/pages/community.tsx:83-88 | as time passes, the bucket and the hour count never go back |
| Community.FutureIsJustNow | RideConnect/client/src/pages/community.tsx:83-85 | a post stamped in the future reads "Just now" |
| ThemeToggle.Toggle | RideConnect/client/src/components/ui/theme-toggle.tsx:8-16 | light to dark, dark to amoled, amoled and system to light; never system |
| ThemeToggle.IconFor | RideConnect/client/src/components/ui/theme-toggle.tsx:26-30 | Sun iff the theme is light |
| ThemeToggle.Cycle | RideConnect/client/src/components/ui/theme-toggle.tsx:8-16 | presses cycle light, dark, amoled with period three; system enters the cycle at light and is never reached again |

## Left out

- JSON encoding and decoding of frames: a frame is a datatype with an `Unknown` and a `Malformed` case.
- Interleaving of frames across the handler's `await`s: each frame is handled atomically.
- The `ws` library's own bookkeeping of `wss.clients`: a closed connection is only marked not OPEN.
- Database faults other than foreign-key rejections, uuid collisions and equal timestamps: message ids and timestamps come from one strictly increasing counter.
- `Store.Storage.CreateTour`: assumes the caller's tour id is fresh (the database generates a random uuid).
- `getTour`, `getUserTours`, users, stats and community-post storage, and the tour-creation route: they are not part of this model.
- Authentication: the routes receive the resolved user, or None when the lookup fails.
- Real time and `setTimeout`: a pending reconnect is a recorded delay, fired by the environment in any order.
- `WebSocketClient.WebSocketManager.OnClose`: one close handler stands for every socket's; a stale socket's close clearing a newer socket is not distinguished.
- `WebSocketClient.WebSocketManager.Dispatch`: a handler that unsubscribes itself during delivery is not modelled.
- The WebSocket URL, `console` logging and `onerror`.
- The chat panel's `socket.send` while the socket is still CONNECTING (a browser throws there), the scroll effect, `formatTime` and the input's disabled state.
- `Text.ToLower`: lower-cases ASCII letters only, because full Unicode case mapping is not modelled.
- `TourForm.TitleIssues`, `TourForm.DescriptionIssues`, `TourCard.ShortDescription`: lengths and slices count characters, not UTF-16 code units, so a text with characters outside the Basic Multilingual Plane is measured shorter than zod and `substring` measure it, and the model never splits a surrogate pair where `substring(0, 150)` can.
- `TourForm.Validate`: the participants field is an integer; `parseInt` producing NaN is not modelled.
- Floating point: 0.8 × max is the integer test 5·count ≥ 4·max.
- Dates: times are integer milliseconds with `now` a parameter, and locale date formatting is not modelled (`Community.Caption` returns None there).
- `Community.Composer.SelectImage`: reading the file into a data URL is the separate `PreviewLoaded` event, since the FileReader is not modelled.
- TanStack Query caching and invalidation beyond the chat list append; toasts; routing; and all JSX and styling.
- Display-only pages (home, map, profile) and the theme hook's storage.
