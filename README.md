# Conference front end: chat, auto-focus and landing-page logic in Dafny

This project models the local, sequential logic of a video-conferencing web front end built on a
real-time media SDK. The modelled parts are:

- **The chat panel** (`lib/chat/Chat.tsx`), in `chat.dfy`:
  - the label rule that decides, per message, whether the sender's name and the timestamp are shown;
  - the submit guard that keeps blank input from being sent and clears the text box only after a successful send;
  - the unread effect. It keeps a "last read" timestamp marker (`lastReadMsgAt`, 0 = nothing read) and
    derives the unread count from the message list. It dispatches `unread_msg` only when the count is
    positive and differs from the stored one.
- **The conference component** (`lib/chat/VideoConference.tsx`), in `video_conference.dfy`:
  - the default widget state;
  - the track-reference predicates, over objects whose properties may be missing, undefined or set;
  - the screen-share filter;
  - the auto-focus effect. It pins the first screen share when one is subscribed and nothing is
    auto-focused, and clears the pin when the remembered share disappears.
- **The landing page** (`pages/index.tsx`), in `landing.dfy`:
  - the tab bar;
  - the mapping between the selected tab and the `tab` query value, which round-trips;
  - the active-room filter and the join tab's view;
  - the choice among the login form, the spinner and the welcome view.

`layout.dfy` holds the widget-state shape. Both components use it. `wrappers.dfy` holds `Option`.

State that the source updates in place is modelled as classes whose methods are proved against
specification functions:
- `Chat.ChatPanel` holds the text-box reference and `lastReadMsgAt`;
- `VideoConference.VideoConferenceComponent` holds the widget state and the auto-focus marker;
- `Landing.LoginPage` holds the anonymous-login flag, the typed name and the tab index from its props;
- `Landing.CustomConnectionTab` holds the polled room list.

Each effect's run is a method whose `ensures` equates the new state and the dispatched action with a
pure function (`UnreadEffect`, `AutoFocusEffect`). The lemmas are stated about those functions.

Behaviour of the code worth knowing:
- The name label is never hidden: the entry is rendered with `hideName={false}`. So a follow-up from
  the same sender within a minute shows its name but hides its timestamp. The comment at
  lib/chat/Chat.tsx:111 ("if we show the name always show the timestamp as well") holds only of the
  locally computed `hideName`, not of what is rendered. `Chat.NameShownTimestampHidden` exhibits it. `Chat.TimestampAnchored` proves the
  guarantee that does hold: every hidden timestamp belongs to a same-sender run that starts at a shown one.
- A count of 0 is never dispatched, so the code never resets the badge itself. Resetting the badge
  when the panel opens is the layout reducer's job, and that reducer is not part of this model.
- When `send` is not available, a submit does nothing and raises no error.
- The "last read" marker uses 0 for "nothing read". When the last message is stamped 0, the marker
  cannot move off 0, so every message stays unread even while the panel is open
  (`Chat.ZeroTimestampStaysUnread`). `Chat.OpenPanelNeverDispatches` and `Chat.UnreadEffectSettles`
  therefore assume chronological timestamps and a non-zero last timestamp;
  `Chat.UnreadEffectSettlesWithinTwoRuns` assumes nothing.

## Model

| member | source | states |
|---|---|---|
| `Chat.EntryLabelsAt` | lib/chat/Chat.tsx:102-111 | the name label is never hidden; the timestamp is hidden iff the previous message has the same sender and is less than 60000 ms older, so it is always shown for message 0 and on a change of sender |
| `Chat.TimestampAnchored` | lib/chat/Chat.tsx:103-111 | every message with a hidden timestamp lies in a same-sender run of sub-minute gaps that starts at a message whose timestamp is shown |
| `Chat.NameShownTimestampHidden` | lib/chat/Chat.tsx:110-111 | two messages from one sender 100 ms apart: the second shows its name and hides its timestamp |
| `Chat.TrimStart` | lib/chat/Chat.tsx:50 | the result is a suffix of the input; everything dropped is JavaScript white space; the result does not start with white space |
| `Chat.TrimEnd` | lib/chat/Chat.tsx:50 | the result is a prefix of the input; everything dropped is white space; the result does not end with white space |
| `Chat.Trim` | lib/chat/Chat.tsx:50 | `trim()` is empty iff the input is all white space; otherwise it starts and ends with a visible character |
| `Chat.SubmitResult` | lib/chat/Chat.tsx:50-52 | the value is handed to `send` iff `send` exists and the value has a visible character; it is handed over unchanged; it counts as sent iff the send resolves |
| `Chat.ChatPanel.HandleSubmit` | lib/chat/Chat.tsx:48-57 | with no text box nothing happens; otherwise the outcome is `SubmitResult` of the value; the box is cleared and focused only after a resolved send and is otherwise left as it was |
| `Chat.ChatPanel.constructor` | lib/chat/Chat.tsx:46 | the "last read" marker starts at 0 (nothing read) |
| `Chat.UnreadMessages` | lib/chat/Chat.tsx:79-81 | keeps exactly the messages newer than the marker, or every message when the marker is 0, and no more messages than the list has |
| `Chat.UnreadCount` | lib/chat/Chat.tsx:79-81 | the count is at most the list length and is 0 iff no message is unread against the marker |
| `Chat.UnreadMessagesAppend` | lib/chat/Chat.tsx:79-81 | the unread filter distributes over concatenation, so it keeps list order |
| `Chat.UnreadCountOnArrival` | lib/chat/Chat.tsx:79-81 | appending a message raises the count by one iff that message is unread, and otherwise leaves it unchanged |
| `Chat.NothingReadCountsAll` | lib/chat/Chat.tsx:80 | with the marker at 0 every message is unread and the count is the list length |
| `Chat.CaughtUpCountsNone` | lib/chat/Chat.tsx:73-81 | with the marker at the non-zero last timestamp of a chronological list, the count is 0 |
| `Chat.UnreadEffect` | lib/chat/Chat.tsx:65-87 | no context or no messages: no change and no dispatch; panel open and last message unmarked: the marker becomes its timestamp and nothing is dispatched; a run that moves the marker dispatches nothing; otherwise the marker is kept, and a count is dispatched exactly when the unread count is positive, differs from the stored count and there is a dispatcher, and it is that unread count |
| `Chat.UnreadEffectSettles` | lib/chat/Chat.tsx:65-87 | re-running on the same chronological messages, after the widget has recorded any dispatched count, changes nothing and dispatches nothing |
| `Chat.UnreadEffectSettlesWithinTwoRuns` | lib/chat/Chat.tsx:65-87 | on any messages, once the widget has recorded what two runs dispatched, the third run changes nothing and dispatches nothing |
| `Chat.OpenPanelNeverDispatches` | lib/chat/Chat.tsx:70-86 | while the panel is open, a chronological list with a non-zero last timestamp never causes an `unread_msg` dispatch |
| `Chat.ZeroTimestampStaysUnread` | lib/chat/Chat.tsx:70-81 | when the last message is stamped 0 the marker cannot move off 0: with the panel open, a lone message stamped 0 is still dispatched as one unread message |
| `Chat.OutOfOrderStaysUnread` | lib/chat/Chat.tsx:70-86 | with the panel open and the last message marked, an earlier message stamped later is still dispatched as unread |
| `Chat.ChatPanel.OnMessagesOrWidgetChanged` | lib/chat/Chat.tsx:65-87 | one run of the effect: the new marker and the dispatched count are exactly those of `UnreadEffect` on the old marker |
| `VideoConference.IsTrackReferenceSubscribed` | lib/chat/VideoConference.tsx:238-248 | a subscribed reference has participant and source, a defined publication, and a track on that publication |
| `VideoConference.IsTrackReferencePublished` | lib/chat/VideoConference.tsx:250-260 | holds iff the reference is given, has participant and source, and has a defined publication |
| `VideoConference.IsTrackReference` | lib/chat/VideoConference.tsx:228-236 | false for undefined; the subscribed check implies the published check, so the result is exactly the published check |
| `VideoConference.IsTrackReferencePlaceholder` | lib/chat/VideoConference.tsx:262-273 | never holds together with the published check; for a reference with participant and source, exactly one of the two holds |
| `VideoConference.EntriesWithOptions` | lib/chat/VideoConference.tsx:157-164 | keeps exactly the object entries of a sources array |
| `VideoConference.IsSourcesWithOptions` | lib/chat/VideoConference.tsx:161-166 | true iff some entry of the array is an object rather than a bare source |
| `VideoConference.ScreenShareTracks` | lib/chat/VideoConference.tsx:64-66 | keeps exactly the track references whose publication source is ScreenShare |
| `VideoConference.ScreenShareTracksAppend` | lib/chat/VideoConference.tsx:64-66 | the screen-share filter distributes over concatenation, so it keeps list order |
| `VideoConference.AutoFocusEffect` | lib/chat/VideoConference.tsx:71-97 | at most one pin action per run, only with a dispatcher; `set_pin` only from an empty marker, for a screen-share track of the list, which becomes the marker; `clear_pin` only from a set marker, which becomes empty; when the marker changes, a pin action is dispatched exactly when there is a dispatcher; with a dispatcher, the marker changes iff an action is dispatched. These clauses alone also admit a run that does nothing; `AutoFocusPinsFirstScreenShare`, `AutoFocusClearsVanishedShare` and `AutoFocusSettledIsQuiet` fix the outcome of each branch |
| `VideoConference.AutoFocusPinsFirstScreenShare` | lib/chat/VideoConference.tsx:73-79 | with some screen share subscribed and no marker, the first screen share in the list is remembered, and pinned when there is a dispatcher, whether it is the subscribed one or not |
| `VideoConference.AutoFocusClearsVanishedShare` | lib/chat/VideoConference.tsx:80-90 | a marker whose publication id no screen share has any more is forgotten, with one `clear_pin` when there is a dispatcher and none otherwise |
| `VideoConference.AutoFocusSettledIsQuiet` | lib/chat/VideoConference.tsx:73-91 | from a settled marker, a run changes nothing and dispatches nothing |
| `VideoConference.AutoFocusSettles` | lib/chat/VideoConference.tsx:71-97 | on an unchanged track list, the third run from any marker dispatches nothing and leaves the marker unchanged |
| `VideoConference.ScreenShareLifecycle` | lib/chat/VideoConference.tsx:73-90 | a newly subscribed share T1 is pinned and remembered; once T1 is gone the pin is cleared and the marker emptied |
| `Layout.WidgetDefaultState` | lib/chat/VideoConference.tsx:149 | the default widget state has the chat panel closed and no unread messages |
| `VideoConference.VideoConferenceComponent.constructor` | lib/chat/VideoConference.tsx:43-47 | the widget starts as the default state, with the chat closed and no unread messages, and nothing is auto-focused |
| `VideoConference.VideoConferenceComponent.WidgetUpdate` | lib/chat/VideoConference.tsx:57-60 | the component adopts the reported widget state as it is |
| `VideoConference.VideoConferenceComponent.AutoFocusScreenShare` | lib/chat/VideoConference.tsx:71-91 | one run of the effect: the new marker and the dispatched action are exactly those of `AutoFocusEffect` on the old marker |
| `Landing.Tabs` | pages/index.tsx:18-57 | renders nothing without children; otherwise one button per child, with exactly the button at `selectedIndex ?? 0` carrying the active class and `aria-pressed`; the child at that index is shown below when it exists |
| `Landing.GetServerSideProps` | pages/index.tsx:145-152 | `tabIndex` is 1 iff the query's `tab` is the single string "custom", and 0 otherwise; the cache header allows public caching for 7200 s |
| `Landing.TabQuery` | pages/index.tsx:179-180 | "custom" iff the index is 1; any other index gives "anonymously" when `test` is 1 and "demo" otherwise |
| `Landing.TabRoundTrip` | pages/index.tsx:150-182 | for tab 0 or 1 and any `test`, the pushed query reopens the same tab |
| `Landing.QueryRoundTrip` | pages/index.tsx:150-180 | selecting the tab a query opened pushes "custom" iff that query asked for "custom" |
| `Landing.ActiveRooms` | pages/index.tsx:90 | keeps exactly the rooms with more than zero participants |
| `Landing.ActiveRoomsAppend` | pages/index.tsx:90 | the room filter distributes over concatenation, so it keeps list order |
| `Landing.ActiveRoomsKeepsOccupied` | pages/index.tsx:90 | when every room has participants, the list is kept as it is |
| `Landing.CustomConnectionView` | pages/index.tsx:118-141 | the "no streaming room" notice shows iff no room has participants; otherwise the buttons name the active rooms in order |
| `Landing.CustomConnectionTab.constructor` | pages/index.tsx:89 | the room list starts empty |
| `Landing.CustomConnectionTab.GetRoomsCompleted` | pages/index.tsx:91-100 | a fetched list replaces the rooms; a failed fetch leaves them unchanged |
| `Landing.SelectView` | pages/index.tsx:185-313 | login form iff unauthenticated with `test` 0; spinner iff loading; welcome iff authenticated, or unauthenticated with `test` 1; nothing only for other values of `test`; the welcome view greets the typed name and shows the anonymous tabs iff `test` is non-zero |
| `Landing.EveryStatusRenders` | pages/index.tsx:185-313 | with `test` 0 or 1, every session status renders one of the three views |
| `Landing.LoginPage.constructor` | pages/index.tsx:155-158 | `test` starts at 0 and the typed name empty |
| `Landing.LoginPage.HandleInputChange` | pages/index.tsx:175-177 | typing replaces the typed name |
| `Landing.LoginPage.SubmitAnonymousLogin` | pages/index.tsx:194 | `test` becomes 1 only when a name has been typed, and otherwise stays as it was; it stays 0 or 1 |
| `Landing.LoginPage.OnTabSelected` | pages/index.tsx:179-183 | pushes exactly the query `{ tab: TabQuery(test, index) }`, and the server-side props of that query reopen the selected tab |
| `Landing.LoginPage.Navigate` | pages/index.tsx:145-154 | after navigation the page's tab index is the one `GetServerSideProps` computes for the query, and the login flag stays valid |
| `Landing.LoginPage.SelectTab` | pages/index.tsx:179-183 | selecting tab 0 or 1 and navigating to the pushed query leaves the page showing that tab, with the login flag and typed name unchanged |
| `Landing.LoginPage.Render` | pages/index.tsx:185-313 | the rendered view is `SelectView` of the page's state, and it is always one of the three views |

## Left out

- Properties a JavaScript value inherits from its prototype (`'source' in x` is true for an inherited `source`, `x.participant` can be an inherited value): the model sees own properties only, so these predicates are exact for plain object literals and arrays of them.
- `PIN_DEFAULT_STATE` (lib/chat/VideoConference.tsx:142): the pin state lives in the layout reducer, which is outside the model.
- JSX rendering, CSS classes and the emoji dialog that appends literals to the text box (lib/chat/Chat.tsx:137-209): presentation only.
- The scroll-to-bottom effect and `cloneSingleChild`, including the custom-child rendering branch (lib/chat/Chat.tsx:59-63, 94-101, 214-227): React element plumbing.
- The SDK hooks `useChat`, `useTracks`, `usePinnedTracks`, `useCreateLayoutContext`, `useMaybeLayoutContext`, and the helpers `isEqualTrackRef` and `log`: their internals are not visible. Their results are parameters: the message list, the track list, the widget context with its state and dispatcher, and whether the pin context can dispatch. The layout reducer that handles `unread_msg`, `set_pin` and `clear_pin` is outside the model. `Chat.Recorded` states only what `Chat.UnreadEffectSettles` assumes of it.
- `carouselTracks` and the grid/focus layout choice (lib/chat/VideoConference.tsx:68-69, 108-123): they depend on `isEqualTrackRef` and the pinned tracks, which are SDK internals.
- The effects' dependency lists (lib/chat/Chat.tsx:87, lib/chat/VideoConference.tsx:92-97): React decides when an effect runs. The model treats each run as a call of the run method and says nothing about which changes trigger one.
- `send` is asynchronous. It is modelled as one atomic call that resolves or rejects, with the outcome as a parameter. The `isSending` flag that disables the form is not modelled.
- Message encoders, decoders and formatters are passed through unchanged.
- `Chat.ChatMessage.from` stands for the sender's participant object. The source compares senders by object identity; the model compares them by identity string.
- `Chat.IsWhitespace`: the set of characters that JavaScript's `trim` removes is written out. It follows ECMAScript's WhiteSpace and LineTerminator productions.
- next-auth (`useSession`, `signIn`, `signOut`), the Typed.js animation, `router.push` and the cache header's effect on the response. Navigation is modelled as `Landing.LoginPage.Navigate`: the page keeps its state and receives the props of the new query.
- Room polling with `fetch` and `setInterval` (pages/index.tsx:91-110): network I/O and timers. A completed poll is modelled by `GetRoomsCompleted`. A response without `rooms` is not modelled.
- `pages/api/room.ts`, `pages/rooms/[name].tsx`, `pages/api/auth/[...nextauth].ts`, `tailwind.config.js` and `next.config.js` are not part of this model. They are wrappers over server SDKs, routing, or static configuration.
- The type-level utilities `RequireAtLeastOne` and `RequireOnlyOne` (lib/chat/VideoConference.tsx:193-201): they have no runtime behaviour.
- Chat.UnreadEffectSettles: proved only for chronological messages whose last timestamp is not 0; on any messages `Chat.UnreadEffectSettlesWithinTwoRuns` proves the effect settles one run later. The code itself dispatches again otherwise, as `Chat.ZeroTimestampStaysUnread` and `Chat.OutOfOrderStaysUnread` show.
- Chat.OpenPanelNeverDispatches: proved under the same two conditions, for the same reason.
- Exotic JavaScript values are not modelled: `null` references, `NaN` timestamps, and values of `test` that are not integers. `test` is any integer; only 0 and 1 arise.
