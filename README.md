# echo-frontend, modelled in Dafny

A model of the logic inside echo-frontend, a React chat client. The browser's stores, the
server and the push socket are not part of it: they are inputs. A server reply is a `Reply`
value (`ok`, `status`, the endpoint's fields, `message`) or `NetworkError`. A push event is an
optional `WsPayload`. localStorage and sessionStorage are each a `Storage` object holding a
`map<string, Stored>`. Each asynchronous completion is one atomic method call that takes the
reply it receives as a parameter.

The model covers:

- **Conversation synchronisation.** This is what an inbound `chatMsgReceive` does to the open
  thread, to the cached message lists and to the order of chat partners. The client has two
  generations of this code, and the model keeps them apart:
  - the older one (`ActiveChat`, `RecentConversations`, `Utils`) stores lists under
    `messages:{id}`, keyed by the sender;
  - the newer one (`ChatArea`, `ChatPartnersProvider`, `Fetchers`) stores them under
    `messages-{id}`, keyed by the other party.

  It also covers the cache-first fetchers, the grouping of a thread into runs by sender, and
  the rule for showing timestamps. Neither chat view is re-mounted when the open partner
  changes, so each has a `SwitchPartner` step. In the older view a failed fetch after a switch
  leaves the previous partner's messages on screen. It also stores them under the new
  partner's `messages:` key, and the next load of that partner reads them from there.
  The older view's first commit (`Mount`) runs the same two effects with the initial empty
  list. If the first fetch for a partner restored at start-up fails, the session keeps `[]`
  under that partner's key, and every later load of that partner in the session reads `[]`
  instead of fetching.
- **The message composers.** `MessageInputBox` keeps a per-partner draft in sessionStorage.
  The older `ActiveChat.MessageBox` has no draft. It is not keyed by the partner, so when the
  open partner changes (`SetReceiver`) its text stays, and the next send delivers it to the new partner.
- **Friendship controls.** There are two status machines: `UserList` (newer) and `UserActions`
  (older). Each covers which actions a status offers, which request each action sends, and
  refetching the status only after a successful mutation.
- **Lookups.** `Connections` looks up the users behind the friend requests in order, and
  `Find` classifies search queries.
- **Forms and validators.**
  - `Schema` states the field rules twice: once as a character-by-character reading of the
    regular expressions, and once as plain predicates. Lemmas prove the two agree.
  - `Register` covers the newer form with its password-confirmation refinement.
  - `RegisterPage` covers the older form's ordered checks.
  - `Login` covers the login form.
- **The auth session.** `AuthProvider` holds `checking`, `loggedIn` and `userId`. `Login`
  and `Logout` move it, and `ProtectedRoute` and `App` decide what a route renders from it.
- **Display helpers.** `UserIcon` derives the avatar initials (proved equal to a one-pass
  scan of the name), and `Typewriter` reveals a text one character per tick.

The files are named after the modules they define. Each core source file has one module:
`ChatPartnersProvider.dfy` models `src/contexts/ChatPartnersProvider.tsx`, and so on. Shared
modules:

- `Types`: the entities of `src/lib/types.ts`, plus `Option`, `Reply` and `Request`.
- `Strings`: `trim`, `toUpperCase`, `split`, `indexOf`, `String(n)` and `Number(s)`.
- `WebStorage`: the two browser stores.

## Model

| member | source | states |
|---|---|---|
| Types.OtherParty | src/contexts/ChatPartnersProvider.tsx:65-66 | The partner of a message is its receiver when we sent it, else its sender; for a message between us and someone else it is never us |
| Strings.Trim | src/layouts/home/Find.tsx:64 | `trim()` returns a contiguous piece of the text with no whitespace at either end; everything cut before and after it is whitespace |
| Strings.TrimUnique | src/layouts/home/Find.tsx:64 | Any piece meeting that description is the trimmed text, so the contract determines the result |
| Strings.TrimOfTrimmed | src/pages/RegisterPage.tsx:20-21 | A text with no whitespace at either end is its own trim |
| Strings.TrimIdempotent | src/layouts/home/Find.tsx:64 | Trimming twice is trimming once |
| Strings.IndexOf | src/pages/RegisterPage.tsx:28 | `indexOf` is -1 exactly when the character is absent, else the first index holding it |
| Strings.Split | src/components/UserIcon.tsx:12 | `split(" ")` always yields at least one part |
| Strings.SplitCount | src/components/UserIcon.tsx:12 | The number of parts is the number of separators plus one |
| Strings.SplitPartsHaveNoSeparator | src/components/UserIcon.tsx:12 | No part contains the separator |
| Strings.JoinSplit | src/components/UserIcon.tsx:12 | Joining the parts with the separator gives back the name |
| Strings.ToUpper | src/components/UserIcon.tsx:12 | `toUpperCase` maps a lower-case ASCII letter to its capital and keeps every other character |
| Strings.NatToString | src/lib/fetchers.ts:10 | The decimal text of a number is non-empty and all digits |
| Strings.NumberOfIntToString | src/utils/utils.ts:3-10 | `Number(String(id))` is `id` |
| Strings.IntToStringInjective | src/lib/fetchers.ts:10 | Different ids print differently |
| Strings.PrefixedIdInjective | src/lib/fetchers.ts:10 | A key made of a fixed prefix and an id determines the id |
| WebStorage.Lookup | src/utils/utils.ts:4 | `getItem` finds a value exactly when the key is present, and then it is the stored value |
| WebStorage.Storage.SetItem | src/utils/utils.ts:9 | `setItem` binds the key to the value and leaves every other key as it was |
| WebStorage.Storage.Clear | src/components/Logout.tsx:18-19 | `clear` leaves the store empty |
| Fetchers.CacheFirst | src/lib/fetchers.ts:70-104 | The shape of every fetcher: only its own key can change, and a rejection comes only from a failed request and leaves the store as it was |
| Fetchers.UserFetch | src/lib/fetchers.ts:5-37 | The cache-first reading under `user-{id}`, resolving only on an ok reply when nothing usable is cached |
| Fetchers.PartnersFetch | src/lib/fetchers.ts:39-68 | The cache-first reading under `chatPartners`, with a missing `partners` field read as `[]` |
| Fetchers.MessagesFetch | src/lib/fetchers.ts:70-104 | The cache-first reading under `messages-{partnerId}`, with a missing `messages` field read as `[]` |
| Fetchers.FetchUserInfo | src/lib/fetchers.ts:5-37 | Outcome and new sessionStorage are those of the cache-first reading under `user-{id}` |
| Fetchers.FetchChatPartners | src/lib/fetchers.ts:39-68 | Same, under `chatPartners`, with a missing `partners` field read as `[]` |
| Fetchers.FetchChatMessages | src/lib/fetchers.ts:70-104 | Same, under `messages-{partnerId}`, with a missing `messages` field read as `[]` |
| Fetchers.FetchUser | src/lib/fetchers.ts:106-139 | Same as `fetchUserInfo`, sharing its key |
| Fetchers.CachedValueWins | src/lib/fetchers.ts:13-19 | With the cache on and the key present, the stored value is resolved and nothing is written |
| Fetchers.ResolvedIsCached | src/lib/fetchers.ts:28-30 | Whatever a call resolves is what a later cached call resolves, and that call writes nothing |
| Fetchers.RejectionWritesNothing | src/lib/fetchers.ts:31-35 | A call whose request fails leaves the store as it was |
| Fetchers.UserFetchCaches | src/lib/fetchers.ts:28-30 | A later cached user lookup returns what this one resolved |
| Fetchers.PartnersFetchCaches | src/lib/fetchers.ts:59-61 | A later cached partners read returns what this one resolved |
| Fetchers.MessagesFetchCaches | src/lib/fetchers.ts:95-97 | A later cached messages read returns what this one resolved |
| Fetchers.MissingMessagesAreEmpty | src/lib/fetchers.ts:95 | An ok reply without `messages` is stored and resolved as `[]` |
| Fetchers.MissingPartnersAreEmpty | src/lib/fetchers.ts:59 | An ok reply without `partners` is stored and resolved as `[]` |
| Fetchers.NoCacheStillWrites | src/lib/fetchers.ts:79-96 | With `useCache` off the stored list is ignored and still overwritten on success |
| Fetchers.KeysAreDistinct | src/lib/fetchers.ts:10-111 | The three key schemes never collide and each is one key per id |
| Utils.GetLoggedInUserId | src/utils/utils.ts:3-6 | Nothing when the stored id is absent or empty, else `Number` of the stored text |
| Utils.SaveLoggedInUserId | src/utils/utils.ts:8-10 | The id's decimal text is stored under `loggedInUserId` and nothing else changes |
| Utils.GetMessagesFromSession | src/utils/utils.ts:12-16 | Nothing when `messages:{id}` is absent or empty; a list exactly when one is stored |
| Utils.SaveMessagesToSession | src/utils/utils.ts:18-20 | The list is stored under `messages:{id}` and nothing else changes |
| Utils.SavedUserIdReadsBack | src/utils/utils.ts:3-10 | Saving an id and reading it back gives that id |
| Utils.SavedMessagesReadBack | src/utils/utils.ts:12-20 | Save-then-get returns the saved list, and reads for other ids are unaffected |
| Utils.CachesNeverAlias | src/utils/utils.ts:13-19 | `messages:{a}` never equals the fetchers' `messages-{b}` |
| ChatPartnersProvider.WithoutId | src/contexts/ChatPartnersProvider.tsx:72 | The filter keeps exactly the entries with another id |
| ChatPartnersProvider.Promote | src/contexts/ChatPartnersProvider.tsx:72 | The user in front of the list filtered of its id |
| ChatPartnersProvider.StoredPartner | src/contexts/ChatPartnersProvider.tsx:30-33 | The active partner kept in localStorage under `activeChatPartner`, or none |
| ChatPartnersProvider.PartnerToPromote | src/contexts/ChatPartnersProvider.tsx:62-69 | No promotion for a missing or non-chat event or when the other party already heads the list; otherwise the other party |
| ChatPartnersProvider.ChatPartners.constructor | src/contexts/ChatPartnersProvider.tsx:28-33 | Starts loading with no partners; the active partner is the stored one or none |
| ChatPartnersProvider.ChatPartners.LoadPartners | src/contexts/ChatPartnersProvider.tsx:39-57 | ok sets `partners || []`; a 401 navigates to `/get-started`; loading ends in every outcome |
| ChatPartnersProvider.ChatPartners.OnMessage | src/contexts/ChatPartnersProvider.tsx:61-76 | Without a partner to promote nothing changes; otherwise the looked-up user goes in front of the list filtered of that id, and a failed lookup changes nothing |
| ChatPartnersProvider.ChatPartners.SetActivePartner | src/contexts/ChatPartnersProvider.tsx:82-85 | The partner is written to localStorage and becomes active, so a reload reads it back |
| ChatPartnersProvider.CountWithoutId | src/contexts/ChatPartnersProvider.tsx:72 | Filtering removes every occurrence of the id and keeps every other id's count |
| ChatPartnersProvider.CountAppend | src/contexts/ChatPartnersProvider.tsx:72 | Occurrences add up over concatenation |
| ChatPartnersProvider.LengthWithoutId | src/contexts/ChatPartnersProvider.tsx:72 | Filtering shortens the list by the number of occurrences removed |
| ChatPartnersProvider.WithoutIdKeepsOrder | src/contexts/ChatPartnersProvider.tsx:72 | The remaining entries keep their original order |
| ChatPartnersProvider.PromotedOnceAtHead | src/contexts/ChatPartnersProvider.tsx:72 | After a move-to-front the user heads the list, its id occurs exactly once, other counts are unchanged and the rest keeps its order |
| ChatPartnersProvider.PromoteKeepsDistinct | src/contexts/ChatPartnersProvider.tsx:72 | A duplicate-free list stays duplicate-free, with length n+1 if the id was absent and n otherwise |
| ChatPartnersProvider.PromotionSettles | src/contexts/ChatPartnersProvider.tsx:67-69 | Once promoted, the same message asks for no further promotion |
| RecentConversations.Ignored | src/components/RecentConversations.tsx:32-37 | A message from the stored logged-in id or from the active partner is ignored |
| RecentConversations.Reorder | src/components/RecentConversations.tsx:29-58 | The list changes only for a chat message that is not ignored and whose sender lookup succeeds, and it gains no one but the looked-up user |
| RecentConversations.ReorderKeepsListUnlessLookedUp | src/components/RecentConversations.tsx:30-56 | A non-chat event, a message from us or the active partner, or a failed lookup leaves the list unchanged |
| RecentConversations.OwnMessagesIgnored | src/components/RecentConversations.tsx:32-37 | A message whose sender is the stored logged-in id never moves anyone |
| RecentConversations.ReorderPutsSenderFirst | src/components/RecentConversations.tsx:48-51 | Otherwise the sender heads the list exactly once, other counts and order are kept, and distinctness is preserved |
| ChatArea.Involves | src/layouts/home/ChatArea.tsx:74-75 | The open partner is the message's sender or its receiver |
| ChatArea.WithHead | src/layouts/home/ChatArea.tsx:94-96 | The result is headed by the message's id: a list already headed by that id is kept unchanged, any other gets the message in front |
| ChatArea.BackgroundStore | src/layouts/home/ChatArea.tsx:88-100 | A non-involving message can change only the other party's `messages-` key |
| ChatArea.ShowMsgTime | src/layouts/home/ChatArea.tsx:123 | A timestamp shows where the sender differs from the previous message's |
| ChatArea.ChatMessages.constructor | src/layouts/home/ChatArea.tsx:54-55 | Starts fetching with no messages |
| ChatArea.ChatMessages.Load | src/layouts/home/ChatArea.tsx:60-66 | Messages and the session store become those of the cache-first read; a rejection keeps the list; fetching ends |
| ChatArea.ChatMessages.SwitchPartner | src/layouts/home/ChatArea.tsx:42-66 | The partner changes without a re-mount: the list becomes the new partner's when the read resolves, and a rejection leaves the previous partner's messages showing |
| ChatArea.ChatMessages.OnMessage | src/layouts/home/ChatArea.tsx:69-106 | Non-chat events change nothing; an involving message is prepended and written to `messages-{partner}`; any other message updates only the other party's background entry |
| ChatArea.WithHeadIdempotent | src/layouts/home/ChatArea.tsx:94-96 | Putting the same message at the head twice is the same as once |
| ChatArea.BackgroundStoreIdempotent | src/layouts/home/ChatArea.tsx:88-100 | Handling the same background message twice leaves the store as handling it once |
| ChatArea.BackgroundStoreKeepsHeadedList | src/layouts/home/ChatArea.tsx:92-100 | A cached list already headed by the message is stored unchanged, so the store is left as it was |
| ChatArea.InvolvesIffOtherParty | src/layouts/home/ChatArea.tsx:74-90 | A message involves the open partner exactly when the partner is its other party, so it goes to the thread or to a background key, never both |
| ChatArea.PrependKeepsOlderFlags | src/layouts/home/ChatArea.tsx:123 | Prepending keeps the timestamp flag of every message below the old head, and the new head never shows one |
| ActiveChat.RoutesToOpenThread | src/components/ActiveChat.tsx:76-79 | A message is for the open thread when the active partner sent it, or we sent it to them |
| ActiveChat.SavedForm | src/components/ActiveChat.tsx:47-48 | A missing `messages` field is stored as the text `undefined` |
| ActiveChat.ActiveChat.constructor | src/components/ActiveChat.tsx:25-26 | No messages, not unauthorized, with the partner restored at start-up; the effects of the first commit are `Mount` |
| ActiveChat.ActiveChat.Load | src/components/ActiveChat.tsx:31-55 | No partner: nothing; a session copy is used without fetching; else ok sets `messages || []` and saves, non-ok sets unauthorized iff the status is 401 |
| ActiveChat.ActiveChat.SaveOnChange | src/components/ActiveChat.tsx:59-66 | The visible list is stored under the active partner's id and reads back |
| ActiveChat.ActiveChat.Mount | src/components/ActiveChat.tsx:30-66 | The first commit runs the load effect and then the save effect: in every outcome the partner's `messages:` entry ends as the list on screen, so a failed first fetch leaves `[]` stored, where every later load finds it |
| ActiveChat.ActiveChat.SwitchPartner | src/components/ActiveChat.tsx:30-66 | A new partner without a re-mount runs the commit of `Mount`: a session copy or an ok reply becomes the list and is saved; a failed fetch keeps the previous partner's list on screen and stores it under the new partner's key, where the next load finds it |
| ActiveChat.ActiveChat.OnMessage | src/components/ActiveChat.tsx:72-112 | A message from the partner, or from us to the partner, is prepended; any other message is prepended to the session list keyed by its sender (fetched on a miss), leaving the visible list alone |
| ActiveChat.BackgroundSave | src/components/ActiveChat.tsx:89-108 | Only the sender's `messages:` key can change |
| ActiveChat.GroupBySender | src/components/ActiveChat.tsx:144-158 | Flattening the groups gives back the messages; groups are non-empty, single-sender, with neighbours of different senders; no messages gives no groups |
| ActiveChat.RunsSnoc | src/components/ActiveChat.tsx:150-153 | Closing a group that starts a new sender keeps the grouping a run decomposition |
| ActiveChat.FlattenAppend | src/components/ActiveChat.tsx:151-156 | Pushing a group appends its messages to the flattening |
| ActiveChat.FlattenIndex | src/components/ActiveChat.tsx:147 | The flattening starts with the first group |
| ActiveChat.LeadRunOfGroup | src/components/ActiveChat.tsx:150 | A single-sender group followed by another sender's message is exactly the leading run |
| ActiveChat.FirstGroupIsLeadRun | src/components/ActiveChat.tsx:147-153 | The first group of a run decomposition is the whole leading run |
| ActiveChat.RunsUnique | src/components/ActiveChat.tsx:144-158 | Any two run decompositions of the same list are equal, so the grouping is the only one |
| ActiveChat.FlattenEmpty | src/components/ActiveChat.tsx:145 | A run decomposition flattens to nothing exactly when it has no groups |
| ActiveChat.RunsTail | src/components/ActiveChat.tsx:150-153 | Dropping the first group keeps a run decomposition |
| ActiveChat.SentFlagHoldsForWholeGroup | src/components/ActiveChat.tsx:177 | The sent flag read off a group's first message holds for every message of the group |
| ActiveChat.MessageBox.constructor | src/components/ActiveChat.tsx:202-203 | The box starts empty |
| ActiveChat.MessageBox.SendMessage | src/components/ActiveChat.tsx:206-226 | Blank text or no sender sends nothing and keeps the text; else the trimmed text goes to the receiver as `chatMsgSend` and the box empties |
| ActiveChat.MessageBox.SetReceiver | src/components/ActiveChat.tsx:134-203 | A new `receiverId` on the kept, unkeyed box changes the receiver and keeps the typed text, so a later send goes to the new partner |
| ActiveChat.MessageBox.OnKeyDown | src/components/ActiveChat.tsx:228-235 | Enter without Shift sends; any other key does nothing |
| ActiveChat.RoutingAgreesWithChatArea | src/components/ActiveChat.tsx:76-81 | For a message between us and someone else, the older routing agrees with the newer involvement test |
| ActiveChat.BackgroundKeysDiffer | src/components/ActiveChat.tsx:89-91 | The older background key (the sender) differs from the newer one (the other party) exactly for messages we sent |
| MessageInputBox.DraftKey | src/components/MessageInputBox.tsx:12 | The draft key `message-draft-{id}` |
| MessageInputBox.StoredDraft | src/components/MessageInputBox.tsx:12-14 | The stored draft text, or `""` |
| MessageInputBox.MessageInputBox.constructor | src/components/MessageInputBox.tsx:12-29 | The text starts as the stored draft or `""`, and the draft key then holds it |
| MessageInputBox.MessageInputBox.SetText | src/components/MessageInputBox.tsx:27-29 | Every change of the text is written to `message-draft-{id}` |
| MessageInputBox.MessageInputBox.SendMessage | src/components/MessageInputBox.tsx:31-54 | Blank text, a dead socket or a throwing send leave text and draft as they were; else the trimmed text goes to the partner and text and draft are emptied |
| MessageInputBox.MessageInputBox.OnKeyDown | src/components/MessageInputBox.tsx:56-61 | Enter without Shift sends; Shift+Enter and other keys do nothing |
| MessageInputBox.DraftReadsBack | src/components/MessageInputBox.tsx:12-29 | A saved draft is what the next mount for that partner starts with; others are untouched |
| MessageInputBox.DraftKeysAreNotMessageKeys | src/components/MessageInputBox.tsx:12 | Draft keys never coincide with `messages-{id}` keys |
| UserList.ShowActions | src/components/UserList.tsx:55 | Controls show when asked for and the user is not us |
| UserList.Offered | src/components/UserList.tsx:108-213 | The actions each status permits |
| UserList.Controls | src/components/UserList.tsx:107-214 | What the controls render for a status |
| UserList.Endpoint | src/components/UserList.tsx:219-285 | Every action but chat has a request: POST or DELETE on `/api/friend-requests`, POST on `/api/friends` |
| UserList.Refetched | src/components/UserList.tsx:86-96 | The status changes only on an ok reply carrying a non-empty `friendshipStatus` |
| UserList.UserActions.constructor | src/components/UserList.tsx:71-73 | Empty status, not processing |
| UserList.UserActions.RefetchStatus | src/components/UserList.tsx:77-97 | The status becomes the refetched one |
| UserList.UserActions.Click | src/components/UserList.tsx:108-206 | An action the status does not offer does nothing; chat sets and stores the active partner without a request; others issue their request, and send and cancel mark processing |
| UserList.UserActions.Complete | src/components/UserList.tsx:118-206 | The status is refetched only after a successful mutation; send and cancel stop processing in every outcome |
| UserList.ControlsMatchOffered | src/components/UserList.tsx:108-213 | The rendered buttons are exactly the offered actions; the spinner shows exactly for `""`; a button is busy only while processing and only for send and cancel |
| UserList.UnknownStatusOffersNothing | src/components/UserList.tsx:108-213 | A status outside the machine offers nothing and renders nothing |
| UserList.EndpointsNameTheTarget | src/components/UserList.tsx:219-285 | Cancel and decline share one endpoint; every request names the target user |
| UserActions.ActionsFor | src/components/UserActions.tsx:41-108 | Only the four known statuses offer actions; every other value shows `???` |
| UserActions.Endpoint | src/components/UserActions.tsx:118-217 | Every action but reject has a request carrying the target id |
| UserActions.UserActions.constructor | src/components/UserActions.tsx:18 | The status starts as `""` |
| UserActions.UserActions.UpdateFriendshipStatus | src/components/UserActions.tsx:23-38 | Only an ok reply assigns the status |
| UserActions.UserActions.Perform | src/components/UserActions.tsx:41-217 | Reject, an unconfirmed unfriend or an action not offered do nothing; others issue their request and refetch the status only on an ok reply |
| UserActions.StartChatButton.constructor | src/components/UserActions.tsx:220 | No navigation yet |
| UserActions.StartChatButton.StartChat | src/components/UserActions.tsx:223-227 | The user becomes the active partner and navigation is requested |
| UserActions.StartChatButton.Redirect | src/components/UserActions.tsx:229 | Navigates to `/chats` exactly once requested |
| UserActions.OfferedActionsHaveRequests | src/components/UserActions.tsx:41-108 | Each offered action but reject has a request; only an incoming request offers two actions |
| UserActions.OtherStatusesShowPlaceholder | src/components/UserActions.tsx:106-107 | Unknown values and the initial `""` show the placeholder |
| Connections.RequestType | src/layouts/home/Connections.tsx:20 | `received` for incoming requests, `sent` for outgoing |
| Connections.OtherUserId | src/layouts/home/Connections.tsx:27-29 | The requestor of an incoming request, the receiver of an outgoing one |
| Connections.OtherUserIds | src/layouts/home/Connections.tsx:26-29 | One id per request, in order: the requestor for incoming, the receiver for outgoing |
| Connections.Connections.constructor | src/layouts/home/Connections.tsx:14-16 | Loading, showing incoming requests, no users |
| Connections.Connections.Toggle | src/layouts/home/Connections.tsx:53-57 | Flips the direction, except while loading, when the button is disabled |
| Connections.Connections.Load | src/layouts/home/Connections.tsx:18-41 | Asks for `received` or `sent`; on success the list and the cache are those of looking every other user up in order, the list replaced only when all resolve; loading ends |
| Connections.LookupAll | src/layouts/home/Connections.tsx:25-32 | The lookups one after the other, stopping at the first rejection |
| Connections.LookupAllInOrder | src/layouts/home/Connections.tsx:25-32 | With a consistent cache and server, a resolved lookup gives one user per request with the id asked for, in request order |
| Connections.MissingRequestsAreEmpty | src/layouts/home/Connections.tsx:24 | A reply without `friendRequests` gives the empty list without a lookup |
| Connections.FailedLookupRejects | src/layouts/home/Connections.tsx:30-35 | A failing lookup of an uncached id rejects the whole load, keeping the previous list |
| Find.Classify | src/layouts/home/Find.tsx:63-74 | Blank-after-trim input searches nothing; otherwise a search |
| Find.SearchRequest | src/layouts/home/Find.tsx:21 | A request goes out only with a non-empty query |
| Find.StartSearch | src/layouts/home/Find.tsx:26 | A sent search turns the spinner on |
| Find.Redirect | src/layouts/home/Find.tsx:47 | `/get-started` once unauthorized |
| Find.OnReply | src/layouts/home/Find.tsx:33-43 | ok sets `results || []`; non-ok sets unauthorized iff 401; searching ends in every outcome |
| Find.ClassifyRoundTrip | src/layouts/home/Find.tsx:64-72 | A leading `@` gives a username search of the rest; putting the `@` back gives the trimmed input |
| Find.LoneAtSendsNothing | src/layouts/home/Find.tsx:21-69 | A lone `@` is classified but sends no request |
| Find.NormalSearchIsTrimmed | src/layouts/home/Find.tsx:70-71 | A normal search sends the whole trimmed text |
| Find.UnauthorizedRedirects | src/layouts/home/Find.tsx:38-47 | A 401 leads to `/get-started`; an ok reply never starts a redirect |
| Schema.MatchDotsIff | src/lib/schema.ts:4-13 | `^.{lo,hi}$` matches exactly the texts of lo to hi characters without a line terminator |
| Schema.DotsThenDigitHasDigit | src/lib/schema.ts:16 | A match of `.*\d` implies a digit in the text |
| Schema.DigitLookaheadIff | src/lib/schema.ts:16-18 | `(?=.*\d)` succeeds somewhere exactly when the text has a digit 0-9 |
| Schema.SearchSpecialIff | src/lib/schema.ts:19-21 | The class search succeeds exactly when the text has one of `$&+,:;=?@#\|'<>.^*()%!-` |
| Schema.UsernameIssues | src/lib/schema.ts:4-6 | No issue exactly when the username has 2 to 15 characters and no line terminator |
| Schema.FullnameIssues | src/lib/schema.ts:7 | No issue exactly when the full name is non-empty |
| Schema.PasswordIssues | src/lib/schema.ts:9-21 | One message per failing rule (length, digit, special), so none exactly when all three hold |
| Schema.LoginIssues | src/lib/schema.ts:24-27 | No issue exactly when username and password are non-empty |
| Schema.RegisteredCredentialsPassLogin | src/lib/schema.ts:3-27 | Credentials valid for registration pass the login checks |
| Schema.LettersOnlyFailsTwoRules | src/lib/schema.ts:13-21 | A letters-only password of valid length fails exactly the digit and special rules |
| Register.Tag | src/layouts/get-started/Register.tsx:23-29 | Each field's messages are attached to that field, in order |
| Register.MessagesOf | src/layouts/get-started/Register.tsx:23-33 | A field's messages are drawn from the issue list |
| Register.RegisterView.constructor | src/layouts/get-started/Register.tsx:36-38 | No error, not requesting, not registered |
| Register.RegisterView.Submit | src/layouts/get-started/Register.tsx:51-186 | While requesting the disabled button sends nothing and changes nothing; otherwise a form with issues calls nothing, and a valid one clears the error, starts requesting and sends fullname, username and password only |
| Register.RegisterView.Complete | src/layouts/get-started/Register.tsx:64-73 | ok registers; non-ok shows the server message; requesting ends in every outcome |
| Register.RegisterView.Render | src/layouts/get-started/Register.tsx:76 | Redirects (to `../login`) exactly once registered |
| Register.MessagesOfAppend | src/layouts/get-started/Register.tsx:23-33 | A field's messages over concatenated issue lists concatenate |
| Register.MessagesOfMember | src/layouts/get-started/Register.tsx:23-33 | A message is reported for a field exactly when the issue list holds it for that field |
| Register.MessagesOfTag | src/layouts/get-started/Register.tsx:23-29 | A field's tagged messages belong to that field only |
| Register.ConfPasswordOnly | src/layouts/get-started/Register.tsx:23-33 | Only the confirmation's own checks and the refinement report on the confirmation |
| Register.ConfPasswordMessages | src/layouts/get-started/Register.tsx:28-33 | The confirmation's messages are its password-rule messages followed by the mismatch when the passwords differ |
| Register.FormValidIff | src/layouts/get-started/Register.tsx:23-33 | The form submits exactly when every field rule holds and the confirmation equals the password |
| Register.AcceptedFormFilled | src/layouts/get-started/Register.tsx:23-33 | An accepted form has every field filled and equal passwords |
| Register.MismatchShownOnConfirmation | src/layouts/get-started/Register.tsx:30-33 | "Passwords do not match." is reported exactly when the passwords differ, and shown under the confirmation exactly when the confirmation passes the password rules |
| RegisterPage.Validate | src/pages/RegisterPage.tsx:20-35 | Names trimmed, passwords raw; a missing field, then an inner space, then differing passwords refuse with their message, the first failure winning; otherwise the trimmed registration is accepted |
| RegisterPage.RegisterPage.constructor | src/pages/RegisterPage.tsx:14-16 | Not loading, not registered, no error |
| RegisterPage.RegisterPage.HandleRegister | src/pages/RegisterPage.tsx:18-93 | While loading (no form is shown) or with an empty `required` input nothing happens; otherwise a refused form shows its message and sends nothing, and an accepted one starts loading and sends the registration |
| RegisterPage.MissingDataOnlyForBlankNames | src/pages/RegisterPage.tsx:20-93 | For forms the browser submits, "Must provide all data" appears exactly when a name is blank after trimming |
| RegisterPage.RegisterPage.Complete | src/pages/RegisterPage.tsx:43-51 | ok registers; non-ok shows the server message; loading ends in every outcome |
| RegisterPage.RegisterPage.Render | src/pages/RegisterPage.tsx:54-55 | Loading first, then the redirect to `/login` once registered |
| RegisterPage.SpaceTestIsContainment | src/pages/RegisterPage.tsx:21-28 | After trimming, `indexOf(" ") > 0` holds exactly when the username contains a space |
| RegisterPage.CleanFormAccepted | src/pages/RegisterPage.tsx:24-35 | Filled, already-trimmed fields with no space in the username and equal passwords are accepted as typed |
| RegisterPage.GenerationsAgree | src/pages/RegisterPage.tsx:20-40 | A form the newer registration accepts, with trimmed names and no space in the username, is accepted by the older page with the same body |
| RegisterPage.InnerSpaceRefused | src/pages/RegisterPage.tsx:24-31 | Filled, already-trimmed names with a space inside the username are refused for that space |
| RegisterPage.InnerSpaceSplitsGenerations | src/pages/RegisterPage.tsx:20-31 | The username `a b` passes the newer username rule yet is its own trim and contains a space, so the older page refuses it (by `InnerSpaceRefused`) |
| AuthProvider.Auth.constructor | src/contexts/AuthProvider.tsx:21-36 | Starts checking, signed out, with user id -1 |
| AuthProvider.Auth.InitialCheck | src/contexts/AuthProvider.tsx:39-66 | No token: the check ends without a request; else ok signs in with the reply's id, non-ok empties localStorage, and the check ends in every outcome; from the initial state the guard then lets the user through exactly when a token is stored and the reply is ok |
| Login.LoginView.constructor | src/layouts/get-started/Login.tsx:29-30 | No error, not requesting |
| Login.LoginView.Submit | src/layouts/get-started/Login.tsx:23-123 | While requesting the disabled button sends nothing and changes nothing; otherwise credentials failing the login rules call nothing, and others clear the error, start requesting and are posted |
| Login.LoginView.Complete | src/layouts/get-started/Login.tsx:53-65 | ok signs in with the reply's id and stores its token; non-ok shows the message and leaves the session alone; requesting ends in every outcome |
| Login.LoginView.Render | src/layouts/get-started/Login.tsx:68 | A signed-in user is redirected |
| Login.StoredTokenIsChecked | src/layouts/get-started/Login.tsx:58 | A stored non-empty token makes the next start-up ask the server; an empty one skips the check |
| Logout.Logout | src/components/Logout.tsx:12-28 | Both stores are emptied, the user is signed out with id -1, the redirect is `/get-started`, and from an already signed-out state nothing changes |
| ProtectedRoute.Guard | src/wrappers/ProtectedRoute.tsx:10-12 | Loading screen exactly while checking; otherwise the children exactly when signed in, else the redirect to `/get-started` |
| ProtectedRoute.OnlyRedirectIsGetStarted | src/wrappers/ProtectedRoute.tsx:11 | The guard redirects only to `/get-started` |
| ProtectedRoute.CheckingTakesPrecedence | src/wrappers/ProtectedRoute.tsx:10 | While checking, the sign-in flag makes no difference |
| App.Root | src/App.tsx:8-10 | Never content: the loading screen exactly while checking, then `/home` or `/get-started` by sign-in state |
| App.RootAgreesWithGuard | src/App.tsx:8-10 | The root sends to `/home` exactly when the guard would render the children, and otherwise redirects where the guard does |
| UserIcon.Initials | src/components/UserIcon.tsx:12 | One letter per space plus one, equal to the one-pass scan of the name |
| UserIcon.FirstsOfNonEmptyParts | src/components/UserIcon.tsx:12 | Without empty parts, letter k is the upper-cased first character of part k |
| UserIcon.ScanMatchesSplit | src/components/UserIcon.tsx:12 | The one-pass scan gives the first letters of the parts `split` produces, in order |
| UserIcon.FirstPartEmpty | src/components/UserIcon.tsx:12 | The first part is empty exactly for an empty name or one starting with a space |
| UserIcon.NoEmptyPartIff | src/components/UserIcon.tsx:12 | No part is empty exactly when the name is non-empty, has no leading or trailing space and no two spaces in a row |
| UserIcon.WellSpacedAfterSpace | src/components/UserIcon.tsx:12 | A space after the first character moves the spacing condition past the space |
| UserIcon.WellSpacedStep | src/components/UserIcon.tsx:12 | Two non-spaces in front move the spacing condition one character on |
| UserIcon.InitialsAreFirstLetters | src/components/UserIcon.tsx:12 | Letter k is the upper-cased first character of the k-th part |
| Typewriter.Typewriter.constructor | src/components/Typewriter.tsx:10-11 | Empty text at index 0, with the revealed text the empty prefix |
| Typewriter.Typewriter.Tick | src/components/Typewriter.tsx:14-20 | While characters remain, appends `text[currentIndex]` and advances the index by one; otherwise nothing; the revealed text stays the prefix of that length |
| Typewriter.Typewriter.Run | src/components/Typewriter.tsx:14-20 | The remaining characters take one tick each, and the whole text ends up revealed |

## Left out

- Values of the wrong shape in storage. A stored value that is not the JSON the reader
  expects is read as a cache miss. The client would `JSON.parse` it into whatever it holds,
  or throw.
- ActiveChat.ActiveChat.Load: an ok reply without `messages` stores the text `undefined`. A
  later read of that entry by `JSON.parse` would throw, and that read is not modelled. The
  save effect overwrites the entry with the visible list anyway.
- Fetchers.UserFetch: an ok reply without a `user` field stores the text `undefined` and
  resolves `undefined`. A later cached read of that entry would throw in `JSON.parse`. The
  reply type always carries a user, so neither step is modelled.
- Fetchers.FetchUserInfo: the same missing-`user` case as `Fetchers.UserFetch` is not modelled.
- `Number(s)` on anything but a decimal integer literal. Such text is kept as `NotAnInteger`
  and equals no id.
- Unicode. `trim` and `toUpperCase` act on ASCII only. String lengths count characters, not
  UTF-16 code units, so a name with characters outside the Basic Multilingual Plane is
  measured differently by the length rules.
- The zod and regex engines, and the form library. The rules of `src/lib/schema.ts` are stated
  directly, and the shown error per field is taken to be that field's first message.
- Request headers (the bearer token) and the JSON encoding of bodies and stored values.
  A `Request` records verb, path and the `targetId` body; the registration and login bodies
  are datatypes.
- Rejection texts, console logs and the toast notices after friendship actions.
- The WebSocket connection lifecycle and the parsing of push frames. An event is an input,
  and a frame that fails to parse never arrives.
- Timers. This covers `debounce` (the search debounce included), the Typewriter delay, and
  `formatChatDate`, which depends on the clock and the locale.
- Scrolling, focus, and sizing of text areas.
- Concurrency. Overlapping completions, where the last to resolve wins, are not modelled:
  each completion is one atomic step applied to the current state.
- ActiveChat.MessageBox.SendMessage: the text lives in a DOM node rather than in React
  state. It is modelled as a field of the box, and the `wsSend` function is reduced to
  whether it is defined. Typing itself is not an operation of the model; the field is the
  text present at the time of a send, including text carried over from the previous partner.
- MessageInputBox.MessageInputBox.SendMessage: whether the socket send throws is an input.
  The exception itself is not modelled.
- UserList.UserActions.Click: the accept and decline items sit in a dropdown menu. The menu
  is not modelled, only the click on the item.
- The unauthorized redirect of the older chat window (`/login`). It is a render of the
  `unauthorized` flag and is not modelled.
- UserIcon.Initials: a name with an empty part makes the component throw. The model makes
  "no empty part" a precondition, and `NoEmptyPartIff` characterises it.
