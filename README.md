# ChatHome: conversation identity and get-or-create, verified

This project models the logic of the chat home screen of a small chat web
application (`src/pages/ChatHome.tsx`): the search box handler
`handleSearch`, the "start a conversation" handler `startNewChat`, and the
deterministic conversation id `[me, other].sort().join('_')` that makes the
get-or-create idempotent.

- `ecma.dfy`, module `Ecma`: the ECMAScript string semantics the screen
  relies on. A JavaScript string is a sequence of UTF-16 code units;
  `CodeUnits` gives that view of a Dafny `string`, `Length` is `s.length`,
  `Less` is the abstract operation IsLessThan (section 7.2.13 of ECMA-262,
  proved equal to its prefix / first-difference wording `EcmaLess`), which
  the default comparator of `Array.prototype.sort` (section 23.1.3.30) uses;
  `SortPair` is `[a, b].sort()` and `Join` is `Array.prototype.join`.
- `store.dfy`, module `Store`: the hosted backend as the screen sees it, a
  class `Backend` with the auth session, the `chats` table (id is the primary
  key), the `chat_participants` rows, and logs of session lookups, table
  queries and insert requests. Its abstract value is the datatype `Snapshot`,
  whose `After…` functions say what each request does.
- `chat_home.dfy`, module `ChatHome`: the component state (`searchQuery`,
  `searchResults`, `isSearching`, the last navigation and the error toasts)
  as the class `Screen`, whose methods `HandleSearch` and `StartNewChat` issue
  the backend requests one by one. Each is proved equal to a specification
  function of the state before (`Search`, `StartChat`), and the lemmas state
  what the handlers promise about those functions.

Backend failures are parameters: a search answer (`QueryError`,
`QueryThrew`, or `Rows` with a possibly null `data`), and for a chat start
how the lookup ends (`Succeeds`, `ReturnsError`, `Throws`) and whether each
insert fails. An insert that returns an error and one that throws both end in
the handler's `catch`, so one flag per insert suffices. The lookup's error is
ignored by the handler (only `data` is read), so a lookup error reads as "no
chat"; `LookupErrorOnExistingChat` shows the consequence: the insert is then
refused by the primary key and the start fails although the chat exists.

Insert requests are logged whether or not they succeed ("writes"); the
tables change only on success. "No store read" means no table query; a
session lookup is counted separately.

## Model

| member | source | states |
|---|---|---|
| `Ecma.LessIsEcmaLess` | src/pages/ChatHome.tsx:71 | the recursive string comparison used by the sort is exactly IsLessThan: false when the right side is a prefix of the left, true when the left is a proper prefix, otherwise the first differing code unit decides |
| `Ecma.StringLessTrichotomy` | src/pages/ChatHome.tsx:71 | code-unit order on strings is asymmetric, irreflexive and total on distinct strings (distinct strings have distinct UTF-16 encodings) |
| `Ecma.CodeUnitsInjective` | src/pages/ChatHome.tsx:71 | two strings with the same UTF-16 code units are equal, so the sort never confuses two different ids |
| `Ecma.SortPair` | src/pages/ChatHome.tsx:71 | `[a, b].sort()` returns two elements, a permutation of the pair, in non-decreasing code-unit order |
| `Ecma.JoinPair` | src/pages/ChatHome.tsx:71 | joining two parts with a separator gives first part, separator, second part |
| `ChatHome.ChatIdCommutative` | src/pages/ChatHome.tsx:71 | the chat id of (caller, target) equals that of (target, caller) |
| `ChatHome.ChatIdShape` | src/pages/ChatHome.tsx:71 | the chat id is the smaller id, `_`, then the larger id (either one when they are equal) |
| `ChatHome.ChatIdDeterminesPair` | src/pages/ChatHome.tsx:71 | when no id contains `_`, equal chat ids come from the same unordered pair of users |
| `ChatHome.ChatIdCollidesOnSeparator` | src/pages/ChatHome.tsx:71 | ids containing `_` can collide: ("a_b", "c") and ("a", "b_c") get the same chat id |
| `ChatHome.Screen.constructor` | src/pages/ChatHome.tsx:13-15 | the screen starts with an empty query, no results, no spinner, no navigation and no notices |
| `ChatHome.Screen.HandleSearch` | src/pages/ChatHome.tsx:18-57 | the handler's step-by-step requests and state updates leave the screen and backend exactly as `Search` says |
| `ChatHome.Screen.StartNewChat` | src/pages/ChatHome.tsx:59-113 | the handler's session check, lookup and inserts leave the screen and backend exactly as `StartChat` says |
| `ChatHome.ShortQuerySendsNothing` | src/pages/ChatHome.tsx:19-24 | a query under two code units sets the query, empties the results and sends nothing, not even a session lookup |
| `ChatHome.SearchWithoutSession` | src/pages/ChatHome.tsx:29-34 | with no session a search redirects to `/login`, raises a notice, keeps the results and sends no table query or write |
| `ChatHome.SearchSendsOneQuery` | src/pages/ChatHome.tsx:36-41 | with a session exactly one profile search is sent, for the query, excluding the caller, limited to 5 |
| `ChatHome.SearchReplacesResults` | src/pages/ChatHome.tsx:49-50 | a successful search replaces the results with the returned rows, or with none when `data` is null |
| `ChatHome.FailedSearchKeepsResults` | src/pages/ChatHome.tsx:43-53 | a search that errors or throws keeps the previous results and navigation and raises one notice |
| `ChatHome.SearchEndsIdle` | src/pages/ChatHome.tsx:54-55 | after every search past the length guard the spinner flag is off; a short query leaves it untouched |
| `ChatHome.SearchNeverWrites` | src/pages/ChatHome.tsx:18-57 | searching never sends a write and never changes the tables or the session |
| `ChatHome.StartChatWithoutSession` | src/pages/ChatHome.tsx:61-66 | with no session starting a chat redirects to `/login`, raises a notice and sends nothing but the session lookup |
| `ChatHome.ExistingChatWritesNothing` | src/pages/ChatHome.tsx:74-107 | when the chat exists and the lookup succeeds nothing is written and the screen navigates to `/chat/{target}` |
| `ChatHome.MissingChatIsCreated` | src/pages/ChatHome.tsx:80-107 | a missing chat gets exactly one chat insert, then one insert of the rows (id, caller) and (id, target); the chat and both rows are stored and the screen navigates to `/chat/{target}` |
| `ChatHome.ChatInsertFailureStops` | src/pages/ChatHome.tsx:83-111 | a failed chat insert inserts no participant rows, does not navigate and raises a notice |
| `ChatHome.ParticipantsFailureOrphansChat` | src/pages/ChatHome.tsx:93-111 | a failed participant insert follows exactly one chat insert and one participant insert request, leaves the new chat row without members, does not navigate and raises a notice |
| `ChatHome.RetryAfterOrphanAddsNoMembers` | src/pages/ChatHome.tsx:74-103 | a retry after that failure finds the chat, writes nothing and navigates, so the orphaned chat never gets its participant rows |
| `ChatHome.LookupErrorOnExistingChat` | src/pages/ChatHome.tsx:74-90 | a lookup error on an existing chat leads to an insert the primary key refuses: no change, no navigation, a notice |
| `ChatHome.LookupThrowStops` | src/pages/ChatHome.tsx:74-111 | a lookup that throws ends the start with a notice, no write and no navigation |
| `ChatHome.StartChatTwiceWritesOnce` | src/pages/ChatHome.tsx:71-107 | starting the same chat twice writes two requests at most (none if it existed) and the second call writes nothing and navigates |
| `ChatHome.ChatSharedByBothUsers` | src/pages/ChatHome.tsx:71-107 | after A starts a chat with B, B starting a chat with A finds the same chat and writes nothing |
| `ChatHome.StartChatKeepsMembersReferential` | src/pages/ChatHome.tsx:83-103 | participant rows are inserted only after their chat row, so every participant row keeps naming an existing chat |
| `ChatHome.StartChatLeavesSearchAlone` | src/pages/ChatHome.tsx:59-113 | starting a chat changes neither the query, the results, the spinner nor the session |
| `ChatHome.FirstContactScenario` | src/pages/ChatHome.tsx:71-107 | u1 starting a chat with u2 sends one insert for chat "u1_u2" and one for its members, stores the chat "u1_u2" and the rows (u1_u2, u1) and (u1_u2, u2), and navigates to `/chat/u2` |
| `Store.Backend.GetSession` | src/pages/ChatHome.tsx:29 | returns the session's user id, if any, and only counts the lookup |
| `Store.Backend.SearchProfiles` | src/pages/ChatHome.tsx:36-41 | logs one profile search with its pattern, excluded id and limit, and returns the backend's answer |
| `Store.Backend.LookupChat` | src/pages/ChatHome.tsx:74-78 | logs one chat lookup; finds the chat only when it exists and the request succeeds |
| `Store.Backend.InsertChat` | src/pages/ChatHome.tsx:83-85 | logs one chat insert; it succeeds only when it does not fail and the id is new, and then stores the id |
| `Store.Backend.InsertParticipants` | src/pages/ChatHome.tsx:93-98 | logs one participant insert; on success all rows are stored, on failure none |

## Left out

- Rendering, styling, the avatar fallback, the click wiring and the `ChatList` component (src/pages/ChatHome.tsx:115-177): presentation only.
- The meaning of the profile search (`ilike` substring match over username and full name, `.or`, `.neq` on the caller's id, `.limit(5)`): it runs in the backend, so the model records the request's pattern, excluded id and limit and takes the rows as an opaque answer. That search results never contain the caller is therefore not proved.
- `supabase.auth.getSession` is modelled as always answering; a failure or exception of the session lookup itself is not modelled.
- `console.log`/`console.error` output and the wording of the toasts (the model records which kind of notice was raised).
- The spinner flag is true only while the requests are awaited; the model's handlers are atomic steps, so that intermediate value is not observable in it.
- Concurrency: overlapping searches, responses arriving out of order, and two users creating the same chat at once are not modelled; every handler runs to completion before the next.
- Strings are Dafny strings of Unicode scalar values; lone surrogates, which a JavaScript string may hold, cannot be represented.
- Uniqueness of `chat_participants` rows is not assumed: the table is a plain sequence of rows.
