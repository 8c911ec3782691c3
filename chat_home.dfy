/** The chat home screen: a user search box and "start a conversation with
    this user". The screen's state is four pieces of component state plus the
    error notices it raises; everything it reads or writes lives in the
    backend (module Store). Each handler is specified by a function from the
    state before to the state after (`Search`, `StartChat`), the class
    `Screen` performs the same steps one request at a time, and the lemmas
    below state what the handlers promise. */
module ChatHome {
  import opened Ecma
  import opened Store

  /** Queries shorter than this (in UTF-16 code units) are not sent. */
  const MinQueryLength := 2
  /** At most this many profiles are asked for. */
  const SearchLimit := 5
  /** Joins the two sorted participant ids into the chat id. */
  const Separator := "_"

  /** Where the router was sent: `/login`, or `/chat/{userId}` keyed by the
      other participant (the chat id is derived again from that and the
      session at the destination). */
  datatype Route = Login | Chat(userId: UserId)

  /** The error toasts the screen raises. */
  datatype Notice =
    | LoginRequiredToSearch
    | SearchFailed
    | LoginRequiredToChat
    | ChatStartFailed

  datatype ViewState = ViewState(
    searchQuery: string,
    searchResults: seq<Profile>,
    isSearching: bool,
    lastNavigation: Option<Route>,
    notices: seq<Notice>)

  const InitialView := ViewState("", [], false, None, [])

  /** The screen and the backend after one handler has run. */
  datatype Step = Step(view: ViewState, store: Snapshot)

  /** Which backend requests of a chat start fail for reasons outside the
      model. An insert that returns an error and one that throws end the same
      way, so for them a flag is enough. */
  datatype ChatFaults = ChatFaults(lookup: RequestFault, chatInsertFails: bool, participantsInsertFails: bool)

  const NoFaults := ChatFaults(Succeeds, false, false)

  /** `[me, other].sort().join('_')`. */
  function ChatId(me: UserId, other: UserId): (id: string)
  {
    Join(SortPair(me, other), Separator)
  }

  /** `handleSearch(query)` as a function of the state before it. */
  function Search(v: ViewState, s: Snapshot, query: string, answer: SearchOutcome): (r: Step)
  {
    var typed := v.(searchQuery := query);
    if Length(query) < MinQueryLength then
      Step(typed.(searchResults := []), s)
    else
      var looked := s.AfterSessionLookup();
      match s.session
      case None =>
        Step(typed.(isSearching := false, lastNavigation := Some(Login),
                    notices := v.notices + [LoginRequiredToSearch]), looked)
      case Some(me) =>
        var queried := looked.AfterQuery(ProfileSearch(query, me, SearchLimit));
        match answer
        case Rows(data) =>
          Step(typed.(searchResults := data.GetOr([]), isSearching := false), queried)
        case _ =>
          Step(typed.(isSearching := false, notices := v.notices + [SearchFailed]), queried)
  }

  /** `startNewChat(target)` as a function of the state before it. */
  function StartChat(v: ViewState, s: Snapshot, target: UserId, f: ChatFaults): (r: Step)
  {
    var looked := s.AfterSessionLookup();
    match s.session
    case None =>
      Step(v.(lastNavigation := Some(Login), notices := v.notices + [LoginRequiredToChat]), looked)
    case Some(me) =>
      var id := ChatId(me, target);
      var queried := looked.AfterQuery(ChatLookup(id));
      if f.lookup == Throws then
        Step(v.(notices := v.notices + [ChatStartFailed]), queried)
      else if queried.LookupFinds(id, f.lookup) then
        Step(v.(lastNavigation := Some(Chat(target))), queried)
      else
        var created := queried.AfterChatInsert(id, f.chatInsertFails);
        if !queried.ChatInsertSucceeds(id, f.chatInsertFails) then
          Step(v.(notices := v.notices + [ChatStartFailed]), created)
        else
          var joined := created.AfterParticipantsInsert([Participant(id, me), Participant(id, target)],
                                                        f.participantsInsertFails);
          if f.participantsInsertFails then
            Step(v.(notices := v.notices + [ChatStartFailed]), joined)
          else
            Step(v.(lastNavigation := Some(Chat(target))), joined)
  }

  class Screen {
    const backend: Backend
    var searchQuery: string
    var searchResults: seq<Profile>
    var isSearching: bool
    var lastNavigation: Option<Route>
    var notices: seq<Notice>

    function State(): ViewState
      reads this
    {
      ViewState(searchQuery, searchResults, isSearching, lastNavigation, notices)
    }

    constructor (backend: Backend)
      ensures this.backend == backend
      ensures State() == InitialView
    {
      this.backend := backend;
      searchQuery := "";
      searchResults := [];
      isSearching := false;
      lastNavigation := None;
      notices := [];
    }

    /** The search box's change handler. The spinner flag is raised before the
        requests and lowered on every path once they are done. */
    method HandleSearch(query: string, answer: SearchOutcome)
      modifies this, backend
      ensures Step(State(), backend.State()) == Search(old(State()), old(backend.State()), query, answer)
    {
      searchQuery := query;
      if Length(query) < MinQueryLength {
        searchResults := [];
        return;
      }
      isSearching := true;
      var user := backend.GetSession();
      if user.None? {
        notices := notices + [LoginRequiredToSearch];
        lastNavigation := Some(Login);
        isSearching := false;
        return;
      }
      var outcome := backend.SearchProfiles(query, user.value, SearchLimit, answer);
      match outcome {
        case Rows(data) =>
          searchResults := data.GetOr([]);
        case _ =>
          notices := notices + [SearchFailed];
      }
      isSearching := false;
    }

    /** Get or create the conversation with `target`, then open it. */
    method StartNewChat(target: UserId, f: ChatFaults)
      modifies this, backend
      ensures Step(State(), backend.State()) == StartChat(old(State()), old(backend.State()), target, f)
    {
      var user := backend.GetSession();
      if user.None? {
        notices := notices + [LoginRequiredToChat];
        lastNavigation := Some(Login);
        return;
      }
      var me := user.value;
      var id := ChatId(me, target);
      var found, threw := backend.LookupChat(id, f.lookup);
      if threw {
        notices := notices + [ChatStartFailed];
        return;
      }
      if !found {
        var ok := backend.InsertChat(id, f.chatInsertFails);
        if !ok {
          notices := notices + [ChatStartFailed];
          return;
        }
        ok := backend.InsertParticipants([Participant(id, me), Participant(id, target)],
                                         f.participantsInsertFails);
        if !ok {
          notices := notices + [ChatStartFailed];
          return;
        }
      }
      lastNavigation := Some(Chat(target));
    }
  }

  // ---------------------------------------------------------------------
  // The chat id

  /** Either participant may start the chat: the id does not depend on who. */
  lemma ChatIdCommutative(a: UserId, b: UserId)
    ensures ChatId(a, b) == ChatId(b, a)
  {
    StringLessTrichotomy(a, b);
  }

  /** The id is the smaller id, the separator, then the larger id. */
  lemma ChatIdShape(a: UserId, b: UserId)
    ensures StringLess(a, b) || a == b ==> ChatId(a, b) == a + Separator + b
    ensures StringLess(b, a) ==> ChatId(a, b) == b + Separator + a
  {
    StringLessTrichotomy(a, b);
    JoinPair(a, b, Separator);
    JoinPair(b, a, Separator);
  }

  lemma SplitAtSeparator(x: string, y: string, u: string, w: string)
    requires '_' !in x && '_' !in u
    requires x + Separator + y == u + Separator + w
    ensures x == u && y == w
  {
    var l, r := x + Separator + y, u + Separator + w;
    assert l[|x|] == '_' && r[|u|] == '_';
    assert forall i :: 0 <= i < |x| ==> l[i] == x[i] != '_';
    assert forall i :: 0 <= i < |u| ==> r[i] == u[i] != '_';
    assert |x| == |u|;
    assert x == l[..|x|] && u == r[..|u|];
    assert y == l[|x| + 1..] && w == r[|u| + 1..];
  }

  /** With ids free of the separator, the chat id names exactly one
      unordered pair of users. */
  lemma ChatIdDeterminesPair(a: UserId, b: UserId, c: UserId, d: UserId)
    requires '_' !in a && '_' !in b && '_' !in c && '_' !in d
    requires ChatId(a, b) == ChatId(c, d)
    ensures multiset{a, b} == multiset{c, d}
  {
    var p, q := SortPair(a, b), SortPair(c, d);
    JoinPair(p[0], p[1], Separator);
    JoinPair(q[0], q[1], Separator);
    assert p == [p[0], p[1]] && q == [q[0], q[1]];
    assert p[0] in multiset{a, b} && q[0] in multiset{c, d};
    SplitAtSeparator(p[0], p[1], q[0], q[1]);
  }

  /** Ids that contain the separator can collide: two different pairs share
      one chat id. */
  lemma ChatIdCollidesOnSeparator()
    ensures ChatId("a_b", "c") == ChatId("a", "b_c")
    ensures multiset{"a_b", "c"} != multiset{"a", "b_c"}
  {
  }

  // ---------------------------------------------------------------------
  // handleSearch

  /** A query shorter than two code units records the query, empties the
      results and sends nothing to the backend, not even a session lookup. */
  lemma ShortQuerySendsNothing(v: ViewState, s: Snapshot, query: string, answer: SearchOutcome)
    requires Length(query) < MinQueryLength
    ensures Search(v, s, query, answer) == Step(v.(searchQuery := query, searchResults := []), s)
  {
  }

  /** Without a session the search redirects to the login page and sends no
      table request. */
  lemma SearchWithoutSession(v: ViewState, s: Snapshot, query: string, answer: SearchOutcome)
    requires Length(query) >= MinQueryLength && s.session == None
    ensures var r := Search(v, s, query, answer);
      r.view.lastNavigation == Some(Login) &&
      r.view.notices == v.notices + [LoginRequiredToSearch] &&
      r.view.searchResults == v.searchResults &&
      r.store.queries == s.queries && r.store.writes == s.writes &&
      r.store.sessionLookups == s.sessionLookups + 1
  {
  }

  /** With a session, exactly one profile search is sent, excluding the
      caller, with the result limit. */
  lemma SearchSendsOneQuery(v: ViewState, s: Snapshot, query: string, answer: SearchOutcome, me: UserId)
    requires Length(query) >= MinQueryLength && s.session == Some(me)
    ensures Search(v, s, query, answer).store.queries == s.queries + [ProfileSearch(query, me, SearchLimit)]
  {
  }

  /** A successful search replaces the results with the rows (none for a
      null `data`). */
  lemma SearchReplacesResults(v: ViewState, s: Snapshot, query: string, data: Option<seq<Profile>>)
    requires Length(query) >= MinQueryLength && s.session.Some?
    ensures Search(v, s, query, Rows(data)).view.searchResults == (if data.Some? then data.value else [])
  {
  }

  /** A failed search keeps the previous results and raises a notice. */
  lemma FailedSearchKeepsResults(v: ViewState, s: Snapshot, query: string, answer: SearchOutcome)
    requires Length(query) >= MinQueryLength && s.session.Some? && !answer.Rows?
    ensures var r := Search(v, s, query, answer);
      r.view.searchResults == v.searchResults && r.view.notices == v.notices + [SearchFailed] &&
      r.view.lastNavigation == v.lastNavigation
  {
  }

  /** Every search that gets past the length guard ends with the spinner off;
      a short query leaves it as it was. */
  lemma SearchEndsIdle(v: ViewState, s: Snapshot, query: string, answer: SearchOutcome)
    ensures var r := Search(v, s, query, answer);
      r.view.searchQuery == query &&
      (if Length(query) >= MinQueryLength then !r.view.isSearching else r.view.isSearching == v.isSearching)
  {
  }

  /** Searching never writes and never changes a table or the session. */
  lemma SearchNeverWrites(v: ViewState, s: Snapshot, query: string, answer: SearchOutcome)
    ensures var r := Search(v, s, query, answer);
      r.store.writes == s.writes && r.store.chats == s.chats &&
      r.store.participants == s.participants && r.store.session == s.session
  {
  }

  // ---------------------------------------------------------------------
  // startNewChat

  /** Without a session, starting a chat redirects to the login page and
      sends no table request. */
  lemma StartChatWithoutSession(v: ViewState, s: Snapshot, target: UserId, f: ChatFaults)
    requires s.session == None
    ensures var r := StartChat(v, s, target, f);
      r.view == v.(lastNavigation := Some(Login), notices := v.notices + [LoginRequiredToChat]) &&
      r.store == s.(sessionLookups := s.sessionLookups + 1)
  {
  }

  /** When the chat exists and the lookup succeeds, nothing is written and
      the screen opens the chat with the target. */
  lemma ExistingChatWritesNothing(v: ViewState, s: Snapshot, me: UserId, target: UserId, f: ChatFaults)
    requires s.session == Some(me) && ChatId(me, target) in s.chats && f.lookup == Succeeds
    ensures var r := StartChat(v, s, target, f);
      r.store.writes == s.writes && r.store.chats == s.chats && r.store.participants == s.participants &&
      r.view == v.(lastNavigation := Some(Chat(target)))
  {
  }

  /** A missing chat is created with one chat insert followed by one insert
      of the two participant rows, caller first; then the chat opens. */
  lemma MissingChatIsCreated(v: ViewState, s: Snapshot, me: UserId, target: UserId)
    requires s.session == Some(me) && ChatId(me, target) !in s.chats
    ensures var id := ChatId(me, target);
      var rows := [Participant(id, me), Participant(id, target)];
      var r := StartChat(v, s, target, NoFaults);
      r.store.writes == s.writes + [ChatInsert(id), ParticipantsInsert(rows)] &&
      r.store.chats == s.chats + {id} &&
      r.store.participants == s.participants + rows &&
      r.view == v.(lastNavigation := Some(Chat(target)))
  {
  }

  /** A failed chat insert stops the start: no participant rows, no
      navigation, an error notice. */
  lemma ChatInsertFailureStops(v: ViewState, s: Snapshot, me: UserId, target: UserId, f: ChatFaults)
    requires s.session == Some(me) && ChatId(me, target) !in s.chats && f.lookup != Throws && f.chatInsertFails
    ensures var r := StartChat(v, s, target, f);
      r.store.writes == s.writes + [ChatInsert(ChatId(me, target))] &&
      r.store.chats == s.chats && r.store.participants == s.participants &&
      r.view == v.(notices := v.notices + [ChatStartFailed])
  {
  }

  /** A failed participant insert leaves the new chat without members: the
      chat row stays, there is no navigation, an error notice is raised. */
  lemma ParticipantsFailureOrphansChat(v: ViewState, s: Snapshot, me: UserId, target: UserId, f: ChatFaults)
    requires s.session == Some(me) && ChatId(me, target) !in s.chats
    requires f.lookup != Throws && !f.chatInsertFails && f.participantsInsertFails
    ensures var id := ChatId(me, target);
      var r := StartChat(v, s, target, f);
      r.store.chats == s.chats + {id} &&
      r.store.participants == s.participants &&
      r.store.writes == s.writes + [ChatInsert(id), ParticipantsInsert([Participant(id, me), Participant(id, target)])] &&
      r.view == v.(notices := v.notices + [ChatStartFailed])
  {
  }

  /** The orphaned chat stays without members: a retry after the participant
      insert failed finds the chat, writes nothing and opens it, so the
      participant rows are never added. */
  lemma RetryAfterOrphanAddsNoMembers(v: ViewState, s: Snapshot, me: UserId, target: UserId)
    requires s.session == Some(me) && ChatId(me, target) !in s.chats
    ensures var first := StartChat(v, s, target, ChatFaults(Succeeds, false, true));
      var retry := StartChat(first.view, first.store, target, NoFaults);
      retry.store.participants == s.participants &&
      retry.store.writes == first.store.writes &&
      retry.view.lastNavigation == Some(Chat(target))
  {
    ParticipantsFailureOrphansChat(v, s, me, target, ChatFaults(Succeeds, false, true));
    var first := StartChat(v, s, target, ChatFaults(Succeeds, false, true));
    ExistingChatWritesNothing(first.view, first.store, me, target, NoFaults);
  }

  /** A lookup error reads as "no chat": for an existing chat the insert is
      then refused by the primary key, so the start fails although the chat
      is there. */
  lemma LookupErrorOnExistingChat(v: ViewState, s: Snapshot, me: UserId, target: UserId, f: ChatFaults)
    requires s.session == Some(me) && ChatId(me, target) in s.chats && f.lookup == ReturnsError
    ensures var r := StartChat(v, s, target, f);
      r.store.writes == s.writes + [ChatInsert(ChatId(me, target))] &&
      r.store.chats == s.chats && r.store.participants == s.participants &&
      r.view == v.(notices := v.notices + [ChatStartFailed])
  {
  }

  /** A lookup that throws ends the start before any write: no navigation,
      an error notice. */
  lemma LookupThrowStops(v: ViewState, s: Snapshot, me: UserId, target: UserId, f: ChatFaults)
    requires s.session == Some(me) && f.lookup == Throws
    ensures var r := StartChat(v, s, target, f);
      r.store.writes == s.writes && r.store.chats == s.chats && r.store.participants == s.participants &&
      r.store.queries == s.queries + [ChatLookup(ChatId(me, target))] &&
      r.view == v.(notices := v.notices + [ChatStartFailed])
  {
  }

  /** Starting the same chat twice writes at most once: the first call
      creates what is missing, the second finds it and writes nothing. */
  lemma StartChatTwiceWritesOnce(v: ViewState, s: Snapshot, me: UserId, target: UserId)
    requires s.session == Some(me)
    ensures var first := StartChat(v, s, target, NoFaults);
      var second := StartChat(first.view, first.store, target, NoFaults);
      second.store.writes == first.store.writes &&
      |first.store.writes| == |s.writes| + (if ChatId(me, target) in s.chats then 0 else 2) &&
      second.view.lastNavigation == Some(Chat(target))
  {
  }

  /** Once one user has started a chat with another, the other user starting
      a chat back (under their own session) finds it and writes nothing. */
  lemma ChatSharedByBothUsers(v: ViewState, s: Snapshot, a: UserId, b: UserId)
    requires s.session == Some(a)
    ensures var first := StartChat(v, s, b, NoFaults);
      var back := StartChat(first.view, first.store.(session := Some(b)), a, NoFaults);
      back.store.writes == first.store.writes &&
      back.store.chats == first.store.chats &&
      back.view.lastNavigation == Some(Chat(a))
  {
    var id := ChatId(a, b);
    if id in s.chats {
      ExistingChatWritesNothing(v, s, a, b, NoFaults);
    } else {
      MissingChatIsCreated(v, s, a, b);
    }
    var first := StartChat(v, s, b, NoFaults);
    ChatIdCommutative(a, b);
    assert ChatId(b, a) in first.store.chats;
    ExistingChatWritesNothing(first.view, first.store.(session := Some(b)), b, a, NoFaults);
  }

  /** Every participant row names an existing chat. */
  ghost predicate MembersReferToChats(s: Snapshot)
  {
    forall i :: 0 <= i < |s.participants| ==> s.participants[i].chatId in s.chats
  }

  /** Participant rows are only inserted after their chat row, so starting a
      chat keeps every participant row pointing at an existing chat. */
  lemma StartChatKeepsMembersReferential(v: ViewState, s: Snapshot, target: UserId, f: ChatFaults)
    requires MembersReferToChats(s)
    ensures MembersReferToChats(StartChat(v, s, target, f).store)
  {
  }

  /** Starting a chat never touches the search state. */
  lemma StartChatLeavesSearchAlone(v: ViewState, s: Snapshot, target: UserId, f: ChatFaults)
    ensures var r := StartChat(v, s, target, f);
      r.view.searchQuery == v.searchQuery && r.view.searchResults == v.searchResults &&
      r.view.isSearching == v.isSearching && r.store.session == s.session
  {
  }

  /** The worked example: u1 starts a chat with u2; the id is "u1_u2", the
      chat and both memberships are written, and the screen opens /chat/u2. */
  lemma FirstContactScenario(s: Snapshot)
    requires s.session == Some("u1") && "u1_u2" !in s.chats
    ensures var r := StartChat(InitialView, s, "u2", NoFaults);
      r.store.writes == s.writes + [ChatInsert("u1_u2"),
                                    ParticipantsInsert([Participant("u1_u2", "u1"), Participant("u1_u2", "u2")])] &&
      r.store.chats == s.chats + {"u1_u2"} &&
      r.store.participants == s.participants + [Participant("u1_u2", "u1"), Participant("u1_u2", "u2")] &&
      r.view.lastNavigation == Some(Chat("u2"))
  {
    assert CodeUnits("u1") == ['u' as int, '1' as int];
    assert CodeUnits("u2") == ['u' as int, '2' as int];
    assert Less(['1' as int], ['2' as int]);
    assert StringLess("u1", "u2");
    assert "u1" + Separator + "u2" == "u1_u2";
    ChatIdShape("u1", "u2");
    MissingChatIsCreated(InitialView, s, "u1", "u2");
  }
}
