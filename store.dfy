/** The hosted backend as the chat screen sees it: the auth session, the
    `chats` table (its `id` is the primary key, so a second insert of the same
    id is refused), the `chat_participants` table, and a log of every request
    the screen sends. Whether a request fails for reasons outside the model
    (network, permissions) is passed in as a parameter; the profile search engine is
    not modelled, its answer is passed in as a `SearchOutcome`. */
module Store {

  datatype Option<T> = None | Some(value: T)
  {
    /** `x || d` for a value that is either present or null. */
    function GetOr(default: T): T
    {
      match this
      case Some(v) => v
      case None => default
    }
  }

  type UserId = string

  /** A row of `chat_participants`. */
  datatype Participant = Participant(chatId: string, userId: UserId)

  /** A row of `profiles`, with the columns the search selects. */
  datatype Profile = Profile(id: UserId, username: string, avatarUrl: Option<string>, fullName: Option<string>)

  /** A read request sent to a table. */
  datatype Query =
    | ProfileSearch(pattern: string, excludedId: UserId, limit: nat)
    | ChatLookup(chatId: string)

  /** An insert request sent to a table; logged whether or not it succeeds. */
  datatype Write =
    | ChatInsert(chatId: string)
    | ParticipantsInsert(rows: seq<Participant>)

  /** What the backend answers to a profile search: an error object, a thrown
      exception, or rows (possibly a null `data`). */
  datatype SearchOutcome =
    | QueryError
    | QueryThrew
    | Rows(data: Option<seq<Profile>>)

  /** How a request that can fail ends: normally, with an error object in
      the response, or with a thrown exception (a rejected promise). */
  datatype RequestFault = Succeeds | ReturnsError | Throws

  /** The abstract value of the backend. */
  datatype Snapshot = Snapshot(
    session: Option<UserId>,
    chats: set<string>,
    participants: seq<Participant>,
    sessionLookups: nat,
    queries: seq<Query>,
    writes: seq<Write>)
  {
    function AfterSessionLookup(): Snapshot
    {
      this.(sessionLookups := sessionLookups + 1)
    }

    function AfterQuery(q: Query): Snapshot
    {
      this.(queries := queries + [q])
    }

    /** `maybeSingle()` on `chats` by id yields a row only when the chat exists
        and the request succeeds; an error leaves `data` null. */
    predicate LookupFinds(chatId: string, fault: RequestFault)
    {
      fault == Succeeds && chatId in chats
    }

    /** An insert into `chats` succeeds unless it fails or the id is taken. */
    predicate ChatInsertSucceeds(chatId: string, fails: bool)
    {
      !fails && chatId !in chats
    }

    function AfterChatInsert(chatId: string, fails: bool): Snapshot
    {
      this.(chats := if ChatInsertSucceeds(chatId, fails) then chats + {chatId} else chats,
            writes := writes + [ChatInsert(chatId)])
    }

    /** A multi-row insert is one statement: all rows are added or none. */
    function AfterParticipantsInsert(rows: seq<Participant>, fails: bool): Snapshot
    {
      this.(participants := if fails then participants else participants + rows,
            writes := writes + [ParticipantsInsert(rows)])
    }
  }

  class Backend {
    var session: Option<UserId>
    var chats: set<string>
    var participants: seq<Participant>
    var sessionLookups: nat
    var queries: seq<Query>
    var writes: seq<Write>

    function State(): Snapshot
      reads this
    {
      Snapshot(session, chats, participants, sessionLookups, queries, writes)
    }

    constructor (session: Option<UserId>, chats: set<string>, participants: seq<Participant>)
      ensures State() == Snapshot(session, chats, participants, 0, [], [])
    {
      this.session := session;
      this.chats := chats;
      this.participants := participants;
      sessionLookups := 0;
      queries := [];
      writes := [];
    }

    /** `auth.getSession()`: the signed-in user's id, if any. */
    method GetSession() returns (user: Option<UserId>)
      modifies this
      ensures user == old(session)
      ensures State() == old(State()).AfterSessionLookup()
    {
      user := session;
      sessionLookups := sessionLookups + 1;
    }

    /** The profile search; the answer comes from outside the model. */
    method SearchProfiles(pattern: string, excludedId: UserId, limit: nat, answer: SearchOutcome)
      returns (outcome: SearchOutcome)
      modifies this
      ensures outcome == answer
      ensures State() == old(State()).AfterQuery(ProfileSearch(pattern, excludedId, limit))
    {
      queries := queries + [ProfileSearch(pattern, excludedId, limit)];
      outcome := answer;
    }

    method LookupChat(chatId: string, fault: RequestFault) returns (found: bool, threw: bool)
      modifies this
      ensures found == old(State()).LookupFinds(chatId, fault)
      ensures threw == (fault == Throws)
      ensures State() == old(State()).AfterQuery(ChatLookup(chatId))
    {
      found := State().LookupFinds(chatId, fault);
      queries := queries + [ChatLookup(chatId)];
      threw := fault == Throws;
    }

    method InsertChat(chatId: string, fails: bool) returns (ok: bool)
      modifies this
      ensures ok == old(State()).ChatInsertSucceeds(chatId, fails)
      ensures ok ==> chatId in chats
      ensures State() == old(State()).AfterChatInsert(chatId, fails)
    {
      ok := State().ChatInsertSucceeds(chatId, fails);
      writes := writes + [ChatInsert(chatId)];
      if ok {
        chats := chats + {chatId};
      }
    }

    method InsertParticipants(rows: seq<Participant>, fails: bool) returns (ok: bool)
      modifies this
      ensures ok == !fails
      ensures State() == old(State()).AfterParticipantsInsert(rows, fails)
    {
      writes := writes + [ParticipantsInsert(rows)];
      ok := !fails;
      if ok {
        participants := participants + rows;
      }
    }
  }
}
