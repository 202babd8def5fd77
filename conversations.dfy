/**
 * Conversation history: for every user, a record holding the user's name,
 * creation time and a list of sessions, each a list of messages. The store
 * keeps the users in insertion order, as a Python dictionary does: `ids` is
 * that order and `users` the records by id. `DataManager` holds the store in
 * two fields and updates it in place; `Add` and `Clear` are the same updates
 * on values, used to state what they do to the statistics.
 */
module Conversations {
  import opened Wrappers

  datatype Message = Message(role: string, content: string, timestamp: string)

  datatype Session = Session(sessionId: string, messages: seq<Message>, createdAt: string)

  datatype UserRecord = UserRecord(
    userId: string,
    username: string,
    createdAt: string,
    sessions: seq<Session>)

  datatype Store = Store(ids: seq<string>, users: map<string, UserRecord>)

  /** The counters `get_statistics` reports. */
  datatype Statistics = Statistics(totalUsers: int, totalSessions: int, totalMessages: int)

  /** No id occurs twice. */
  predicate Distinct(ids: seq<string>) {
    forall i, j :: 0 <= i < j < |ids| ==> ids[i] != ids[j]
  }

  /** `ids` lists every key of `users` exactly once. */
  ghost predicate WellFormed(s: Store) {
    && Distinct(s.ids)
    && forall id :: id in s.users <==> id in s.ids
  }

  /** The store with no users, as a missing data file gives. */
  function Empty(): (s: Store)
    ensures WellFormed(s) && s.users == map[]
  {
    Store([], map[])
  }

  /** The identifier of a session opened at the instant `stamp` (formatted `%Y%m%d_%H%M%S`). */
  function SessionId(stamp: string): string {
    "session_" + stamp
  }

  /** The record of a user seen for the first time. */
  function NewUser(userId: string, username: string, now: string): UserRecord {
    UserRecord(userId, username, now, [])
  }

  /**
   * Appends `msg` to the last session of `u`, opening a session first when
   * `u` has none.
   */
  function AppendMessage(u: UserRecord, msg: Message, sessionId: string, now: string): (r: UserRecord)
    ensures r.userId == u.userId && r.username == u.username && r.createdAt == u.createdAt
    ensures |r.sessions| == if u.sessions == [] then 1 else |u.sessions|
    ensures r.sessions[..|r.sessions| - 1] == u.sessions[..|r.sessions| - 1]
    ensures var last := r.sessions[|r.sessions| - 1];
            if u.sessions == [] then last == Session(sessionId, [msg], now)
            else var old_last := u.sessions[|u.sessions| - 1];
                 last == old_last.(messages := old_last.messages + [msg])
  {
    var ss := if u.sessions == [] then [Session(sessionId, [], now)] else u.sessions;
    var last := ss[|ss| - 1];
    u.(sessions := ss[..|ss| - 1] + [last.(messages := last.messages + [msg])])
  }

  /**
   * What `add_message` does: creates the user on first sight, opens a
   * session when the user has none, and appends the message to the last
   * session. `now` is the time the calls to `datetime.now()` return and
   * `stamp` its `%Y%m%d_%H%M%S` rendering.
   */
  function Add(s: Store, userId: string, username: string, role: string, content: string,
               now: string, stamp: string): (r: Store)
    ensures r.users.Keys == s.users.Keys + {userId}
    ensures r.ids == if userId in s.users then s.ids else s.ids + [userId]
    ensures forall id :: id in s.users && id != userId ==> r.users[id] == s.users[id]
    ensures r.users[userId].username == if userId in s.users then s.users[userId].username else username
    ensures r.users[userId].createdAt == if userId in s.users then s.users[userId].createdAt else now
    ensures r.users[userId] ==
              AppendMessage(if userId in s.users then s.users[userId] else NewUser(userId, username, now),
                            Message(role, content, now), SessionId(stamp), now)
    ensures WellFormed(s) ==> WellFormed(r)
  {
    var u := if userId in s.users then s.users[userId] else NewUser(userId, username, now);
    var ids := if userId in s.users then s.ids else s.ids + [userId];
    Store(ids, s.users[userId := AppendMessage(u, Message(role, content, now), SessionId(stamp), now)])
  }

  /** What `clear_user_history` does: the user's sessions are dropped; an unknown user is ignored. */
  function Clear(s: Store, userId: string): (r: Store)
    ensures r.ids == s.ids && r.users.Keys == s.users.Keys
    ensures userId in s.users ==> r.users[userId] == s.users[userId].(sessions := [])
    ensures forall id :: id in s.users && id != userId ==> r.users[id] == s.users[id]
    ensures WellFormed(s) ==> WellFormed(r)
  {
    if userId in s.users then s.(users := s.users[userId := s.users[userId].(sessions := [])])
    else s
  }

  /** The messages in a list of sessions. */
  function MessagesIn(ss: seq<Session>): int
    decreases |ss|
  {
    if ss == [] then 0 else MessagesIn(ss[..|ss| - 1]) + |ss[|ss| - 1].messages|
  }

  function One(u: UserRecord): int {
    1
  }

  function SessionCount(u: UserRecord): int {
    |u.sessions|
  }

  function MessageCount(u: UserRecord): int {
    MessagesIn(u.sessions)
  }

  /** The weight of `id`'s record, 0 for an id without one. */
  function WeightOf(users: map<string, UserRecord>, id: string, w: UserRecord -> int): int {
    if id in users then w(users[id]) else 0
  }

  /** The sum of `w` over the records of `ids`, in order. */
  function Total(ids: seq<string>, users: map<string, UserRecord>, w: UserRecord -> int): int
    decreases |ids|
  {
    if ids == [] then 0 else Total(ids[..|ids| - 1], users, w) + WeightOf(users, ids[|ids| - 1], w)
  }

  /** What `get_statistics` reports. */
  function Stats(s: Store): Statistics {
    Statistics(|s.users|, Total(s.ids, s.users, SessionCount), Total(s.ids, s.users, MessageCount))
  }

  /** What `get_user_history` returns: the user's record, or nothing for an unknown user. */
  function History(s: Store, userId: string): (r: Option<UserRecord>)
    ensures r.Some? <==> userId in s.users
    ensures r.Some? ==> r.value == s.users[userId]
  {
    if userId in s.users then Some(s.users[userId]) else None
  }

  /** The message counts of two session lists add up. */
  lemma {:induction false} MessagesInAppend(a: seq<Session>, b: seq<Session>)
    ensures MessagesIn(a + b) == MessagesIn(a) + MessagesIn(b)
    decreases |b|
  {
    if b != [] {
      var b' := b[..|b| - 1];
      assert (a + b)[..|a + b| - 1] == a + b';
      assert (a + b)[|a + b| - 1] == b[|b| - 1];
      MessagesInAppend(a, b');
    } else {
      assert a + b == a;
    }
  }

  /** A message appended to a user adds one to the user's message count. */
  lemma AppendMessageCounts(u: UserRecord, msg: Message, sessionId: string, now: string)
    ensures MessageCount(AppendMessage(u, msg, sessionId, now)) == MessageCount(u) + 1
    ensures SessionCount(AppendMessage(u, msg, sessionId, now)) == SessionCount(u) + (if u.sessions == [] then 1 else 0)
  {
    var ss := if u.sessions == [] then [Session(sessionId, [], now)] else u.sessions;
    var last := ss[|ss| - 1];
    var front := ss[..|ss| - 1];
    assert ss == front + [last];
    MessagesInAppend(front, [last]);
    MessagesInAppend(front, [last.(messages := last.messages + [msg])]);
    assert [last][..0] == [];
    assert [last.(messages := last.messages + [msg])][..0] == [];
    if u.sessions == [] {
      assert front == [];
    }
  }

  /** Replacing the record of one id changes a total by the change in that id's weight, if listed. */
  lemma {:induction false} TotalUpdate(ids: seq<string>, users: map<string, UserRecord>, id: string,
                                       u: UserRecord, w: UserRecord -> int)
    requires Distinct(ids)
    ensures Total(ids, users[id := u], w) ==
              Total(ids, users, w) + (if id in ids then w(u) - WeightOf(users, id, w) else 0)
    decreases |ids|
  {
    if ids != [] {
      var front := ids[..|ids| - 1];
      var last := ids[|ids| - 1];
      assert Distinct(front);
      TotalUpdate(front, users, id, u, w);
      if last == id {
        assert id !in front by {
          forall k | 0 <= k < |front|
            ensures front[k] != id
          {
            assert front[k] == ids[k];
          }
        }
      }
      assert id in ids <==> id in front || id == last;
    }
  }

  /** A total over ids that all have records, each weighing one, counts the ids. */
  lemma {:induction false} TotalOfOnes(ids: seq<string>, users: map<string, UserRecord>)
    requires forall id :: id in ids ==> id in users
    ensures Total(ids, users, One) == |ids|
    decreases |ids|
  {
    if ids != [] {
      TotalOfOnes(ids[..|ids| - 1], users);
    }
  }

  /** A weight no larger on every record gives a total no larger. */
  lemma {:induction false} TotalMonotone(ids: seq<string>, users: map<string, UserRecord>,
                                         v: UserRecord -> int, w: UserRecord -> int)
    requires forall id :: id in users ==> v(users[id]) <= w(users[id])
    ensures Total(ids, users, v) <= Total(ids, users, w)
    decreases |ids|
  {
    if ids != [] {
      TotalMonotone(ids[..|ids| - 1], users, v, w);
    }
  }

  /** The ids as a set. */
  function SetOf(ids: seq<string>): (r: set<string>)
    ensures forall id :: id in r <==> id in ids
    decreases |ids|
  {
    if ids == [] then {} else SetOf(ids[..|ids| - 1]) + {ids[|ids| - 1]}
  }

  lemma {:induction false} DistinctCardinality(ids: seq<string>)
    requires Distinct(ids)
    ensures |SetOf(ids)| == |ids|
    decreases |ids|
  {
    if ids != [] {
      var front := ids[..|ids| - 1];
      assert Distinct(front);
      DistinctCardinality(front);
      assert ids[|ids| - 1] !in front by {
        forall k | 0 <= k < |front|
          ensures front[k] != ids[|ids| - 1]
        {
          assert front[k] == ids[k];
        }
      }
    }
  }

  /** In a well-formed store the user count is the length of the insertion order. */
  lemma UsersCounted(s: Store)
    requires WellFormed(s)
    ensures |s.users| == |s.ids| == Total(s.ids, s.users, One)
  {
    assert s.users.Keys == SetOf(s.ids);
    DistinctCardinality(s.ids);
    TotalOfOnes(s.ids, s.users);
  }

  /**
   * A message adds one message to the statistics; it adds a user exactly
   * when the user is new, and a session exactly when the user had none.
   */
  lemma AddStatistics(s: Store, userId: string, username: string, role: string, content: string,
                      now: string, stamp: string)
    requires WellFormed(s)
    ensures var before := Stats(s);
            var after := Stats(Add(s, userId, username, role, content, now, stamp));
            && after.totalMessages == before.totalMessages + 1
            && after.totalUsers == before.totalUsers + (if userId in s.users then 0 else 1)
            && after.totalSessions == before.totalSessions +
                 (if userId !in s.users || s.users[userId].sessions == [] then 1 else 0)
  {
    var u := if userId in s.users then s.users[userId] else NewUser(userId, username, now);
    var u' := AppendMessage(u, Message(role, content, now), SessionId(stamp), now);
    var r := Add(s, userId, username, role, content, now, stamp);
    AppendMessageCounts(u, Message(role, content, now), SessionId(stamp), now);
    UsersCounted(s);
    UsersCounted(r);
    if userId in s.users {
      TotalUpdate(s.ids, s.users, userId, u', SessionCount);
      TotalUpdate(s.ids, s.users, userId, u', MessageCount);
    } else {
      TotalUpdate(s.ids, s.users, userId, u', SessionCount);
      TotalUpdate(s.ids, s.users, userId, u', MessageCount);
      assert (s.ids + [userId])[..|s.ids|] == s.ids;
    }
  }

  /** Clearing a user keeps the user and removes that user's sessions and messages from the statistics. */
  lemma ClearStatistics(s: Store, userId: string)
    requires WellFormed(s)
    ensures var before := Stats(s);
            var after := Stats(Clear(s, userId));
            && after.totalUsers == before.totalUsers
            && after.totalSessions == before.totalSessions - WeightOf(s.users, userId, SessionCount)
            && after.totalMessages == before.totalMessages - WeightOf(s.users, userId, MessageCount)
  {
    if userId in s.users {
      var u' := s.users[userId].(sessions := []);
      TotalUpdate(s.ids, s.users, userId, u', SessionCount);
      TotalUpdate(s.ids, s.users, userId, u', MessageCount);
    }
  }

  /** Clearing twice is clearing once. */
  lemma ClearIdempotent(s: Store, userId: string)
    ensures Clear(Clear(s, userId), userId) == Clear(s, userId)
  {
  }

  /** After a message, the user's history holds it as the last message of the last session. */
  lemma HistoryAfterAdd(s: Store, userId: string, username: string, role: string, content: string,
                        now: string, stamp: string)
    ensures var h := History(Add(s, userId, username, role, content, now, stamp), userId);
            && h.Some? && h.value.sessions != []
            && var last := h.value.sessions[|h.value.sessions| - 1];
               last.messages != [] && last.messages[|last.messages| - 1] == Message(role, content, now)
  {
  }

  /** The shape every store reached from the empty one keeps: at most one session per user, none empty. */
  predicate Tidy(s: Store) {
    forall id :: id in s.users ==>
      && |s.users[id].sessions| <= 1
      && forall k :: 0 <= k < |s.users[id].sessions| ==> s.users[id].sessions[k].messages != []
  }

  lemma AddKeepsTidy(s: Store, userId: string, username: string, role: string, content: string,
                     now: string, stamp: string)
    requires Tidy(s)
    ensures Tidy(Add(s, userId, username, role, content, now, stamp))
  {
    var r := Add(s, userId, username, role, content, now, stamp);
    var ss := r.users[userId].sessions;
    assert |ss| == 1;
    assert ss[0] == ss[|ss| - 1];
  }

  lemma ClearKeepsTidy(s: Store, userId: string)
    requires Tidy(s)
    ensures Tidy(Clear(s, userId))
  {
  }

  /** The messages of a non-empty session list number at least its sessions. */
  lemma {:induction false} MessagesAtLeastSessions(ss: seq<Session>)
    requires forall k :: 0 <= k < |ss| ==> ss[k].messages != []
    ensures |ss| <= MessagesIn(ss)
    decreases |ss|
  {
    if ss != [] {
      MessagesAtLeastSessions(ss[..|ss| - 1]);
    }
  }

  /** In a tidy store there are no more sessions than users, and no more sessions than messages. */
  lemma TidyBounds(s: Store)
    requires WellFormed(s) && Tidy(s)
    ensures Stats(s).totalSessions <= Stats(s).totalUsers
    ensures Stats(s).totalSessions <= Stats(s).totalMessages
  {
    UsersCounted(s);
    TotalMonotone(s.ids, s.users, SessionCount, One);
    forall id | id in s.users
      ensures SessionCount(s.users[id]) <= MessageCount(s.users[id])
    {
      MessagesAtLeastSessions(s.users[id].sessions);
    }
    TotalMonotone(s.ids, s.users, SessionCount, MessageCount);
  }

  /** Two messages from one user, at two instants, give one user, one session and two messages. */
  lemma TwoMessages(now1: string, stamp1: string, now2: string, stamp2: string)
    ensures var s := Add(Add(Empty(), "u1", "user", "user", "hello", now1, stamp1),
                         "u1", "user", "assistant", "hi", now2, stamp2);
            Stats(s) == Statistics(1, 1, 2)
  {
    var s1 := Add(Empty(), "u1", "user", "user", "hello", now1, stamp1);
    AddStatistics(Empty(), "u1", "user", "user", "hello", now1, stamp1);
    AddStatistics(s1, "u1", "user", "assistant", "hi", now2, stamp2);
  }

  /** A cleared user is still known, with no sessions. */
  lemma ClearedHistory(now: string, stamp: string)
    ensures var s := Clear(Add(Empty(), "u1", "user", "user", "hello", now, stamp), "u1");
            History(s, "u1").Some? && History(s, "u1").value.sessions == []
  {
  }

  /** `DataManager`: the users' records held in fields and updated in place. */
  class DataManager {
    var ids: seq<string>
    var users: map<string, UserRecord>

    function Model(): Store
      reads this
    {
      Store(ids, users)
    }

    ghost predicate Valid()
      reads this
    {
      WellFormed(Model())
    }

    /** Starts from the saved store when one could be read, else from the empty store. */
    constructor (saved: Option<Store>)
      requires saved.Some? ==> WellFormed(saved.value)
      ensures Valid()
      ensures Model() == if saved.Some? then saved.value else Empty()
    {
      var s := if saved.Some? then saved.value else Empty();
      ids, users := s.ids, s.users;
    }

    method AddMessage(userId: string, username: string, role: string, content: string,
                      now: string, stamp: string)
      requires Valid()
      modifies this
      ensures Valid()
      ensures Model() == Add(old(Model()), userId, username, role, content, now, stamp)
    {
      ghost var before := Model();
      ghost var u0 := if userId in users then users[userId] else NewUser(userId, username, now);
      var msg := Message(role, content, now);
      if userId !in users {
        users := users[userId := NewUser(userId, username, now)];
        ids := ids + [userId];
      }
      assert users == before.users[userId := u0];
      if users[userId].sessions == [] {
        users := users[userId := users[userId].(sessions := [Session(SessionId(stamp), [], now)])];
      }
      var u := users[userId];
      ghost var ss := if u0.sessions == [] then [Session(SessionId(stamp), [], now)] else u0.sessions;
      assert u == u0.(sessions := ss);
      var last := u.sessions[|u.sessions| - 1];
      var current := last.(messages := last.messages + [msg]);
      assert u.(sessions := u.sessions[..|u.sessions| - 1] + [current]) == AppendMessage(u0, msg, SessionId(stamp), now);
      users := users[userId := u.(sessions := u.sessions[..|u.sessions| - 1] + [current])];
      assert users == before.users[userId := AppendMessage(u0, msg, SessionId(stamp), now)];
      assert ids == if userId in before.users then before.ids else before.ids + [userId];
    }

    method GetUserHistory(userId: string) returns (h: Option<UserRecord>)
      ensures h == History(Model(), userId)
    {
      h := if userId in users then Some(users[userId]) else None;
    }

    method ClearUserHistory(userId: string)
      requires Valid()
      modifies this
      ensures Valid()
      ensures Model() == Clear(old(Model()), userId)
    {
      if userId in users {
        users := users[userId := users[userId].(sessions := [])];
      }
    }

    /** Counts the users, and walks every user's sessions counting sessions and messages. */
    method GetStatistics() returns (st: Statistics)
      requires Valid()
      ensures st == Stats(Model())
    {
      var totalMessages := 0;
      var totalSessions := 0;
      var i := 0;
      while i < |ids|
        invariant 0 <= i <= |ids|
        invariant totalSessions == Total(ids[..i], users, SessionCount)
        invariant totalMessages == Total(ids[..i], users, MessageCount)
      {
        var sessions := users[ids[i]].sessions;
        var j := 0;
        while j < |sessions|
          invariant 0 <= j <= |sessions|
          invariant totalSessions == Total(ids[..i], users, SessionCount) + j
          invariant totalMessages == Total(ids[..i], users, MessageCount) + MessagesIn(sessions[..j])
        {
          assert sessions[..j + 1][..j] == sessions[..j];
          totalSessions := totalSessions + 1;
          totalMessages := totalMessages + |sessions[j].messages|;
          j := j + 1;
        }
        assert sessions[..j] == sessions;
        assert ids[..i + 1][..i] == ids[..i];
        i := i + 1;
      }
      assert ids[..i] == ids;
      st := Statistics(|users|, totalSessions, totalMessages);
    }
  }
}
