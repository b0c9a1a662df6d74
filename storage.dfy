// The browser's key-value store as the data layer uses it: one key for the
// account registry, one for the remembered session, and one task key and one
// session key per account id.

module Storage {
  import opened Records

  /** What a key holds, already parsed. */
  datatype Stored =
    | UserList(users: seq<User>)
    | Account(user: User)
    | TaskList(tasks: seq<Task>)
    | SessionList(sessions: seq<StudySession>)

  type Store = map<string, Stored>

  const USERS_KEY: string := "users"
  const CURRENT_USER_KEY: string := "currentUser"

  function TasksKey(userId: string): string { "tasks_" + userId }

  function SessionsKey(userId: string): string { "sessions_" + userId }

  /** The two per-account keys never meet each other, the registry key or the
      session key, and each is one-to-one in the account id: writing one
      account's collections cannot overwrite anything else. */
  lemma KeysAreDistinct(a: string, b: string)
    ensures TasksKey(a) != SessionsKey(b)
    ensures TasksKey(a) !in {USERS_KEY, CURRENT_USER_KEY}
    ensures SessionsKey(a) !in {USERS_KEY, CURRENT_USER_KEY}
    ensures TasksKey(a) == TasksKey(b) <==> a == b
    ensures SessionsKey(a) == SessionsKey(b) <==> a == b
  {
    assert TasksKey(a)[0] == 't' && SessionsKey(b)[0] == 's';
    assert TasksKey(a)[..6] == "tasks_";
    assert SessionsKey(a)[..9] == "sessions_";
    assert TasksKey(a)[6..] == a && TasksKey(b)[6..] == b;
    assert SessionsKey(a)[9..] == a && SessionsKey(b)[9..] == b;
  }

  /** The registry: what `JSON.parse(getItem('users') || '[]')` yields. */
  function StoredUsers(s: Store): seq<User>
  {
    if USERS_KEY in s && s[USERS_KEY].UserList? then s[USERS_KEY].users else []
  }

  /** The remembered session, if one is saved. */
  function StoredCurrentUser(s: Store): Option<User>
  {
    if CURRENT_USER_KEY in s && s[CURRENT_USER_KEY].Account? then Some(s[CURRENT_USER_KEY].user) else None
  }

  /** An account's task list; empty when nothing is saved under its key. */
  function StoredTasks(s: Store, userId: string): seq<Task>
  {
    var k := TasksKey(userId);
    if k in s && s[k].TaskList? then s[k].tasks else []
  }

  /** An account's study-session log; empty when nothing is saved under its key. */
  function StoredSessions(s: Store, userId: string): seq<StudySession>
  {
    var k := SessionsKey(userId);
    if k in s && s[k].SessionList? then s[k].sessions else []
  }

  /** Overwrites both per-account collections of one account. */
  function SaveCollections(s: Store, userId: string, tasks: seq<Task>, sessions: seq<StudySession>): (r: Store)
    ensures StoredTasks(r, userId) == tasks && StoredSessions(r, userId) == sessions
    ensures StoredUsers(r) == StoredUsers(s) && StoredCurrentUser(r) == StoredCurrentUser(s)
    ensures forall other :: other != userId ==>
      StoredTasks(r, other) == StoredTasks(s, other) && StoredSessions(r, other) == StoredSessions(s, other)
    ensures r.Keys == s.Keys + {TasksKey(userId), SessionsKey(userId)}
  {
    KeysAreDistinct(userId, userId);
    forall other | other != userId
      ensures StoredTasks(s[TasksKey(userId) := TaskList(tasks)][SessionsKey(userId) := SessionList(sessions)], other)
              == StoredTasks(s, other)
      ensures StoredSessions(s[TasksKey(userId) := TaskList(tasks)][SessionsKey(userId) := SessionList(sessions)], other)
              == StoredSessions(s, other)
    {
      KeysAreDistinct(other, userId);
      KeysAreDistinct(userId, other);
    }
    s[TasksKey(userId) := TaskList(tasks)][SessionsKey(userId) := SessionList(sessions)]
  }
}
