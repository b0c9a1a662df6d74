// The application object: the signed-in account, the in-memory task list and
// session log, the browser store, and the study timer. Methods change these
// fields as the application does; the pure modules say what they compute.

module App {
  import opened Records
  import opened Storage
  import opened Accounts
  import opened Countdown

  /** The timer object; setting the timer up replaces it with a fresh one. */
  class Timer {
    var duration: int
    var remaining: int
    var isRunning: bool

    function State(): TimerState
      reads this
    {
      TimerState(duration, remaining, isRunning)
    }

    constructor ()
      ensures State() == SETUP
    {
      duration := DEFAULT_DURATION;
      remaining := DEFAULT_DURATION;
      isRunning := false;
    }
  }

  class EduPlanApp {
    var storage: Store
    var currentUser: Option<User>
    var tasks: seq<Task>
    var studySessions: seq<StudySession>
    var timer: Timer

    /** Start-up: the remembered session, if any, is restored together with that
        account's collections, and the timer is set up. */
    constructor (saved: Store)
      ensures storage == saved
      ensures currentUser == StoredCurrentUser(saved)
      ensures currentUser.Some? ==>
        tasks == StoredTasks(saved, currentUser.value.id) && studySessions == StoredSessions(saved, currentUser.value.id)
      ensures currentUser.None? ==> tasks == [] && studySessions == []
      ensures fresh(timer) && timer.State() == SETUP
    {
      var restored := StoredCurrentUser(saved);
      storage := saved;
      currentUser := restored;
      tasks := [];
      studySessions := [];
      if restored.Some? {
        tasks := StoredTasks(saved, restored.value.id);
        studySessions := StoredSessions(saved, restored.value.id);
      }
      timer := new Timer();
    }

    /** Reads the signed-in account's collections, empty where none is saved.
        With nobody signed in the code throws a TypeError before changing
        anything; `ok` is false then and nothing changes. */
    method LoadUserData() returns (ok: bool)
      modifies this`tasks, this`studySessions
      ensures ok == currentUser.Some?
      ensures ok ==> tasks == StoredTasks(storage, currentUser.value.id)
      ensures ok ==> studySessions == StoredSessions(storage, currentUser.value.id)
      ensures !ok ==> tasks == old(tasks) && studySessions == old(studySessions)
    {
      if currentUser.None? {
        return false;
      }
      tasks := StoredTasks(storage, currentUser.value.id);
      studySessions := StoredSessions(storage, currentUser.value.id);
      ok := true;
    }

    /** Writes both in-memory collections under the signed-in account's keys.
        With nobody signed in the code throws a TypeError before writing;
        `ok` is false then and the store is unchanged. */
    method SaveUserData() returns (ok: bool)
      modifies this`storage
      ensures ok == currentUser.Some?
      ensures ok ==> storage == SaveCollections(old(storage), currentUser.value.id, tasks, studySessions)
      ensures ok ==> StoredTasks(storage, currentUser.value.id) == tasks
      ensures ok ==> StoredSessions(storage, currentUser.value.id) == studySessions
      ensures !ok ==> storage == old(storage)
      ensures StoredUsers(storage) == StoredUsers(old(storage))
    {
      if currentUser.None? {
        return false;
      }
      storage := SaveCollections(storage, currentUser.value.id, tasks, studySessions);
      ok := true;
    }

    /** Log-in: on success the first matching account becomes the signed-in one,
        is remembered, and its collections are loaded; on failure nothing changes. */
    method Login(identifier: string, password: string) returns (ok: bool)
      modifies this
      ensures timer == old(timer)
      ensures ok <==> exists i :: 0 <= i < |StoredUsers(old(storage))| && Matches(StoredUsers(old(storage))[i], identifier, password)
      ensures ok ==>
        var user := Authenticate(StoredUsers(old(storage)), identifier, password).value;
        && currentUser == Some(user)
        && storage == old(storage)[CURRENT_USER_KEY := Account(user)]
        && tasks == StoredTasks(storage, user.id)
        && studySessions == StoredSessions(storage, user.id)
      ensures !ok ==>
        && currentUser == old(currentUser) && storage == old(storage)
        && tasks == old(tasks) && studySessions == old(studySessions)
    {
      var users := StoredUsers(storage);
      var found := Authenticate(users, identifier, password);
      if found.Some? {
        currentUser := found;
        storage := storage[CURRENT_USER_KEY := Account(found.value)];
        var loaded := LoadUserData();
        ok := true;
      } else {
        ok := false;
      }
    }

    /** Sign-up: refused on a taken username, then on a taken email, with nothing
        changed; otherwise exactly one record is appended to the registry and the
        new account is signed in and remembered. */
    method Signup(username: string, email: string, password: string, id: string, joinedAt: string) returns (ok: bool)
      modifies this
      ensures timer == old(timer)
      ensures ok <==> CheckSignup(StoredUsers(old(storage)), username, email) == None
      ensures !ok ==>
        && currentUser == old(currentUser) && storage == old(storage)
        && tasks == old(tasks) && studySessions == old(studySessions)
      ensures ok ==>
        var user := NewUser(id, username, email, password, joinedAt);
        && StoredUsers(storage) == StoredUsers(old(storage)) + [user]
        && storage == old(storage)[USERS_KEY := UserList(StoredUsers(old(storage)) + [user])][CURRENT_USER_KEY := Account(user)]
        && currentUser == Some(user)
        && tasks == StoredTasks(storage, id)
        && studySessions == StoredSessions(storage, id)
      ensures DistinctAccounts(StoredUsers(old(storage))) ==> DistinctAccounts(StoredUsers(storage))
      ensures ok ==>
        && Authenticate(StoredUsers(storage), username, password).Some?
        && Authenticate(StoredUsers(storage), email, password).Some?
    {
      var users := StoredUsers(storage);
      if CheckSignup(users, username, email).Some? {
        return false;
      }
      var user := NewUser(id, username, email, password, joinedAt);
      if DistinctAccounts(users) {
        SignupKeepsAccountsDistinct(users, id, username, email, password, joinedAt);
      }
      SignupThenLogin(users, id, username, email, password, joinedAt);
      storage := storage[USERS_KEY := UserList(users + [user])];
      currentUser := Some(user);
      storage := storage[CURRENT_USER_KEY := Account(user)];
      var loaded := LoadUserData();
      ok := true;
    }

    /** Log-out forgets the signed-in account and the remembered session; the
        in-memory collections stay as they were. */
    method Logout()
      modifies this`currentUser, this`storage
      ensures currentUser == None
      ensures storage == old(storage) - {CURRENT_USER_KEY}
      ensures StoredCurrentUser(storage) == None
      ensures StoredUsers(storage) == StoredUsers(old(storage))
    {
      currentUser := None;
      storage := storage - {CURRENT_USER_KEY};
    }

    /** Appends one new task, due on `deadline`, to the signed-in account's list
        and saves the whole list. With nobody signed in the code throws a
        TypeError while building the task; `ok` is false then and nothing
        changes. */
    method AddTask(title: string, subject: string, deadline: Date, priority: string,
                   description: string := "", id: string, createdAt: string) returns (ok: bool)
      modifies this`tasks, this`storage
      ensures ok == currentUser.Some?
      ensures ok ==> |tasks| == |old(tasks)| + 1 && tasks[..|old(tasks)|] == old(tasks)
      ensures ok ==>
        tasks[|old(tasks)|] == Task(id, title, subject, deadline, priority, description, "todo", false, createdAt, None, currentUser.value.id)
      ensures ok ==> storage == SaveCollections(old(storage), currentUser.value.id, tasks, studySessions)
      ensures ok ==> StoredTasks(storage, currentUser.value.id) == tasks
      ensures !ok ==> tasks == old(tasks) && storage == old(storage)
    {
      if currentUser.None? {
        return false;
      }
      var task := Task(id, title, subject, deadline, priority, description, "todo", false, createdAt, None, currentUser.value.id);
      tasks := tasks + [task];
      ok := SaveUserData();
    }

    /** Replaces the timer with a fresh one in the set-up state. */
    method SetupTimer()
      modifies this`timer
      ensures fresh(timer) && timer.State() == SETUP
    {
      timer := new Timer();
    }

    /** Starting a running timer does nothing; otherwise it sets it running. */
    method StartTimer()
      modifies timer
      ensures timer.State() == Start(old(timer.State()))
    {
      if !timer.isRunning {
        timer.isRunning := true;
      }
    }

    /** One run of the scheduled one-second callback; the result says whether it
        signals completion. */
    method TimerTick() returns (completes: bool)
      requires timer.isRunning
      modifies timer
      ensures (timer.State(), completes) == Tick(old(timer.State()))
    {
      timer.remaining := timer.remaining - 1;
      completes := timer.remaining <= 0;
    }
  }

  /** The scenario of a first registration: sign-up succeeds, a second sign-up
      with the same username is refused, log-in with the first password
      succeeds, and a task added afterwards is the one pending "todo" task of
      the list. */
  method RegistrationScenario() returns (first: bool, again: bool, login: bool, added: seq<Task>)
    ensures first && !again && login
    ensures |added| == 1 && added[0].title == "Essay" && added[0].status == "todo" && !added[0].completed
  {
    var app := new EduPlanApp(map[]);
    first := app.Signup("alice", "a@x.com", "pw1", "1", "t0");
    KeysAreDistinct("1", "1");
    again := app.Signup("alice", "b@x.com", "pw2", "2", "t1");
    assert StoredUsers(app.storage)[0].username == "alice";
    login := app.Login("alice", "pw1");
    assert Matches(StoredUsers(app.storage)[0], "alice", "pw1");
    var saved := app.AddTask("Essay", "History", Date(2024, 1, 1), "high", id := "3", createdAt := "t2");
    added := app.tasks;
  }
}
