// The records the study planner keeps: accounts, tasks and study sessions.
// They are plain values here; the browser store holds them serialised, and
// this model keeps them structured.

module Records {

  /** A value that may be absent (the source's `null`/`undefined`). */
  datatype Option<+T> = None | Some(value: T)

  /** Per-account settings; every new account starts with the defaults below. */
  datatype Preferences = Preferences(theme: string, notifications: bool)

  const DEFAULT_PREFERENCES: Preferences := Preferences("light", true)

  /** An account as stored in the registry (the password is kept in plain text). */
  datatype User = User(
    id: string,
    username: string,
    email: string,
    password: string,
    joinedAt: string,
    preferences: Preferences)

  /** A calendar date; deadlines are compared by year, month and day only. */
  datatype Date = Date(year: int, month: int, day: int)

  /** A task of the per-account task list. `status` is free text: the code
      compares it with "todo", "progress" and "review" and sets only "todo". */
  datatype Task = Task(
    id: string,
    title: string,
    subject: string,
    deadline: Date,
    priority: string,
    description: string,
    status: string,
    completed: bool,
    createdAt: string,
    completedAt: Option<string>,
    userId: string)

  /** A logged study interval; `duration` (in seconds) is the only field read. */
  datatype StudySession = StudySession(duration: int)
}
