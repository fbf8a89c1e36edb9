/** The database the controllers share: the `users` and `thoughts`
    collections, which the handlers update in place. */
module Store {
  import opened Documents

  class Database {
    var users: map<Id, User>
    var thoughts: map<Id, Thought>

    /** The contents of both collections, as a value. */
    function Snapshot(): State
      reads this
    {
      State(users, thoughts)
    }
  }
}
