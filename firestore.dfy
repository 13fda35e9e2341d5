/** The two collections of the document store that the core reads and writes. The store
    itself (connection, retries, concurrency control) is outside the model: a transaction
    body is one atomic step on this object. */
module Firestore {

  import opened Json

  class Store {
    /** `users/<uid>` */
    var users: map<string, Doc>
    /** `payments/<reference>` */
    var payments: map<string, Doc>

    constructor (users0: map<string, Doc>, payments0: map<string, Doc>)
      ensures users == users0 && payments == payments0
    {
      users := users0;
      payments := payments0;
    }
  }
}
