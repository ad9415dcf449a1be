/** The tables as the services update them in place. */
module Database {
  import opened Records

  class Tables {
    var users: map<UserId, User>
    var submissions: map<SubmissionId, Submission>
    var flags: map<FlagId, Flag>
    var credits: seq<Credit>
    var payments: map<PaymentId, Payment>
    var waivers: set<SubmissionId>
    var assignments: map<AssignmentId, Assignment>
    var moves: seq<Move>

    constructor (users: map<UserId, User>)
      ensures Snapshot() == Db(users, map[], map[], [], map[], {}, map[], [])
    {
      this.users := users;
      submissions, flags, credits, payments, waivers, assignments, moves := map[], map[], [], map[], {}, map[], [];
    }

    function Snapshot(): Db
      reads this
    {
      Db(users, submissions, flags, credits, payments, waivers, assignments, moves)
    }
  }
}
