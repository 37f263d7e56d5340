/** The persistent state the handlers work on: the user, payment and stats
    collections, and the log of calls made to the payment gateway. */
module Database {
  import opened Domain

  /** The users whose subscription status is "active". */
  function ActiveUsers(users: map<UserId, User>): (ids: set<UserId>)
    ensures ids <= users.Keys
    ensures forall id :: id in users ==> (id in ids <==> users[id].subscription.status == Some(ACTIVE))
  {
    set id | id in users && users[id].subscription.status == Some(ACTIVE)
  }

  /** The number of users with subscription status "active". */
  function ActiveCount(users: map<UserId, User>): (n: nat)
    ensures n <= |users|
  {
    SubsetCardinality(ActiveUsers(users), users.Keys);
    |ActiveUsers(users)|
  }

  lemma {:induction false} SubsetCardinality<T>(a: set<T>, b: set<T>)
    requires a <= b
    ensures |a| <= |b|
  {
    if a != {} {
      var x :| x in a;
      SubsetCardinality(a - {x}, b - {x});
    }
  }

  class Store {
    /** The user collection, by document id. */
    var users: map<UserId, User>
    /** The payment collection in insertion order. */
    var payments: seq<Payment>
    /** The stats collection, oldest first; the last entry is the latest period. */
    var stats: seq<Stats>
    /** Every call made to the payment gateway so far. */
    var gatewayCalls: seq<GatewayCall>

    /** The invariant the playlist handlers keep: no course is listed twice. */
    ghost predicate Valid()
      reads this
    {
      forall id :: id in users ==> DistinctCourses(users[id].playlist)
    }

    constructor ()
      ensures Valid()
      ensures users == map[] && payments == [] && stats == [] && gatewayCalls == []
    {
      users := map[];
      payments := [];
      stats := [];
      gatewayCalls := [];
    }
  }
}
