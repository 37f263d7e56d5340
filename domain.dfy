/** Records shared by the course platform's handlers: the documents of the user,
    payment and stats collections, the calls made to the payment gateway, the
    configuration read from the environment, and how a handler fails. */
module Domain {

  datatype Option<+T> = None | Some(value: T)

  /** How a handler ends when it does not succeed. `Http(code)` is an
      ErrorHandler raised with that status code; the other kinds are exceptions
      thrown on the way, which the central error translator turns into a
      generic failure. */
  datatype Failure =
    | Http(code: nat)   // next(new ErrorHandler(message, code))
    | Upstream          // the payment gateway, the media host or the mailer raised
    | NullAccess        // a property was read from a document a query did not find
    | BadToken          // the token did not verify
    | SchemaViolation   // a required field of a stored document was empty

  datatype Result<+T> = Ok(value: T) | Err(error: Failure)

  datatype Outcome = Pass | Fail(error: Failure)

  /** JavaScript truthiness of an optional string: present and not empty. */
  predicate Present(s: Option<string>) { s.Some? && s.value != "" }

  /** What string concatenation makes of an optional string. */
  function Text(s: Option<string>): (t: string)
    ensures s.Some? ==> t == s.value
    ensures s.None? ==> t == "undefined"
  {
    if s.Some? then s.value else "undefined"
  }

  type UserId = string

  const ADMIN := "admin"
  const USER := "user"
  const ACTIVE := "active"

  datatype Avatar = Avatar(publicId: string, url: string)

  datatype PlaylistItem = PlaylistItem(course: string, poster: string)

  /** The subscription sub-record of a user; both fields are unset before the
      first purchase and after a cancellation. */
  datatype Subscription = Subscription(id: Option<string>, status: Option<string>)

  const NO_SUBSCRIPTION := Subscription(None, None)

  datatype User = User(
    name: string,
    email: string,
    password: string,
    role: string,
    avatar: Avatar,
    subscription: Subscription,
    playlist: seq<PlaylistItem>,
    resetPasswordToken: Option<string>,
    resetPasswordExpire: Option<int>)

  /** One row per verified gateway payment; times are milliseconds. */
  datatype Payment = Payment(paymentId: string, subscriptionId: string, signature: string, createdAt: int)

  /** One row per stats period. The dashboard's zero padding has no creation time. */
  datatype Stats = Stats(users: nat, subscriptions: nat, views: nat, createdAt: Option<int>)

  const ZERO_STATS := Stats(0, 0, 0, None)

  /** What the course collection yields for a course id. */
  datatype Course = Course(id: string, poster: string)

  /** The subscription the gateway issues on creation. */
  datatype GatewaySubscription = GatewaySubscription(id: string, status: string)

  /** A call made to the payment gateway, in the order made. */
  datatype GatewayCall =
    | CreateCall(planId: string, customerNotify: nat, totalCount: nat)
    | CancelCall(subscriptionId: Option<string>)
    | RefundCall(paymentId: string)

  /** Settings from the environment and the foreign primitives the handlers call:
      HMAC-SHA256 as a hex digest of (key, message), SHA-256 as a hex digest, and
      the password comparison of the user document. */
  datatype Env = Env(
    planId: string,
    razorpaySecret: string,
    refundDays: int,
    hmacSha256: (string, string) -> string,
    sha256: string -> string,
    comparePassword: (string, string) -> bool)

  const MS_PER_DAY := 24 * 60 * 60 * 1000

  /** The playlist holds `course` (the `find` over the playlist). */
  predicate HasCourse(playlist: seq<PlaylistItem>, course: string)
  {
    exists i :: 0 <= i < |playlist| && playlist[i].course == course
  }

  /** No course appears twice in the playlist. */
  predicate DistinctCourses(playlist: seq<PlaylistItem>)
  {
    forall i, j :: 0 <= i < j < |playlist| ==> playlist[i].course != playlist[j].course
  }
}
