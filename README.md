# Course platform billing and user records, in Dafny

This project models the business logic of an Express/Mongoose course-selling
backend (SkillBuilder) and proves properties of it:

- the **admin dashboard report** (`getDashboardStats`): the latest twelve stats
  periods, padded with zero periods to a fixed series of twelve, with the
  period-over-period percentage and a "profit" flag for users, subscriptions
  and views;
- the **subscription lifecycle** against the payment gateway: buying (refused to
  admins), verifying the checkout signature (HMAC over the payment id and the
  *stored* subscription id), and cancelling with the refund-window rule;
- the **user-record handlers**: registration checks, password change and reset,
  profile update, playlist add and remove, the role toggle, account deletion
  with its subscription cascade, and the change hook that refreshes the latest
  stats period;
- the **access gates**: authentication from the session cookie, and the admin and
  subscriber authorizations.

The database is a `Database.Store` object: the user collection as a map from
document id to `User`, the payment collection and the stats collection as
sequences (stats oldest first), and the log of calls made to the payment
gateway. Its invariant `Valid()` says that no playlist lists a course twice,
which the playlist handlers keep. Each handler is a method over the store
whose postcondition gives the whole new state and the response in every
branch, including the error branches. The parts that are pure computations are
functions with their own contracts, and lemmas relate them.

External services are inputs:

- Whether a gateway call (create, cancel, refund), a media-host call (upload,
  destroy) or the mailer succeeded is a parameter. Gateway calls that were made are
  appended to `gatewayCalls`, so "no gateway call" can be stated and proved.
- HMAC-SHA256, SHA-256, the password comparison and token decoding are
  function-typed values (`Env`, or a parameter), so they stay uninterpreted.
- Time is an integer number of milliseconds passed in as `now`.
- Ids that the database assigns are parameters.

A query that finds no document leaves the handler holding `null`. The next
property read throws a TypeError, which the model writes as
`Err(NullAccess)`/`Fail(NullAccess)` and treats as changing nothing locally.

Modules follow the source files: `Domain` (records), `Database` (the store),
`Auth` (middleware/auth.js), `OtherController`, `PaymentController`,
`UserController`, `Server` (the monthly job of server.js). `Scenarios` holds
client methods that drive the billing flow and prove its expected outcomes from
the handler contracts alone: a tampered signature writes nothing, the genuine
one activates and records exactly one payment, an admin purchase makes no
gateway call, and a payment one millisecond inside the refund window is
refunded while one at the window's end is not.

Quirks of the code that the model keeps:

- The dashboard's `else` (otherController.js:77) belongs to the subscriptions
  test alone. So a non-zero subscriptions baseline recomputes all three
  percentages by division, and a zero one leaves the users and views
  percentages at 0 whenever their own baselines are non-zero.
- The dashboard's flags are cross-wired (otherController.js:89-90). The
  subscriptions flag follows the views percentage, and the views flag follows
  the subscriptions percentage.
- A division by a zero users or views baseline inside that branch is kept as
  `DivByZero(numerator)`. Its `< 0` test is true exactly when the numerator is
  negative, as it is for the runtime's infinities and NaN.
- The signature is computed over the stored subscription id. The request's
  subscription id is only copied into the payment row.
- `buySubscription` stores whatever id and status the gateway returns.
- When a cancellation or a deletion finds no payment row, the handler throws
  after the gateway cancellation has already happened. No local state changes.

## Model

| member | source | states |
|---|---|---|
| `Auth.IsAuthenticated` | middleware/auth.js:7-15 | a missing or empty token fails with 401; a token that does not decode fails; otherwise the request's user is exactly the stored user whose id the token carries, or none when that id is unknown |
| `Auth.AuthorizeAdmin` | middleware/auth.js:18-28 | passes if and only if the user's role is "admin"; any other role fails with 403; a missing user throws |
| `Auth.AuthorizeSubscribers` | middleware/auth.js:31-41 | passes if and only if the status is "active" or the role is "admin"; otherwise 403; a missing user throws |
| `Auth.AdminPassesSubscribers` | middleware/auth.js:18-40 | every user the admin guard admits, the subscriber guard admits |
| `Auth.Gate` | middleware/auth.js:7-15 | a gated request without a token fails with 401; an authentication failure is returned as it is; after authentication the request is admitted with the authenticated user if and only if the guard passes, and otherwise fails with the guard's error |
| `Auth.AdminGateImpliesSubscriberGate` | middleware/auth.js:18-40 | a request admitted to an admin route is admitted to a subscriber route with the same user |
| `OtherController.FormMail` | controllers/otherController.js:7-40 | `contact` and `courseRequest` fail with 400, sending nothing, if and only if name, email or the third field (message, course) is missing; otherwise one mail to the site mailbox with the form's subject and a text naming the sender, which succeeds if and only if the mailer delivers it; a mailer failure ends the request with an error |
| `OtherController.Series` | controllers/otherController.js:46-60 | the series is the zero padding, as many zero periods as twelve exceeds the fetched count, followed by the fetched periods in reverse fetch order |
| `OtherController.Summarize` | controllers/otherController.js:62-90 | counts are the latest period's; the subscriptions percentage is always finite; the users or views percentage is a division by zero exactly when the subscriptions baseline is non-zero and its own baseline is 0; with a zero subscriptions baseline every flag is true; otherwise the users flag says users did not fall, the subscriptions flag that views did not fall and the views flag that subscriptions did not fall |
| `OtherController.Change` | controllers/otherController.js:83-86 | the quotient is a division by zero exactly when the baseline is 0; otherwise percentage times baseline equals difference times 100; it is negative exactly when the difference is |
| `OtherController.BuildDashboard` | controllers/otherController.js:43-105 | the series built by the two `unshift` loops is the zero padding followed by the fetched periods reversed, at least twelve long; counts, percentages and flags are those of entries 10 and 11 under the handler's branches |
| `OtherController.Newest` | controllers/otherController.js:44 | the query returns the min(n, size) latest periods, newest first |
| `OtherController.GetDashboardStats` | controllers/otherController.js:43-64 | the report over the stats table is built from its twelve latest periods |
| `OtherController.SeriesLength` | controllers/otherController.js:44-60 | at most twelve fetched periods give exactly twelve entries |
| `OtherController.SeriesPadding` | controllers/otherController.js:52-60 | every entry before the fetched periods has users, subscriptions and views 0 |
| `OtherController.SeriesOrder` | controllers/otherController.js:48-59 | after the padding the fetched periods appear oldest first, the reverse of the newest-first fetch order |
| `OtherController.CountsAreLatest` | controllers/otherController.js:62-64 | entry 11 is the newest fetched period and entry 10 the one before it, or zero periods when fewer were fetched |
| `OtherController.DashboardShowsLatestPeriods` | controllers/otherController.js:44-64 | on the stats table, entries 11 and 10 are the table's last and second-to-last periods |
| `OtherController.ZeroSubscriptionBaseline` | controllers/otherController.js:66-76 | with no subscriptions in the previous period: subscriptions report count*100, users and views report count*100 when their own baseline is 0 and stay 0 otherwise, and all three flags stay true |
| `OtherController.NonZeroSubscriptionBaseline` | controllers/otherController.js:77-90 | otherwise each percentage is (curr-prev)/prev*100, a division by zero when its baseline is 0; the users flag is false iff the users percentage is negative, the subscriptions flag iff the views percentage is, the views flag iff the subscriptions percentage is |
| `OtherController.FlagsFollowDeclines` | controllers/otherController.js:88-90 | in that branch the users, subscriptions and views flags are false exactly when users, views and subscriptions respectively fell |
| `OtherController.WorkedExamples` | controllers/otherController.js:73-90 | 0 to 5 reports 500 and profit; 10 to 5 reports -50 and a loss; 10 to 20 reports 100 and profit; 0 to 0 is still flagged profit |
| `OtherController.UsersChangeIgnoredOnZeroSubscriptions` | controllers/otherController.js:73-77 | users doubling from 10 with a zero subscriptions baseline report 0 percent |
| `OtherController.CrossWiredFlags` | controllers/otherController.js:88-90 | subscriptions doubling while views fall report the subscriptions flag false and the views flag true |
| `PaymentController.ExpectedSignature` | controllers/paymenyController.js:41-46 | the signature is the HMAC-SHA256 under the secret of the payment id, a vertical bar and the stored subscription id, or "undefined" when none is stored |
| `PaymentController.RefundDue` | controllers/paymenyController.js:89-93 | a payment made at the moment of cancellation is refunded iff REFUND_DAYS is positive; a non-positive REFUND_DAYS never refunds a past payment |
| `PaymentController.RefundDeadline` | controllers/paymenyController.js:89-93 | a refund is due exactly when now is earlier than the payment time plus REFUND_DAYS days in milliseconds |
| `PaymentController.RefundMonotone` | controllers/paymenyController.js:89-93 | a cancellation that earns a refund would have earned it at any earlier time |
| `PaymentController.FindPayment` | controllers/paymenyController.js:85-87 | finds the first payment row of the subscription id, or reports that none has it |
| `PaymentController.RemoveAt` | controllers/paymenyController.js:98 | deleting one row leaves the other rows in their order and removes exactly that row from the multiset |
| `PaymentController.BuySubscription` | controllers/paymenyController.js:9-32 | an admin gets 400 with no gateway call and no change; anyone else causes one create call (12 cycles, notify) and, when it succeeds, has the returned id and status stored and the id returned |
| `PaymentController.PaymentVerification` | controllers/paymenyController.js:35-66 | the expected signature uses the stored subscription id; on mismatch the failure redirect and nothing written; on match with an empty request field the schema rejects the row and nothing is written; on match with all three fields exactly one payment row holding them is appended, the status becomes "active" and the success redirect carries the payment id |
| `PaymentController.CancelSubscription` | controllers/paymenyController.js:77-110 | the gateway cancel comes first and on failure nothing local changes; when no payment row has the subscription id the handler throws with users and payments unchanged; a refund call is made iff the refund window has not passed, and a failed refund call leaves users and payments unchanged; otherwise the payment row is deleted and the whole subscription sub-record cleared, and the result says whether a refund was issued |
| `UserController.RegisterCheck` | controllers/userController.js:15-22 | 400 iff name, email, password or file is missing; 409 iff all are present and the email is taken; pass otherwise |
| `UserController.EmailTaken` | controllers/userController.js:21-22 | the email is taken exactly when it is the email of some stored user; an empty collection takes none |
| `UserController.Register` | controllers/userController.js:15-39 | a failed check or upload creates no user; otherwise exactly one new user with the default role, no subscription and an empty playlist |
| `UserController.RegisterTwiceConflicts` | controllers/userController.js:21-22 | once an email is registered, registering it again fails with 409 |
| `UserController.ChangePassword` | controllers/userController.js:114-131 | missing fields give 400; a wrong old password gives 401 with the password unchanged; otherwise only the password changes |
| `UserController.ProfileUpdate` | controllers/userController.js:139-140 | a supplied name or email replaces the stored one, an absent one keeps it, nothing else changes |
| `UserController.UpdateProfile` | controllers/userController.js:134-149 | the user becomes the profile update of the old record and nothing else changes |
| `UserController.ResetTokenMatches` | controllers/userController.js:209-214 | a matching user stores exactly the hashed token; a user without a token or expiry, or whose expiry is not after now, never matches |
| `UserController.PasswordReset` | controllers/userController.js:220-222 | the reset record has the new password and neither token nor expiry, all else as before |
| `UserController.ResetTokenSingleUse` | controllers/userController.js:208-224 | after a reset no token matches the user, and an expired token never matches |
| `UserController.ResetPassword` | controllers/userController.js:200-230 | fails with 401 and changes nothing iff no user holds the hash of the token with an expiry after now; otherwise such a user is reset |
| `UserController.WithoutCourse` | controllers/userController.js:266-270 | the remaining entries are exactly the old ones of other courses, and the course is absent |
| `UserController.WithoutCourseConcat` | controllers/userController.js:266-268 | removal distributes over concatenation, so the kept entries keep their original order |
| `UserController.WithoutAbsentCourse` | controllers/userController.js:266-268 | removing a course the playlist lacks leaves it unchanged |
| `UserController.WithoutCourseIdempotent` | controllers/userController.js:266-270 | removing twice equals removing once |
| `UserController.WithoutCourseKeepsDistinct` | controllers/userController.js:266-270 | removal keeps a playlist free of duplicate courses |
| `UserController.WithoutListedCourse` | controllers/userController.js:266-270 | on a playlist without duplicate courses, removing a listed course removes exactly one entry |
| `UserController.AppendKeepsDistinct` | controllers/userController.js:240-248 | appending a course that the duplicate check found absent keeps the playlist free of duplicates |
| `UserController.AddToPlaylist` | controllers/userController.js:233-256 | unknown user or course gives 404; a listed course gives 409 with the playlist unchanged; otherwise exactly one {course, poster} entry is appended at the end |
| `UserController.RemoveFromPlaylist` | controllers/userController.js:259-277 | unknown user or course gives 404; otherwise the playlist loses every entry of the course, which is exactly one entry when the course was listed and none otherwise |
| `UserController.ToggledRole` | controllers/userController.js:295-296 | "user" becomes "admin" and every other role becomes "user" |
| `UserController.ToggleTwice` | controllers/userController.js:295-296 | toggling twice restores "user" or "admin" |
| `UserController.UpdateUserRole` | controllers/userController.js:291-304 | an unknown user gives 404; otherwise only the role changes, by the toggle |
| `UserController.DeleteAccount` | controllers/userController.js:82-111 | (also deleteUser, lines 307-328) without a subscription id: no gateway call, no payment change, the user deleted; with one: a cancel call, then that payment row deleted and the user deleted, with no refund call; a failed call or a missing payment stops it before any local change |
| `UserController.OnUserChange` | controllers/userController.js:331-341 | the latest stats period gets the user count, the active-subscriber count and the time; its views and all other periods stay, no period is added |
| `Domain.Text` | controllers/paymenyController.js:45 | concatenation uses a stored string as it is and writes an absent one as "undefined" |
| `Database.ActiveUsers` | controllers/userController.js:334 | exactly the users whose subscription status is "active" |
| `Database.ActiveCount` | controllers/userController.js:334-337 | the number of active subscribers, never more than the number of users |
| `Server.NewPeriod` | server.js:25-31 | the monthly job appends one zero-valued stats period stamped now and changes nothing else |

## Left out

- Routing, Express wiring, CORS, the database connection and the error-translating middleware are plumbing. The model keeps the failure kinds and none of the response bodies or message texts.
- login, logout, getMyProfile, updateProfilePicture, forgetPassword, getAllUsers and getRazorPayKey are outside the modelled core. The reset token that forgetPassword issues comes from models/UserModel.js, which is not part of this model.
- models/UserModel.js and models/StatsModel.js are not part of this model. The model assumes their defaults: role "user", an empty subscription and playlist, and zero counts in a new stats period. Their validators are not modelled either: the unique email index, field formats and the pre-save password hashing. `password` holds what the handler assigns, and `comparePassword` is abstract.
- utils/sendToken.js only sets a cookie with a 15-day lifetime. The token format and JWT signing are external, so `IsAuthenticated` takes decoding as a function.
- HMAC-SHA256, SHA-256, bcrypt comparison and JWT verification are foreign crypto. They are uninterpreted functions.
- Gateway, media-host and mail calls are external I/O. Their success is an input. Only the gateway calls are logged. The mail is returned by `FormMail`, not delivered.
- The change stream's asynchrony and its read-modify-write races are not modelled, and neither is concurrency between requests. `OnUserChange` is a separate step that a caller runs after a change.
- Floating point: percentages are exact reals, with an explicit division-by-zero case in place of the infinities and NaN.
- JavaScript numbers: counts, times and `REFUND_DAYS` are unbounded integers. A non-numeric `REFUND_DAYS` (NaN, never refunding) and precision beyond 2^53 are not modelled.
- Sorting by `createdAt`: the stats table is kept in creation order and the newest period is taken to be the last one. This assumes a clock that never goes backwards.
- A query on an unset subscription id (`{razorpay_subscription_id: undefined}`) is taken to match no payment row. Mongoose's handling of undefined filter values is not modelled.
- Failures of `user.save()` and `deleteOne()` are not modelled.
- `DeleteAccount`: the media-host call that destroys the avatar is an input that can fail. It is not logged.
- `ResetPassword`: when several users hold the same unexpired token hash, the model lets any one of them be reset. MongoDB's `findOne` takes the first in natural order.
