/** The user-record handlers: registration, password change and reset, profile
    update, the playlist, the admin's role toggle, account deletion with its
    subscription cascade, and the hook that refreshes the latest stats period
    after every change to the user collection. */
module UserController {
  import opened Domain
  import opened Database
  import PaymentController

  // ---------------------------------------------------------------------------
  // Registration

  /** Some user already has this e-mail address. */
  predicate EmailTaken(users: map<UserId, User>, email: string): (taken: bool)
    ensures taken <==> email in (set id | id in users :: users[id].email)
    ensures users == map[] ==> !taken
  {
    exists id :: id in users && users[id].email == email
  }

  /** The checks `register` makes before uploading the avatar: every field and
      the file are mandatory (400), and the e-mail must be new (409). */
  function RegisterCheck(name: Option<string>, email: Option<string>, password: Option<string>,
                         hasFile: bool, users: map<UserId, User>): (r: Outcome)
    ensures r == Fail(Http(400)) <==> !(Present(name) && Present(email) && Present(password) && hasFile)
    ensures r == Fail(Http(409)) <==>
      Present(name) && Present(email) && Present(password) && hasFile && EmailTaken(users, email.value)
    ensures r == Pass <==>
      Present(name) && Present(email) && Present(password) && hasFile && !EmailTaken(users, email.value)
  {
    if !Present(name) || !Present(email) || !Present(password) || !hasFile then Fail(Http(400))
    else if EmailTaken(users, email.value) then Fail(Http(409))
    else Pass
  }

  /** A freshly created user: the default role, no subscription, an empty
      playlist and no reset token. */
  function NewUser(name: string, email: string, password: string, avatar: Avatar): User
  {
    User(name, email, password, USER, avatar, NO_SUBSCRIPTION, [], None, None)
  }

  /** `register`: after the checks the avatar is uploaded (`uploaded` is what the
      media host returned, none when it failed) and the user created under the
      id the database assigns. */
  method Register(db: Store, name: Option<string>, email: Option<string>, password: Option<string>,
                  hasFile: bool, uploaded: Option<Avatar>, newId: UserId) returns (r: Result<UserId>)
    requires db.Valid() && newId !in db.users
    modifies db
    ensures db.Valid()
    ensures db.payments == old(db.payments) && db.stats == old(db.stats) && db.gatewayCalls == old(db.gatewayCalls)
    ensures var check := RegisterCheck(name, email, password, hasFile, old(db.users));
      && (check.Fail? ==> r == Err(check.error) && db.users == old(db.users))
      && (check.Pass? && uploaded.None? ==> r == Err(Upstream) && db.users == old(db.users))
      && (check.Pass? && uploaded.Some? ==>
            r == Ok(newId) &&
            db.users == old(db.users)[newId := NewUser(name.value, email.value, password.value, uploaded.value)])
  {
    var check := RegisterCheck(name, email, password, hasFile, db.users);
    if check.Fail? {
      return Err(check.error);
    }
    if uploaded.None? {
      return Err(Upstream);
    }
    db.users := db.users[newId := NewUser(name.value, email.value, password.value, uploaded.value)];
    r := Ok(newId);
  }

  /** After a successful registration the address is taken, so registering it
      again fails with 409. */
  lemma RegisterTwiceConflicts(users: map<UserId, User>, newId: UserId, name: string, email: string,
                               password: string, avatar: Avatar, name2: Option<string>, password2: Option<string>)
    requires Present(name2) && Present(password2) && email != ""
    ensures RegisterCheck(name2, Some(email), password2, true, users[newId := NewUser(name, email, password, avatar)])
            == Fail(Http(409))
  {
    var users' := users[newId := NewUser(name, email, password, avatar)];
    assert newId in users' && users'[newId].email == email;
  }

  // ---------------------------------------------------------------------------
  // Passwords and profile

  /** `changePassword`: both fields are mandatory (400); a wrong old password
      fails with 401 and changes nothing; otherwise the password is replaced. */
  method ChangePassword(db: Store, env: Env, uid: UserId, oldPassword: Option<string>,
                        newPassword: Option<string>) returns (r: Outcome)
    requires db.Valid()
    modifies db
    ensures db.Valid()
    ensures db.payments == old(db.payments) && db.stats == old(db.stats) && db.gatewayCalls == old(db.gatewayCalls)
    ensures !Present(oldPassword) || !Present(newPassword) ==> r == Fail(Http(400)) && db.users == old(db.users)
    ensures Present(oldPassword) && Present(newPassword) ==>
      && (uid !in old(db.users) ==> r == Fail(NullAccess) && db.users == old(db.users))
      && (uid in old(db.users) && !env.comparePassword(old(db.users[uid].password), oldPassword.value) ==>
            r == Fail(Http(401)) && db.users == old(db.users))
      && (uid in old(db.users) && env.comparePassword(old(db.users[uid].password), oldPassword.value) ==>
            r == Pass && db.users == old(db.users)[uid := old(db.users[uid]).(password := newPassword.value)])
  {
    if !Present(oldPassword) || !Present(newPassword) {
      return Fail(Http(400));
    }
    if uid !in db.users {
      return Fail(NullAccess);
    }
    var user := db.users[uid];
    var isMatch := env.comparePassword(user.password, oldPassword.value);
    if !isMatch {
      return Fail(Http(401));
    }
    user := user.(password := newPassword.value);
    db.users := db.users[uid := user];
    r := Pass;
  }

  /** The user after `updateProfile`: a supplied name or e-mail replaces the
      stored one; an absent one leaves it; nothing else changes. */
  function ProfileUpdate(user: User, name: Option<string>, email: Option<string>): (u: User)
    ensures Present(name) ==> u.name == name.value
    ensures !Present(name) ==> u.name == user.name
    ensures Present(email) ==> u.email == email.value
    ensures !Present(email) ==> u.email == user.email
    ensures u.(name := user.name, email := user.email) == user
  {
    var u := if Present(name) then user.(name := name.value) else user;
    if Present(email) then u.(email := email.value) else u
  }

  /** `updateProfile`. */
  method UpdateProfile(db: Store, uid: UserId, name: Option<string>, email: Option<string>) returns (r: Outcome)
    requires db.Valid()
    modifies db
    ensures db.Valid()
    ensures db.payments == old(db.payments) && db.stats == old(db.stats) && db.gatewayCalls == old(db.gatewayCalls)
    ensures uid !in old(db.users) ==> r == Fail(NullAccess) && db.users == old(db.users)
    ensures uid in old(db.users) ==>
      r == Pass && db.users == old(db.users)[uid := ProfileUpdate(old(db.users[uid]), name, email)]
  {
    if uid !in db.users {
      return Fail(NullAccess);
    }
    var user := db.users[uid];
    if Present(name) { user := user.(name := name.value); }
    if Present(email) { user := user.(email := email.value); }
    db.users := db.users[uid := user];
    r := Pass;
  }

  /** The reset query: the stored token is the hash of the given one and its
      expiry is still ahead. */
  predicate ResetTokenMatches(user: User, hashedToken: string, now: int): (m: bool)
    ensures m ==> user.resetPasswordToken == Some(hashedToken)
    ensures user.resetPasswordToken.None? || user.resetPasswordExpire.None? ==> !m
    ensures user.resetPasswordExpire.Some? && user.resetPasswordExpire.value <= now ==> !m
  {
    user.resetPasswordToken == Some(hashedToken) &&
    user.resetPasswordExpire.Some? && user.resetPasswordExpire.value > now
  }

  /** The user after a reset: the new password, no token, no expiry. */
  function PasswordReset(user: User, password: string): (u: User)
    ensures u.password == password && u.resetPasswordToken.None? && u.resetPasswordExpire.None?
    ensures u.(password := user.password, resetPasswordToken := user.resetPasswordToken,
               resetPasswordExpire := user.resetPasswordExpire) == user
  {
    user.(password := password, resetPasswordToken := None, resetPasswordExpire := None)
  }

  /** A reset token works once: after the reset no token matches. An expired
      token never matches. */
  lemma ResetTokenSingleUse(user: User, password: string, hashedToken: string, now: int)
    ensures !ResetTokenMatches(PasswordReset(user, password), hashedToken, now)
    ensures user.resetPasswordExpire.Some? && user.resetPasswordExpire.value <= now ==>
      !ResetTokenMatches(user, hashedToken, now)
  {
  }

  /** `resetPassword`: some user whose stored token is the SHA-256 of `token`
      and whose expiry lies after `now` gets the new password and loses the
      token; when there is none the request fails with 401 and nothing changes. */
  method ResetPassword(db: Store, env: Env, token: string, password: string, now: int) returns (r: Outcome)
    requires db.Valid()
    modifies db
    ensures db.Valid()
    ensures db.payments == old(db.payments) && db.stats == old(db.stats) && db.gatewayCalls == old(db.gatewayCalls)
    ensures r.Fail? <==> !exists id :: id in old(db.users) && ResetTokenMatches(old(db.users[id]), env.sha256(token), now)
    ensures r.Fail? ==> r == Fail(Http(401)) && db.users == old(db.users)
    ensures r.Pass? ==>
      exists id :: id in old(db.users) && ResetTokenMatches(old(db.users[id]), env.sha256(token), now) &&
        db.users == old(db.users)[id := PasswordReset(old(db.users[id]), password)]
  {
    var hashed := env.sha256(token);
    if !exists id :: id in db.users && ResetTokenMatches(db.users[id], hashed, now) {
      return Fail(Http(401));
    }
    var id :| id in db.users && ResetTokenMatches(db.users[id], hashed, now);
    var user := db.users[id];
    user := user.(password := password);
    user := user.(resetPasswordExpire := None);
    user := user.(resetPasswordToken := None);
    db.users := db.users[id := user];
    r := Pass;
  }

  // ---------------------------------------------------------------------------
  // Playlist

  /** The playlist without the entries of `course` (the `filter`). */
  function WithoutCourse(playlist: seq<PlaylistItem>, course: string): (r: seq<PlaylistItem>)
    ensures |r| <= |playlist|
    ensures forall x :: x in r <==> x in playlist && x.course != course
    ensures !HasCourse(r, course)
  {
    if playlist == [] then []
    else if playlist[0].course == course then WithoutCourse(playlist[1..], course)
    else [playlist[0]] + WithoutCourse(playlist[1..], course)
  }

  /** Filtering distributes over concatenation, so the kept entries stay in
      their original order. */
  lemma {:induction false} WithoutCourseConcat(a: seq<PlaylistItem>, b: seq<PlaylistItem>, course: string)
    ensures WithoutCourse(a + b, course) == WithoutCourse(a, course) + WithoutCourse(b, course)
  {
    if a == [] {
      assert a + b == b;
    } else {
      assert (a + b)[0] == a[0] && (a + b)[1..] == a[1..] + b;
      WithoutCourseConcat(a[1..], b, course);
    }
  }

  /** A playlist without the course is left as it is. */
  lemma {:induction false} WithoutAbsentCourse(playlist: seq<PlaylistItem>, course: string)
    requires !HasCourse(playlist, course)
    ensures WithoutCourse(playlist, course) == playlist
  {
    if playlist != [] {
      assert playlist[0].course != course;
      assert !HasCourse(playlist[1..], course) by {
        forall i | 0 <= i < |playlist[1..]| ensures playlist[1..][i].course != course {
          assert playlist[1..][i] == playlist[i + 1];
        }
      }
      WithoutAbsentCourse(playlist[1..], course);
    }
  }

  /** Removing twice is removing once. */
  lemma {:induction false} WithoutCourseIdempotent(playlist: seq<PlaylistItem>, course: string)
    ensures WithoutCourse(WithoutCourse(playlist, course), course) == WithoutCourse(playlist, course)
  {
    WithoutAbsentCourse(WithoutCourse(playlist, course), course);
  }

  /** Removing keeps a playlist free of duplicates. */
  lemma {:induction false} WithoutCourseKeepsDistinct(playlist: seq<PlaylistItem>, course: string)
    requires DistinctCourses(playlist)
    ensures DistinctCourses(WithoutCourse(playlist, course))
  {
    if playlist != [] {
      var rest := playlist[1..];
      assert DistinctCourses(rest) by {
        forall i, j | 0 <= i < j < |rest| ensures rest[i].course != rest[j].course {
          assert rest[i] == playlist[i + 1] && rest[j] == playlist[j + 1];
        }
      }
      WithoutCourseKeepsDistinct(rest, course);
      if playlist[0].course != course {
        var tail := WithoutCourse(rest, course);
        forall j | 0 <= j < |tail| ensures tail[j].course != playlist[0].course {
          assert tail[j] in rest;
          var k :| 0 <= k < |rest| && rest[k] == tail[j];
          assert rest[k] == playlist[k + 1];
        }
        PrependKeepsDistinct(playlist[0], tail);
      }
    }
  }

  /** On a playlist without duplicates, removing a listed course removes
      exactly one entry. */
  lemma {:induction false} WithoutListedCourse(playlist: seq<PlaylistItem>, course: string)
    requires DistinctCourses(playlist) && HasCourse(playlist, course)
    ensures |WithoutCourse(playlist, course)| == |playlist| - 1
  {
    var rest := playlist[1..];
    assert DistinctCourses(rest) by {
      forall i, j | 0 <= i < j < |rest| ensures rest[i].course != rest[j].course {
        assert rest[i] == playlist[i + 1] && rest[j] == playlist[j + 1];
      }
    }
    if playlist[0].course == course {
      assert !HasCourse(rest, course) by {
        forall i | 0 <= i < |rest| ensures rest[i].course != course {
          assert rest[i] == playlist[i + 1];
        }
      }
      WithoutAbsentCourse(rest, course);
    } else {
      var i :| 0 <= i < |playlist| && playlist[i].course == course;
      assert rest[i - 1] == playlist[i];
      WithoutListedCourse(rest, course);
    }
  }

  lemma PrependKeepsDistinct(x: PlaylistItem, s: seq<PlaylistItem>)
    requires DistinctCourses(s)
    requires forall j :: 0 <= j < |s| ==> s[j].course != x.course
    ensures DistinctCourses([x] + s)
  {

  }

  /** Appending a course the playlist lacks keeps it free of duplicates. */
  lemma AppendKeepsDistinct(playlist: seq<PlaylistItem>, item: PlaylistItem)
    requires DistinctCourses(playlist) && !HasCourse(playlist, item.course)
    ensures DistinctCourses(playlist + [item])
  {

  }

  /** `addToPlaylist`: an unknown user or course fails with 404; a course
      already listed fails with 409 and changes nothing; otherwise one entry
      with the course and its poster is appended. */
  method AddToPlaylist(db: Store, uid: UserId, course: Option<Course>) returns (r: Outcome)
    requires db.Valid()
    modifies db
    ensures db.Valid()
    ensures db.payments == old(db.payments) && db.stats == old(db.stats) && db.gatewayCalls == old(db.gatewayCalls)
    ensures uid !in old(db.users) || course.None? ==> r == Fail(Http(404)) && db.users == old(db.users)
    ensures uid in old(db.users) && course.Some? ==>
      var user := old(db.users[uid]);
      && (HasCourse(user.playlist, course.value.id) ==> r == Fail(Http(409)) && db.users == old(db.users))
      && (!HasCourse(user.playlist, course.value.id) ==>
            r == Pass &&
            db.users == old(db.users)[uid := user.(playlist := user.playlist + [PlaylistItem(course.value.id, course.value.poster)])])
  {
    if uid !in db.users {
      return Fail(Http(404));
    }
    if course.None? {
      return Fail(Http(404));
    }
    var user := db.users[uid];
    var itemExists := HasCourse(user.playlist, course.value.id);
    if itemExists {
      return Fail(Http(409));
    }
    AppendKeepsDistinct(user.playlist, PlaylistItem(course.value.id, course.value.poster));
    user := user.(playlist := user.playlist + [PlaylistItem(course.value.id, course.value.poster)]);
    db.users := db.users[uid := user];
    r := Pass;
  }

  /** `removeFromPlaylist`: an unknown user or course fails with 404; otherwise
      the playlist loses every entry of the course. */
  method RemoveFromPlaylist(db: Store, uid: UserId, course: Option<Course>) returns (r: Outcome)
    requires db.Valid()
    modifies db
    ensures db.Valid()
    ensures db.payments == old(db.payments) && db.stats == old(db.stats) && db.gatewayCalls == old(db.gatewayCalls)
    ensures uid !in old(db.users) || course.None? ==> r == Fail(Http(404)) && db.users == old(db.users)
    ensures uid in old(db.users) && course.Some? ==>
      var user := old(db.users[uid]);
      && r == Pass
      && db.users == old(db.users)[uid := user.(playlist := WithoutCourse(user.playlist, course.value.id))]
      && |db.users[uid].playlist| == |user.playlist| - (if HasCourse(user.playlist, course.value.id) then 1 else 0)
  {
    if uid !in db.users {
      return Fail(Http(404));
    }
    if course.None? {
      return Fail(Http(404));
    }
    var user := db.users[uid];
    var newPlaylist := WithoutCourse(user.playlist, course.value.id);
    WithoutCourseKeepsDistinct(user.playlist, course.value.id);
    if HasCourse(user.playlist, course.value.id) {
      WithoutListedCourse(user.playlist, course.value.id);
    } else {
      WithoutAbsentCourse(user.playlist, course.value.id);
    }
    user := user.(playlist := newPlaylist);
    db.users := db.users[uid := user];
    r := Pass;
  }

  // ---------------------------------------------------------------------------
  // Role

  /** `updateUserRole`'s rule: "user" becomes "admin", every other role "user". */
  function ToggledRole(role: string): (r: string)
    ensures r == ADMIN <==> role == USER
    ensures r == USER <==> role != USER
  {
    if role == USER then ADMIN else USER
  }

  /** Toggling twice restores a "user" or an "admin". */
  lemma ToggleTwice(role: string)
    requires role == USER || role == ADMIN
    ensures ToggledRole(ToggledRole(role)) == role
  {
  }

  /** `updateUserRole`: an unknown user fails with 404. */
  method UpdateUserRole(db: Store, uid: UserId) returns (r: Outcome)
    requires db.Valid()
    modifies db
    ensures db.Valid()
    ensures db.payments == old(db.payments) && db.stats == old(db.stats) && db.gatewayCalls == old(db.gatewayCalls)
    ensures uid !in old(db.users) ==> r == Fail(Http(404)) && db.users == old(db.users)
    ensures uid in old(db.users) ==>
      r == Pass && db.users == old(db.users)[uid := old(db.users[uid]).(role := ToggledRole(old(db.users[uid].role)))]
  {
    if uid !in db.users {
      return Fail(Http(404));
    }
    var user := db.users[uid];
    if user.role == USER {
      user := user.(role := ADMIN);
    } else {
      user := user.(role := USER);
    }
    db.users := db.users[uid := user];
    r := Pass;
  }

  // ---------------------------------------------------------------------------
  // Account deletion

  /** `deleteMyProfile` and `deleteUser`: the avatar is destroyed at the media
      host; a user with a subscription id has it cancelled at the gateway and
      its payment row deleted, with no refund rule; then the user is deleted.
      A user without a subscription id causes no gateway call and no payment
      lookup. `destroyed` and `cancelled` say whether the external calls
      succeeded. */
  method DeleteAccount(db: Store, uid: UserId, destroyed: bool, cancelled: bool) returns (r: Outcome)
    requires db.Valid()
    modifies db
    ensures db.Valid()
    ensures db.stats == old(db.stats)
    ensures uid !in old(db.users) ==> r == Fail(NullAccess) && unchanged(db)
    ensures uid in old(db.users) && !destroyed ==> r == Fail(Upstream) && unchanged(db)
    ensures uid in old(db.users) && destroyed ==>
      var id := old(db.users[uid]).subscription.id;
      var found := PaymentController.FindPayment(old(db.payments), id);
      && (!Present(id) ==>
            && r == Pass && db.gatewayCalls == old(db.gatewayCalls) && db.payments == old(db.payments)
            && db.users == old(db.users) - {uid})
      && (Present(id) ==> db.gatewayCalls == old(db.gatewayCalls) + [CancelCall(id)])
      && (Present(id) && !cancelled ==>
            r == Fail(Upstream) && db.users == old(db.users) && db.payments == old(db.payments))
      && (Present(id) && cancelled && found.None? ==>
            r == Fail(NullAccess) && db.users == old(db.users) && db.payments == old(db.payments))
      && (Present(id) && cancelled && found.Some? ==>
            && r == Pass
            && db.payments == PaymentController.RemoveAt(old(db.payments), found.value)
            && db.users == old(db.users) - {uid})
  {
    if uid !in db.users {
      return Fail(NullAccess);
    }
    var user := db.users[uid];
    if !destroyed {
      return Fail(Upstream);
    }
    var subscriptionId := user.subscription.id;
    if Present(subscriptionId) {
      db.gatewayCalls := db.gatewayCalls + [CancelCall(subscriptionId)];
      if !cancelled {
        return Fail(Upstream);
      }
      var found := PaymentController.FindPayment(db.payments, subscriptionId);
      if found.None? {
        return Fail(NullAccess);
      }
      db.payments := PaymentController.RemoveAt(db.payments, found.value);
    }
    db.users := db.users - {uid};
    r := Pass;
  }

  // ---------------------------------------------------------------------------
  // Stats hook

  /** The latest stats period matches the user collection. */
  ghost predicate StatsCurrent(db: Store)
    reads db
  {
    db.stats != [] &&
    db.stats[|db.stats| - 1].users == |db.users| &&
    db.stats[|db.stats| - 1].subscriptions == ActiveCount(db.users)
  }

  /** The change listener on the user collection: the latest stats period is
      overwritten in place with the number of users, the number of active
      subscribers and the current time; its views stay and no period is added.
      With no stats period at all the listener throws and nothing changes. */
  method OnUserChange(db: Store, now: int) returns (r: Outcome)
    requires db.Valid()
    modifies db
    ensures db.Valid()
    ensures db.users == old(db.users) && db.payments == old(db.payments) && db.gatewayCalls == old(db.gatewayCalls)
    ensures old(db.stats) == [] ==> r == Fail(NullAccess) && unchanged(db)
    ensures old(db.stats) != [] ==>
      var last := |old(db.stats)| - 1;
      && r == Pass
      && StatsCurrent(db)
      && |db.stats| == |old(db.stats)|
      && db.stats[..last] == old(db.stats)[..last]
      && db.stats[last] == old(db.stats)[last].(users := |db.users|, subscriptions := ActiveCount(db.users),
                                               createdAt := Some(now))
  {
    if db.stats == [] {
      return Fail(NullAccess);
    }
    var last := |db.stats| - 1;
    var latest := db.stats[last];
    var subscribers := ActiveUsers(db.users);
    latest := latest.(users := |db.users|);
    latest := latest.(subscriptions := |subscribers|);
    latest := latest.(createdAt := Some(now));
    db.stats := db.stats[last := latest];
    r := Pass;
  }
}
