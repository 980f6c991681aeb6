/**
 * The authentication handlers of the API server over an in-memory `users`
 * collection, an append-only activity log and the login-attempt tracker:
 * register, login, forgot-password, reset-password, change-password,
 * delete-account, and the guarded admin operations that change one role,
 * delete many users or change many roles. Password hashing, reset-token
 * digests and token signing are abstract functions.
 */
module AuthApi {
  import opened Options
  import opened Jwt
  import opened PasswordValidator
  import opened LoginAttempts

  // ---------------------------------------------------------------------
  // Records
  // ---------------------------------------------------------------------

  /** A document of the `users` collection; times are milliseconds. */
  datatype User = User(
    id: nat,
    name: string,
    email: string,
    passwordHash: string,
    role: string,
    country: string,
    resetPasswordToken: Option<string>,
    resetPasswordExpires: Option<int>,
    createdAt: int,
    updatedAt: int)

  /** The user as responses show it: never the password hash or the reset fields. */
  datatype PublicUser = PublicUser(id: nat, name: string, email: string, role: string, country: Option<string>)

  datatype Action = LoginAction | PasswordChangeAction | RoleChangeAction | BulkDeleteAction | BulkRoleChangeAction

  /** A document of the `activity_logs` collection (descriptions left out). */
  datatype LogEntry = LogEntry(
    userId: nat,
    userName: string,
    userEmail: string,
    action: Action,
    ipAddress: Option<string>,
    userAgent: Option<string>,
    targetUserId: Option<nat>,
    targetUserName: Option<string>,
    newRole: Option<string>,
    userIds: Option<seq<nat>>,
    count: Option<nat>,
    createdAt: int)

  /** The abstract collaborators: bcrypt hashing and comparing, the reset-token digest, JWT signing. */
  datatype Crypto = Crypto(
    hashPassword: (string, string) -> string,
    comparePassword: (string, string) -> bool,
    hashResetToken: string -> string,
    generateToken: Signer)

  /** A JSON response body. */
  datatype Body =
    | Error(error: string)
    | WeakPassword(error: string, feedback: seq<string>, strength: Option<Strength>)
    | LockedOut(lockMessage: Option<LockMessage>)
    | BadCredentials(error: string, remainingAttempts: Option<int>, attemptsLeftMessage: Option<int>)
    | Registered(token: string, user: PublicUser)
    | LoggedIn(token: string, user: PublicUser)
    | Message(message: string)
    | ResetIssued(message: string, resetToken: string, resetUrl: string)
    | RoleChanged(role: string)
    | BulkDeleted(deletedCount: nat)
    | BulkRoleChanged(modifiedCount: nat, role: string)

  datatype Response = Response(status: int, body: Body)

  /** The `userIds` field of a bulk request: absent, not an array, or an array of ids. */
  datatype IdsField = MissingIds | NotAnArray | Ids(ids: seq<nat>)

  const ResetWindow := 3600000
  const ResetUrlPrefix := "https://www.mistop.org/reset-password.html?token="
  const ForgotMessage := "비밀번호 재설정 링크가 이메일로 전송되었습니다."
  const WeakPasswordError := "비밀번호가 보안 요구사항을 충족하지 않습니다"
  const InvalidCredentials := "Invalid credentials"
  const UserNotFound := "사용자를 찾을 수 없습니다"
  const InvalidRoleError := "유효하지 않은 역할입니다"

  // ---------------------------------------------------------------------
  // Queries over the collection
  // ---------------------------------------------------------------------

  /** The filter documents the handlers pass to `findOne`. */
  datatype Query = ByEmail(email: string) | ById(id: nat) | ByResetToken(digest: string, now: int)

  predicate Matches(u: User, q: Query) {
    match q
    case ByEmail(email) => u.email == email
    case ById(id) => u.id == id
    case ByResetToken(digest, now) =>
      u.resetPasswordToken == Some(digest) && u.resetPasswordExpires.Some? && u.resetPasswordExpires.value > now
  }

  /** `findOne`: the position of the first document in natural order that matches. */
  function FindFirst(users: seq<User>, q: Query): (found: Option<nat>)
    ensures found.Some? ==> found.value < |users| && Matches(users[found.value], q)
    ensures found.Some? ==> forall j :: 0 <= j < found.value ==> !Matches(users[j], q)
    ensures found.None? ==> forall j :: 0 <= j < |users| ==> !Matches(users[j], q)
    decreases |users|
  {
    if |users| == 0 then None
    else if Matches(users[0], q) then Some(0)
    else match FindFirst(users[1..], q)
      case None => None
      case Some(k) => Some(k + 1)
  }

  /** `deleteMany({_id: {$in: ids}})`: the documents that survive. */
  function RemoveIds(users: seq<User>, ids: set<nat>): (kept: seq<User>)
    ensures forall u :: u in kept <==> u in users && u.id !in ids
    ensures |kept| + CountIds(users, ids) == |users|
    decreases |users|
  {
    if |users| == 0 then []
    else
      var rest := RemoveIds(users[1..], ids);
      assert forall u :: u in users <==> u == users[0] || u in users[1..] by {
        assert users == [users[0]] + users[1..];
      }
      if users[0].id in ids then rest else [users[0]] + rest
  }

  /** How many documents have an id in `ids`: the matched count of a bulk filter. */
  function CountIds(users: seq<User>, ids: set<nat>): (n: nat)
    ensures n <= |users|
    ensures n == 0 <==> forall i :: 0 <= i < |users| ==> users[i].id !in ids
    ensures n == |users| <==> forall i :: 0 <= i < |users| ==> users[i].id in ids
    decreases |users|
  {
    if |users| == 0 then 0 else (if users[0].id in ids then 1 else 0) + CountIds(users[1..], ids)
  }

  /** `updateMany({_id: {$in: ids}}, {$set: {role, updatedAt}})`. */
  function SetRoles(users: seq<User>, ids: set<nat>, role: string, now: int): (updated: seq<User>)
    ensures |updated| == |users|
    ensures forall i :: 0 <= i < |users| && users[i].id !in ids ==> updated[i] == users[i]
    ensures forall i :: 0 <= i < |users| && users[i].id in ids ==>
      updated[i].role == role && updated[i].updatedAt == now
      && updated[i].(role := users[i].role, updatedAt := users[i].updatedAt) == users[i]
  {
    seq(|users|, i requires 0 <= i < |users| =>
      if users[i].id in ids then users[i].(role := role, updatedAt := now) else users[i])
  }

  /** The sequence without position `i`: `deleteOne` of the document found there. */
  function RemoveAt(users: seq<User>, i: nat): (rest: seq<User>)
    requires i < |users|
    ensures |rest| == |users| - 1
    ensures forall j :: 0 <= j < i ==> rest[j] == users[j]
    ensures forall j :: i <= j < |rest| ==> rest[j] == users[j + 1]
  {
    users[..i] + users[i + 1..]
  }

  // ---------------------------------------------------------------------
  // Small decisions
  // ---------------------------------------------------------------------

  /** The client address: `x-real-ip`, else `x-forwarded-for`, else `"unknown"`. */
  function ClientIp(realIp: Option<string>, forwardedFor: Option<string>): (ip: string)
    ensures ip != ""
    ensures Truthy(realIp) ==> ip == realIp.value
    ensures !Truthy(realIp) && Truthy(forwardedFor) ==> ip == forwardedFor.value
    ensures !Truthy(realIp) && !Truthy(forwardedFor) ==> ip == "unknown"
  {
    if Truthy(realIp) then realIp.value
    else if Truthy(forwardedFor) then forwardedFor.value
    else "unknown"
  }

  /** A count shown in a response only when it is positive. */
  function Positive(n: int): (shown: Option<int>)
    ensures shown.Some? <==> n > 0
    ensures shown.Some? ==> shown.value == n
  {
    if n > 0 then Some(n) else None
  }

  /** The role stored at registration: `body.role || 'user'`. */
  function RegisteredRole(requested: Option<string>): (role: string)
    ensures role != ""
    ensures requested.Some? && requested.value != "" ==> role == requested.value
    ensures requested.None? || requested.value == "" ==> role == "user"
  {
    if Truthy(requested) then requested.value else "user"
  }

  /** The role guard of the role-change routes. */
  function RoleAccepted(role: Option<string>): (ok: bool)
    ensures ok <==> role == Some("user") || role == Some("admin")
  {
    Truthy(role) && role.value in ["user", "admin"]
  }

  /** The `userIds` guard of the bulk routes: present, an array and not empty. */
  predicate IdsAccepted(field: IdsField) {
    field.Ids? && |field.ids| > 0
  }

  function Public(u: User, withCountry: bool): PublicUser {
    PublicUser(u.id, u.name, u.email, u.role, if withCountry then Some(u.country) else None)
  }

  function PayloadOf(u: User): TokenPayload {
    TokenPayload(u.id, u.email, u.role)
  }

  // ---------------------------------------------------------------------
  // The service
  // ---------------------------------------------------------------------

  class AuthService {
    var users: seq<User>
    var log: seq<LogEntry>
    /** The next id `insertOne` assigns. */
    var nextId: nat
    const tracker: LoginAttemptTracker
    const crypto: Crypto

    /** Ids are below `nextId` and distinct. */
    ghost predicate Valid()
      reads this
    {
      ValidUsers(users, nextId)
    }

    constructor (crypto: Crypto)
      ensures Valid()
      ensures users == [] && log == [] && nextId == 0
      ensures fresh(tracker) && tracker.records == map[]
      ensures this.crypto == crypto
    {
      users := [];
      log := [];
      nextId := 0;
      tracker := new LoginAttemptTracker();
      this.crypto := crypto;
    }

    /** `POST /auth/register`. */
    method Register(name: string, email: string, password: Option<string>, role: Option<string>,
                    country: string, salt: string, now: int) returns (r: Response)
      requires Valid()
      modifies this
      ensures Valid()
      ensures log == old(log)
      ensures FindFirst(old(users), ByEmail(email)).Some? ==>
        r == Response(400, Error("Email already exists")) && users == old(users) && nextId == old(nextId)
      ensures FindFirst(old(users), ByEmail(email)).None? && password.None? ==>
        r == Response(500, Error("Registration failed")) && users == old(users) && nextId == old(nextId)
      ensures FindFirst(old(users), ByEmail(email)).None? && password.Some? && !Evaluate(password.value).isValid ==>
        r == Response(400, WeakPassword(WeakPasswordError, FeedbackTexts(Evaluate(password.value).feedback), None))
        && users == old(users) && nextId == old(nextId)
      ensures FindFirst(old(users), ByEmail(email)).None? && password.Some? && Evaluate(password.value).isValid ==>
        var u := User(old(nextId), name, email, crypto.hashPassword(password.value, salt),
                      RegisteredRole(role), country, None, None, now, now);
        && users == old(users) + [u]
        && nextId == old(nextId) + 1
        && r == Response(201, Registered(crypto.generateToken(PayloadOf(u)), Public(u, false)))
    {
      var existing := FindFirst(users, ByEmail(email));
      if existing.Some? {
        return Response(400, Error("Email already exists"));
      }
      if password.None? {
        return Response(500, Error("Registration failed"));
      }
      var passwordCheck := ValidatePassword(password.value);
      if !passwordCheck.isValid {
        return Response(400, WeakPassword(WeakPasswordError, FeedbackTexts(passwordCheck.feedback), None));
      }
      var hashed := crypto.hashPassword(password.value, salt);
      var newUser := User(nextId, name, email, hashed, RegisteredRole(role), country, None, None, now, now);
      users := users + [newUser];
      nextId := nextId + 1;
      var token := crypto.generateToken(PayloadOf(newUser));
      r := Response(201, Registered(token, Public(newUser, false)));
    }

    /** `POST /auth/login`; the tracker's store behaves as `checkFault` on the check and `writeFault` after it. */
    method Login(email: string, password: string, realIp: Option<string>, forwardedFor: Option<string>,
                 userAgent: Option<string>, now: int, checkFault: Fault, writeFault: Fault) returns (r: Response)
      modifies this, tracker
      ensures users == old(users) && nextId == old(nextId)
      ensures
        var key := AttemptKey(email, ClientIp(realIp, forwardedFor));
        var check := CheckAttempts(old(tracker.records), key, now, checkFault);
        var found := FindFirst(old(users), ByEmail(email));
        && (!check.result.allowed ==>
              r == Response(429, LockedOut(check.result.message))
              && tracker.records == check.table && log == old(log))
        && (check.result.allowed && found.None? ==>
              var failure := RecordFailure(check.table, key, now, writeFault);
              r == Response(401, BadCredentials(InvalidCredentials, Positive(failure.result), None))
              && tracker.records == failure.table && log == old(log))
        && (check.result.allowed && found.Some?
            && !crypto.comparePassword(password, old(users)[found.value].passwordHash) ==>
              var failure := RecordFailure(check.table, key, now, writeFault);
              r == Response(401, BadCredentials(InvalidCredentials, Positive(failure.result), Positive(failure.result)))
              && tracker.records == failure.table && log == old(log))
        && (check.result.allowed && found.Some?
            && crypto.comparePassword(password, old(users)[found.value].passwordHash) ==>
              var u := old(users)[found.value];
              && tracker.records == ClearAttempts(check.table, key, writeFault)
              && log == old(log) + [LogEntry(u.id, u.name, u.email, LoginAction, Some(key.ipAddress),
                                             Some(if Truthy(userAgent) then userAgent.value else "unknown"),
                                             None, None, None, None, None, now)]
              && r == Response(200, LoggedIn(crypto.generateToken(PayloadOf(u)), Public(u, true))))
    {
      var ipAddress := ClientIp(realIp, forwardedFor);
      var attemptCheck := tracker.CheckLoginAttempts(email, ipAddress, now, checkFault);
      if !attemptCheck.allowed {
        return Response(429, LockedOut(attemptCheck.message));
      }
      var found := FindFirst(users, ByEmail(email));
      if found.None? {
        var remaining := tracker.RecordFailedLogin(email, ipAddress, now, writeFault);
        return Response(401, BadCredentials(InvalidCredentials, Positive(remaining), None));
      }
      var user := users[found.value];
      var isValid := crypto.comparePassword(password, user.passwordHash);
      if !isValid {
        var remaining := tracker.RecordFailedLogin(email, ipAddress, now, writeFault);
        return Response(401, BadCredentials(InvalidCredentials, Positive(remaining), Positive(remaining)));
      }
      tracker.ClearLoginAttempts(email, ipAddress, writeFault);
      var token := crypto.generateToken(PayloadOf(user));
      var agent := if Truthy(userAgent) then userAgent.value else "unknown";
      log := log + [LogEntry(user.id, user.name, user.email, LoginAction, Some(ipAddress), Some(agent),
                             None, None, None, None, None, now)];
      r := Response(200, LoggedIn(token, Public(user, true)));
    }

    /** `POST /auth/forgot-password`; `resetToken` is the freshly generated random token. */
    method ForgotPassword(email: string, resetToken: string, now: int) returns (r: Response)
      requires Valid()
      modifies this
      ensures Valid()
      ensures log == old(log) && nextId == old(nextId)
      ensures r.status == 200 && (r.body.Message? || r.body.ResetIssued?) && r.body.message == ForgotMessage
      ensures FindFirst(old(users), ByEmail(email)).None? ==>
        r == Response(200, Message(ForgotMessage)) && users == old(users)
      ensures FindFirst(old(users), ByEmail(email)).Some? ==>
        var i := FindFirst(old(users), ByEmail(email)).value;
        && users == old(users)[i := old(users)[i].(resetPasswordToken := Some(crypto.hashResetToken(resetToken)),
                                                   resetPasswordExpires := Some(now + ResetWindow))]
        && r == Response(200, ResetIssued(ForgotMessage, resetToken, ResetUrlPrefix + resetToken))
    {
      var found := FindFirst(users, ByEmail(email));
      if found.None? {
        return Response(200, Message(ForgotMessage));
      }
      var i := found.value;
      var hashedToken := crypto.hashResetToken(resetToken);
      users := users[i := users[i].(resetPasswordToken := Some(hashedToken), resetPasswordExpires := Some(now + ResetWindow))];
      r := Response(200, ResetIssued(ForgotMessage, resetToken, ResetUrlPrefix + resetToken));
    }

    /** `POST /auth/reset-password`. */
    method ResetPassword(token: string, password: Option<string>, salt: string, now: int) returns (r: Response)
      requires Valid()
      modifies this
      ensures Valid()
      ensures log == old(log) && nextId == old(nextId)
      ensures
        var found := FindFirst(old(users), ByResetToken(crypto.hashResetToken(token), now));
        && (found.None? ==>
              r == Response(400, Error("유효하지 않거나 만료된 토큰입니다.")) && users == old(users))
        && (found.Some? && password.None? ==>
              r == Response(500, Error("비밀번호 재설정에 실패했습니다.")) && users == old(users))
        && (found.Some? && password.Some? && !Evaluate(password.value).isValid ==>
              r == Response(400, WeakPassword(WeakPasswordError, FeedbackTexts(Evaluate(password.value).feedback), None))
              && users == old(users))
        && (found.Some? && password.Some? && Evaluate(password.value).isValid ==>
              r == Response(200, Message("비밀번호가 성공적으로 재설정되었습니다."))
              && users == old(users)[found.value := old(users)[found.value].(
                   passwordHash := crypto.hashPassword(password.value, salt), updatedAt := now,
                   resetPasswordToken := None, resetPasswordExpires := None)])
    {
      var hashedToken := crypto.hashResetToken(token);
      var found := FindFirst(users, ByResetToken(hashedToken, now));
      if found.None? {
        return Response(400, Error("유효하지 않거나 만료된 토큰입니다."));
      }
      if password.None? {
        return Response(500, Error("비밀번호 재설정에 실패했습니다."));
      }
      var passwordCheck := ValidatePassword(password.value);
      if !passwordCheck.isValid {
        return Response(400, WeakPassword(WeakPasswordError, FeedbackTexts(passwordCheck.feedback), None));
      }
      var i := found.value;
      var hashed := crypto.hashPassword(password.value, salt);
      users := users[i := users[i].(passwordHash := hashed, updatedAt := now,
                                    resetPasswordToken := None, resetPasswordExpires := None)];
      r := Response(200, Message("비밀번호가 성공적으로 재설정되었습니다."));
    }

    /** `POST /auth/change-password` for the authenticated `caller`. */
    method ChangePassword(caller: TokenPayload, currentPassword: Option<string>, newPassword: Option<string>,
                          realIp: Option<string>, forwardedFor: Option<string>, salt: string, now: int)
      returns (r: Response)
      requires Valid()
      modifies this
      ensures Valid()
      ensures nextId == old(nextId)
      ensures !Truthy(currentPassword) || !Truthy(newPassword) ==>
        r == Response(400, Error("모든 필드를 입력해주세요")) && users == old(users) && log == old(log)
      ensures Truthy(currentPassword) && Truthy(newPassword) ==>
        var check := Evaluate(newPassword.value);
        var found := FindFirst(old(users), ById(caller.userId));
        && (!check.isValid ==>
              r == Response(400, WeakPassword(WeakPasswordError, FeedbackTexts(check.feedback), Some(check.strength)))
              && users == old(users) && log == old(log))
        && (check.isValid && found.None? ==>
              r == Response(404, Error(UserNotFound)) && users == old(users) && log == old(log))
        && (check.isValid && found.Some?
            && !crypto.comparePassword(currentPassword.value, old(users)[found.value].passwordHash) ==>
              r == Response(401, Error("현재 비밀번호가 일치하지 않습니다")) && users == old(users) && log == old(log))
        && (check.isValid && found.Some?
            && crypto.comparePassword(currentPassword.value, old(users)[found.value].passwordHash) ==>
              var u := old(users)[found.value];
              && users == old(users)[found.value := u.(passwordHash := crypto.hashPassword(newPassword.value, salt), updatedAt := now)]
              && log == old(log) + [LogEntry(caller.userId, u.name, u.email, PasswordChangeAction,
                                             Some(ClientIp(realIp, forwardedFor)), None, None, None, None, None, None, now)]
              && r == Response(200, Message("비밀번호가 변경되었습니다")))
    {
      if !Truthy(currentPassword) || !Truthy(newPassword) {
        return Response(400, Error("모든 필드를 입력해주세요"));
      }
      var passwordCheck := ValidatePassword(newPassword.value);
      if !passwordCheck.isValid {
        return Response(400, WeakPassword(WeakPasswordError, FeedbackTexts(passwordCheck.feedback), Some(passwordCheck.strength)));
      }
      var found := FindFirst(users, ById(caller.userId));
      if found.None? {
        return Response(404, Error(UserNotFound));
      }
      var i := found.value;
      var user := users[i];
      var isValid := crypto.comparePassword(currentPassword.value, user.passwordHash);
      if !isValid {
        return Response(401, Error("현재 비밀번호가 일치하지 않습니다"));
      }
      var hashed := crypto.hashPassword(newPassword.value, salt);
      users := users[i := user.(passwordHash := hashed, updatedAt := now)];
      log := log + [LogEntry(caller.userId, user.name, user.email, PasswordChangeAction,
                             Some(ClientIp(realIp, forwardedFor)), None, None, None, None, None, None, now)];
      r := Response(200, Message("비밀번호가 변경되었습니다"));
    }

    /** `DELETE /auth/delete-account` for the authenticated `caller`. */
    method DeleteAccount(caller: TokenPayload, password: Option<string>) returns (r: Response)
      requires Valid()
      modifies this
      ensures Valid()
      ensures log == old(log) && nextId == old(nextId)
      ensures !Truthy(password) ==> r == Response(400, Error("비밀번호를 입력해주세요")) && users == old(users)
      ensures Truthy(password) ==>
        var found := FindFirst(old(users), ById(caller.userId));
        && (found.None? ==> r == Response(404, Error(UserNotFound)) && users == old(users))
        && (found.Some? && !crypto.comparePassword(password.value, old(users)[found.value].passwordHash) ==>
              r == Response(401, Error("비밀번호가 일치하지 않습니다")) && users == old(users))
        && (found.Some? && crypto.comparePassword(password.value, old(users)[found.value].passwordHash) ==>
              r == Response(200, Message("계정이 삭제되었습니다")) && users == RemoveAt(old(users), found.value))
    {
      if !Truthy(password) {
        return Response(400, Error("비밀번호를 입력해주세요"));
      }
      var found := FindFirst(users, ById(caller.userId));
      if found.None? {
        return Response(404, Error(UserNotFound));
      }
      var isValid := crypto.comparePassword(password.value, users[found.value].passwordHash);
      if !isValid {
        return Response(401, Error("비밀번호가 일치하지 않습니다"));
      }
      RemoveAtKeepsValid(users, nextId, found.value);
      users := RemoveAt(users, found.value);
      r := Response(200, Message("계정이 삭제되었습니다"));
    }

    /** `PUT /users/:id/role`, reached only through the admin guard; `caller` is the admin. */
    method UpdateRole(caller: TokenPayload, id: nat, role: Option<string>, now: int) returns (r: Response)
      requires Valid()
      modifies this
      ensures Valid()
      ensures nextId == old(nextId)
      ensures !RoleAccepted(role) ==>
        r == Response(400, Error(InvalidRoleError)) && users == old(users) && log == old(log)
      ensures RoleAccepted(role) ==>
        var found := FindFirst(old(users), ById(id));
        && (found.None? ==> r == Response(404, Error(UserNotFound)) && users == old(users) && log == old(log))
        && (found.Some? ==>
              var u := old(users)[found.value];
              && users == old(users)[found.value := u.(role := role.value, updatedAt := now)]
              && log == old(log) + [LogEntry(caller.userId, caller.email, caller.email, RoleChangeAction,
                                             None, None, Some(u.id), Some(u.name), Some(role.value), None, None, now)]
              && r == Response(200, RoleChanged(role.value)))
    {
      if !RoleAccepted(role) {
        return Response(400, Error(InvalidRoleError));
      }
      var found := FindFirst(users, ById(id));
      if found.None? {
        return Response(404, Error(UserNotFound));
      }
      var i := found.value;
      users := users[i := users[i].(role := role.value, updatedAt := now)];
      var target := users[i];
      log := log + [LogEntry(caller.userId, caller.email, caller.email, RoleChangeAction,
                             None, None, Some(target.id), Some(target.name), Some(role.value), None, None, now)];
      r := Response(200, RoleChanged(role.value));
    }

    /** `POST /users/bulk-delete`, reached only through the admin guard. */
    method BulkDelete(caller: TokenPayload, userIds: IdsField, now: int) returns (r: Response)
      requires Valid()
      modifies this
      ensures Valid()
      ensures nextId == old(nextId)
      ensures !IdsAccepted(userIds) ==>
        r == Response(400, Error("삭제할 사용자를 선택해주세요")) && users == old(users) && log == old(log)
      ensures IdsAccepted(userIds) ==>
        var ids := set x | x in userIds.ids;
        var deleted := CountIds(old(users), ids);
        && users == RemoveIds(old(users), ids)
        && log == old(log) + [LogEntry(caller.userId, caller.email, caller.email, BulkDeleteAction,
                                       None, None, None, None, None, Some(userIds.ids), Some(deleted), now)]
        && r == Response(200, BulkDeleted(deleted))
    {
      if !IdsAccepted(userIds) {
        return Response(400, Error("삭제할 사용자를 선택해주세요"));
      }
      var ids := set x | x in userIds.ids;
      var deletedCount := CountIds(users, ids);
      RemoveIdsKeepsValid(users, nextId, ids);
      users := RemoveIds(users, ids);
      log := log + [LogEntry(caller.userId, caller.email, caller.email, BulkDeleteAction,
                             None, None, None, None, None, Some(userIds.ids), Some(deletedCount), now)];
      r := Response(200, BulkDeleted(deletedCount));
    }

    /** `POST /users/bulk-role`, reached only through the admin guard. */
    method BulkRole(caller: TokenPayload, userIds: IdsField, role: Option<string>, now: int) returns (r: Response)
      requires Valid()
      modifies this
      ensures Valid()
      ensures nextId == old(nextId)
      ensures !IdsAccepted(userIds) ==>
        r == Response(400, Error("변경할 사용자를 선택해주세요")) && users == old(users) && log == old(log)
      ensures IdsAccepted(userIds) && !RoleAccepted(role) ==>
        r == Response(400, Error(InvalidRoleError)) && users == old(users) && log == old(log)
      ensures IdsAccepted(userIds) && RoleAccepted(role) ==>
        var ids := set x | x in userIds.ids;
        var modified := CountIds(old(users), ids);
        && users == SetRoles(old(users), ids, role.value, now)
        && log == old(log) + [LogEntry(caller.userId, caller.email, caller.email, BulkRoleChangeAction,
                                       None, None, None, None, Some(role.value), Some(userIds.ids), Some(modified), now)]
        && r == Response(200, BulkRoleChanged(modified, role.value))
    {
      if !IdsAccepted(userIds) {
        return Response(400, Error("변경할 사용자를 선택해주세요"));
      }
      if !RoleAccepted(role) {
        return Response(400, Error(InvalidRoleError));
      }
      var ids := set x | x in userIds.ids;
      var modifiedCount := CountIds(users, ids);
      users := SetRoles(users, ids, role.value, now);
      log := log + [LogEntry(caller.userId, caller.email, caller.email, BulkRoleChangeAction,
                             None, None, None, None, Some(role.value), Some(userIds.ids), Some(modifiedCount), now)];
      r := Response(200, BulkRoleChanged(modifiedCount, role.value));
    }
  }

  // ---------------------------------------------------------------------
  // The collection invariant, as a property of sequences
  // ---------------------------------------------------------------------

  /**
   * Ids are below the next id to assign and distinct. Emails are not part of
   * the invariant: the admin routes that create and edit users write an email
   * without looking for another holder of it.
   */
  ghost predicate ValidUsers(users: seq<User>, nextId: nat) {
    && (forall i :: 0 <= i < |users| ==> users[i].id < nextId)
    && (forall i, j :: 0 <= i < j < |users| ==> users[i].id != users[j].id)
  }

  lemma RemoveAtKeepsValid(users: seq<User>, nextId: nat, k: nat)
    requires k < |users| && ValidUsers(users, nextId)
    ensures ValidUsers(RemoveAt(users, k), nextId)
  {
  }

  lemma {:induction false} RemoveIdsKeepsValid(users: seq<User>, nextId: nat, ids: set<nat>)
    requires ValidUsers(users, nextId)
    ensures ValidUsers(RemoveIds(users, ids), nextId)
    decreases |users|
  {
    if |users| > 0 {
      var tail := users[1..];
      assert ValidUsers(tail, nextId) by {
        forall i, j | 0 <= i < j < |tail|
          ensures tail[i].id != tail[j].id
        {
          assert tail[i] == users[i + 1] && tail[j] == users[j + 1];
        }
      }
      RemoveIdsKeepsValid(tail, nextId, ids);
      var rest := RemoveIds(tail, ids);
      if users[0].id !in ids {
        forall v | v in rest
          ensures v.id != users[0].id
        {
          var k :| 0 <= k < |tail| && tail[k] == v;
          assert users[k + 1] == v;
        }
        PrependKeepsValid(users[0], rest, nextId);
      }
    }
  }

  lemma PrependKeepsValid(u: User, rest: seq<User>, nextId: nat)
    requires ValidUsers(rest, nextId) && u.id < nextId
    requires forall v :: v in rest ==> v.id != u.id
    ensures ValidUsers([u] + rest, nextId)
  {
  }

  // ---------------------------------------------------------------------
  // Properties of the collection operations
  // ---------------------------------------------------------------------

  /**
   * Where emails are distinct, as registration alone keeps them, the user
   * `findOne({email})` returns is the only one with that email. A corollary
   * of the contract of `FindFirst`; no handler relies on it, since login
   * acts on whichever user the lookup returns.
   */
  lemma EmailLookupUnique(users: seq<User>, email: string)
    requires forall i, j :: 0 <= i < j < |users| ==> users[i].email != users[j].email
    ensures FindFirst(users, ByEmail(email)).Some? ==>
      forall j :: 0 <= j < |users| && j != FindFirst(users, ByEmail(email)).value ==> users[j].email != email
  {
  }

  /** Deleting the caller's record, found by id, removes exactly the records with that id: that one. */
  lemma DeleteRemovesOnlyCaller(users: seq<User>, nextId: nat, id: nat)
    requires ValidUsers(users, nextId) && FindFirst(users, ById(id)).Some?
    ensures var rest := RemoveAt(users, FindFirst(users, ById(id)).value);
      && |rest| == |users| - 1
      && (forall v :: v in rest <==> v in users && v.id != id)
  {
  }

  /**
   * The reset fields written by forgot-password make the token usable until
   * the expiry passes: a reset query with the same digest before then finds a
   * user (the first one holding that digest), and from the expiry on this user
   * no longer matches. After a successful reset the user matches no reset query.
   */
  lemma ResetTokenLifetime(users: seq<User>, i: nat, digest: string, issued: int, t: int)
    requires i < |users|
    ensures var issuedUsers := users[i := users[i].(resetPasswordToken := Some(digest),
                                                     resetPasswordExpires := Some(issued + ResetWindow))];
      && (t < issued + ResetWindow ==>
            FindFirst(issuedUsers, ByResetToken(digest, t)).Some?
            && FindFirst(issuedUsers, ByResetToken(digest, t)).value <= i)
      && (t >= issued + ResetWindow ==> !Matches(issuedUsers[i], ByResetToken(digest, t)))
    ensures forall d, t' :: !Matches(users[i].(resetPasswordToken := None, resetPasswordExpires := None), ByResetToken(d, t'))
  {
    var issuedUsers := users[i := users[i].(resetPasswordToken := Some(digest),
                                             resetPasswordExpires := Some(issued + ResetWindow))];
    if t < issued + ResetWindow {
      assert Matches(issuedUsers[i], ByResetToken(digest, t));
    }
  }
}
