/**
  The api-service gRPC handlers: the per-user poll filter of `GetUserPolls`, the
  find-then-create-or-update of `GetOrCreateUser`, the `GetUserByTelegramId`
  lookup, the shaping of user replies and the status code each handler answers
  a thrown error with. Store access goes through service answers given as
  parameters.
*/
module ApiGrpc {
  import opened Wrappers

  datatype Code = NotFound | Internal

  /** A handler's answer: the reply object, or the error passed to the callback. */
  datatype Answer<T> = Reply(value: T) | RpcError(code: Code, message: string)

  datatype Rpc =
    | CreatePoll | GetPoll | GetUserPolls | GetPollResults
    | GetOrCreateUser | GetUserByTelegramId

  /** The code each handler's `catch` answers with. */
  function FailureCode(rpc: Rpc): (code: Code)
    ensures code == NotFound <==> rpc == GetPoll || rpc == GetPollResults
  {
    match rpc
    case GetPoll => NotFound
    case GetPollResults => NotFound
    case _ => Internal
  }

  /** A handler whose only decision is success or its `catch`: the service value, or
      the thrown error's message under the handler's code. */
  function Respond<T>(rpc: Rpc, result: Result<T, string>): (a: Answer<T>)
    ensures a.Reply? <==> result.Success?
    ensures a.Reply? ==> a.value == result.value
    ensures a.RpcError? ==> a == RpcError(FailureCode(rpc), result.error)
  {
    match result
    case Success(v) => Reply(v)
    case Failure(e) => RpcError(FailureCode(rpc), e)
  }

  // ----- GetUserPolls -----

  datatype PollRow = PollRow(id: int, question: string, createdBy: int)

  /** `polls.filter(p => p.created_by === userId)`. */
  function UserPolls(polls: seq<PollRow>, userId: int): (r: seq<PollRow>)
    ensures |r| <= |polls|
    ensures forall p :: p in r <==> p in polls && p.createdBy == userId
  {
    if polls == [] then []
    else if polls[0].createdBy == userId then [polls[0]] + UserPolls(polls[1..], userId)
    else UserPolls(polls[1..], userId)
  }

  /** The filter keeps the original order: filtering a concatenation concatenates the
      filtered parts. */
  lemma {:induction false} UserPollsOfConcat(a: seq<PollRow>, b: seq<PollRow>, userId: int)
    ensures UserPolls(a + b, userId) == UserPolls(a, userId) + UserPolls(b, userId)
  {
    if a == [] {
      assert a + b == b;
    } else {
      assert (a + b)[0] == a[0];
      assert (a + b)[1..] == a[1..] + b;
      UserPollsOfConcat(a[1..], b, userId);
    }
  }

  /** Filtering twice is filtering once. */
  lemma {:induction false} UserPollsIdempotent(polls: seq<PollRow>, userId: int)
    ensures UserPolls(UserPolls(polls, userId), userId) == UserPolls(polls, userId)
  {
    if polls != [] {
      UserPollsIdempotent(polls[1..], userId);
    }
  }

  /** `GetUserPolls`: the user's polls in their stored order, or INTERNAL. */
  function GetUserPollsRpc(allPolls: Result<seq<PollRow>, string>, userId: int): (a: Answer<seq<PollRow>>)
    ensures allPolls.Failure? ==> a == RpcError(Internal, allPolls.error)
    ensures allPolls.Success? ==> a == Reply(UserPolls(allPolls.value, userId))
    ensures allPolls.Success? ==> a.Reply? && forall p :: p in a.value <==> p in allPolls.value && p.createdBy == userId
  {
    match allPolls
    case Failure(e) => RpcError(FailureCode(GetUserPolls), e)
    case Success(polls) => Reply(UserPolls(polls, userId))
  }

  // ----- users -----

  datatype UserRow = UserRow(id: int, username: string, email: string, fullName: Option<string>, telegramId: Option<string>)

  /** The request of `GetOrCreateUser`; unset string fields arrive as "". */
  datatype UserRequest = UserRequest(telegramId: string, username: string, fullName: string)

  datatype NewUser = NewUser(username: string, email: string, fullName: Option<string>, telegramId: string)

  /** The `UpdateUserDto` handed to `updateUser`; `None` is a field left out or null. */
  datatype UpdateDto = UpdateDto(username: string, email: Option<string>, fullName: Option<string>, telegramId: Option<string>)

  datatype UserWrite = CreateWrite(user: NewUser) | UpdateWrite(id: int, update: UpdateDto)

  /** The user object of a reply; nullable fields are rendered as "". */
  datatype UserReply = UserReply(id: int, username: string, email: string, fullName: string, telegramId: string)

  /** `s || null`. */
  function NullIfEmpty(s: string): (r: Option<string>)
    ensures r.None? <==> s == []
    ensures r.Some? ==> r.value == s
  {
    if s == [] then None else Some(s)
  }

  /** `x || ''` on a nullable string. */
  function OrEmpty(x: Option<string>): (s: string)
    ensures x.None? ==> s == []
    ensures x.Some? ==> s == x.value
  {
    if x.Some? then x.value else ""
  }

  function RenderUser(u: UserRow): (r: UserReply)
    ensures r.id == u.id && r.username == u.username && r.email == u.email
    ensures NullIfEmpty(r.fullName) == (if u.fullName == Some("") then None else u.fullName)
    ensures NullIfEmpty(r.telegramId) == (if u.telegramId == Some("") then None else u.telegramId)
  {
    UserReply(u.id, u.username, u.email, OrEmpty(u.fullName), OrEmpty(u.telegramId))
  }

  /** `users.find(u => u.telegram_id === telegramId)`, as the index of the first match. */
  function FindByTelegramId(users: seq<UserRow>, telegramId: string): (r: Option<nat>)
    ensures r.Some? ==> r.value < |users| && users[r.value].telegramId == Some(telegramId)
    ensures r.Some? ==> forall j :: 0 <= j < r.value ==> users[j].telegramId != Some(telegramId)
    ensures r.None? ==> forall j :: 0 <= j < |users| ==> users[j].telegramId != Some(telegramId)
  {
    if users == [] then None
    else if users[0].telegramId == Some(telegramId) then Some(0)
    else
      match FindByTelegramId(users[1..], telegramId)
      case None => None
      case Some(i) => Some(i + 1)
  }

  /** The users service as `GetOrCreateUser` sees it. */
  datatype UsersService = UsersService(
    getAllUsers: Result<seq<UserRow>, string>,
    createUser: NewUser -> Result<UserRow, string>,
    updateUser: (int, UpdateDto) -> Result<UserRow, string>)

  datatype Upsert = Upsert(writes: seq<UserWrite>, answer: Answer<UserReply>)

  const RequiredMessage := "Username and email are required"

  /** `usersRepository.update` of the stored row `u`: a DTO without a username or an
      email is rejected; otherwise all four columns are overwritten, and an absent or
      empty `full_name` or `telegram_id` becomes null. */
  function RepositoryUpdate(u: UserRow, dto: UpdateDto): (r: Result<UserRow, string>)
    ensures r.Failure? <==> dto.username == [] || dto.email.GetOr([]) == []
    ensures r.Failure? ==> r.error == RequiredMessage
    ensures r.Success? ==>
      && r.value.id == u.id && r.value.username == dto.username && r.value.email == dto.email.value
      && r.value.fullName == NullIfEmpty(dto.fullName.GetOr([]))
      && r.value.telegramId == NullIfEmpty(dto.telegramId.GetOr([]))
  {
    if dto.username == [] || dto.email.GetOr([]) == [] then Failure(RequiredMessage)
    else Success(UserRow(u.id, dto.username, dto.email.value, NullIfEmpty(dto.fullName.GetOr([])),
                         NullIfEmpty(dto.telegramId.GetOr([]))))
  }

  /** The comparison the handler makes before updating: `username !== user.username ||
      full_name !== user.full_name`, with the request's raw `full_name`. */
  predicate NeedsUpdateAsWritten(u: UserRow, req: UserRequest) {
    req.username != u.username || u.fullName != Some(req.fullName)
  }

  /** The update the handler passes: `{username, full_name: full_name || null}`, with
      neither the email nor the Telegram id. */
  function UpdateAsWritten(req: UserRequest): UpdateDto {
    UpdateDto(req.username, None, NullIfEmpty(req.fullName), None)
  }

  /** The comparison against the value the update would store, `full_name || null`. */
  predicate NeedsUpdate(u: UserRow, req: UserRequest) {
    req.username != u.username || u.fullName != NullIfEmpty(req.fullName)
  }

  /** An update that also carries the stored email and Telegram id, as the repository
      requires. */
  function UpdateCorrected(u: UserRow, req: UserRequest): UpdateDto {
    UpdateDto(req.username, Some(u.email), NullIfEmpty(req.fullName), u.telegramId)
  }

  /** The row an update of username and `full_name || null` leaves. */
  function Updated(u: UserRow, req: UserRequest): UserRow {
    u.(username := req.username, fullName := NullIfEmpty(req.fullName))
  }

  /** The row a create with the request's values stores. */
  function Created(id: int, req: UserRequest): UserRow {
    UserRow(id, req.username, req.telegramId + "@telegram.local", NullIfEmpty(req.fullName), NullIfEmpty(req.telegramId))
  }

  function NewUserOf(req: UserRequest): NewUser {
    NewUser(req.username, req.telegramId + "@telegram.local", NullIfEmpty(req.fullName), req.telegramId)
  }

  function MapReply(written: Result<UserRow, string>): (a: Answer<UserReply>)
    ensures a.RpcError? ==> a.code == Internal
  {
    match written
    case Success(u) => Reply(RenderUser(u))
    case Failure(e) => RpcError(FailureCode(GetOrCreateUser), e)
  }

  /** The branch after the lookup: one update of the found user when `needsUpdate`,
      else that user as found. */
  function WriteOrKeep(svc: UsersService, u: UserRow, needsUpdate: bool, dto: UpdateDto): Upsert {
    if needsUpdate then Upsert([UpdateWrite(u.id, dto)], MapReply(svc.updateUser(u.id, dto)))
    else Upsert([], Reply(RenderUser(u)))
  }

  /** `GetOrCreateUser` as written: the first user with the request's Telegram id is
      updated when its username or full name differs from the raw request and answered
      as found otherwise; with no such user one is created with email
      `<telegram_id>@telegram.local`. Every thrown error is answered INTERNAL. */
  function GetOrCreateUserRpc(svc: UsersService, req: UserRequest): (r: Upsert)
    ensures svc.getAllUsers.Failure? ==> r == Upsert([], RpcError(Internal, svc.getAllUsers.error))
    ensures svc.getAllUsers.Success? && FindByTelegramId(svc.getAllUsers.value, req.telegramId).None? ==>
      var created := NewUser(req.username, req.telegramId + "@telegram.local", NullIfEmpty(req.fullName), req.telegramId);
      && r.writes == [CreateWrite(created)]
      && r.answer == (match svc.createUser(created)
                      case Success(row) => Reply(RenderUser(row))
                      case Failure(e) => RpcError(Internal, e))
    ensures svc.getAllUsers.Success? && FindByTelegramId(svc.getAllUsers.value, req.telegramId).Some? ==>
      var u := svc.getAllUsers.value[FindByTelegramId(svc.getAllUsers.value, req.telegramId).value];
      var update := UpdateDto(req.username, None, NullIfEmpty(req.fullName), None);
      && (NeedsUpdateAsWritten(u, req) ==>
            && r.writes == [UpdateWrite(u.id, update)]
            && r.answer == (match svc.updateUser(u.id, update)
                            case Success(row) => Reply(RenderUser(row))
                            case Failure(e) => RpcError(Internal, e)))
      && (!NeedsUpdateAsWritten(u, req) ==> r == Upsert([], Reply(RenderUser(u))))
    ensures |r.writes| <= 1
    ensures r.answer.RpcError? ==> r.answer.code == Internal
  {
    match svc.getAllUsers
    case Failure(e) => Upsert([], RpcError(FailureCode(GetOrCreateUser), e))
    case Success(users) =>
      match FindByTelegramId(users, req.telegramId)
      case None => Upsert([CreateWrite(NewUserOf(req))], MapReply(svc.createUser(NewUserOf(req))))
      case Some(i) => WriteOrKeep(svc, users[i], NeedsUpdateAsWritten(users[i], req), UpdateAsWritten(req))
  }

  /** `GetOrCreateUser` with both defects of the update branch corrected: it compares
      against the value the update stores and hands the update the stored email and
      Telegram id. The lookup and the create branch are the program's. */
  function GetOrCreateUserRpcCorrected(svc: UsersService, req: UserRequest): (r: Upsert)
    ensures svc.getAllUsers.Failure? ==> r == Upsert([], RpcError(Internal, svc.getAllUsers.error))
    ensures svc.getAllUsers.Success? && FindByTelegramId(svc.getAllUsers.value, req.telegramId).None? ==>
      r == GetOrCreateUserRpc(svc, req)
    ensures svc.getAllUsers.Success? && FindByTelegramId(svc.getAllUsers.value, req.telegramId).Some? ==>
      var u := svc.getAllUsers.value[FindByTelegramId(svc.getAllUsers.value, req.telegramId).value];
      var update := UpdateDto(req.username, Some(u.email), NullIfEmpty(req.fullName), u.telegramId);
      && (NeedsUpdate(u, req) ==>
            && r.writes == [UpdateWrite(u.id, update)]
            && r.answer == (match svc.updateUser(u.id, update)
                            case Success(row) => Reply(RenderUser(row))
                            case Failure(e) => RpcError(Internal, e)))
      && (!NeedsUpdate(u, req) ==> r == Upsert([], Reply(RenderUser(u))))
    ensures |r.writes| <= 1
  {
    match svc.getAllUsers
    case Failure(e) => Upsert([], RpcError(FailureCode(GetOrCreateUser), e))
    case Success(users) =>
      match FindByTelegramId(users, req.telegramId)
      case None => Upsert([CreateWrite(NewUserOf(req))], MapReply(svc.createUser(NewUserOf(req))))
      case Some(i) => WriteOrKeep(svc, users[i], NeedsUpdate(users[i], req), UpdateCorrected(users[i], req))
  }

  /** As written, a stored user without a full name whose request carries none (the
      request's `full_name` is then "", which differs from null) is sent to
      `updateUser` on every call, including right after the call that created it. */
  lemma AsWrittenRepeatsUpdate(svc: UsersService, req: UserRequest)
    requires svc.getAllUsers.Success?
    requires FindByTelegramId(svc.getAllUsers.value, req.telegramId).Some?
    requires svc.getAllUsers.value[FindByTelegramId(svc.getAllUsers.value, req.telegramId).value].fullName.None?
    requires req.fullName == []
    ensures var u := svc.getAllUsers.value[FindByTelegramId(svc.getAllUsers.value, req.telegramId).value];
      GetOrCreateUserRpc(svc, req).writes == [UpdateWrite(u.id, UpdateDto(req.username, None, None, None))]
  {
  }

  /** As written, every update the handler asks for is rejected by the repository,
      because its DTO carries no email: the call answers INTERNAL "Username and email
      are required" and nothing is stored. */
  lemma AsWrittenUpdateRejected(svc: UsersService, req: UserRequest)
    requires svc.getAllUsers.Success?
    requires FindByTelegramId(svc.getAllUsers.value, req.telegramId).Some?
    requires var u := svc.getAllUsers.value[FindByTelegramId(svc.getAllUsers.value, req.telegramId).value];
      NeedsUpdateAsWritten(u, req) && svc.updateUser(u.id, UpdateAsWritten(req)) == RepositoryUpdate(u, UpdateAsWritten(req))
    ensures GetOrCreateUserRpc(svc, req).answer == RpcError(Internal, RequiredMessage)
  {
  }

  /** With the corrected comparison, an update is asked for exactly when it would change
      the stored row, and once applied (or after a create) the same request asks for
      no further write. */
  lemma NeedsUpdateIffChange(u: UserRow, req: UserRequest, id: int)
    ensures NeedsUpdate(u, req) <==> Updated(u, req) != u
    ensures !NeedsUpdate(Updated(u, req), req)
    ensures !NeedsUpdate(Created(id, req), req)
  {
    if NeedsUpdate(u, req) {
      assert Updated(u, req).username != u.username || Updated(u, req).fullName != u.fullName;
    }
  }

  /** With the corrected update, the repository accepts it whenever the request has a
      username and the stored user an email, and the reply is the updated user with
      its email and Telegram id kept. */
  lemma CorrectedUpdateStores(svc: UsersService, req: UserRequest)
    requires svc.getAllUsers.Success?
    requires FindByTelegramId(svc.getAllUsers.value, req.telegramId).Some?
    requires var u := svc.getAllUsers.value[FindByTelegramId(svc.getAllUsers.value, req.telegramId).value];
      NeedsUpdate(u, req) && svc.updateUser(u.id, UpdateCorrected(u, req)) == RepositoryUpdate(u, UpdateCorrected(u, req))
    requires req.username != []
    ensures var u := svc.getAllUsers.value[FindByTelegramId(svc.getAllUsers.value, req.telegramId).value];
      GetOrCreateUserRpcCorrected(svc, req).answer ==
        if u.email == [] then RpcError(Internal, RequiredMessage) else Reply(RenderUser(Updated(u, req)))
  {
    var u := svc.getAllUsers.value[FindByTelegramId(svc.getAllUsers.value, req.telegramId).value];
    var stored := RepositoryUpdate(u, UpdateCorrected(u, req));
    if u.email != [] {
      assert stored.value.fullName == NullIfEmpty(req.fullName);
      assert OrEmpty(stored.value.telegramId) == OrEmpty(u.telegramId);
      assert RenderUser(stored.value) == RenderUser(Updated(u, req));
    }
  }

  /** A repeated corrected `GetOrCreateUser` with the same request, against a store
      whose first matching user is what an earlier call created or updated, writes
      nothing and answers that user. */
  lemma GetOrCreateUserSettles(svc: UsersService, req: UserRequest, earlier: UserRow, id: int)
    requires svc.getAllUsers.Success?
    requires FindByTelegramId(svc.getAllUsers.value, req.telegramId).Some?
    requires var u := svc.getAllUsers.value[FindByTelegramId(svc.getAllUsers.value, req.telegramId).value];
      || u == Updated(earlier, req)
      || u == Created(id, req)
      || RepositoryUpdate(earlier, UpdateCorrected(earlier, req)) == Success(u)
    ensures var u := svc.getAllUsers.value[FindByTelegramId(svc.getAllUsers.value, req.telegramId).value];
      GetOrCreateUserRpcCorrected(svc, req) == Upsert([], Reply(RenderUser(u)))
  {
    NeedsUpdateIffChange(earlier, req, id);
  }

  /** `GetUserByTelegramId`: NOT_FOUND "User not found" when no user has the id, the
      first such user otherwise, INTERNAL when listing the users throws. */
  function GetUserByTelegramIdRpc(allUsers: Result<seq<UserRow>, string>, telegramId: string): (a: Answer<UserReply>)
    ensures allUsers.Failure? ==> a == RpcError(Internal, allUsers.error)
    ensures a == RpcError(NotFound, "User not found") <==>
      allUsers.Success? && forall j :: 0 <= j < |allUsers.value| ==> allUsers.value[j].telegramId != Some(telegramId)
    ensures a.Reply? ==>
      && allUsers.Success? && FindByTelegramId(allUsers.value, telegramId).Some?
      && a.value == RenderUser(allUsers.value[FindByTelegramId(allUsers.value, telegramId).value])
  {
    match allUsers
    case Failure(e) => RpcError(FailureCode(GetUserByTelegramId), e)
    case Success(users) =>
      match FindByTelegramId(users, telegramId)
      case None => RpcError(NotFound, "User not found")
      case Some(i) => Reply(RenderUser(users[i]))
  }
}
