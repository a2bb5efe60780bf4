/**
  The bot's `ensureUser`: derive the Telegram id, a username and a full name from
  the message sender, and register the user through the users service.
*/
module BotUsers {
  import opened Wrappers
  import opened JsStrings

  /** The sender of a Telegram update; absent strings are `None`. */
  datatype TelegramFrom = TelegramFrom(id: int, username: Option<string>, firstName: Option<string>, lastName: Option<string>)

  /** The arguments of `getOrCreateUser(telegramId, username, fullName)`. */
  datatype UserRequest = UserRequest(telegramId: string, username: string, fullName: Option<string>)

  datatype UserReply = NoTelegramId | RegistrationFailed

  /** The user id returned (`None` for `null`), the reply sent and the service call made. */
  datatype Ensured = Ensured(userId: Option<int>, reply: Option<UserReply>, request: Option<UserRequest>)

  /** `s || fallback` for a possibly absent string: the empty string is falsy. */
  function OrElse(s: Option<string>, fallback: string): string {
    if s.Some? && s.value != [] then s.value else fallback
  }

  /** `from.username || "user_" + from.id`. */
  function DerivedUsername(from: TelegramFrom): string {
    OrElse(from.username, "user_" + IntToString(from.id))
  }

  /** `first_name ? (first_name + " " + (last_name || "")).trim() : undefined`. */
  function DerivedFullName(from: TelegramFrom): Option<string> {
    if from.firstName.Some? && from.firstName.value != [] then
      Some(Trim(from.firstName.value + " " + OrElse(from.lastName, "")))
    else None
  }

  /** `ensureUser`: without a sender the Telegram-ID reply and `null`, with no service
      call; otherwise one `getOrCreateUser` call, whose user id is returned, or, when
      it throws, the registration-error reply and `null`. */
  function EnsureUser(from: Option<TelegramFrom>, getOrCreateUser: UserRequest -> Result<int, string>): (r: Ensured)
    ensures from.None? ==> r == Ensured(None, Some(NoTelegramId), None)
    ensures from.Some? ==>
      && r.request.Some?
      && r.request.value.telegramId == IntToString(from.value.id)
      && ParseInt(r.request.value.telegramId) == Some(from.value.id)
      && r.request.value.username == DerivedUsername(from.value)
      && r.request.value.fullName == DerivedFullName(from.value)
    ensures r.userId.Some? <==> from.Some? && getOrCreateUser(r.request.value).Success?
    ensures r.userId.Some? ==> r.userId.value == getOrCreateUser(r.request.value).value && r.reply.None?
    ensures r.reply == Some(RegistrationFailed) <==> from.Some? && getOrCreateUser(r.request.value).Failure?
  {
    match from
    case None => Ensured(None, Some(NoTelegramId), None)
    case Some(sender) =>
      var telegramId := IntToString(sender.id);
      ParseIntOfIntToString(sender.id, []);
      assert telegramId + [] == telegramId;
      var request := UserRequest(telegramId, DerivedUsername(sender), DerivedFullName(sender));
      match getOrCreateUser(request)
      case Success(userId) => Ensured(Some(userId), None, Some(request))
      case Failure(_) => Ensured(None, Some(RegistrationFailed), Some(request))
  }

  /** The username is the sender's own when it is non-empty, else `user_<id>`; either
      way it is never empty. */
  lemma UsernameDefaults(from: TelegramFrom)
    ensures DerivedUsername(from) != []
    ensures from.username.Some? && from.username.value != [] ==> DerivedUsername(from) == from.username.value
    ensures (from.username.None? || from.username.value == []) ==>
      DerivedUsername(from) == "user_" + IntToString(from.id)
  {
  }

  /** For first and last names without outer white space, the full name is
      `first + " " + last`, or just `first` when the last name is missing or empty. */
  lemma FullNameOfTrimmedParts(from: TelegramFrom)
    requires from.firstName.Some? && from.firstName.value != []
    requires !IsJsSpace(from.firstName.value[0]) && !IsJsSpace(from.firstName.value[|from.firstName.value| - 1])
    requires from.lastName.Some? && from.lastName.value != [] ==>
      !IsJsSpace(from.lastName.value[0]) && !IsJsSpace(from.lastName.value[|from.lastName.value| - 1])
    ensures from.lastName.Some? && from.lastName.value != [] ==>
      DerivedFullName(from) == Some(from.firstName.value + " " + from.lastName.value)
    ensures (from.lastName.None? || from.lastName.value == []) ==>
      DerivedFullName(from) == Some(from.firstName.value)
  {
    var first := from.firstName.value;
    var s := first + " " + OrElse(from.lastName, "");
    assert s[0] == first[0];
    TrimStartOfNonSpace(s);
    if from.lastName.Some? && from.lastName.value != [] {
      assert s[|s| - 1] == from.lastName.value[|from.lastName.value| - 1];
      TrimEndOfNonSpace(s);
    } else {
      assert s == first + " ";
      assert s[..|s| - 1] == first;
      TrimEndOfNonSpace(first);
    }
  }

  lemma TrimEndOfNonSpace(s: string)
    requires s != [] && !IsJsSpace(s[|s| - 1])
    ensures TrimEnd(s) == s
  {
  }

  /** A sender with a name only in `first_name` (the case of a missing username)
      registers as `user_<id>` with that first name as full name. */
  lemma FallbackRegistration(id: int, first: string, getOrCreateUser: UserRequest -> Result<int, string>)
    requires first != [] && !IsJsSpace(first[0]) && !IsJsSpace(first[|first| - 1])
    ensures EnsureUser(Some(TelegramFrom(id, None, Some(first), None)), getOrCreateUser).request
      == Some(UserRequest(IntToString(id), "user_" + IntToString(id), Some(first)))
  {
    FullNameOfTrimmedParts(TelegramFrom(id, None, Some(first), None));
  }
}
