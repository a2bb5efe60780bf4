/**
  The Telegram bot's poll commands: `/createpoll "…"`, `/addoption <id> "…"`,
  `/finish <id>`, the `/mypolls` listing and the single-poll view. Each handler
  matches its command text, runs its checks in a fixed order and ends with one
  reply; a service call that throws is caught and answered with the handler's
  error reply. The polls service is a parameter: each of its operations maps its
  arguments to a value or a thrown error.
*/
module BotPolls {
  import opened Wrappers
  import opened JsStrings

  datatype BotPoll = BotPoll(id: int, question: string, createdBy: int)
  datatype BotOption = BotOption(id: int, text: string)
  datatype ResultOption = ResultOption(text: string, voteCount: int)
  datatype BotResults = BotResults(options: seq<ResultOption>, totalVotes: int)

  /** The polls service as the handlers see it; a `Failure` is a thrown error. */
  datatype PollsService = PollsService(
    createPoll: (string, int) -> Result<int, string>,
    getPoll: int -> Result<Option<BotPoll>, string>,
    getPollOptions: int -> Result<seq<BotOption>, string>,
    addPollOption: (int, string) -> Result<BotOption, string>,
    getUserPolls: int -> Result<seq<BotPoll>, string>,
    getPollResults: int -> Result<Option<BotResults>, string>)

  /** A call a handler makes to the polls service. */
  datatype Call =
    | CreatePollCall(question: string, userId: int)
    | GetPollCall(pollId: int)
    | GetOptionsCall(pollId: int)
    | AddOptionCall(pollId: int, text: string)
    | GetUserPollsCall(userId: int)
    | GetResultsCall(pollId: int)

  /** The one reply a handler sends, with the values its text interpolates. */
  datatype BotReply =
    | CreateUsage
    | QuestionTooShort
    | QuestionTooLong
    | PollCreated(pollId: int, question: string)
    | CreateFailed
    | AddUsage
    | PollNotFound(pollId: int)
    | NotOwnerOfOptions
    | OptionLengthInvalid
    | TooManyOptions
    | OptionAdded(text: string, count: nat, pollId: int)
    | AddFailed
    | FinishUsage
    | NotOwnerOfFinish
    | NoOptionsYet(pollId: int)
    | PollReady(question: string, optionCount: nat, pollUrl: string)
    | FinishFailed
    | NoPolls
    | PollList(message: string)
    | ListFailed
    | PollMissing(pollId: int)
    | PollDetails(pollId: int, question: string, options: seq<ResultOption>, totalVotes: int, pollUrl: string)
    | PollWithoutOptions(pollId: int, question: string, addOptionPollId: int)
    | GetFailed

  datatype Outcome = Outcome(calls: seq<Call>, reply: BotReply)

  const MaxOptions := 10

  predicate NoLineTerminator(s: string) {
    forall i :: 0 <= i < |s| ==> !IsLineTerminator(s[i])
  }

  // ----- command matching -----

  /** `"(.+)"$` at the start of `s`: the text between the opening quote and the
      final character, which must be a quote; `.` excludes line terminators. */
  function MatchQuoted(s: string): Option<string> {
    if |s| >= 3 && s[0] == '"' && s[|s| - 1] == '"' && NoLineTerminator(s[1..|s| - 1])
    then Some(s[1..|s| - 1])
    else None
  }

  /** `\s+"(.+)"$`: one or more white-space characters, then a quoted text running to
      the end of the input. */
  function MatchSpacedQuoted(rest: string): Option<string> {
    var afterSpace := TrimStart(rest);
    if |afterSpace| < |rest| then MatchQuoted(afterSpace) else None
  }

  /** `\s+(\d+)` followed by `tail`: the digits and what follows them. */
  function MatchSpacedDigits(rest: string): Option<(string, string)> {
    var afterSpace := TrimStart(rest);
    var digits := LeadingDigits(afterSpace);
    if |afterSpace| < |rest| && digits != [] then Some((digits, afterSpace[|digits|..])) else None
  }

  /** What follows the command word `command` at the start of `text`. */
  function AfterCommand(text: string, command: string): (r: Option<string>)
    ensures r.Some? ==> text == command + r.value
  {
    if StartsWith(text, command) then Some(text[|command|..]) else None
  }

  lemma {:induction false} AfterCommandOf(command: string, rest: string)
    ensures AfterCommand(command + rest, command) == Some(rest)
  {
    assert (command + rest)[..|command|] == command;
    assert (command + rest)[|command|..] == rest;
  }

  /** `^\/createpoll\s+"(.+)"$`: the captured question. */
  function MatchCreatePoll(text: string): Option<string> {
    match AfterCommand(text, "/createpoll")
    case None => None
    case Some(rest) => MatchSpacedQuoted(rest)
  }

  /** `^\/addoption\s+(\d+)\s+"(.+)"$`: the captured poll id digits and option text. */
  function MatchAddOption(text: string): Option<(string, string)> {
    match AfterCommand(text, "/addoption")
    case None => None
    case Some(rest) =>
      match MatchSpacedDigits(rest)
      case None => None
      case Some((digits, tail)) =>
        match MatchSpacedQuoted(tail)
        case None => None
        case Some(optionText) => Some((digits, optionText))
  }

  /** `^\/finish\s+(\d+)$`: the captured poll id digits. */
  function MatchFinish(text: string): Option<string> {
    match AfterCommand(text, "/finish")
    case None => None
    case Some(rest) =>
      match MatchSpacedDigits(rest)
      case None => None
      case Some((digits, tail)) => if tail == [] then Some(digits) else None
  }

  /** The quoted-text matcher accepts exactly the inputs made of white space, a quote,
      a non-empty line without line terminators and a closing quote. */
  lemma {:induction false} MatchSpacedQuotedComplete(w: string, x: string)
    requires w != [] && AllSpaces(w)
    requires x != [] && NoLineTerminator(x)
    ensures MatchSpacedQuoted(w + ['"'] + x + ['"']) == Some(x)
  {
    var q := ['"'] + x + ['"'];
    assert q[0] == '"' && !IsJsSpace(q[0]);
    assert q[1..|q| - 1] == x;
    assert MatchQuoted(q) == Some(x);
    assert w + ['"'] + x + ['"'] == w + q;
    TrimStartOfSpacesThen(w, q);
  }

  lemma {:induction false} MatchSpacedQuotedSound(rest: string)
    requires MatchSpacedQuoted(rest).Some?
    ensures var x := MatchSpacedQuoted(rest).value;
      var w := rest[..|rest| - |x| - 2];
      && w != [] && AllSpaces(w) && x != [] && NoLineTerminator(x)
      && rest == w + ['"'] + x + ['"']
  {
    var t := TrimStart(rest);
    var x := t[1..|t| - 1];
    assert t == ['"'] + x + ['"'];
    assert rest == rest[..|rest| - |t|] + t;
  }

  /** The poll id of `/addoption` and `/finish` is `parseInt` of its digits. */
  function CommandPollId(digits: string): (id: int)
    requires digits != [] && AllDigits(digits)
    ensures ParseInt(digits) == Some(id) && id >= 0
  {
    ParseIntOfDigits(digits);
    DigitsValue(digits)
  }

  lemma {:induction false} MatchSpacedDigitsOf(w: string, d: string, tail: string)
    requires w != [] && AllSpaces(w)
    requires d != [] && AllDigits(d)
    requires tail == [] || !IsDigit(tail[0])
    ensures MatchSpacedDigits(w + (d + tail)) == Some((d, tail))
  {
    DigitIsNotSpace(d[0]);
    assert (d + tail)[0] == d[0];
    TrimStartOfSpacesThen(w, d + tail);
    LeadingDigitsOfDigitsThenOther(d, tail);
    assert (d + tail)[|d|..] == tail;
  }

  lemma MatchAddOptionComplete(w1: string, d: string, w2: string, x: string)
    requires w1 != [] && AllSpaces(w1) && w2 != [] && AllSpaces(w2)
    requires d != [] && AllDigits(d)
    requires x != [] && NoLineTerminator(x)
    ensures MatchAddOption("/addoption" + w1 + d + w2 + ['"'] + x + ['"']) == Some((d, x))
  {
    var tail := w2 + ['"'] + x + ['"'];
    assert "/addoption" + w1 + d + w2 + ['"'] + x + ['"'] == "/addoption" + (w1 + (d + tail));
    AfterCommandOf("/addoption", w1 + (d + tail));
    DigitIsNotSpace(w2[0]);
    MatchSpacedDigitsOf(w1, d, tail);
    MatchSpacedQuotedComplete(w2, x);
  }

  lemma MatchFinishComplete(w: string, d: string)
    requires w != [] && AllSpaces(w)
    requires d != [] && AllDigits(d)
    ensures MatchFinish("/finish" + w + d) == Some(d)
  {
    assert "/finish" + w + d == "/finish" + (w + (d + []));
    AfterCommandOf("/finish", w + (d + []));
    MatchSpacedDigitsOf(w, d, []);
  }

  lemma DigitIsNotSpace(c: char)
    ensures IsDigit(c) ==> !IsJsSpace(c)
  {
  }

  // ----- handlers -----

  /** `handleCreatePoll`: usage when the text does not match; then the trimmed question
      must be at least 3 and at most 500 UTF-16 units long, checked in that order;
      only then is `createPoll(question, userId)` called, once. */
  function HandleCreatePoll(svc: PollsService, text: string, userId: int): (o: Outcome)
    ensures MatchCreatePoll(text).None? ==> o == Outcome([], CreateUsage)
    ensures MatchCreatePoll(text).Some? && Utf16Length(Trim(MatchCreatePoll(text).value)) < 3 ==>
      o == Outcome([], QuestionTooShort)
    ensures MatchCreatePoll(text).Some? && Utf16Length(Trim(MatchCreatePoll(text).value)) > 500 ==>
      o == Outcome([], QuestionTooLong)
    ensures o.calls != [] <==>
      MatchCreatePoll(text).Some? && 3 <= Utf16Length(Trim(MatchCreatePoll(text).value)) <= 500
    ensures o.calls != [] ==>
      var question := Trim(MatchCreatePoll(text).value);
      && o.calls == [CreatePollCall(question, userId)]
      && o.reply == (match svc.createPoll(question, userId)
                     case Success(id) => PollCreated(id, question)
                     case Failure(_) => CreateFailed)
  {
    match MatchCreatePoll(text)
    case None => Outcome([], CreateUsage)
    case Some(captured) =>
      var question := Trim(captured);
      if Utf16Length(question) < 3 then Outcome([], QuestionTooShort)
      else if Utf16Length(question) > 500 then Outcome([], QuestionTooLong)
      else
        var calls := [CreatePollCall(question, userId)];
        match svc.createPoll(question, userId)
        case Success(pollId) => Outcome(calls, PollCreated(pollId, question))
        case Failure(_) => Outcome(calls, CreateFailed)
  }

  /** The poll exists and was created by `userId`. */
  predicate OwnedBy(svc: PollsService, pollId: int, userId: int) {
    svc.getPoll(pollId).Success? && svc.getPoll(pollId).value.Some?
    && svc.getPoll(pollId).value.value.createdBy == userId
  }

  predicate ValidOptionText(optionText: string) {
    1 <= Utf16Length(optionText) <= 200
  }

  /** `handleAddOption`: usage when the text does not match, else the checks on the
      parsed poll id and the trimmed option text. */
  function HandleAddOption(svc: PollsService, text: string, userId: int): (o: Outcome)
    ensures MatchAddOption(text).None? ==> o == Outcome([], AddUsage)
    ensures MatchAddOption(text).Some? ==>
      var (digits, captured) := MatchAddOption(text).value;
      o == AddOptionChecks(svc, CommandPollId(digits), Trim(captured), userId)
  {
    match MatchAddOption(text)
    case None => Outcome([], AddUsage)
    case Some((digits, captured)) => AddOptionChecks(svc, CommandPollId(digits), Trim(captured), userId)
  }

  /** The checks of `handleAddOption` after the format: the poll exists, belongs to the
      user, the option text has 1..200 UTF-16 units, the poll has fewer than 10
      options. Each rejection holds exactly when every earlier check passed and its
      own failed, and the option is added exactly when all pass. */
  function AddOptionChecks(svc: PollsService, pollId: int, optionText: string, userId: int): (o: Outcome)
    ensures o.reply == PollNotFound(pollId) <==> svc.getPoll(pollId) == Success(None)
    ensures o.reply == NotOwnerOfOptions <==>
      svc.getPoll(pollId).Success? && svc.getPoll(pollId).value.Some?
      && svc.getPoll(pollId).value.value.createdBy != userId
    ensures o.reply == OptionLengthInvalid <==> OwnedBy(svc, pollId, userId) && !ValidOptionText(optionText)
    ensures o.reply == TooManyOptions <==>
      OwnedBy(svc, pollId, userId) && ValidOptionText(optionText)
      && svc.getPollOptions(pollId).Success? && |svc.getPollOptions(pollId).value| >= MaxOptions
    ensures |o.calls| == 3 <==>
      OwnedBy(svc, pollId, userId) && ValidOptionText(optionText)
      && svc.getPollOptions(pollId).Success? && |svc.getPollOptions(pollId).value| < MaxOptions
    ensures |o.calls| == 3 ==> o.calls[2] == AddOptionCall(pollId, optionText)
    ensures o.reply == AddFailed <==>
      || svc.getPoll(pollId).Failure?
      || (&& OwnedBy(svc, pollId, userId) && ValidOptionText(optionText)
          && (|| svc.getPollOptions(pollId).Failure?
              || (|svc.getPollOptions(pollId).value| < MaxOptions && svc.addPollOption(pollId, optionText).Failure?)))
    ensures forall i :: 0 <= i < |o.calls| - 1 ==> !o.calls[i].AddOptionCall?
    ensures |o.calls| != 3 ==> forall c :: c in o.calls ==> !c.AddOptionCall?
    ensures |o.calls| == 3 && svc.addPollOption(pollId, optionText).Success? ==>
      o.reply == OptionAdded(optionText, |svc.getPollOptions(pollId).value| + 1, pollId)
    ensures o.reply.OptionAdded? ==>
      svc.getPollOptions(pollId).Success? &&
      o.reply == OptionAdded(optionText, |svc.getPollOptions(pollId).value| + 1, pollId)
      && svc.addPollOption(pollId, optionText).Success?
  {
    var c1 := [GetPollCall(pollId)];
    match svc.getPoll(pollId)
    case Failure(_) => Outcome(c1, AddFailed)
    case Success(None) => Outcome(c1, PollNotFound(pollId))
    case Success(Some(poll)) =>
      if poll.createdBy != userId then Outcome(c1, NotOwnerOfOptions)
      else if Utf16Length(optionText) < 1 || Utf16Length(optionText) > 200 then Outcome(c1, OptionLengthInvalid)
      else
        var c2 := c1 + [GetOptionsCall(pollId)];
        match svc.getPollOptions(pollId)
        case Failure(_) => Outcome(c2, AddFailed)
        case Success(options) =>
          if |options| >= MaxOptions then Outcome(c2, TooManyOptions)
          else
            var c3 := c2 + [AddOptionCall(pollId, optionText)];
            match svc.addPollOption(pollId, optionText)
            case Failure(_) => Outcome(c3, AddFailed)
            case Success(_) => Outcome(c3, OptionAdded(optionText, |options| + 1, pollId))
  }

  /** `FRONTEND_URL/poll/<id>/vote`. */
  function PollUrl(frontendUrl: string, pollId: int): string {
    frontendUrl + "/poll/" + IntToString(pollId) + "/vote"
  }

  /** `handleFinishPoll`: usage when the text does not match, else the checks on the
      parsed poll id. */
  function HandleFinishPoll(svc: PollsService, frontendUrl: string, text: string, userId: int): (o: Outcome)
    ensures MatchFinish(text).None? ==> o == Outcome([], FinishUsage)
    ensures MatchFinish(text).Some? ==>
      o == FinishChecks(svc, frontendUrl, CommandPollId(MatchFinish(text).value), userId)
  {
    match MatchFinish(text)
    case None => Outcome([], FinishUsage)
    case Some(digits) => FinishChecks(svc, frontendUrl, CommandPollId(digits), userId)
  }

  /** The checks of `handleFinishPoll` after the format: the poll exists, belongs to the
      user and has at least one option; only then the ready reply with the question,
      the option count and the vote link. Nothing is written. */
  function FinishChecks(svc: PollsService, frontendUrl: string, pollId: int, userId: int): (o: Outcome)
    ensures o.reply == PollNotFound(pollId) <==> svc.getPoll(pollId) == Success(None)
    ensures o.reply == NotOwnerOfFinish <==>
      svc.getPoll(pollId).Success? && svc.getPoll(pollId).value.Some?
      && svc.getPoll(pollId).value.value.createdBy != userId
    ensures o.reply == NoOptionsYet(pollId) <==>
      OwnedBy(svc, pollId, userId) && svc.getPollOptions(pollId) == Success([])
    ensures o.reply.PollReady? <==>
      OwnedBy(svc, pollId, userId) && svc.getPollOptions(pollId).Success? && |svc.getPollOptions(pollId).value| > 0
    ensures o.reply.PollReady? ==>
      var poll := svc.getPoll(pollId).value.value;
      o.reply == PollReady(poll.question, |svc.getPollOptions(pollId).value|, PollUrl(frontendUrl, poll.id))
    ensures o.reply == FinishFailed <==>
      svc.getPoll(pollId).Failure? || (OwnedBy(svc, pollId, userId) && svc.getPollOptions(pollId).Failure?)
    ensures forall c :: c in o.calls ==> c == GetPollCall(pollId) || c == GetOptionsCall(pollId)
  {
    var c1 := [GetPollCall(pollId)];
    match svc.getPoll(pollId)
    case Failure(_) => Outcome(c1, FinishFailed)
    case Success(None) => Outcome(c1, PollNotFound(pollId))
    case Success(Some(poll)) =>
      if poll.createdBy != userId then Outcome(c1, NotOwnerOfFinish)
      else
        var c2 := c1 + [GetOptionsCall(pollId)];
        match svc.getPollOptions(pollId)
        case Failure(_) => Outcome(c2, FinishFailed)
        case Success(options) =>
          if |options| == 0 then Outcome(c2, NoOptionsYet(pollId))
          else Outcome(c2, PollReady(poll.question, |options|, PollUrl(frontendUrl, poll.id)))
  }

  /** `handleGetPoll`: not found, or the poll with its options and vote totals when
      results with options exist, else the hint to add options. */
  function HandleGetPoll(svc: PollsService, frontendUrl: string, pollId: int): (o: Outcome)
    ensures svc.getPoll(pollId) == Success(None) ==> o == Outcome([GetPollCall(pollId)], PollMissing(pollId))
    ensures o.reply.PollWithoutOptions? <==>
      && svc.getPoll(pollId).Success? && svc.getPoll(pollId).value.Some?
      && svc.getPollResults(pollId).Success?
      && (svc.getPollResults(pollId).value.None? || |svc.getPollResults(pollId).value.value.options| == 0)
    ensures o.reply.PollWithoutOptions? ==>
      var poll := svc.getPoll(pollId).value.value;
      o == Outcome([GetPollCall(pollId), GetResultsCall(pollId)], PollWithoutOptions(poll.id, poll.question, pollId))
    ensures o.reply.PollDetails? <==>
      && svc.getPoll(pollId).Success? && svc.getPoll(pollId).value.Some?
      && svc.getPollResults(pollId).Success? && svc.getPollResults(pollId).value.Some?
      && |svc.getPollResults(pollId).value.value.options| > 0
    ensures o.reply.PollDetails? ==>
      o.reply.options == svc.getPollResults(pollId).value.value.options
      && o.calls == [GetPollCall(pollId), GetResultsCall(pollId)]
    ensures o.reply.PollDetails? ==>
      var poll := svc.getPoll(pollId).value.value;
      var results := svc.getPollResults(pollId).value.value;
      o.reply == PollDetails(poll.id, poll.question, results.options, results.totalVotes, PollUrl(frontendUrl, poll.id))
    ensures o.reply == GetFailed <==>
      svc.getPoll(pollId).Failure? || (svc.getPoll(pollId).value.Some? && svc.getPollResults(pollId).Failure?)
  {
    var c1 := [GetPollCall(pollId)];
    match svc.getPoll(pollId)
    case Failure(_) => Outcome(c1, GetFailed)
    case Success(None) => Outcome(c1, PollMissing(pollId))
    case Success(Some(poll)) =>
      var url := PollUrl(frontendUrl, poll.id);
      var c2 := c1 + [GetResultsCall(pollId)];
      match svc.getPollResults(pollId)
      case Failure(_) => Outcome(c2, GetFailed)
      case Success(Some(results)) =>
        if |results.options| > 0 then Outcome(c2, PollDetails(poll.id, poll.question, results.options, results.totalVotes, url))
        else Outcome(c2, PollWithoutOptions(poll.id, poll.question, pollId))
      case Success(None) => Outcome(c2, PollWithoutOptions(poll.id, poll.question, pollId))
  }

  // ----- /mypolls -----

  const ListTitle := "📊 Ваши опросы ("
  const EntryIdLabel := "   ID: "
  const EntryCountLabel := " | Вариантов: "
  const EntryNeedsOptions := "   ⚠️ Нужно добавить варианты: /addoption "
  const EntryPlaceholder := " \"текст\"\n"
  const EntryLinkLabel := "   🔗 "

  function ListHeader(count: nat): string {
    ListTitle + NatToString(count) + "):\n\n"
  }

  /** The listing entry of the `number`-th poll. */
  function ListEntry(number: nat, poll: BotPoll, optionCount: nat, frontendUrl: string): string {
    NatToString(number) + ". " + poll.question + "\n"
    + EntryIdLabel + IntToString(poll.id) + EntryCountLabel + NatToString(optionCount) + "\n"
    + (if optionCount == 0
       then EntryNeedsOptions + IntToString(poll.id) + EntryPlaceholder
       else EntryLinkLabel + PollUrl(frontendUrl, poll.id) + "\n")
    + "\n"
  }

  /** How the `number`-th entry is written from its poll and option count. */
  type EntryFormat = (nat, BotPoll, nat) -> string

  function Entry(frontendUrl: string): EntryFormat {
    (number: nat, poll: BotPoll, optionCount: nat) => ListEntry(number, poll, optionCount, frontendUrl)
  }

  datatype Listing = Listing(calls: seq<Call>, entries: Result<string, string>)

  /** The option fetches made for the first `n` polls and the entries built from them,
      or the error of the first fetch that threw. */
  function ListEntries(svc: PollsService, entry: EntryFormat, polls: seq<BotPoll>, n: nat): Listing
    requires n <= |polls|
  {
    if n == 0 then Listing([], Success(""))
    else
      var prev := ListEntries(svc, entry, polls, n - 1);
      if prev.entries.Failure? then prev
      else
        var poll := polls[n - 1];
        var calls := prev.calls + [GetOptionsCall(poll.id)];
        match svc.getPollOptions(poll.id)
        case Failure(e) => Listing(calls, Failure(e))
        case Success(options) =>
          Listing(calls, Success(prev.entries.value + entry(n, poll, |options|)))
  }

  /** The outcome of `/mypolls`. */
  function MyPolls(svc: PollsService, frontendUrl: string, userId: int): Outcome {
    var c0 := [GetUserPollsCall(userId)];
    match svc.getUserPolls(userId)
    case Failure(_) => Outcome(c0, ListFailed)
    case Success(polls) =>
      if |polls| == 0 then Outcome(c0, NoPolls)
      else
        var listing := ListEntries(svc, Entry(frontendUrl), polls, |polls|);
        match listing.entries
        case Failure(_) => Outcome(c0 + listing.calls, ListFailed)
        case Success(entries) => Outcome(c0 + listing.calls, PollList(ListHeader(|polls|) + entries))
  }

  /** The listing succeeds exactly when every option fetch succeeds. */
  lemma {:induction false} ListEntriesSucceedIff(svc: PollsService, entry: EntryFormat, polls: seq<BotPoll>, n: nat)
    requires n <= |polls|
    ensures ListEntries(svc, entry, polls, n).entries.Success? <==>
      forall j :: 0 <= j < n ==> svc.getPollOptions(polls[j].id).Success?
  {
    if n > 0 {
      var prev := ListEntries(svc, entry, polls, n - 1);
      ListEntriesSucceedIff(svc, entry, polls, n - 1);
      if prev.entries.Success? {
        ListEntriesStep(svc, entry, polls, n - 1);
      } else {
        FailureIsFinal(svc, entry, polls, n - 1, n);
      }
    }
  }

  /** A successful listing fetched the options of each poll once, in list order. */
  lemma {:induction false} ListEntriesCalls(svc: PollsService, entry: EntryFormat, polls: seq<BotPoll>, n: nat)
    requires n <= |polls|
    requires ListEntries(svc, entry, polls, n).entries.Success?
    ensures var calls := ListEntries(svc, entry, polls, n).calls;
      |calls| == n && forall j :: 0 <= j < n ==> calls[j] == GetOptionsCall(polls[j].id)
  {
    if n > 0 {
      ListEntriesCalls(svc, entry, polls, n - 1);
      ListEntriesStep(svc, entry, polls, n - 1);
    }
  }

  /** Entries are appended in list order, numbered from 1: the listing of the first `n`
      polls is the listing of the first `n - 1` followed by entry `n`, so every
      shorter listing is a prefix of a longer one. */
  lemma {:induction false} ListEntriesInOrder(svc: PollsService, entry: EntryFormat, polls: seq<BotPoll>, k: nat, n: nat)
    requires k <= n <= |polls|
    requires ListEntries(svc, entry, polls, n).entries.Success?
    ensures ListEntries(svc, entry, polls, k).entries.Success?
    ensures var shorter := ListEntries(svc, entry, polls, k).entries.value;
      var longer := ListEntries(svc, entry, polls, n).entries.value;
      |shorter| <= |longer| && longer[..|shorter|] == shorter
    ensures 0 < k ==>
      var entries := ListEntries(svc, entry, polls, k).entries.value;
      var options := svc.getPollOptions(polls[k - 1].id).value;
      var last := entry(k, polls[k - 1], |options|);
      |last| <= |entries| && entries[|entries| - |last|..] == last
  {
    if k < n {
      ListEntriesInOrder(svc, entry, polls, k, n - 1);
    }
  }

  /** `handleMyPolls`: fetch the user's polls; with none, the "no polls" reply; else a
      header with the count and one entry per poll, numbered 1..n, each with its
      option count; any thrown error yields the error reply. */
  method HandleMyPolls(svc: PollsService, frontendUrl: string, userId: int) returns (o: Outcome)
    ensures o == MyPolls(svc, frontendUrl, userId)
  {
    var fetched := svc.getUserPolls(userId);
    if fetched.Failure? {
      return Outcome([GetUserPollsCall(userId)], ListFailed);
    }
    var polls := fetched.value;
    if |polls| == 0 {
      return Outcome([GetUserPollsCall(userId)], NoPolls);
    }
    var calls, message, ok := BuildListing(svc, frontendUrl, polls);
    if ok {
      o := Outcome([GetUserPollsCall(userId)] + calls, PollList(message));
    } else {
      o := Outcome([GetUserPollsCall(userId)] + calls, ListFailed);
    }
  }

  /** The `for` loop of `handleMyPolls`: the message grows by one entry per poll, after
      fetching that poll's options; a fetch that throws ends the loop. */
  method BuildListing(svc: PollsService, frontendUrl: string, polls: seq<BotPoll>)
    returns (calls: seq<Call>, message: string, ok: bool)
    ensures calls == ListEntries(svc, Entry(frontendUrl), polls, |polls|).calls
    ensures ok == ListEntries(svc, Entry(frontendUrl), polls, |polls|).entries.Success?
    ensures ok ==> message == ListHeader(|polls|) + ListEntries(svc, Entry(frontendUrl), polls, |polls|).entries.value
  {
    calls := [];
    message := ListHeader(|polls|);
    var index := 0;
    while index < |polls|
      invariant 0 <= index <= |polls|
      invariant ListEntries(svc, Entry(frontendUrl), polls, index).entries.Success?
      invariant calls == ListEntries(svc, Entry(frontendUrl), polls, index).calls
      invariant message == ListHeader(|polls|) + ListEntries(svc, Entry(frontendUrl), polls, index).entries.value
    {
      var poll := polls[index];
      ListEntriesStep(svc, Entry(frontendUrl), polls, index);
      calls := calls + [GetOptionsCall(poll.id)];
      var options := svc.getPollOptions(poll.id);
      if options.Failure? {
        FailureIsFinal(svc, Entry(frontendUrl), polls, index + 1, |polls|);
        return calls, message, false;
      }
      ghost var before := ListEntries(svc, Entry(frontendUrl), polls, index).entries.value;
      var entry := ListEntry(index + 1, poll, |options.value|, frontendUrl);
      assert Entry(frontendUrl)(index + 1, poll, |options.value|) == entry;
      AppendAssociative(ListHeader(|polls|), before, entry);
      message := message + entry;
      index := index + 1;
    }
    ok := true;
  }

  lemma ListEntriesStep(svc: PollsService, entry: EntryFormat, polls: seq<BotPoll>, k: nat)
    requires k < |polls|
    requires ListEntries(svc, entry, polls, k).entries.Success?
    ensures var prev := ListEntries(svc, entry, polls, k);
      var next := ListEntries(svc, entry, polls, k + 1);
      var fetched := svc.getPollOptions(polls[k].id);
      && next.calls == prev.calls + [GetOptionsCall(polls[k].id)]
      && (fetched.Failure? ==> next.entries.Failure?)
      && (fetched.Success? ==>
            next.entries == Success(prev.entries.value + entry(k + 1, polls[k], |fetched.value|)))
  {
  }

  lemma AppendAssociative(a: string, b: string, c: string)
    ensures (a + b) + c == a + (b + c)
  {
  }

  /** Once a fetch has thrown, the listing of any longer prefix is that same failure. */
  lemma {:induction false} FailureIsFinal(svc: PollsService, entry: EntryFormat, polls: seq<BotPoll>, k: nat, n: nat)
    requires k <= n <= |polls|
    requires ListEntries(svc, entry, polls, k).entries.Failure?
    ensures ListEntries(svc, entry, polls, n) == ListEntries(svc, entry, polls, k)
  {
    if k < n {
      FailureIsFinal(svc, entry, polls, k, n - 1);
    }
  }
  /** An owner with a valid option and fewer than ten options gets it added, and the
      reported count is the previous count plus one. */
  lemma AddOptionHappyPath(svc: PollsService, userId: int, w1: string, d: string, w2: string, x: string)
    requires w1 != [] && AllSpaces(w1) && w2 != [] && AllSpaces(w2)
    requires d != [] && AllDigits(d)
    requires x != [] && NoLineTerminator(x)
    requires svc.getPoll(DigitsValue(d)).Success? && svc.getPoll(DigitsValue(d)).value.Some?
    requires svc.getPoll(DigitsValue(d)).value.value.createdBy == userId
    requires 1 <= Utf16Length(Trim(x)) <= 200
    requires svc.getPollOptions(DigitsValue(d)).Success? && |svc.getPollOptions(DigitsValue(d)).value| < MaxOptions
    requires svc.addPollOption(DigitsValue(d), Trim(x)).Success?
    ensures var o := HandleAddOption(svc, "/addoption" + w1 + d + w2 + ['"'] + x + ['"'], userId);
      o.reply == OptionAdded(Trim(x), |svc.getPollOptions(DigitsValue(d)).value| + 1, DigitsValue(d))
      && AddOptionCall(DigitsValue(d), Trim(x)) in o.calls
  {
    MatchAddOptionComplete(w1, d, w2, x);
  }
}
