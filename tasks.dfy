/**
 * src/tasks.py: the background tasks of the bot. Each task is a method
 * that returns the effects it performs, in order: messages and documents
 * sent through the bot, jobs submitted to the crawler, status updates of
 * log entries, and further tasks placed on the queue. What the external
 * services answer (the crawler's queue, the data loader, the report
 * renderer, the user store of src/models_peewee.py) is passed in.
 */
module Tasks {
  import opened Wrappers
  import opened Numerals
  import opened Helpers
  import opened Models
  import opened ViewHelpers

  // ---------------------------------------------------------------------
  // Effects
  // ---------------------------------------------------------------------

  datatype Button = Button(text: string, callbackData: string)

  /**
   * The text of a message. The fixed texts of the tasks are named, and
   * `Wording` gives their words; any other text is `Plain`.
   */
  datatype Text = ProcessingText | QueueTooLongText | BadDataText | Plain(s: string)

  function Wording(t: Text): string {
    match t
    case ProcessingText => "⏳ Мы обрабатываем ваш запрос. Когда все будет готово, вы получите результат.\n\nБольшие категории (свыше 1 тыс. товаров) могут обрабатываться до одного часа.\n\nМаленькие категории обрабатываются в течение нескольких минут."
    case QueueTooLongText => "Извините, мы сейчас не можем обработать ваш запрос – у нас образовалась слишком большая очередь на анализ категорий. Пожалуйста, подождите немного и отправьте запрос снова."
    case BadDataText => "❌ Мы не смогли обработать ссылку. Скорее всего, вы указали неправильную страницу, либо категория оказалась пустой."
    case Plain(s) => s
  }

  datatype Effect =
    | SendMessage(chatId: int, text: Text, keyboard: Option<Button>)
    | SendDocument(chatId: int, caption: string, filename: string)
    | SubmitJob(request: JobRequest)
    | SetStatus(logId: int, status: string)
    | EnqueueTrack(chatId: int, event: string)
    | EnqueueRecheck(chatId: int, countdown: int)
    | EnqueueCountMessage(chatId: int)
    | Retry(delay: int)
    | Fail
    | LogInfo(line: string)

  /** How many effects of each kind a trace holds. */
  datatype Tally = Tally(messages: nat, documents: nat, submits: nat, statuses: nat, tracks: nat,
                         rechecks: nat, countMessages: nat, retries: nat, fails: nat, logs: nat)

  const NoEffects: Tally := Tally(0, 0, 0, 0, 0, 0, 0, 0, 0, 0)

  /** `t` with the kind of `e` counted once more. */
  function Bump(t: Tally, e: Effect): Tally {
    match e
    case SendMessage(_, _, _) => t.(messages := t.messages + 1)
    case SendDocument(_, _, _) => t.(documents := t.documents + 1)
    case SubmitJob(_) => t.(submits := t.submits + 1)
    case SetStatus(_, _) => t.(statuses := t.statuses + 1)
    case EnqueueTrack(_, _) => t.(tracks := t.tracks + 1)
    case EnqueueRecheck(_, _) => t.(rechecks := t.rechecks + 1)
    case EnqueueCountMessage(_) => t.(countMessages := t.countMessages + 1)
    case Retry(_) => t.(retries := t.retries + 1)
    case Fail => t.(fails := t.fails + 1)
    case LogInfo(_) => t.(logs := t.logs + 1)
  }

  /** The number of effects of each kind in `trace`. */
  function TallyOf(trace: seq<Effect>): Tally {
    if trace == [] then NoEffects else Bump(TallyOf(trace[..|trace| - 1]), trace[|trace| - 1])
  }

  /** Emitting one more effect counts it once. */
  lemma TallySnoc(trace: seq<Effect>, e: Effect)
    ensures TallyOf(trace + [e]) == Bump(TallyOf(trace), e)
  {
    assert (trace + [e])[..|trace|] == trace;
  }

  /** Two tallies added kind by kind. */
  function Plus(a: Tally, b: Tally): Tally {
    Tally(a.messages + b.messages, a.documents + b.documents, a.submits + b.submits,
          a.statuses + b.statuses, a.tracks + b.tracks, a.rechecks + b.rechecks,
          a.countMessages + b.countMessages, a.retries + b.retries, a.fails + b.fails, a.logs + b.logs)
  }

  lemma BumpPlus(x: Tally, y: Tally, e: Effect)
    ensures Bump(Plus(x, y), e) == Plus(x, Bump(y, e))
  {
    match e
    case SendMessage(_, _, _) =>
    case SendDocument(_, _, _) =>
    case SubmitJob(_) =>
    case SetStatus(_, _) =>
    case EnqueueTrack(_, _) =>
    case EnqueueRecheck(_, _) =>
    case EnqueueCountMessage(_) =>
    case Retry(_) =>
    case Fail =>
    case LogInfo(_) =>
  }

  /** The effects of two traces run one after the other add up. */
  lemma {:induction false} TallyOfAppend(a: seq<Effect>, b: seq<Effect>)
    ensures TallyOf(a + b) == Plus(TallyOf(a), TallyOf(b))
    decreases |b|
  {
    if b == [] {
      assert a + b == a;
    } else {
      var init, e := b[..|b| - 1], b[|b| - 1];
      assert a + b == (a + init) + [e];
      assert b == init + [e];
      TallySnoc(a + init, e);
      TallySnoc(init, e);
      TallyOfAppend(a, init);
      BumpPlus(TallyOf(a), TallyOf(init), e);
    }
  }

  // ---------------------------------------------------------------------
  // schedule_category_export
  // ---------------------------------------------------------------------

  const TooLongQueueEvent: string := "Received \"Too long queue\" error"
  const StatusSuccess: string := "success"
  const StatusTooLongQueue: string := "too_long_queue"
  /** A day and a minute, in seconds. */
  const RecheckCountdown: int := 24 * 60 * 60 + 60

  /**
   * Which of the task's own calls return normally: in the `try` block,
   * queueing the recheck and recording `success`; in the `except` block,
   * queueing the error track and recording `too_long_queue`.
   */
  datatype Calls = Calls(recheck: bool, status: bool, track: bool, fallbackStatus: bool)

  /** The export went through and both follow-up calls of the `try` block returned. */
  predicate ExportSucceeded(outcome: ExportOutcome, calls: Calls) {
    outcome.Submitted? && calls.recheck && calls.status
  }

  /** Both calls of the `except` block returned. */
  predicate HandlerReturns(calls: Calls) {
    calls.track && calls.fallbackStatus
  }

  /** The task gets to its final message: nothing raised, or the `except` block ran through. */
  predicate ExportCompletes(outcome: ExportOutcome, calls: Calls) {
    ExportSucceeded(outcome, calls) || HandlerReturns(calls)
  }

  /**
   * The effects of the `try` block of `schedule_category_export`, up to
   * the first call that raises: the job submission, the recheck queued a
   * day and a minute later, and the `success` status.
   */
  function TryEffects(outcome: ExportOutcome, chatId: int, logId: int, calls: Calls): (r: seq<Effect>)
    ensures |r| <= 3
    ensures r != [] <==> outcome.Submitted?
    ensures |r| == 3 <==> ExportSucceeded(outcome, calls)
  {
    if !outcome.Submitted? then []
    else if !calls.recheck then [SubmitJob(outcome.request)]
    else if !calls.status then [SubmitJob(outcome.request), EnqueueRecheck(chatId, RecheckCountdown)]
    else [SubmitJob(outcome.request), EnqueueRecheck(chatId, RecheckCountdown), SetStatus(logId, StatusSuccess)]
  }

  /** The effects of the `except` block, up to the first of its calls that raises. */
  function HandlerEffects(chatId: int, logId: int, calls: Calls): seq<Effect> {
    if !calls.track then []
    else if !calls.fallbackStatus then [EnqueueTrack(chatId, TooLongQueueEvent)]
    else [EnqueueTrack(chatId, TooLongQueueEvent), SetStatus(logId, StatusTooLongQueue)]
  }

  /**
   * Everything `schedule_category_export` does once its log entry is
   * found: the `try` block, the `except` block when something raised, and
   * then the final message, or the task's failure when a call of the
   * `except` block raised.
   */
  function ExportTrace(outcome: ExportOutcome, chatId: int, logId: int, calls: Calls): (r: seq<Effect>)
    ensures 1 <= |r| <= 5
    ensures r[|r| - 1] == Fail <==> !ExportCompletes(outcome, calls)
  {
    var ok := ExportSucceeded(outcome, calls);
    TryEffects(outcome, chatId, logId, calls)
      + (if ok then [] else HandlerEffects(chatId, logId, calls))
      + [if ExportCompletes(outcome, calls) then SendMessage(chatId, if ok then ProcessingText else QueueTooLongText, None) else Fail]
  }

  /** The `try` block submits at most one job, queues at most one recheck and records `success` only when nothing raised. */
  lemma TryEffectsTally(outcome: ExportOutcome, chatId: int, logId: int, calls: Calls)
    ensures TallyOf(TryEffects(outcome, chatId, logId, calls))
         == NoEffects.(submits := if outcome.Submitted? then 1 else 0,
                       rechecks := if outcome.Submitted? && calls.recheck then 1 else 0,
                       statuses := if ExportSucceeded(outcome, calls) then 1 else 0)
  {
    if outcome.Submitted? {
      SubmissionTallies(SubmitJob(outcome.request), EnqueueRecheck(chatId, RecheckCountdown), SetStatus(logId, StatusSuccess));
    }
  }

  /** A submission, then a recheck, then a status: each prefix counted kind by kind. */
  lemma SubmissionTallies(submit: Effect, recheck: Effect, status: Effect)
    requires submit.SubmitJob? && recheck.EnqueueRecheck? && status.SetStatus?
    ensures TallyOf([submit]) == NoEffects.(submits := 1)
    ensures TallyOf([submit, recheck]) == NoEffects.(submits := 1, rechecks := 1)
    ensures TallyOf([submit, recheck, status]) == NoEffects.(submits := 1, rechecks := 1, statuses := 1)
  {
    TallySnoc([], submit);
    assert [] + [submit] == [submit];
    TallySnoc([submit], recheck);
    assert [submit] + [recheck] == [submit, recheck];
    TallySnoc([submit, recheck], status);
    assert [submit, recheck] + [status] == [submit, recheck, status];
  }

  /**
   * The task sends one message and records one status exactly when it
   * gets to its end, and fails once otherwise. It tracks the error only
   * when something raised and the track call returned, submits a job
   * only when the export ran one, and queues the recheck only after a
   * submission.
   */
  lemma ExportTraceTally(outcome: ExportOutcome, chatId: int, logId: int, calls: Calls)
    ensures var t, ok, done := TallyOf(ExportTrace(outcome, chatId, logId, calls)),
                              ExportSucceeded(outcome, calls), ExportCompletes(outcome, calls);
      && t.messages == (if done then 1 else 0) && t.statuses == (if done then 1 else 0)
      && t.fails == (if done then 0 else 1)
      && t.submits == (if outcome.Submitted? then 1 else 0)
      && t.rechecks == (if outcome.Submitted? && calls.recheck then 1 else 0)
      && t.tracks == (if !ok && calls.track then 1 else 0)
      && t.documents == 0 && t.countMessages == 0 && t.retries == 0 && t.logs == 0
  {
    TryEffectsTally(outcome, chatId, logId, calls);
    ExportTraceTallies(outcome, chatId, logId, calls);
  }

  /** What the `except` block and the end of the task add to the tally. */
  function RestTallyOf(ok: bool, calls: Calls): Tally {
    if ok then NoEffects.(messages := 1)
    else if !calls.track then NoEffects.(fails := 1)
    else if !calls.fallbackStatus then NoEffects.(tracks := 1, fails := 1)
    else NoEffects.(tracks := 1, statuses := 1, messages := 1)
  }

  /** The trace's tally is that of the `try` block plus that of the `except` block and the end of the task. */
  lemma ExportTraceTallies(outcome: ExportOutcome, chatId: int, logId: int, calls: Calls)
    ensures TallyOf(ExportTrace(outcome, chatId, logId, calls))
         == Plus(TallyOf(TryEffects(outcome, chatId, logId, calls)), RestTallyOf(ExportSucceeded(outcome, calls), calls))
  {
    var ok := ExportSucceeded(outcome, calls);
    var tried := TryEffects(outcome, chatId, logId, calls);
    var last := if ExportCompletes(outcome, calls) then SendMessage(chatId, if ok then ProcessingText else QueueTooLongText, None) else Fail;
    var rest := (if ok then [] else HandlerEffects(chatId, logId, calls)) + [last];
    assert ExportTrace(outcome, chatId, logId, calls) == tried + rest;
    TallyOfAppend(tried, rest);
    RestTally(chatId, logId, last, ok, calls);
  }

  lemma RestTally(chatId: int, logId: int, last: Effect, ok: bool, calls: Calls)
    requires !(ok || HandlerReturns(calls)) ==> last == Fail
    requires ok || HandlerReturns(calls) ==> last.SendMessage?
    ensures TallyOf((if ok then [] else HandlerEffects(chatId, logId, calls)) + [last]) == RestTallyOf(ok, calls)
  {
    var handler := if ok then [] else HandlerEffects(chatId, logId, calls);
    var track, status := EnqueueTrack(chatId, TooLongQueueEvent), SetStatus(logId, StatusTooLongQueue);
    if handler == [] {
      TallySnoc([], last);
      assert [] + [last] == [last];
    } else if handler == [track] {
      TallySnoc([], track);
      assert [] + [track] == [track];
      TallySnoc([track], last);
    } else {
      assert handler == [track, status];
      TallySnoc([], track);
      assert [] + [track] == [track];
      TallySnoc([track], status);
      assert [track] + [status] == [track, status];
      TallySnoc([track, status], last);
    }
  }

  /**
   * The trace ends with the message when the task gets to its end, and
   * with the failure otherwise. It holds the status recorded, the error
   * tracked, the job submitted and the recheck queued when their calls
   * returned.
   */
  lemma ExportTraceEffects(outcome: ExportOutcome, chatId: int, logId: int, calls: Calls)
    ensures var trace, ok, done := ExportTrace(outcome, chatId, logId, calls),
                                  ExportSucceeded(outcome, calls), ExportCompletes(outcome, calls);
      && trace != []
      && trace[|trace| - 1] == (if done then SendMessage(chatId, if ok then ProcessingText else QueueTooLongText, None) else Fail)
      && (done ==> SetStatus(logId, if ok then StatusSuccess else StatusTooLongQueue) in trace)
      && (!ok && calls.track ==> EnqueueTrack(chatId, TooLongQueueEvent) in trace)
      && (outcome.Submitted? ==> SubmitJob(outcome.request) in trace)
      && (outcome.Submitted? && calls.recheck ==> EnqueueRecheck(chatId, RecheckCountdown) in trace)
  {
    var tried := TryEffects(outcome, chatId, logId, calls);
    if outcome.Submitted? {
      assert tried[0] == SubmitJob(outcome.request);
      if calls.recheck {
        assert tried[1] == EnqueueRecheck(chatId, RecheckCountdown);
      }
    }
    if !ExportSucceeded(outcome, calls) && calls.track {
      assert HandlerEffects(chatId, logId, calls)[0] == EnqueueTrack(chatId, TooLongQueueEvent);
    }
  }

  /**
   * `schedule_category_export(category_url, chat_id, log_id)`.
   * `logFound` says whether the log entry exists (its lookup raises
   * otherwise); `jobs`, `threshold`, `callbackBase` and `runKey` are what
   * `category_export` meets in the crawler (see `Helpers.CategoryExport`);
   * `calls` says which of the task's own calls return normally. A call
   * that raises inside the `except` block ends the task with `Fail`.
   */
  method ScheduleCategoryExport(categoryUrl: string, chatId: int, logId: int,
                                jobs: seq<Job>, threshold: int, callbackBase: string, runKey: Option<string>,
                                logFound: bool, calls: Calls)
    returns (trace: seq<Effect>)
    ensures !logFound ==> trace == [Fail]
    ensures logFound ==>
      trace == ExportTrace(CategoryExport(categoryUrl, chatId, DefaultSpider, jobs, threshold, callbackBase, runKey),
                           chatId, logId, calls)
    ensures logFound && ScheduledJobsCount(jobs, DefaultSpider) > threshold ==>
      && trace != []
      && trace[|trace| - 1] == (if HandlerReturns(calls) then SendMessage(chatId, QueueTooLongText, None) else Fail)
      && TallyOf(trace).submits == 0 && TallyOf(trace).rechecks == 0
      && (HandlerReturns(calls) ==> SetStatus(logId, StatusTooLongQueue) in trace)
  {
    if !logFound {
      return [Fail];
    }
    trace := [];
    var raised := true;
    var message := Plain("");
    var outcome := CategoryExport(categoryUrl, chatId, DefaultSpider, jobs, threshold, callbackBase, runKey);

    // try:
    if outcome.Submitted? {
      trace := trace + [SubmitJob(outcome.request)];
      message := ProcessingText;
      if calls.recheck {
        trace := trace + [EnqueueRecheck(chatId, RecheckCountdown)];
        if calls.status {
          trace := trace + [SetStatus(logId, StatusSuccess)];
          raised := false;
        }
      }
    }
    ghost var tried := trace;
    assert tried == TryEffects(outcome, chatId, logId, calls);
    assert raised == !ExportSucceeded(outcome, calls);

    // except Exception: a call raising here leaves the task
    var escaped := false;
    if raised {
      message := QueueTooLongText;
      if calls.track {
        trace := trace + [EnqueueTrack(chatId, TooLongQueueEvent)];
        if calls.fallbackStatus {
          trace := trace + [SetStatus(logId, StatusTooLongQueue)];
        } else {
          escaped := true;
        }
      } else {
        escaped := true;
      }
      assert trace == tried + HandlerEffects(chatId, logId, calls);
    } else {
      assert trace == tried + [];
    }
    assert escaped == !ExportCompletes(outcome, calls);

    if escaped {
      trace := trace + [Fail];
    } else {
      trace := trace + [SendMessage(chatId, message, None)];
    }
    assert trace == ExportTrace(outcome, chatId, logId, calls);
    if outcome.QueueTooLong? {
      RefusedExportTrace(outcome, chatId, logId, calls);
    }
  }

  /**
   * A refused export submits nothing and queues no recheck; it ends with
   * the queue-too-long message, after recording `too_long_queue`, when the
   * `except` block runs through, and with the task's failure otherwise.
   */
  lemma RefusedExportTrace(outcome: ExportOutcome, chatId: int, logId: int, calls: Calls)
    requires outcome.QueueTooLong?
    ensures var trace := ExportTrace(outcome, chatId, logId, calls);
      && trace != []
      && trace[|trace| - 1] == (if HandlerReturns(calls) then SendMessage(chatId, QueueTooLongText, None) else Fail)
      && TallyOf(trace).submits == 0 && TallyOf(trace).rechecks == 0
      && (HandlerReturns(calls) ==> SetStatus(logId, StatusTooLongQueue) in trace)
  {
    ExportTraceEffects(outcome, chatId, logId, calls);
    ExportTraceTally(outcome, chatId, logId, calls);
  }

  // ---------------------------------------------------------------------
  // send_category_requests_count_message
  // ---------------------------------------------------------------------

  const MoonFull: char := '🌕'
  const MoonNew: char := '🌑'
  const NoLimitsButton: Button := Button("🚀 Снять ограничения", "keyboard_help_no_limits")
  const LeftPrefix: string := "Вам доступно "
  const NoneLeftText: string := "У вас больше нет доступных запросов.\n"
  const LimitOpening: string := " из "
  const LimitClosing: string := " запросов\n"
  const RecoveryNote: string := "Лимит восстанавится через 24 часа с момента анализа."
  const NoLimitsNote: string := "\n\nВы можете снять ограничения, купив платный аккаунт. Либо подождите 24 часа и лимит восстановится."

  /** Number of occurrences of `c` in `s`. */
  function CountChar(s: string, c: char): (n: nat)
    ensures n <= |s|
  {
    if s == [] then 0 else CountChar(s[..|s| - 1], c) + (if s[|s| - 1] == c then 1 else 0)
  }

  lemma {:induction false} CountCharAppend(a: string, b: string, c: char)
    ensures CountChar(a + b, c) == CountChar(a, c) + CountChar(b, c)
    decreases |b|
  {
    if b == [] {
      assert a + b == a;
    } else {
      var b' := b[..|b| - 1];
      assert (a + b)[..|a + b| - 1] == a + b';
      CountCharAppend(a, b', c);
    }
  }

  lemma {:induction false} CountCharRepeat(x: char, n: int, c: char)
    ensures CountChar(Repeat(x, n), c) == (if x == c then Steps(n) else 0)
    decreases Steps(n)
  {
    if n > 0 {
      CountCharAppend(Repeat(x, n - 1), [x], c);
      CountCharRepeat(x, n - 1, c);
    }
  }

  /**
   * The moon bar: when `left + today` is at most ten, a full moon per
   * request left, a new moon per request used today, and a blank line;
   * otherwise nothing.
   */
  function EmojiBar(left: int, today: int): (r: string)
    ensures r != "" <==> left + today <= 10
    ensures left + today <= 10 ==>
      && |r| == Steps(left) + Steps(today) + 2
      && (forall i :: 0 <= i < Steps(left) ==> r[i] == MoonFull)
      && (forall i :: Steps(left) <= i < Steps(left) + Steps(today) ==> r[i] == MoonNew)
      && r[|r| - 2..] == "\n\n"
  {
    if left + today <= 10 then Repeat(MoonFull, left) + Repeat(MoonNew, today) + "\n\n" else ""
  }

  /** The bar shows exactly as many full moons as requests left and new moons as requests used. */
  lemma EmojiBarCounts(left: int, today: int)
    requires left + today <= 10
    ensures CountChar(EmojiBar(left, today), MoonFull) == Steps(left)
    ensures CountChar(EmojiBar(left, today), MoonNew) == Steps(today)
  {
    var a, b := Repeat(MoonFull, left), Repeat(MoonNew, today);
    CountCharAppend(a + b, "\n\n", MoonFull);
    CountCharAppend(a + b, "\n\n", MoonNew);
    CountCharAppend(a, b, MoonFull);
    CountCharAppend(a, b, MoonNew);
    CountCharRepeat(MoonFull, left, MoonFull);
    CountCharRepeat(MoonNew, today, MoonFull);
    CountCharRepeat(MoonFull, left, MoonNew);
    CountCharRepeat(MoonNew, today, MoonNew);
    assert CountChar("\n\n", MoonFull) == 0 && CountChar("\n\n", MoonNew) == 0;
  }

  /** The text of the requests-count message. */
  function RequestsCountText(left: int, today: int, limit: int): (text: string)
  {
    var emojis := EmojiBar(left, today);
    if left > 0 then LeftPrefix + (IntToString(left) + LimitSentence(limit, emojis))
    else NoneLeftText + NoLimitsAdvice(emojis)
  }

  /** The message opens with the number of requests left, or with the news that none is left. */
  lemma RequestsCountOpening(left: int, today: int, limit: int)
    ensures left > 0 ==> LeftPrefix < RequestsCountText(left, today, limit)
    ensures left <= 0 ==> NoneLeftText < RequestsCountText(left, today, limit)
  {
    var emojis := EmojiBar(left, today);
    if left > 0 {
      ProperPrefix(LeftPrefix, IntToString(left) + LimitSentence(limit, emojis));
    } else {
      ProperPrefix(NoneLeftText, NoLimitsAdvice(emojis));
    }
  }

  lemma ProperPrefix(a: string, b: string)
    requires b != []
    ensures a < a + b
  {
  }

  /** The rest of the message after the number of requests left. */
  function LimitSentence(limit: int, emojis: string): (s: string)
    ensures |s| > 0 && s[0] == ' '
  {
    LimitOpening + (IntToString(limit) + (LimitClosing + (emojis + RecoveryNote)))
  }

  /** The rest of the message once no request is left: the bar, then the way out of the limit. */
  function NoLimitsAdvice(emojis: string): (s: string)
    ensures emojis < s
  {
    emojis + NoLimitsNote
  }

  /** The keyboard of the requests-count message: the upgrade button once no request is left. */
  function RequestsCountKeyboard(left: int): (k: Option<Button>)
    ensures k.Some? <==> left <= 0
    ensures k.Some? ==> k.value.callbackData == "keyboard_help_no_limits"
  {
    if left > 0 then None else Some(NoLimitsButton)
  }

  /**
   * When requests are left, the message names how many: the digits after
   * the opening words are `left`, followed by a space.
   */
  lemma RequestsCountQuotesLeft(left: int, today: int, limit: int)
    requires left > 0
    ensures var text := RequestsCountText(left, today, limit);
            var p, k := |LeftPrefix|, NumDigits(left);
            && p + k < |text| && text[p + k] == ' '
            && AllDigits(text[p..p + k]) && ParseNat(text[p..p + k]) == left
  {
    RequestsCountTextLeft(left, today, limit);
    LeftQuoted(RequestsCountText(left, today, limit), left, LimitSentence(limit, EmojiBar(left, today)));
  }

  /** The number left, placed after the opening words and before a text opening with a space, reads back. */
  lemma LeftQuoted(text: string, left: nat, tail: string)
    requires |tail| > 0 && tail[0] == ' '
    requires text == LeftPrefix + (NatToString(left) + tail)
    ensures var p, k := |LeftPrefix|, NumDigits(left);
            && p + k < |text| && text[p + k] == ' '
            && AllDigits(text[p..p + k]) && ParseNat(text[p..p + k]) == left
  {
    Between(LeftPrefix, NatToString(left), tail);
    ParseNatToString(left);
  }

  lemma RequestsCountTextLeft(left: int, today: int, limit: int)
    requires left > 0
    ensures RequestsCountText(left, today, limit) == LeftPrefix + (NatToString(left) + LimitSentence(limit, EmojiBar(left, today)))
  {
  }

  /** A text placed between a prefix and a text that opens with a space is found at its place, just before that space. */
  lemma Between(prefix: string, middle: string, tail: string)
    requires |tail| > 0 && tail[0] == ' '
    ensures var text, p := prefix + (middle + tail), |prefix|;
            && p + |middle| < |text| && text[p + |middle|] == ' '
            && text[p..p + |middle|] == middle
  {
  }

  /**
   * The message in its pieces: with requests left, the opening words,
   * the number left, ` из `, the daily limit, the closing words of the
   * limit, the bar and the recovery note; otherwise the opening sentence,
   * the bar and the way out of the limit.
   */
  lemma RequestsCountPieces(left: int, today: int, limit: int)
    ensures left > 0 ==>
              RequestsCountText(left, today, limit)
              == LeftPrefix + (NatToString(left) + (LimitOpening + (IntToString(limit) + (LimitClosing + (EmojiBar(left, today) + RecoveryNote)))))
    ensures left <= 0 ==> RequestsCountText(left, today, limit) == NoneLeftText + (EmojiBar(left, today) + NoLimitsNote)
  {
    if left > 0 {
      RequestsCountTextLeft(left, today, limit);
    }
  }

  /**
   * With requests left, the message quotes the daily limit right after
   * ` из `: the decimal text of the limit, which reads back as the limit,
   * followed by the closing words, which open with a space.
   */
  lemma RequestsCountQuotesLimit(left: int, today: int, limit: int)
    requires left > 0
    ensures var rest := LimitClosing + (EmojiBar(left, today) + RecoveryNote);
            && RequestsCountText(left, today, limit) == LeftPrefix + (NatToString(left) + (LimitOpening + (IntToString(limit) + rest)))
            && rest[0] == ' '
            && ParseInt(IntToString(limit)) == Some(limit)
  {
    RequestsCountPieces(left, today, limit);
    ParseIntToString(limit);
  }

  /**
   * `send_category_requests_count_message(chat_id)`, given the counts the
   * user record reports: one message to the chat.
   */
  method SendCategoryRequestsCountMessage(chatId: int, left: int, today: nat, limit: int) returns (trace: seq<Effect>)
    ensures trace == [SendMessage(chatId, Plain(RequestsCountText(left, today, limit)), RequestsCountKeyboard(left))]
  {
    var message := RequestsCountText(left, today, limit);
    var replyMarkup := RequestsCountKeyboard(left);
    trace := [SendMessage(chatId, Plain(message), replyMarkup)];
  }

  // ---------------------------------------------------------------------
  // check_requests_count_recovered and get_cat_update_users
  // ---------------------------------------------------------------------

  const RecoveredPlaceholder: string := "Placeholder for Recovered requests messages called"

  /** `check_requests_count_recovered`: only a log line, and only when the whole limit is available again. */
  method CheckRequestsCountRecovered(left: int, limit: int) returns (trace: seq<Effect>)
    ensures |trace| == (if left == limit then 1 else 0)
    ensures TallyOf(trace).messages == 0 && TallyOf(trace).tracks == 0
    ensures TallyOf(trace).logs == |trace|
  {
    trace := [];
    if left == limit {
      TallySnoc(trace, LogInfo(RecoveredPlaceholder));
      trace := trace + [LogInfo(RecoveredPlaceholder)];
    }
  }

  /** `get_cat_update_users`: the chat ids of the subscribers, in order. */
  function GetCatUpdateUsers(subscribers: seq<User>): (ids: seq<int>)
    ensures |ids| == |subscribers|
    ensures forall i :: 0 <= i < |ids| ==> ids[i] == subscribers[i].chatId
  {
    if subscribers == [] then [] else [subscribers[0].chatId] + GetCatUpdateUsers(subscribers[1..])
  }

  // ---------------------------------------------------------------------
  // calculate_category_stats
  // ---------------------------------------------------------------------

  const MaxRetries: nat := 6
  const RetryDelay: int := 10
  const ReportCaption: string := "Файл с отчетом"

  /** What the crawl-data loader does: give the data, raise `NotReady`, or raise any other error. */
  datatype Load = Loaded | NotReady | LoadFailed

  /**
   * What building the category statistics does: give the category's name,
   * raise `BadDataSet`, or raise any other error.
   */
  datatype Stats = Stats(categoryName: string) | BadDataSet | StatsFailed

  /**
   * Which calls of `calculate_category_stats` return normally: the summary
   * message, the apology for a bad data set, and the two `delay` calls that
   * queue the count message and the tracking event. A call that raises ends
   * the task with `Fail`.
   */
  datatype StatsCalls = StatsCalls(summary: bool, apology: bool, countMessage: bool, track: bool)

  /**
   * The effects of a run that built its statistics and sent the summary:
   * the summary, the report document when the bot accepted it, then the
   * follow-up calls.
   */
  function ReportTrace(chatId: int, summary: string, document: seq<Effect>, event: string, calls: StatsCalls): seq<Effect> {
    [SendMessage(chatId, Plain(summary), None)] + document + FollowUps(chatId, event, calls)
  }

  /**
   * Such a run opens with the summary and the document it was given, and
   * ends with the tracking event when both follow-up calls returned, with
   * `Fail` otherwise.
   */
  lemma ReportTraceShape(chatId: int, summary: string, document: seq<Effect>, event: string, calls: StatsCalls)
    ensures var r := ReportTrace(chatId, summary, document, event, calls);
      && |r| == 1 + |document| + (if calls.countMessage then 2 else 1)
      && r[0] == SendMessage(chatId, Plain(summary), None)
      && r[1..1 + |document|] == document
      && r[|r| - 1] == (if calls.countMessage && calls.track then EnqueueTrack(chatId, event) else Fail)
  {
    var r := ReportTrace(chatId, summary, document, event, calls);
    assert r[1..1 + |document|] == document;
  }

  /** Such a run sends one message, the document it was given, and fails once unless both follow-up calls returned. */
  lemma ReportTraceTally(chatId: int, summary: string, document: seq<Effect>, event: string, calls: StatsCalls)
    requires document == [] || (|document| == 1 && document[0].SendDocument?)
    ensures TallyOf(ReportTrace(chatId, summary, document, event, calls))
         == NoEffects.(messages := 1, documents := |document|,
                       countMessages := if calls.countMessage then 1 else 0,
                       tracks := if calls.countMessage && calls.track then 1 else 0,
                       fails := if calls.countMessage && calls.track then 0 else 1)
  {
    var front := [SendMessage(chatId, Plain(summary), None)] + document;
    SummaryTally(chatId, summary, document);
    FollowUpsTally(chatId, event, calls);
    TallyOfAppend(front, FollowUps(chatId, event, calls));
  }

  /** The summary and the document, counted. */
  lemma SummaryTally(chatId: int, summary: string, document: seq<Effect>)
    requires document == [] || (|document| == 1 && document[0].SendDocument?)
    ensures TallyOf([SendMessage(chatId, Plain(summary), None)] + document) == NoEffects.(messages := 1, documents := |document|)
  {
    var first := [SendMessage(chatId, Plain(summary), None)];
    TallySnoc([], first[0]);
    assert [] + [first[0]] == first;
    if document != [] {
      TallySnoc(first, document[0]);
      assert first + [document[0]] == first + document;
    } else {
      assert first + document == first;
    }
  }

  /** The follow-up calls, counted: a `Fail` for the first that raised. */
  lemma FollowUpsTally(chatId: int, event: string, calls: StatsCalls)
    ensures TallyOf(FollowUps(chatId, event, calls))
         == NoEffects.(countMessages := if calls.countMessage then 1 else 0,
                       tracks := if calls.countMessage && calls.track then 1 else 0,
                       fails := if calls.countMessage && calls.track then 0 else 1)
  {
    var rest := FollowUps(chatId, event, calls);
    if !calls.countMessage {
      TallySnoc([], Fail);
      assert [] + [Fail] == rest;
    } else {
      TallySnoc([], EnqueueCountMessage(chatId));
      assert [] + [EnqueueCountMessage(chatId)] == rest[..1];
      TallySnoc(rest[..1], rest[1]);
      assert rest[..1] + [rest[1]] == rest;
    }
  }

  /** What the task does after the report: queue the count message, then the tracking event. */
  function FollowUps(chatId: int, event: string, calls: StatsCalls): seq<Effect> {
    if !calls.countMessage then [Fail]
    else if !calls.track then [EnqueueCountMessage(chatId), Fail]
    else [EnqueueCountMessage(chatId), EnqueueTrack(chatId, event)]
  }

  /** Python's rendering of an optional text in an f-string. */
  function OrNone(o: Option<string>): string {
    if o.Some? then o.value else "None"
  }

  /** The path index of the last `c` in `p`, or -1. */
  function RFind(p: string, c: char): (i: int)
    ensures -1 <= i < |p|
    ensures i >= 0 ==> p[i] == c
    ensures forall j :: i < j < |p| ==> p[j] != c
  {
    if p == [] then -1
    else if p[|p| - 1] == c then |p| - 1
    else RFind(p[..|p| - 1], c)
  }

  /** The first dot of `p` after its last slash, past any leading dots of the file name, is where `splitext` cuts. */
  predicate HasStem(p: string, sep: int, dot: int)
    requires -1 <= sep && dot <= |p|
  {
    exists j :: sep + 1 <= j < dot && p[j] != '.'
  }

  /**
   * `os.path.splitext` on a POSIX path: the extension starts at the last
   * dot of the file name, unless that name is only dots before it.
   */
  function SplitExt(p: string): (r: (string, string))
    ensures r.0 + r.1 == p
    ensures r.1 == "" || IsExtension(r.1)
  {
    var sep, dot := RFind(p, '/'), RFind(p, '.');
    if dot > sep && HasStem(p, sep, dot) then (p[..dot], p[dot..]) else (p, "")
  }

  /** An extension: a dot and then neither dots nor slashes. */
  predicate IsExtension(e: string) {
    |e| >= 1 && e[0] == '.' && '.' !in e[1..] && '/' !in e
  }

  /** Appending an extension to a path whose file name has a stem is undone by `splitext`. */
  lemma SplitExtAppend(root: string, ext: string, j: nat)
    requires IsExtension(ext)
    requires j < |root| && RFind(root, '/') < j && root[j] != '.'
    ensures SplitExt(root + ext) == (root, ext)
  {
    var p := root + ext;
    assert p[|root|] == '.';
    forall i | |root| < i < |p| ensures p[i] != '.' && p[i] != '/' {
      assert p[i] == ext[i - |root|];
      assert ext[i - |root|] in ext[1..];
    }
    assert RFind(p, '.') == |root| by {
      RFindSuffix(root, ext, '.', 0);
    }
    assert RFind(p, '/') == RFind(root, '/') by {
      RFindSuffix(root, ext, '/', |ext|);
    }
    assert p[j] == root[j];
  }

  /** When the last `k` characters of a suffix are free of `c` and the one before is `c`, or the suffix is free of it, `RFind` lands accordingly. */
  lemma {:induction false} RFindSuffix(a: string, b: string, c: char, k: nat)
    requires k <= |b|
    requires forall i :: k < i < |b| ==> b[i] != c
    requires k < |b| ==> b[k] == c
    requires k == |b| ==> forall i :: 0 <= i < |b| ==> b[i] != c
    ensures RFind(a + b, c) == (if k < |b| then |a| + k else RFind(a, c))
    decreases |b|
  {
    if b == [] {
      assert a + b == a;
    } else if k < |b| - 1 || k == |b| {
      var b' := b[..|b| - 1];
      assert (a + b)[..|a + b| - 1] == a + b';
      RFindSuffix(a, b', c, if k == |b| then |b'| else k);
    }
  }

  /** The document name of the report, as written: `name на marketplace.` followed by the extension, dot included. */
  function ReportFilenameAsWritten(category: string, marketplace: string, reportPath: string): (f: string)
    ensures |f| >= |category| + 5 + |marketplace|
    ensures f[..|category| + 5 + |marketplace|] == category + " на " + marketplace + "."
  {
    category + " на " + marketplace + "." + SplitExt(reportPath).1
  }

  /** The document name of the report: `name на marketplace` with the report's extension. */
  function ReportFilename(category: string, marketplace: string, reportPath: string): (f: string)
    ensures |f| >= |category| + 4 + |marketplace|
    ensures f[..|category| + 4 + |marketplace|] == category + " на " + marketplace
  {
    category + " на " + marketplace + SplitExt(reportPath).1
  }

  /** A text without `c` has no last `c`. */
  lemma {:induction false} RFindAbsent(p: string, c: char)
    requires c !in p
    ensures RFind(p, c) == -1
  {
    if p != [] {
      assert c !in p[..|p| - 1];
      RFindAbsent(p[..|p| - 1], c);
    }
  }

  /** The category and the marketplace joined into a document name bring no slash of their own. */
  lemma NoSlashJoin(category: string, marketplace: string, stem: string)
    requires '/' !in category && '/' !in marketplace
    requires stem == category + " на " + marketplace || stem == category + " на " + marketplace + "."
    ensures '/' !in stem
  {
    forall i | 0 <= i < |stem| ensures stem[i] != '/' {
      if i < |category| {
        assert stem[i] == category[i];
      } else if |category| + 4 <= i < |category| + 4 + |marketplace| {
        assert stem[i] == marketplace[i - |category| - 4];
      }
    }
  }

  /** A stem without slashes, with a character other than a dot, followed by an extension, is cut back into the two. */
  lemma SplitExtStem(stem: string, ext: string, k: nat)
    requires IsExtension(ext)
    requires '/' !in stem && k < |stem| && stem[k] != '.'
    ensures SplitExt(stem + ext) == (stem, ext)
  {
    RFindAbsent(stem, '/');
    SplitExtAppend(stem, ext, k);
  }

  /** The report is offered under its own extension, after the category and marketplace. */
  lemma ReportFilenameKeepsExtension(category: string, marketplace: string, root: string, ext: string, j: nat)
    requires IsExtension(ext)
    requires j < |root| && RFind(root, '/') < j && root[j] != '.'
    requires '/' !in category && '/' !in marketplace
    ensures SplitExt(ReportFilename(category, marketplace, root + ext)) == (category + " на " + marketplace, ext)
  {
    SplitExtAppend(root, ext, j);
    var stem := category + " на " + marketplace;
    assert ReportFilename(category, marketplace, root + ext) == stem + ext;
    assert stem[|category|] == ' ';
    assert '/' !in stem by { NoSlashJoin(category, marketplace, stem); }
    SplitExtStem(stem, ext, |category|);
  }

  /** As written, the name the report is offered under keeps a stray dot before its extension. */
  lemma ReportFilenameAsWrittenStrayDot(category: string, marketplace: string, root: string, ext: string, j: nat)
    requires IsExtension(ext)
    requires j < |root| && RFind(root, '/') < j && root[j] != '.'
    requires '/' !in category && '/' !in marketplace
    ensures SplitExt(ReportFilenameAsWritten(category, marketplace, root + ext)) == (category + " на " + marketplace + ".", ext)
  {
    SplitExtAppend(root, ext, j);
    var stem := category + " на " + marketplace + ".";
    assert ReportFilenameAsWritten(category, marketplace, root + ext) == stem + ext;
    assert stem[|category|] == ' ';
    assert '/' !in stem by { NoSlashJoin(category, marketplace, stem); }
    SplitExtStem(stem, ext, |category|);
  }

  /** A PDF report of the category `Сумки` from Wildberries is offered, as written, as `Сумки на Wildberries..pdf`. */
  lemma ReportFilenameDoubleDot()
    ensures ReportFilenameAsWritten("Сумки", "Wildberries", "/r.pdf") == "Сумки на Wildberries..pdf"
  {
    ReportPathSplits();
  }

  /** Corrected, the same report is offered as `Сумки на Wildberries.pdf`. */
  lemma ReportFilenameSingleDot()
    ensures ReportFilename("Сумки", "Wildberries", "/r.pdf") == "Сумки на Wildberries.pdf"
  {
    ReportPathSplits();
  }

  lemma ReportPathSplits()
    ensures SplitExt("/r.pdf") == ("/r", ".pdf")
  {
    assert "/r.pdf" == "/r" + ".pdf";
    assert RFind("/r", '/') == 0;
    assert IsExtension(".pdf");
    SplitExtAppend("/r", ".pdf", 1);
  }

  /**
   * `calculate_category_stats(job_id, chat_id)` on its `attempt`-th run
   * (`self.request.retries`). The job key is classified by
   * `DetectMpByJobId` with the two spider ids; `load` and `stats` are
   * what the loader and the statistics give; `summary` is the summary
   * text; `reportPath` is the rendered report's path and `documentSent`
   * whether the bot accepted it. The document goes out under the name the
   * code offers, `ReportFilenameAsWritten`, stray dot included (see
   * `ReportFilenameAsWrittenStrayDot`; `ReportFilename` is the corrected
   * name).
   */
  method CalculateCategoryStats(jobId: string, wbSpider: string, ozonSpider: string, chatId: int, attempt: nat,
                                load: Load, stats: Stats, summary: string, reportPath: string, documentSent: bool,
                                calls: StatsCalls)
    returns (trace: seq<Effect>)
    ensures DetectMpByJobId(jobId, wbSpider, ozonSpider).Err? ==> trace == [Fail]
    ensures DetectMpByJobId(jobId, wbSpider, ozonSpider).Ok? && load == LoadFailed ==> trace == [Fail]
    ensures DetectMpByJobId(jobId, wbSpider, ozonSpider).Ok? && load == NotReady ==>
      trace == (if attempt < MaxRetries then [Retry(RetryDelay)] else [Fail])
    ensures DetectMpByJobId(jobId, wbSpider, ozonSpider).Ok? && load == Loaded && stats == StatsFailed ==> trace == [Fail]
    ensures DetectMpByJobId(jobId, wbSpider, ozonSpider).Ok? && load == Loaded && stats == BadDataSet ==>
      && trace == (if calls.apology then [SendMessage(chatId, BadDataText, None)] else [Fail])
      && TallyOf(trace).documents == 0 && TallyOf(trace).countMessages == 0 && TallyOf(trace).tracks == 0
    ensures DetectMpByJobId(jobId, wbSpider, ozonSpider).Ok? && load == Loaded && stats.Stats? && !calls.summary ==>
      trace == [Fail]
    ensures DetectMpByJobId(jobId, wbSpider, ozonSpider).Ok? && load == Loaded && stats.Stats? && calls.summary ==>
      var mp := DetectMpByJobId(jobId, wbSpider, ozonSpider).value;
      var document := if documentSent
                      then [SendDocument(chatId, ReportCaption,
                                         ReportFilenameAsWritten(stats.categoryName, OrNone(mp.DisplayName()), reportPath))]
                      else [];
      var done := calls.countMessage && calls.track;
      && trace == ReportTrace(chatId, summary, document, "Received " + OrNone(mp.Slug()) + " category analyses", calls)
      && TallyOf(trace) == NoEffects.(messages := 1, documents := if documentSent then 1 else 0,
                                      countMessages := if calls.countMessage then 1 else 0,
                                      tracks := if done then 1 else 0, fails := if done then 0 else 1)
  {
    var marketplace := DetectMpByJobId(jobId, wbSpider, ozonSpider);
    if marketplace.Err? {
      return [Fail];
    }
    var mp := marketplace.value;

    if load == LoadFailed {
      return [Fail];
    }
    if load == NotReady {
      if attempt < MaxRetries {
        return [Retry(RetryDelay)];
      }
      return [Fail];
    }

    if stats == StatsFailed {
      return [Fail];
    }
    if stats == BadDataSet {
      if !calls.apology {
        return [Fail];
      }
      TallySnoc([], SendMessage(chatId, BadDataText, None));
      trace := [] + [SendMessage(chatId, BadDataText, None)];
      return;
    }

    if !calls.summary {
      return [Fail];
    }
    // try: send the report; an error is only logged
    var document := [];
    if documentSent {
      var filename := ReportFilenameAsWritten(stats.categoryName, OrNone(mp.DisplayName()), reportPath);
      document := [SendDocument(chatId, ReportCaption, filename)];
    }
    // the count message, then the tracking event; either call may raise
    var event := "Received " + OrNone(mp.Slug()) + " category analyses";
    trace := ReportTrace(chatId, summary, document, event, calls);
    ReportTraceTally(chatId, summary, document, event, calls);
  }
}
