/** One item of a job: phone normalisation, the client readiness check, the
    optional PDF personalisation, the send, the per-item result and events,
    and the randomized delay that follows a dispatched item. */
module Items {
  import opened Utilities
  import opened Channel

  type JobId = string

  /** A send item as submitted. A string field that is "" stands for a
      missing, null or empty value. */
  datatype Item = Item(
    phone: string,
    message: string,
    mediaPath: string,
    mediaUrl: string,
    name: string,
    fileName: string,
    fileIndex: Option<int>)

  /** A per-item result as pushed onto job.results. An error result keeps the
      raw phone, and neither an error nor a failed result carries an index. */
  datatype ItemResult =
    | Sent(phone: string, index: nat)
    | Failed(phone: string, error: string)
    | Error(phone: string, error: string)

  datatype ItemStatus = SentStatus | FailedStatus | ErrorStatus

  /** A payload emitted on the job's topic. */
  datatype Event =
    | QueuedEvent(jobId: JobId, total: nat)
    | StartedEvent(jobId: JobId, total: nat)
    | ItemEvent(jobId: JobId, index: nat, status: ItemStatus, phone: string)
    | DelayEvent(jobId: JobId, ms: int)
    | FinishedEvent(jobId: JobId, results: seq<ItemResult>)

  /** MIN_DELAY_MS, MAX_DELAY_MS, RETRIES and UPLOAD_DIR. */
  datatype Config = Config(minDelayMs: int, maxDelayMs: int, retries: nat, uploadDir: string)

  /** The arguments of the PDF personalisation call. */
  datatype PdfRequest = PdfRequest(template: string, name: string, message: string,
                                   page: nat, outputDir: string)

  /** The two points at which a sweep saves the jobs file. */
  datatype Phase = AtStart | AtFinish

  /** Everything the dispatcher learns from outside: whether the client is
      ready when an item is reached, what the PDF personaliser returns (None:
      it threw), how each send attempt ends, the random draw of each delay,
      whether the polling timer fires while an item's delay is awaited,
      whether a save of the jobs file succeeds, and the clock. */
  datatype Env = Env(
    clientReady: (JobId, nat) -> bool,
    personalize: (JobId, nat, PdfRequest) -> Option<string>,
    attempts: (JobId, nat) -> (nat -> Attempt),
    delayDraw: (JobId, nat) -> Fraction,
    timerFires: (JobId, nat) -> bool,
    saveOk: (JobId, Phase) -> bool,
    clock: (JobId, Phase) -> string)

  const InvalidPhone := "Invalid phone"
  const NotReady := "WA client not ready"
  const PdfTemplate := "Simat Vidhi Pandav Parivar.pdf"
  const PdfPage: nat := 2

  /** The outcome of one item: its result and the events emitted for it. */
  datatype ItemStep = ItemStep(result: ItemResult, events: seq<Event>)

  function StatusOf(r: ItemResult): ItemStatus
  {
    match r
    case Sent(_, _) => SentStatus
    case Failed(_, _) => FailedStatus
    case Error(_, _) => ErrorStatus
  }

  /** it.mediaPath || it.mediaUrl || null */
  function MediaRef(it: Item): ContentRef
  {
    if it.mediaPath != "" then Str(it.mediaPath)
    else if it.mediaUrl != "" then Str(it.mediaUrl)
    else Absent
  }

  /** it.name || caption || phone */
  function NameForPdf(it: Item, phone: string): string
  {
    if it.name != "" then it.name else if it.message != "" then it.message else phone
  }

  function PdfRequestFor(cfg: Config, it: Item, phone: string): PdfRequest
  {
    PdfRequest(PdfTemplate, NameForPdf(it, phone), it.message, PdfPage, cfg.uploadDir)
  }

  /** The reference handed to sendMediaTo: a reference ending in ".pdf" is
      replaced by the personalised file, or kept when personalisation threw. */
  function FileToSend(cfg: Config, env: Env, id: JobId, i: nat, it: Item, phone: string): ContentRef
  {
    var ref := MediaRef(it);
    if ref.Str? && EndsWith(ref.s, ".pdf") then
      match env.personalize(id, i, PdfRequestFor(cfg, it, phone))
      case Some(path) => Str(path)
      case None => ref
    else ref
  }

  /** The result of an item whose phone normalised to something: the
      readiness check (outside the retry loop), then sendMediaTo with an
      empty caption. */
  function Dispatched(cfg: Config, env: Env, id: JobId, i: nat, it: Item, phone: string): ItemResult
  {
    if !env.clientReady(id, i) then Failed(phone, NotReady)
    else
      match SendSpec(cfg.retries, ToChatId(phone), FileToSend(cfg, env, id, i, it, phone), "",
                     env.attempts(id, i))
      case Delivered(_, _, _) => Sent(phone, i)
      case Exhausted(e, _) => Failed(phone, e)
  }

  /** One pass of the item loop body for item number i of job id. */
  function ProcessItem(cfg: Config, env: Env, id: JobId, i: nat, it: Item): ItemStep
  {
    var phone := Digits(it.phone);
    if phone == "" then
      ItemStep(Error(it.phone, InvalidPhone), [ItemEvent(id, i, ErrorStatus, phone)])
    else
      var r := Dispatched(cfg, env, id, i, it, phone);
      var d := RandDelay(cfg.minDelayMs, cfg.maxDelayMs, env.delayDraw(id, i));
      ItemStep(r, [ItemEvent(id, i, StatusOf(r), phone), DelayEvent(id, d)])
  }

  /** What every item yields: an error result exactly when the phone has no
      digit, with the raw phone and no delay; otherwise a result for the
      normalised phone followed by one delay within the configured bounds.
      A sent result carries the item's index, and the item event reports
      the result's status. */
  lemma ProcessItemOutcome(cfg: Config, env: Env, id: JobId, i: nat, it: Item)
    ensures var step := ProcessItem(cfg, env, id, i, it);
      && (step.result.Error? <==> Digits(it.phone) == "")
      && (step.result.Error? ==>
            step.result == Error(it.phone, InvalidPhone) && |step.events| == 1)
      && (!step.result.Error? ==>
            && step.result.phone == Digits(it.phone)
            && |step.events| == 2
            && step.events[1].DelayEvent? && step.events[1].jobId == id
            && (cfg.minDelayMs <= cfg.maxDelayMs ==>
                  cfg.minDelayMs <= step.events[1].ms <= cfg.maxDelayMs))
      && (step.result.Sent? ==> step.result.index == i)
      && step.events[0] == ItemEvent(id, i, StatusOf(step.result), Digits(it.phone))
  {
  }

  /** A phone without digits is an input error: nothing is sent, the client
      and the other oracles are never consulted, and no delay follows. */
  lemma InvalidPhoneSkipsItem(cfg: Config, env: Env, env': Env, id: JobId, i: nat, it: Item)
    requires forall k :: 0 <= k < |it.phone| ==> !IsDigit(it.phone[k])
    ensures ProcessItem(cfg, env, id, i, it)
            == ItemStep(Error(it.phone, InvalidPhone), [ItemEvent(id, i, ErrorStatus, "")])
    ensures ProcessItem(cfg, env, id, i, it) == ProcessItem(cfg, env', id, i, it)
  {
    DigitsEmptyIff(it.phone);
  }

  /** A client that is not ready fails the item at once: the readiness check
      sits outside the retry loop, so no attempt is consumed and the
      attempt oracle does not matter. */
  lemma NotReadyConsumesNoAttempt(cfg: Config, env: Env, id: JobId, i: nat, it: Item,
                                  other: nat -> Attempt)
    requires Digits(it.phone) != ""
    requires !env.clientReady(id, i)
    ensures ProcessItem(cfg, env, id, i, it).result == Failed(Digits(it.phone), NotReady)
    ensures ProcessItem(cfg, env, id, i, it)
            == ProcessItem(cfg, env.(attempts := (_, _) => other), id, i, it)
  {
  }

  /** With a valid phone and a ready client the item is sent exactly when one
      of the RETRIES + 1 attempts is acknowledged; otherwise it fails with
      the error of the last attempt, after every attempt failed. */
  lemma ReadyItemOutcome(cfg: Config, env: Env, id: JobId, i: nat, it: Item)
    requires Digits(it.phone) != ""
    requires env.clientReady(id, i)
    ensures var r := ProcessItem(cfg, env, id, i, it).result;
      && (r.Sent? <==> exists a :: 0 <= a <= cfg.retries && env.attempts(id, i)(a) == Acked)
      && (r.Failed? ==>
            && (forall a :: 0 <= a <= cfg.retries ==> env.attempts(id, i)(a).Threw?)
            && r.error == env.attempts(id, i)(cfg.retries).message)
  {
    var phone := Digits(it.phone);
    var ref := FileToSend(cfg, env, id, i, it, phone);
    SendSucceedsIff(cfg.retries, ToChatId(phone), ref, "", env.attempts(id, i));
    SendSpecCharacterized(cfg.retries, ToChatId(phone), ref, "", env.attempts(id, i));
  }

  /** The loop body as a value: job id, item number and item to the item's
      step. The loop functions below take it as a parameter, so that what
      is said about the loop holds whatever one item does. */
  type Stepper = (JobId, nat, Item) -> ItemStep

  /** The dispatcher's loop body, ProcessItem under a configuration and an
      environment. */
  function ItemStepper(cfg: Config, env: Env): Stepper
  {
    (id: JobId, i: nat, it: Item) => ProcessItem(cfg, env, id, i, it)
  }

  /** The results of the first n items of a job, in item order. */
  function ResultsFor(step: Stepper, id: JobId, items: seq<Item>, n: nat): (rs: seq<ItemResult>)
    requires n <= |items|
    ensures |rs| == n
  {
    if n == 0 then []
    else ResultsFor(step, id, items, n - 1) + [step(id, n - 1, items[n - 1]).result]
  }

  /** The events emitted for the first n items of a job, in item order. */
  function EventsFor(step: Stepper, id: JobId, items: seq<Item>, n: nat): seq<Event>
    requires n <= |items|
  {
    if n == 0 then []
    else EventsFor(step, id, items, n - 1) + step(id, n - 1, items[n - 1]).events
  }

  /** What the item loop of one job yields: its results and its events. */
  datatype ItemsRun = ItemsRun(results: seq<ItemResult>, events: seq<Event>)

  /** The item loop of processJobs over every item of job id. */
  function RunItems(cfg: Config, env: Env, id: JobId, items: seq<Item>): (r: ItemsRun)
  {
    var step := ItemStepper(cfg, env);
    ItemsRun(ResultsFor(step, id, items, |items|), EventsFor(step, id, items, |items|))
  }

  /** The item loop as a value, for the sweep functions, which only need to
      know that it yields one result per item. */
  function ItemRunner(cfg: Config, env: Env): (run: (JobId, seq<Item>) -> ItemsRun)
    ensures forall id, items :: |run(id, items).results| == |items|
  {
    (id, items) => RunItems(cfg, env, id, items)
  }

  /** Exactly one result per item, in item order: result k is item k's. */
  lemma {:induction false} ResultsForAt(step: Stepper, id: JobId, items: seq<Item>, n: nat, k: nat)
    requires k < n <= |items|
    ensures ResultsFor(step, id, items, n)[k] == step(id, k, items[k]).result
  {
    if k < n - 1 {
      ResultsForAt(step, id, items, n - 1, k);
    }
  }

  /** A sent result sits at the position of its item and names it; so no two
      sent results share an index and every index is below the item count. */
  lemma SentIndexIsPosition(cfg: Config, env: Env, id: JobId, items: seq<Item>, k: nat)
    requires k < |items|
    ensures var rs := RunItems(cfg, env, id, items).results;
      rs[k].Sent? ==> rs[k].index == k < |items|
  {
    ResultsForAt(ItemStepper(cfg, env), id, items, |items|, k);
    ProcessItemOutcome(cfg, env, id, k, items[k]);
  }

  function CountDelays(evs: seq<Event>): nat
  {
    if evs == [] then 0
    else CountDelays(evs[..|evs| - 1]) + (if evs[|evs| - 1].DelayEvent? then 1 else 0)
  }

  lemma {:induction false} CountDelaysAppend(a: seq<Event>, b: seq<Event>)
    ensures CountDelays(a + b) == CountDelays(a) + CountDelays(b)
    decreases |b|
  {
    if b == [] {
      assert a + b == a;
    } else {
      assert (a + b)[..|a + b| - 1] == a + b[..|b| - 1];
      CountDelaysAppend(a, b[..|b| - 1]);
    }
  }

  /** The number of items among the first n whose phone has a digit. */
  function DispatchedCount(items: seq<Item>, n: nat): nat
    requires n <= |items|
  {
    if n == 0 then 0
    else DispatchedCount(items, n - 1) + (if Digits(items[n - 1].phone) != "" then 1 else 0)
  }

  /** An item is followed by one delay when its phone has a digit, and by
      none otherwise. */
  lemma StepDelays(cfg: Config, env: Env, id: JobId, i: nat, it: Item)
    ensures CountDelays(ProcessItem(cfg, env, id, i, it).events)
            == if Digits(it.phone) != "" then 1 else 0
  {
    var evs := ProcessItem(cfg, env, id, i, it).events;
    assert evs[..0] == [];
    ProcessItemOutcome(cfg, env, id, i, it);
    if Digits(it.phone) != "" {
      var head := evs[..1];
      assert head[..0] == [] && head[0] == evs[0];
      assert CountDelays(head) == 0;
    }
  }

  /** One delay follows every item that was not skipped for an invalid
      phone, and none follows a skipped one. */
  lemma {:induction false} DelaysMatchDispatchedItems(cfg: Config, env: Env, id: JobId, items: seq<Item>, n: nat)
    requires n <= |items|
    ensures CountDelays(EventsFor(ItemStepper(cfg, env), id, items, n)) == DispatchedCount(items, n)
  {
    if n > 0 {
      var body := ItemStepper(cfg, env);
      var last := ProcessItem(cfg, env, id, n - 1, items[n - 1]);
      assert body(id, n - 1, items[n - 1]) == last;
      DelaysMatchDispatchedItems(cfg, env, id, items, n - 1);
      StepDelays(cfg, env, id, n - 1, items[n - 1]);
      CountDelaysAppend(EventsFor(body, id, items, n - 1), last.events);
    }
  }

  /** The loop body of processJobs for item i: normalise, check the phone,
      check readiness, personalise a PDF, send, record, then draw the delay. */
  method DispatchItem(cfg: Config, env: Env, id: JobId, i: nat, it: Item) returns (step: ItemStep)
    ensures step == ProcessItem(cfg, env, id, i, it)
  {
    var phone := Digits(it.phone);
    var mediaRef := MediaRef(it);
    if phone == "" {
      step := ItemStep(Error(it.phone, InvalidPhone), [ItemEvent(id, i, ErrorStatus, phone)]);
      return;
    }
    var chatId := ToChatId(phone);
    var result: ItemResult;
    if !env.clientReady(id, i) {
      result := Failed(phone, NotReady);
    } else {
      var fileToSend := mediaRef;
      if mediaRef.Str? && EndsWith(mediaRef.s, ".pdf") {
        var personalized := env.personalize(id, i, PdfRequestFor(cfg, it, phone));
        if personalized.Some? {
          fileToSend := Str(personalized.value);
        } else {
          fileToSend := mediaRef;
        }
      }
      var sent := SendMediaTo(cfg.retries, chatId, fileToSend, "", env.attempts(id, i));
      if sent.Delivered? {
        result := Sent(phone, i);
      } else {
        result := Failed(phone, sent.error);
      }
    }
    var d := RandDelay(cfg.minDelayMs, cfg.maxDelayMs, env.delayDraw(id, i));
    step := ItemStep(result, [ItemEvent(id, i, StatusOf(result), phone), DelayEvent(id, d)]);
  }
}
