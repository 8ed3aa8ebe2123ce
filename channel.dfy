/** The dispatch channel adapter: sendMediaTo routes a content reference to one
    of the client's send calls and retries a failing send a fixed number of
    times, rethrowing the last error. The client, the URL fetch and the file
    read are reduced to an oracle that says how each attempt ends. */
module Channel {
  import opened Utilities

  /** A MessageMedia object: content already resolved to bytes and a type. */
  datatype Media = Media(mimeType: string, base64: string)

  /** What sendMediaTo receives as mediaRef. Absent stands for every falsy
      value (undefined, null); Str("") is falsy as well. Other is a truthy
      value that is neither a string nor a MessageMedia. */
  datatype ContentRef = Absent | Str(s: string) | Resolved(media: Media) | Other

  /** The client call an attempt makes. */
  datatype Payload =
    | Text(body: string)
    | UrlMedia(url: string, caption: string)
    | FileMedia(path: string, caption: string)
    | MediaObject(media: Media, caption: string)

  /** How one attempt ends: the client acknowledged, or something in the
      attempt (fetch, file read, send) threw an error with this message. */
  datatype Attempt = Acked | Threw(message: string)

  /** The result of sendMediaTo: the client's acknowledgement after
      `attempts` attempts, or the last error rethrown after `attempts`. */
  datatype SendOutcome =
    | Delivered(chatId: string, payload: Payload, attempts: nat)
    | Exhausted(error: string, attempts: nat)

  /** The routing branch of one attempt. */
  function Route(ref: ContentRef, caption: string): Payload
  {
    var text := if caption == "" then " " else caption;
    match ref
    case Absent => Text(text)
    case Str(s) =>
      if s == "" then Text(text)
      else if StartsWith(s, "http") then UrlMedia(s, caption)
      else FileMedia(s, caption)
    case Resolved(m) => MediaObject(m, caption)
    case Other => Text(text)
  }

  /** A missing or falsy reference, or one that is neither a string nor a
      MessageMedia, sends the caption as text, or " " for an empty caption,
      so the text is never empty;
      a string starting with "http" is fetched; any other non-empty string is
      a local path; a MessageMedia is sent as it is. Media keep the caption. */
  lemma RouteCases(ref: ContentRef, caption: string)
    ensures var p := Route(ref, caption);
      && (p.Text? <==> ref.Absent? || ref.Other? || ref == Str(""))
      && (p.UrlMedia? <==> ref.Str? && StartsWith(ref.s, "http"))
      && (p.FileMedia? <==> ref.Str? && ref.s != "" && !StartsWith(ref.s, "http"))
      && (p.MediaObject? <==> ref.Resolved?)
      && (p.Text? ==> p.body == (if caption == "" then " " else caption) && p.body != "")
      && (!p.Text? ==> p.caption == caption)
      && (p.UrlMedia? ==> p.url == ref.s)
      && (p.FileMedia? ==> p.path == ref.s)
      && (p.MediaObject? ==> p.media == ref.media)
  {
  }

  /** What the retry loop yields from attempt number `attempt` on. */
  function SendFrom(retries: nat, chatId: string, payload: Payload,
                    outcome: nat -> Attempt, attempt: nat): SendOutcome
    requires attempt <= retries
    decreases retries - attempt
  {
    match outcome(attempt)
    case Acked => Delivered(chatId, payload, attempt + 1)
    case Threw(m) =>
      if attempt == retries then Exhausted(m, retries + 1)
      else SendFrom(retries, chatId, payload, outcome, attempt + 1)
  }

  /** sendMediaTo(chatId, mediaRef, caption) with RETRIES = retries. */
  function SendSpec(retries: nat, chatId: string, ref: ContentRef, caption: string,
                    outcome: nat -> Attempt): SendOutcome
  {
    SendFrom(retries, chatId, Route(ref, caption), outcome, 0)
  }

  /** From attempt `attempt` on, the loop stops at the first acknowledged
      attempt, and gives up only after attempt number `retries` failed. */
  lemma {:induction false} SendFromCharacterized(retries: nat, chatId: string, payload: Payload,
                                                 outcome: nat -> Attempt, attempt: nat)
    requires attempt <= retries
    ensures var res := SendFrom(retries, chatId, payload, outcome, attempt);
      && attempt < res.attempts <= retries + 1
      && (forall a :: attempt <= a < res.attempts - 1 ==> outcome(a).Threw?)
      && (res.Delivered? ==>
            outcome(res.attempts - 1) == Acked && res.chatId == chatId && res.payload == payload)
      && (res.Exhausted? ==>
            res.attempts == retries + 1 && outcome(retries) == Threw(res.error))
    decreases retries - attempt
  {
    if outcome(attempt).Threw? && attempt < retries {
      SendFromCharacterized(retries, chatId, payload, outcome, attempt + 1);
    }
  }

  /** At most RETRIES + 1 attempts; the first acknowledged attempt ends the
      loop with the routed payload; the error is rethrown only after exactly
      RETRIES + 1 failed attempts, and it is the last attempt's error. */
  lemma SendSpecCharacterized(retries: nat, chatId: string, ref: ContentRef, caption: string,
                              outcome: nat -> Attempt)
    ensures var res := SendSpec(retries, chatId, ref, caption, outcome);
      && 1 <= res.attempts <= retries + 1
      && (forall a :: 0 <= a < res.attempts - 1 ==> outcome(a).Threw?)
      && (res.Delivered? ==>
            outcome(res.attempts - 1) == Acked && res.chatId == chatId
            && res.payload == Route(ref, caption))
      && (res.Exhausted? ==>
            res.attempts == retries + 1
            && (forall a :: 0 <= a <= retries ==> outcome(a).Threw?)
            && res.error == outcome(retries).message)
  {
    SendFromCharacterized(retries, chatId, Route(ref, caption), outcome, 0);
  }

  /** The send succeeds exactly when one of the RETRIES + 1 attempts is
      acknowledged; in particular success on the final attempt counts. */
  lemma SendSucceedsIff(retries: nat, chatId: string, ref: ContentRef, caption: string,
                        outcome: nat -> Attempt)
    ensures SendSpec(retries, chatId, ref, caption, outcome).Delivered?
            <==> exists a :: 0 <= a <= retries && outcome(a) == Acked
  {
    var res := SendSpec(retries, chatId, ref, caption, outcome);
    SendSpecCharacterized(retries, chatId, ref, caption, outcome);
    if res.Delivered? {
      assert outcome(res.attempts - 1) == Acked;
    }
  }

  /** sendMediaTo: the attempt loop. Each attempt routes the reference and
      asks the oracle how the attempt ends; an error is remembered and the
      loop goes on; after the last attempt the last error is rethrown. */
  method SendMediaTo(retries: nat, chatId: string, ref: ContentRef, caption: string,
                     outcome: nat -> Attempt) returns (res: SendOutcome)
    ensures res == SendSpec(retries, chatId, ref, caption, outcome)
  {
    var attempt := 0;
    var lastErr := "";
    while attempt <= retries
      invariant 0 <= attempt <= retries + 1
      invariant SendSpec(retries, chatId, ref, caption, outcome)
        == if attempt <= retries then SendFrom(retries, chatId, Route(ref, caption), outcome, attempt)
           else Exhausted(lastErr, retries + 1)
    {
      var payload := Route(ref, caption);
      match outcome(attempt) {
        case Acked =>
          return Delivered(chatId, payload, attempt + 1);
        case Threw(m) =>
          lastErr := m;
      }
      attempt := attempt + 1;
    }
    res := Exhausted(lastErr, retries + 1);
  }
}
