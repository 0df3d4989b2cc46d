/** Webhook delivery: bounded attempts with capped exponential backoff, then a dead letter. */
module Webhooks {
  import opened Records

  // Durations in nanoseconds: u64::MAX seconds and 999,999,999 nanoseconds at most.
  const DURATION_MAX: nat := 0xFFFF_FFFF_FFFF_FFFF * 1_000_000_000 + 999_999_999

  function Pow2(n: nat): (p: nat)
    ensures p >= 1
  {
    if n == 0 then 1 else 2 * Pow2(n - 1)
  }

  /** `1_u32.checked_shl`. */
  function CheckedShl32(shift: nat): Option<nat> {
    if shift < 32 then Some(Pow2(shift) % 0x1_0000_0000) else None
  }

  function Multiplier(attempt: nat): nat
    requires attempt >= 1
  {
    var shift := if attempt - 1 < 16 then attempt - 1 else 16;
    match CheckedShl32(shift)
    case Some(multiplier) => multiplier
    case None => 1
  }

  function SaturatingMul(duration: nat, multiplier: nat): nat {
    if duration * multiplier <= DURATION_MAX then duration * multiplier else DURATION_MAX
  }

  function BackoffDelay(initial: nat, attempt: nat): nat
    requires attempt >= 1
  {
    SaturatingMul(initial, Multiplier(attempt))
  }

  // ----- delivery -----

  /** At least one attempt, as the constructor clamps it. */
  type Attempts = n: nat | n >= 1 witness 1

  datatype WebhookEvent = WebhookEvent(eventId: nat, createdAt: Stamp, job: JobRecord)

  /** One HTTP request: the event, and the attempt number in its header. */
  datatype Request = Request(event: WebhookEvent, attempt: nat)

  datatype Outcome = Sent | SendFailed(message: string)

  /**
   * What the outside world contributes to one delivery: the event's id and clock
   * readings, how the endpoint treats each attempt, and what appending a dead letter
   * would report.
   */
  datatype Endpoint = Endpoint(
    eventId: nat, createdAt: Stamp, failedAt: Stamp, answer: nat -> Outcome, appendError: Option<string>)

  datatype DeadLetter = DeadLetter(event: WebhookEvent, attempts: nat, failedAt: Stamp, error: string)

  datatype Delivery =
    | Skipped
    | Delivered(eventId: nat, attempts: nat)
    | Undelivered(eventId: nat, attempts: nat, error: string)
    | DeadLetterFailed(eventId: nat, attempts: nat, error: string, deadLetterError: string)

  /** The last attempt made: the first that succeeds, or else the last allowed. */
  function LastAttempt(answer: nat -> Outcome, attempt: nat, max: nat): (last: nat)
    requires attempt <= max
    ensures attempt <= last <= max
    ensures forall earlier :: attempt <= earlier < last ==> answer(earlier).SendFailed?
    ensures answer(last).Sent? || last == max
    decreases max - attempt
  {
    if answer(attempt).Sent? || attempt == max then attempt else LastAttempt(answer, attempt + 1, max)
  }

  /** Requests 1 to `n`, all for one event. */
  function Requests(event: WebhookEvent, n: nat): seq<Request> {
    seq(n, k requires 0 <= k => Request(event, k + 1))
  }

  function EventOf(record: JobRecord, endpoint: Endpoint): WebhookEvent {
    WebhookEvent(endpoint.eventId, endpoint.createdAt, record)
  }

  /** Everything one delivery sends; nothing without a URL. */
  function RequestsFor(record: JobRecord, endpoint: Endpoint, max: Attempts): seq<Request> {
    if record.submission.webhookUrl.None? then []
    else Requests(EventOf(record, endpoint), LastAttempt(endpoint.answer, 1, max))
  }

  /** The pauses after failed attempts 1 to `n`. */
  function Waits(initial: nat, n: nat): seq<nat> {
    if initial == 0 then [] else seq(n, k requires 0 <= k < n => BackoffDelay(initial, k + 1))
  }

  class WebhookClient {
    const maxAttempts: Attempts
    const initialBackoff: nat
    // What the outside world has seen of this client.
    var requests: seq<Request>
    var sleeps: seq<nat>
    var deadLetters: seq<DeadLetter>
    var failures: nat

    constructor (maxAttempts: nat, initialBackoff: nat)
      ensures this.maxAttempts == if maxAttempts >= 1 then maxAttempts else 1
      ensures this.initialBackoff == initialBackoff
      ensures requests == [] && sleeps == [] && deadLetters == [] && failures == 0
    {
      this.maxAttempts := if maxAttempts >= 1 then maxAttempts else 1;
      this.initialBackoff := initialBackoff;
      requests, sleeps, deadLetters, failures := [], [], [], 0;
    }

    method Deliver(record: JobRecord, endpoint: Endpoint) returns (delivery: Delivery)
      modifies this`requests, this`sleeps, this`deadLetters
      ensures record.submission.webhookUrl.None? ==>
                delivery == Skipped && sleeps == old(sleeps) && deadLetters == old(deadLetters)
      ensures requests == old(requests) + RequestsFor(record, endpoint, maxAttempts)
      ensures record.submission.webhookUrl.Some? ==>
                var Endpoint(eventId, _, failedAt, answer, appendError) := endpoint;
                var last := LastAttempt(answer, 1, maxAttempts);
                && sleeps == old(sleeps) + Waits(initialBackoff, last - 1)
                && match answer(last)
                   case Sent => delivery == Delivered(eventId, last) && deadLetters == old(deadLetters)
                   case SendFailed(error) =>
                     && last == maxAttempts
                     && match appendError
                        case None =>
                          && delivery == Undelivered(eventId, maxAttempts, error)
                          && deadLetters == old(deadLetters) +
                               [DeadLetter(WebhookEvent(eventId, endpoint.createdAt, record), maxAttempts, failedAt, error)]
                        case Some(appending) =>
                          && delivery == DeadLetterFailed(eventId, maxAttempts, error, appending)
                          && deadLetters == old(deadLetters)
    {
      if record.submission.webhookUrl.None? {
        return Skipped;
      }
      var eventId, answer := endpoint.eventId, endpoint.answer;
      var event := EventOf(record, endpoint);
      var lastError: Option<string> := None;
      var attempt := 1;
      while attempt <= maxAttempts
        invariant 1 <= attempt <= maxAttempts + 1
        invariant deadLetters == old(deadLetters)
        invariant requests == old(requests) + Requests(event, attempt - 1)
        invariant sleeps == old(sleeps) + Waits(initialBackoff, if attempt <= maxAttempts then attempt - 1 else maxAttempts - 1)
        invariant attempt <= maxAttempts ==> LastAttempt(answer, 1, maxAttempts) == LastAttempt(answer, attempt, maxAttempts)
        invariant attempt > maxAttempts ==>
                    && LastAttempt(answer, 1, maxAttempts) == maxAttempts
                    && answer(maxAttempts).SendFailed? && lastError == Some(answer(maxAttempts).message)
      {
        requests := requests + [Request(event, attempt)];
        RequestsSnoc(event, attempt);
        match answer(attempt) {
          case Sent =>
            return Delivered(eventId, attempt);
          case SendFailed(message) =>
            lastError := Some(message);
            if attempt < maxAttempts && initialBackoff != 0 {
              sleeps := sleeps + [BackoffDelay(initialBackoff, attempt)];
            }
            if attempt < maxAttempts {
              WaitsSnoc(initialBackoff, attempt);
            }
        }
        attempt := attempt + 1;
      }
      var error := if lastError.Some? then lastError.value else "webhook delivery failed";
      delivery := GiveUp(record, endpoint, error);
    }

    /** After the last failed attempt: a dead letter, or a report that it could not be written. */
    method GiveUp(record: JobRecord, endpoint: Endpoint, error: string) returns (delivery: Delivery)
      modifies this`deadLetters
      ensures match endpoint.appendError
              case None =>
                && delivery == Undelivered(endpoint.eventId, maxAttempts, error)
                && deadLetters
                   == old(deadLetters) + [DeadLetter(EventOf(record, endpoint), maxAttempts, endpoint.failedAt, error)]
              case Some(appending) =>
                && delivery == DeadLetterFailed(endpoint.eventId, maxAttempts, error, appending)
                && deadLetters == old(deadLetters)
    {
      match endpoint.appendError {
        case None =>
          deadLetters := deadLetters + [DeadLetter(EventOf(record, endpoint), maxAttempts, endpoint.failedAt, error)];
          delivery := Undelivered(endpoint.eventId, maxAttempts, error);
        case Some(appending) =>
          delivery := DeadLetterFailed(endpoint.eventId, maxAttempts, error, appending);
      }
    }

    /** `send_webhook`: only an undelivered event counts as a failure. */
    method SendWebhook(record: JobRecord, endpoint: Endpoint)
      modifies this
      ensures requests == old(requests) + RequestsFor(record, endpoint, maxAttempts)
      ensures failures == old(failures) +
                (if record.submission.webhookUrl.Some?
                    && (forall attempt :: 1 <= attempt <= maxAttempts ==> endpoint.answer(attempt).SendFailed?) then 1 else 0)
    {
      var delivery := Deliver(record, endpoint);
      match delivery {
        case Skipped =>
        case Delivered(_, attempts) =>
          assert endpoint.answer(attempts).Sent?;
        case Undelivered(_, _, _) =>
          failures := failures + 1;
        case DeadLetterFailed(_, _, _, _) =>
          failures := failures + 1;
      }
    }
  }

  lemma RequestsSnoc(event: WebhookEvent, n: nat)
    requires n >= 1
    ensures Requests(event, n) == Requests(event, n - 1) + [Request(event, n)]
  {
  }

  lemma WaitsSnoc(initial: nat, n: nat)
    requires n >= 1
    ensures Waits(initial, n) == Waits(initial, n - 1) + (if initial == 0 then [] else [BackoffDelay(initial, n)])
  {
  }

  // ----- how long the waits are -----

  lemma {:induction false} Pow2Grows(a: nat, b: nat)
    requires a <= b
    ensures Pow2(a) <= Pow2(b)
  {
    if a < b {
      Pow2Grows(a, b - 1);
    }
  }

  lemma Pow2Of16()
    ensures Pow2(16) == 65536
  {
    assert Pow2(4) == 16;
    assert Pow2(8) == 256;
    assert Pow2(12) == 4096;
  }

  /** The shift never overflows: the fallback of the checked shift is dead. */
  lemma MultiplierIsPower(attempt: nat)
    requires attempt >= 1
    ensures Multiplier(attempt) == if attempt <= 17 then Pow2(attempt - 1) else 65536
    ensures 1 <= Multiplier(attempt) <= 65536
  {
    Pow2Of16();
    if attempt <= 17 {
      Pow2Grows(attempt - 1, 16);
    }
  }

  lemma ScaleMonotone(initial: nat, a: nat, b: nat)
    requires a <= b
    ensures initial * a <= initial * b
    ensures SaturatingMul(initial, a) <= SaturatingMul(initial, b) <= initial * b
  {
    assert initial * b - initial * a == initial * (b - a);
  }

  /** Delays never shrink, never exceed 65,536 times the first, and never exceed the largest duration. */
  lemma DelaysGrowToACap(initial: nat, a: nat, b: nat)
    requires 1 <= a <= b
    ensures BackoffDelay(initial, a) <= BackoffDelay(initial, b) <= 65536 * initial
    ensures BackoffDelay(initial, b) <= DURATION_MAX
    ensures initial <= DURATION_MAX ==> BackoffDelay(initial, 1) == initial
  {
    MultiplierIsPower(1);
    MultiplierIsPower(a);
    MultiplierIsPower(b);
    if b <= 17 {
      Pow2Grows(a - 1, b - 1);
    }
    ScaleMonotone(initial, Multiplier(a), Multiplier(b));
    ScaleMonotone(initial, Multiplier(b), 65536);
  }

  function Sum(waits: seq<nat>): nat {
    if waits == [] then 0 else Sum(waits[..|waits| - 1]) + waits[|waits| - 1]
  }

  /** The sum of the first `n` multipliers in closed form. */
  function Units(n: nat): nat {
    if n <= 17 then Pow2(n) - 1 else 131071 + 65536 * (n - 17)
  }

  lemma UnitsStep(n: nat)
    requires n >= 1
    ensures Units(n) == Units(n - 1) + Multiplier(n)
  {
    MultiplierIsPower(n);
    Pow2Of16();
    assert Pow2(17) == 2 * Pow2(16);
  }

  /** Total backoff over `n` pauses, as long as no delay saturates. */
  lemma {:induction false} TotalBackoff(initial: nat, n: nat)
    requires 65536 * initial <= DURATION_MAX
    ensures Sum(Waits(initial, n)) == initial * Units(n)
  {
    if n == 0 {
      assert Waits(initial, 0) == [];
    } else {
      TotalBackoff(initial, n - 1);
      WaitsSnoc(initial, n);
      UnitsStep(n);
      MultiplierIsPower(n);
      ScaleMonotone(initial, Multiplier(n), 65536);
      Distribute(initial, Units(n - 1), Multiplier(n));
      if initial != 0 {
        assert Waits(initial, n)[..|Waits(initial, n)| - 1] == Waits(initial, n - 1);
      }
    }
  }

  lemma Distribute(x: nat, a: nat, b: nat)
    ensures x * (a + b) == x * a + x * b
  {
  }

  /** What one delivery sends: attempts 1, 2, ..., all of one event that carries exactly this record. */
  lemma RequestsMeaning(record: JobRecord, endpoint: Endpoint, max: Attempts, k: nat)
    requires record.submission.webhookUrl.Some?
    ensures |RequestsFor(record, endpoint, max)| == LastAttempt(endpoint.answer, 1, max)
    ensures k < |RequestsFor(record, endpoint, max)| ==>
              var request := RequestsFor(record, endpoint, max)[k];
              && request.attempt == k + 1 && request.event.eventId == endpoint.eventId
              && request.event.job == record && request.event.createdAt == endpoint.createdAt
  {
  }

  /** The pauses: one after each failed attempt but the last, each the doubled delay up to the caps. */
  lemma WaitsMeaning(initial: nat, n: nat, k: nat)
    requires k < n
    ensures |Waits(initial, n)| == if initial == 0 then 0 else n
    ensures initial > 0 ==>
              var full := initial * (if k < 16 then Pow2(k) else 65536);
              Waits(initial, n)[k] == if full <= DURATION_MAX then full else DURATION_MAX
  {
    MultiplierIsPower(k + 1);
    Pow2Of16();
  }
}
