/**
 * Publication of successful withdrawals: each event is encoded to JSON,
 * queued, and whenever at least SNS_BATCH_SIZE messages are waiting they are
 * drained from the head in groups of SNS_BATCH_SIZE and sent as one batch
 * request to the topic.
 */
module SnsServices {
  import opened Wrappers

  /** Entries per publish-batch request. */
  const SNS_BATCH_SIZE: nat := 10
  /** Capacity the message queue is created with. */
  const QUEUE_CAPACITY: nat := 100
  /** The status every published event carries. */
  const SUCCESSFUL: string := "SUCCESSFUL"

  /** The event record that is serialised for each successful withdrawal. */
  datatype WithdrawalEvent = WithdrawalEvent(amount: real, accountId: int, status: string)

  /** A serialisation failure of the JSON encoder. */
  datatype JsonProcessingError = JsonProcessingError(message: string)

  /** One batch request: the queued message bodies and the topic they go to. */
  datatype PublishBatchRequest = PublishBatchRequest(entries: seq<string>, topicArn: string)

  /** Every message carried by a log of requests, in order. */
  function Entries(log: seq<PublishBatchRequest>): seq<string>
  {
    if log == [] then [] else log[0].entries + Entries(log[1..])
  }

  lemma {:induction false} EntriesAppend(a: seq<PublishBatchRequest>, b: seq<PublishBatchRequest>)
    ensures Entries(a + b) == Entries(a) + Entries(b)
  {
    if a == [] {
      assert a + b == b;
    } else {
      assert (a + b)[1..] == a[1..] + b;
      EntriesAppend(a[1..], b);
    }
  }

  lemma EntriesCons(head: PublishBatchRequest, tail: seq<PublishBatchRequest>)
    ensures Entries([head] + tail) == head.entries + Entries(tail)
  {
  }

  /** Whether every request holds exactly one full batch for the topic `arn`. */
  ghost predicate FullBatchesTo(log: seq<PublishBatchRequest>, arn: string) {
    log == [] || (|log[0].entries| == SNS_BATCH_SIZE && log[0].topicArn == arn && FullBatchesTo(log[1..], arn))
  }

  /**
   * FullBatchesTo speaks of each request in the log. No proof here needs it;
   * it shows what the recursive predicate means, position by position.
   */
  lemma {:induction false} FullBatchesAt(log: seq<PublishBatchRequest>, arn: string, i: nat)
    requires FullBatchesTo(log, arn) && i < |log|
    ensures |log[i].entries| == SNS_BATCH_SIZE && log[i].topicArn == arn
  {
    if i > 0 {
      FullBatchesAt(log[1..], arn, i - 1);
    }
  }

  lemma {:induction false} FullBatchesAppend(a: seq<PublishBatchRequest>, b: seq<PublishBatchRequest>, arn: string)
    requires FullBatchesTo(a, arn) && FullBatchesTo(b, arn)
    ensures FullBatchesTo(a + b, arn)
  {
    if a == [] {
      assert a + b == b;
    } else {
      assert (a + b)[1..] == a[1..] + b;
      FullBatchesAppend(a[1..], b, arn);
    }
  }

  /**
   * The messages left once full batches have been drained from the head of
   * `queue`; fewer than SNS_BATCH_SIZE of them.
   */
  function Remainder(queue: seq<string>): (rest: seq<string>)
    ensures |rest| < SNS_BATCH_SIZE
    decreases |queue|
  {
    if |queue| < SNS_BATCH_SIZE then queue else Remainder(queue[SNS_BATCH_SIZE..])
  }

  /**
   * The requests sent while draining `queue` down below SNS_BATCH_SIZE: one
   * per full batch, in FIFO order, each of exactly SNS_BATCH_SIZE messages
   * and addressed to `arn`.
   */
  function Batches(queue: seq<string>, arn: string): seq<PublishBatchRequest>
    decreases |queue|
  {
    if |queue| < SNS_BATCH_SIZE then []
    else [PublishBatchRequest(queue[..SNS_BATCH_SIZE], arn)] + Batches(queue[SNS_BATCH_SIZE..], arn)
  }

  /** Every drained request is a full batch for `arn`. */
  lemma {:induction false} BatchesFull(queue: seq<string>, arn: string)
    ensures FullBatchesTo(Batches(queue, arn), arn)
    decreases |queue|
  {
    if |queue| >= SNS_BATCH_SIZE {
      var head := PublishBatchRequest(queue[..SNS_BATCH_SIZE], arn);
      var tail := Batches(queue[SNS_BATCH_SIZE..], arn);
      BatchesFull(queue[SNS_BATCH_SIZE..], arn);
      assert ([head] + tail)[1..] == tail;
    }
  }

  /** A queue of p messages drains into p / SNS_BATCH_SIZE batches and leaves p % SNS_BATCH_SIZE. */
  lemma {:induction false} DrainCounts(queue: seq<string>, arn: string)
    ensures |Batches(queue, arn)| == |queue| / SNS_BATCH_SIZE
    ensures |Remainder(queue)| == |queue| % SNS_BATCH_SIZE
    decreases |queue|
  {
    if |queue| >= SNS_BATCH_SIZE {
      DrainCounts(queue[SNS_BATCH_SIZE..], arn);
    }
  }

  /** The queue's length is SNS_BATCH_SIZE per batch plus the remainder. */
  lemma {:induction false} DrainLengths(queue: seq<string>, arn: string)
    ensures |queue| == SNS_BATCH_SIZE * |Batches(queue, arn)| + |Remainder(queue)|
    decreases |queue|
  {
    if |queue| >= SNS_BATCH_SIZE {
      DrainLengths(queue[SNS_BATCH_SIZE..], arn);
    }
  }

  /** Draining loses, duplicates and reorders nothing: sent batches then the remainder give back the queue. */
  lemma {:induction false} BatchesConserve(queue: seq<string>, arn: string)
    ensures Entries(Batches(queue, arn)) + Remainder(queue) == queue
    decreases |queue|
  {
    if |queue| >= SNS_BATCH_SIZE {
      var rest := queue[SNS_BATCH_SIZE..];
      BatchesConserve(rest, arn);
      EntriesCons(PublishBatchRequest(queue[..SNS_BATCH_SIZE], arn), Batches(rest, arn));
      assert queue == queue[..SNS_BATCH_SIZE] + rest;
    }
  }

  /**
   * One queued message followed by a full drain keeps the log consistent:
   * what was sent and what waits still make up everything queued, and every
   * request is a full batch for `arn`.
   */
  lemma PublishKeepsLog(sent: seq<PublishBatchRequest>, queue: seq<string>, enqueued: seq<string>,
                        message: string, arn: string)
    requires Entries(sent) + queue == enqueued
    requires FullBatchesTo(sent, arn)
    ensures Entries(sent + Batches(queue + [message], arn)) + Remainder(queue + [message]) == enqueued + [message]
    ensures FullBatchesTo(sent + Batches(queue + [message], arn), arn)
  {
    var queued := queue + [message];
    var batches := Batches(queued, arn);
    calc {
      Entries(sent + batches) + Remainder(queued);
      { EntriesAppend(sent, batches); }
      (Entries(sent) + Entries(batches)) + Remainder(queued);
      Entries(sent) + (Entries(batches) + Remainder(queued));
      { BatchesConserve(queued, arn); }
      Entries(sent) + queued;
      (Entries(sent) + queue) + [message];
    }
    BatchesFull(queued, arn);
    FullBatchesAppend(sent, batches, arn);
  }

  class SnsService {
    /** The JSON encoder; it may fail. */
    const objectMapper: WithdrawalEvent -> Result<string, JsonProcessingError>
    /** The topic every batch is published to. */
    const arn: string
    /** Encoded messages waiting to be sent, oldest first. */
    var messageQueue: seq<string>
    /** Every batch request handed to the asynchronous client. */
    ghost var sent: seq<PublishBatchRequest>
    /** Every message ever queued. */
    ghost var enqueued: seq<string>

    ghost predicate Valid()
      reads this
    {
      && |messageQueue| < SNS_BATCH_SIZE
      && Entries(sent) + messageQueue == enqueued
      && FullBatchesTo(sent, arn)
    }

    constructor (objectMapper: WithdrawalEvent -> Result<string, JsonProcessingError>, arn: string)
      ensures Valid()
      ensures this.objectMapper == objectMapper && this.arn == arn
      ensures messageQueue == [] && sent == [] && enqueued == []
    {
      this.objectMapper := objectMapper;
      this.arn := arn;
      messageQueue := [];
      sent := [];
      enqueued := [];
    }

    /** The effect of publishing the withdrawal of `amount` from `accountId`. */
    twostate predicate PublishedWithdrawal(accountId: int, amount: real)
      reads this
    {
      match objectMapper(WithdrawalEvent(amount, accountId, SUCCESSFUL))
      case Err(_) =>
        && messageQueue == old(messageQueue)
        && sent == old(sent)
        && enqueued == old(enqueued)
      case Ok(message) =>
        var queued := old(messageQueue) + [message];
        && enqueued == old(enqueued) + [message]
        && sent == old(sent) + Batches(queued, arn)
        && messageQueue == Remainder(queued)
    }

    /** Hands one request to the asynchronous transport. */
    method PublishBatch(request: PublishBatchRequest)
      modifies this`sent
      ensures sent == old(sent) + [request]
    {
      sent := sent + [request];
    }

    method PublishWithdrawal(accountId: int, amount: real)
      requires Valid()
      modifies this
      ensures Valid()
      ensures PublishedWithdrawal(accountId, amount)
      // with |messageQueue| < SNS_BATCH_SIZE: (p + queued) / SNS_BATCH_SIZE batches go out, and
      // (p + queued) % SNS_BATCH_SIZE messages stay, for p messages waiting before the call
      ensures |old(messageQueue)| + (|enqueued| - |old(enqueued)|) == SNS_BATCH_SIZE * (|sent| - |old(sent)|) + |messageQueue|
    {
      var event := WithdrawalEvent(amount, accountId, SUCCESSFUL);
      var encoded := objectMapper(event);
      if encoded.Err? {
        return;
      }
      var message := encoded.value;
      // the blocking queue's add would throw once the capacity is reached
      assert |messageQueue| < QUEUE_CAPACITY;
      messageQueue := messageQueue + [message];
      enqueued := enqueued + [message];
      ghost var queued := messageQueue;
      ghost var drainedSoFar: seq<PublishBatchRequest> := [];
      while |messageQueue| >= SNS_BATCH_SIZE
        invariant enqueued == old(enqueued) + [message]
        invariant sent == old(sent) + drainedSoFar
        invariant drainedSoFar + Batches(messageQueue, arn) == Batches(queued, arn)
        invariant Remainder(messageQueue) == Remainder(queued)
        decreases |messageQueue|
      {
        var drained := messageQueue[..SNS_BATCH_SIZE];
        var request := PublishBatchRequest(drained, arn);
        assert Batches(messageQueue, arn) == [request] + Batches(messageQueue[SNS_BATCH_SIZE..], arn);
        messageQueue := messageQueue[SNS_BATCH_SIZE..];
        PublishBatch(request);
        drainedSoFar := drainedSoFar + [request];
      }
      assert drainedSoFar + [] == drainedSoFar;
      assert sent == old(sent) + Batches(queued, arn) && messageQueue == Remainder(queued);
      PublishKeepsLog(old(sent), old(messageQueue), old(enqueued), message, arn);
      DrainLengths(queued, arn);
    }
  }
}
