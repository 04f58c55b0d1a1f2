/**
 The payment record and what the store, the audit log, the ledger and the dead
 letter queue keep about one payment.
 */
module PaymentRecords {
  import opened Errors
  import opened Options

  datatype Status = Queued | InProgress | Succeeded | DeadLetter

  datatype SagaState = Idle | Reserved | Charged | Settled | Compensated

  /** Why a payment was dead-lettered. */
  datatype Reason = Permanent(code: ErrorCode) | RetriesExhausted(code: ErrorCode)

  datatype Record = Record(
    amount: nat,
    maxRetries: nat,
    status: Status,
    retryCount: nat,
    sagaState: SagaState,
    reservationId: Option<string>,
    transactionId: Option<string>,
    refundId: Option<string>,
    failureReason: Option<Reason>
  ) {
    predicate IsTerminal() {
      status == Succeeded || status == DeadLetter
    }
  }

  function CreateRecord(amount: nat, maxRetries: nat): Record {
    Record(amount, maxRetries, Queued, 0, Idle, None, None, None, None)
  }

  function TransitionToProcessing(record: Record, attempt: nat): Record {
    record.(status := InProgress, retryCount := attempt)
  }

  function TransitionToCompleted(record: Record, transactionId: string): Record {
    record.(status := Succeeded, transactionId := Some(transactionId))
  }

  function TransitionToDeadLetter(record: Record, reason: Reason): Record {
    record.(status := DeadLetter, failureReason := Some(reason))
  }

  /** The idempotency key of the payment: free, leased, or finalized with its outcome. */
  datatype Idempotency = Unclaimed | Leased | Completed(transactionId: string) | Failed(reason: Reason) {
    predicate IsFinal() {
      Completed? || Failed?
    }
  }

  /** Money that moved: one entry of the gateway's charge log or of the settlement ledger. */
  datatype Charge = Charge(transactionId: string, amount: nat)

  datatype Refund = Refund(transactionId: string, refundId: string)

  /**
   What the money of one payment has done: charges the gateway reported as successful,
   settlements in the ledger, refunds the gateway confirmed, and the transactions named
   by critical refund-failed alerts.
   */
  datatype Books = Books(
    charges: seq<Charge>,
    ledger: seq<Charge>,
    refunds: seq<Refund>,
    alerts: seq<string>
  )

  /** The types of entry the audit log holds. */
  datatype AuditEvent =
    | Submitted
    | Processing
    | SagaReserve
    | SagaCharge
    | SagaSettle
    | ReleaseFunds
    | RefundDone
    | RefundRefused
    | PaymentCompleted
    | DeadLettered

  /** How many entries of each type a log holds. */
  datatype Tally = Tally(
    submitted: nat,
    processing: nat,
    reserve: nat,
    charge: nat,
    settle: nat,
    release: nat,
    refundDone: nat,
    refundRefused: nat,
    completed: nat,
    deadLettered: nat
  )

  function One(b: bool): nat {
    if b then 1 else 0
  }

  function Bump(t: Tally, event: AuditEvent): Tally {
    match event
    case Submitted => t.(submitted := t.submitted + 1)
    case Processing => t.(processing := t.processing + 1)
    case SagaReserve => t.(reserve := t.reserve + 1)
    case SagaCharge => t.(charge := t.charge + 1)
    case SagaSettle => t.(settle := t.settle + 1)
    case ReleaseFunds => t.(release := t.release + 1)
    case RefundDone => t.(refundDone := t.refundDone + 1)
    case RefundRefused => t.(refundRefused := t.refundRefused + 1)
    case PaymentCompleted => t.(completed := t.completed + 1)
    case DeadLettered => t.(deadLettered := t.deadLettered + 1)
  }

  function TallyOf(log: seq<AuditEvent>): Tally {
    var m := multiset(log);
    Tally(m[Submitted], m[Processing], m[SagaReserve], m[SagaCharge], m[SagaSettle],
          m[ReleaseFunds], m[RefundDone], m[RefundRefused], m[PaymentCompleted], m[DeadLettered])
  }

  function Append(log: seq<AuditEvent>, event: AuditEvent): seq<AuditEvent> {
    log + [event]
  }

  /** Appending to the audit log counts the new entry and keeps every earlier one. */
  lemma AppendCounts(log: seq<AuditEvent>, event: AuditEvent)
    ensures TallyOf(Append(log, event)) == Bump(TallyOf(log), event)
  {
    assert multiset(log + [event]) == multiset(log) + multiset{event};
  }
}
