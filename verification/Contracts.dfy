/** The contract state machine: its transition table, the service steps and the audit trail.
    Each service method is one atomic step on one contract. */
module Contracts {
  import opened Prelude
  import opened Idempotency

  datatype Status =
    | DRAFT | PENDING_PAYMENT | FUNDED | ACTIVE | IN_PROGRESS | CLIENT_CONFIRMED | READY_FOR_PAYOUT
    | COMPLETED | PAID_OUT | CANCELLED | DISPUTED | REFUNDED | PAYMENT_FAILED | EXPIRED

  /** validStateTransitions */
  function Targets(s: Status): set<Status>
  {
    match s
    case DRAFT => {PENDING_PAYMENT, CANCELLED}
    case PENDING_PAYMENT => {FUNDED, CANCELLED, PAYMENT_FAILED, EXPIRED}
    case FUNDED => {ACTIVE, CANCELLED}
    case ACTIVE => {IN_PROGRESS, DISPUTED, CANCELLED}
    case IN_PROGRESS => {CLIENT_CONFIRMED, DISPUTED, CANCELLED}
    case CLIENT_CONFIRMED => {READY_FOR_PAYOUT, DISPUTED, IN_PROGRESS}
    case READY_FOR_PAYOUT => {PAID_OUT, DISPUTED}
    case DISPUTED => {REFUNDED, PAID_OUT}
    case PAYMENT_FAILED => {PENDING_PAYMENT, CANCELLED}
    case _ => {}
  }

  /** The audit record of one transition. */
  datatype Audit = Audit(previous: Status, next: Status)

  datatype Contract = Contract(
    status: Status,
    clientConfirmed: bool,
    artisanConfirmed: bool,
    started: bool,
    audit: seq<Audit>)

  /** A contract as createContract leaves it. */
  const CREATED := Contract(PENDING_PAYMENT, false, false, false, [])

  /** `granted` is tryAcquire's answer where the method asks for one. */
  datatype Event =
    | Activate(granted: bool)
    | MarkFunded(granted: bool)
    | RequestPaymentInitialization
    | ConfirmCompletion(isClient: bool)
    | DeliverableApproved
    | MarkDisputed(granted: bool)
    | MarkPaidOut(granted: bool)
    | RecordPayoutFailure
    | RequestRefund
    | MarkRefunded(granted: bool)

  /** A validated transition, or no change when the table lacks it. */
  function Transition(c: Contract, next: Status): Contract
  {
    if next in Targets(c.status) then c.(status := next, audit := c.audit + [Audit(c.status, next)]) else c
  }

  /** The status that a confirmation asks for, if it gets that far. */
  function Confirmation(c: Contract, isClient: bool): Option<Status>
  {
    if c.status !in {IN_PROGRESS, CLIENT_CONFIRMED, READY_FOR_PAYOUT} || !c.started then None
    else if (if isClient then c.clientConfirmed else c.artisanConfirmed) then None
    else if (if isClient then c.artisanConfirmed else c.clientConfirmed) then Some(READY_FOR_PAYOUT)
    else Some(if isClient then CLIENT_CONFIRMED else IN_PROGRESS)
  }

  function Next(c: Contract, e: Event): Contract
  {
    match e
    case Activate(granted) =>
      if c.status == FUNDED && granted && IN_PROGRESS in Targets(c.status)
      then Transition(c, IN_PROGRESS).(started := true) else c
    case MarkFunded(granted) => if granted then Transition(c, FUNDED) else c
    case RequestPaymentInitialization =>
      if c.status == PENDING_PAYMENT then c else Transition(c, PENDING_PAYMENT)
    case ConfirmCompletion(isClient) =>
      var next := Confirmation(c, isClient);
      if next.None? || next.value !in Targets(c.status) then c
      else
        Transition(c, next.value).(
          clientConfirmed := isClient || c.clientConfirmed,
          artisanConfirmed := !isClient || c.artisanConfirmed)
    case DeliverableApproved =>
      if c.status in {IN_PROGRESS, CLIENT_CONFIRMED} && READY_FOR_PAYOUT in Targets(c.status)
      then Transition(c, READY_FOR_PAYOUT).(clientConfirmed := true, artisanConfirmed := true) else c
    case MarkDisputed(granted) => if granted then Transition(c, DISPUTED) else c
    case MarkPaidOut(granted) => if granted then Transition(c, PAID_OUT) else c
    case RecordPayoutFailure => if c.status == READY_FOR_PAYOUT then c.(status := READY_FOR_PAYOUT) else c
    case RequestRefund => c
    case MarkRefunded(granted) => if granted then Transition(c, REFUNDED) else c
  }

  function Run(c: Contract, es: seq<Event>): Contract
  {
    if es == [] then c else Next(Run(c, es[..|es| - 1]), es[|es| - 1])
  }

  // ----- when each step goes through

  /** The table read backwards: from where each status can be reached. */
  predicate LeadsTo(s: Status, next: Status)
  {
    match next
    case DRAFT => false
    case PENDING_PAYMENT => s in {DRAFT, PAYMENT_FAILED}
    case FUNDED => s in {PENDING_PAYMENT}
    case ACTIVE => s in {FUNDED}
    case IN_PROGRESS => s in {ACTIVE, CLIENT_CONFIRMED}
    case CLIENT_CONFIRMED => s in {IN_PROGRESS}
    case READY_FOR_PAYOUT => s in {CLIENT_CONFIRMED}
    case COMPLETED => false
    case PAID_OUT => s in {READY_FOR_PAYOUT, DISPUTED}
    case CANCELLED => s in {DRAFT, PENDING_PAYMENT, FUNDED, ACTIVE, IN_PROGRESS, PAYMENT_FAILED}
    case DISPUTED => s in {ACTIVE, IN_PROGRESS, CLIENT_CONFIRMED, READY_FOR_PAYOUT}
    case REFUNDED => s in {DISPUTED}
    case PAYMENT_FAILED => s in {PENDING_PAYMENT}
    case EXPIRED => s in {PENDING_PAYMENT}
  }

  lemma {:induction false} TableLeadsTo(s: Status, next: Status)
    ensures next in Targets(s) <==> LeadsTo(s, next)
  {
    match s {
      case DRAFT =>
      case PENDING_PAYMENT =>
      case FUNDED =>
      case ACTIVE =>
      case IN_PROGRESS =>
      case CLIENT_CONFIRMED =>
      case READY_FOR_PAYOUT =>
      case DISPUTED =>
      case PAYMENT_FAILED =>
      case _ =>
    }
  }

  /** The contract moves to `next` with its audit record; the other columns stay. */
  predicate Moves(c: Contract, c': Contract, next: Status)
  {
    c' == Contract(next, c.clientConfirmed, c.artisanConfirmed, c.started, c.audit + [Audit(c.status, next)])
  }

  /** A mark goes through iff its lock is granted and the table leads there. */
  lemma {:induction false} MarkGoesThroughIff(c: Contract, granted: bool)
    ensures var c' := Next(c, MarkFunded(granted));
            if granted && c.status in {PENDING_PAYMENT} then Moves(c, c', FUNDED) else c' == c
    ensures var c' := Next(c, MarkDisputed(granted));
            if granted && c.status in {ACTIVE, IN_PROGRESS, CLIENT_CONFIRMED, READY_FOR_PAYOUT} then Moves(c, c', DISPUTED)
            else c' == c
    ensures var c' := Next(c, MarkPaidOut(granted));
            if granted && c.status in {READY_FOR_PAYOUT, DISPUTED} then Moves(c, c', PAID_OUT) else c' == c
    ensures var c' := Next(c, MarkRefunded(granted));
            if granted && c.status in {DISPUTED} then Moves(c, c', REFUNDED) else c' == c
  {
    TableLeadsTo(c.status, FUNDED);
    TableLeadsTo(c.status, DISPUTED);
    TableLeadsTo(c.status, PAID_OUT);
    TableLeadsTo(c.status, REFUNDED);
  }

  /** The client confirms first, or last if the artisan's flag is set already; the artisan can only
      confirm what the client's status says is confirmed. */
  lemma {:induction false} ConfirmationGoesThroughIff(c: Contract)
    ensures var c' := Next(c, ConfirmCompletion(true));
            if c.started && !c.clientConfirmed && c.status == (if c.artisanConfirmed then CLIENT_CONFIRMED else IN_PROGRESS)
            then Moves(c.(clientConfirmed := true), c', if c.artisanConfirmed then READY_FOR_PAYOUT else CLIENT_CONFIRMED)
            else c' == c
    ensures var c' := Next(c, ConfirmCompletion(false));
            if c.started && !c.artisanConfirmed && c.status == CLIENT_CONFIRMED
            then Moves(c.(artisanConfirmed := true), c', if c.clientConfirmed then READY_FOR_PAYOUT else IN_PROGRESS)
            else c' == c
  {
  }

  /** An approved deliverable stands for both confirmations, of a CLIENT_CONFIRMED contract only. */
  lemma {:induction false} ApprovalGoesThroughIff(c: Contract)
    ensures var c' := Next(c, DeliverableApproved);
            if c.status == CLIENT_CONFIRMED
            then Moves(c.(clientConfirmed := true, artisanConfirmed := true), c', READY_FOR_PAYOUT)
            else c' == c
  {
  }

  // ----- confirmation flags and rank

  predicate FlagsOk(c: Contract)
  {
    && (c.status == CLIENT_CONFIRMED ==> c.clientConfirmed)
    && (c.status == READY_FOR_PAYOUT ==> c.clientConfirmed && c.artisanConfirmed)
  }

  /** How far a contract has come. */
  function Rank(s: Status): nat
  {
    match s
    case DRAFT => 0
    case PAYMENT_FAILED => 0
    case PENDING_PAYMENT => 1
    case FUNDED => 2
    case ACTIVE => 3
    case IN_PROGRESS => 4
    case CLIENT_CONFIRMED => 5
    case READY_FOR_PAYOUT => 6
    case DISPUTED => 7
    case _ => 8
  }

  predicate Settled(s: Status)
  {
    s in {PAID_OUT, REFUNDED, COMPLETED, CANCELLED, EXPIRED}
  }

  function Changes(c: Contract, es: seq<Event>): nat
  {
    if es == [] then 0
    else
      var before := Run(c, es[..|es| - 1]);
      Changes(c, es[..|es| - 1]) + if Next(before, es[|es| - 1]).status != before.status then 1 else 0
  }

  /** A service step lowers the rank in one case only: an artisan confirming a contract that is
      CLIENT_CONFIRMED without the client's flag. The table allows that way back. */
  lemma {:induction false} RankFallsIffFlagIsMissing(c: Contract, e: Event)
    ensures Rank(Next(c, e).status) < Rank(c.status)
            <==> c.status == CLIENT_CONFIRMED && !c.clientConfirmed && !c.artisanConfirmed && c.started
                 && e == ConfirmCompletion(false)
  {
  }

  lemma {:induction false} StepKeepsFlags(c: Contract, e: Event)
    requires FlagsOk(c)
    ensures FlagsOk(Next(c, e))
    ensures Next(c, e).status != c.status ==> Rank(Next(c, e).status) > Rank(c.status) && !Settled(c.status)
  {
  }

  /** From any status, every run keeps the flags in step with the status; each change of status
      raises the rank, so a contract changes status finitely often and never leaves a settled one. */
  lemma {:induction false} StatusOnlyRises(c: Contract, es: seq<Event>)
    requires FlagsOk(c)
    ensures FlagsOk(Run(c, es))
    ensures Rank(Run(c, es).status) >= Rank(c.status) + Changes(c, es)
    ensures Changes(c, es) <= 8
    ensures Settled(c.status) ==> Run(c, es).status == c.status
  {
    if es != [] {
      StatusOnlyRises(c, es[..|es| - 1]);
      StepKeepsFlags(Run(c, es[..|es| - 1]), es[|es| - 1]);
    }
  }

  // ----- what createContract leads to

  lemma {:induction false} CreatedStaysUnstarted(es: seq<Event>)
    ensures Run(CREATED, es).status in {PENDING_PAYMENT, FUNDED}
  {
    if es != [] { CreatedStaysUnstarted(es[..|es| - 1]); }
  }

  /** Activation asks for a move the table lacks, so the statuses reachable from a new contract
      are exactly PENDING_PAYMENT and FUNDED. */
  lemma {:induction false} ReachableStatuses(s: Status)
    ensures (exists es :: Run(CREATED, es).status == s) <==> s in {PENDING_PAYMENT, FUNDED}
  {
    if es :| Run(CREATED, es).status == s { CreatedStaysUnstarted(es); }
    assert Run(CREATED, []).status == PENDING_PAYMENT;
    assert [MarkFunded(true)][..0] == [];
    assert Run(CREATED, [MarkFunded(true)]).status == FUNDED;
  }

  // ----- the audit trail

  /** Replays the audit records from status `s`; None where a record does not follow its
      predecessor or is not in the table. */
  function Replay(s: Status, audit: seq<Audit>): Option<Status>
  {
    if audit == [] then Some(s)
    else
      var before, last := Replay(s, audit[..|audit| - 1]), audit[|audit| - 1];
      if before == Some(last.previous) && last.next in Targets(last.previous) then Some(last.next) else None
  }

  /** A step either changes nothing on record or moves along one table entry and records it. */
  lemma {:induction false} StepIsAudited(c: Contract, e: Event)
    ensures var c' := Next(c, e);
            if c'.audit == c.audit then c'.status == c.status
            else c'.audit == c.audit + [Audit(c.status, c'.status)] && c'.status in Targets(c.status)
  {
  }

  /** The audit records form a chain through the table from the first status to the current one. */
  lemma {:induction false} AuditReplaysToStatus(c: Contract, es: seq<Event>)
    requires c.audit == []
    ensures Replay(c.status, Run(c, es).audit) == Some(Run(c, es).status)
  {
    if es != [] {
      AuditReplaysToStatus(c, es[..|es| - 1]);
      var before, after := Run(c, es[..|es| - 1]), Run(c, es);
      StepIsAudited(before, es[|es| - 1]);
      if after.audit != before.audit {
        assert after.audit[..|after.audit| - 1] == before.audit;
      }
    }
  }

  /** The audit row is written outside the confirmation's transaction. If that transaction is
      rolled back after it, the trail no longer ends in the current status. */
  lemma {:induction false} RolledBackConfirmationBreaksTheTrail(c: Contract, start: Status, isClient: bool)
    requires Replay(start, c.audit) == Some(c.status)
    requires Next(c, ConfirmCompletion(isClient)) != c
    ensures var torn := c.(audit := Next(c, ConfirmCompletion(isClient)).audit);
            Replay(start, torn.audit).Some? && Replay(start, torn.audit) != Some(torn.status)
  {}

  // ----- transitions under an operation lock

  /** acquire; transition and complete, or release and throw. Without the lock: nothing, no error. */
  function Mark<K>(c: Contract, keys: map<K, Lock>, k: K, next: Status, now: int): (Contract, map<K, Lock>, bool)
  {
    if !Available(Lookup(keys, k), now) then (c, keys, true)
    else if next in Targets(c.status)
    then (Transition(c, next), keys[k := Acquired(now).(completedAt := Some(now))], true)
    else (c, keys - {k}, false)
  }

  datatype Operation = Activated(user: nat) | Funded(ref: nat) | PaidOutOnce | RefundedOnce | DisputedOnce

  class ContractsService {
    var status: Status
    var clientConfirmed: bool
    var artisanConfirmed: bool
    var started: bool
    var audit: seq<Audit>
    const idempotency: IdempotencyService<Operation>

    function Value(): Contract
      reads this
    {
      Contract(status, clientConfirmed, artisanConfirmed, started, audit)
    }

    constructor (c: Contract, idempotency: IdempotencyService<Operation>)
      ensures Value() == c && this.idempotency == idempotency
    {
      status, started, audit := c.status, c.started, c.audit;
      clientConfirmed, artisanConfirmed := c.clientConfirmed, c.artisanConfirmed;
      this.idempotency := idempotency;
    }

    /** False where it throws; nothing is written then. */
    method TransitionContractStatus(next: Status) returns (ok: bool)
      modifies this`status, this`audit
      ensures ok == (next in Targets(old(status)))
      ensures Value() == Transition(old(Value()), next)
    {
      var previous := status;
      ok := next in Targets(previous);
      if ok {
        status := next;
        audit := audit + [Audit(previous, next)];
      }
    }

    /** markFunded, markPaidOut, markRefunded, markDisputed and the locked part of activateContract. */
    method MarkUnderLock(k: Operation, next: Status, now: int) returns (ok: bool)
      modifies this`status, this`audit, idempotency
      ensures (Value(), idempotency.rows, ok) == Mark(old(Value()), old(idempotency.rows), k, next, now)
    {
      var acquired := idempotency.TryAcquire(k, now);
      if !acquired { return true; }
      ok := TransitionContractStatus(next);
      ghost var keys := old(idempotency.rows);
      if ok {
        var _ := idempotency.Complete(k, now);
        assert idempotency.rows == keys[k := Acquired(now).(completedAt := Some(now))];
      } else {
        var _ := idempotency.Release(k);
        assert idempotency.rows == keys - {k};
      }
    }

    method ActivateContract(user: nat, now: int) returns (ok: bool)
      modifies this, idempotency
      ensures ok ==> Value() == Next(old(Value()), Activate(Available(Lookup(old(idempotency.rows), Activated(user)), now)))
      ensures !ok ==> Value() == old(Value())
      ensures old(status) == FUNDED && Available(Lookup(old(idempotency.rows), Activated(user)), now) ==> !ok
    {
      if status != FUNDED { return false; }
      var granted := Available(Lookup(idempotency.rows, Activated(user)), now);
      ok := MarkUnderLock(Activated(user), IN_PROGRESS, now);
      started := started || (ok && granted);
    }

    method RequestPaymentInit() returns (ok: bool)
      modifies this
      ensures Value() == Next(old(Value()), RequestPaymentInitialization)
      ensures ok <==> old(status) in {DRAFT, PAYMENT_FAILED, PENDING_PAYMENT}
      ensures ok <==> status == PENDING_PAYMENT
    {
      ok := true;
      if status != PENDING_PAYMENT {
        ok := TransitionContractStatus(PENDING_PAYMENT);
      }
    }

    method Confirm(isClient: bool) returns (ok: bool)
      modifies this
      ensures Value() == Next(old(Value()), ConfirmCompletion(isClient))
      ensures ok == (Value() != old(Value()))
    {
      if status != IN_PROGRESS && status != CLIENT_CONFIRMED && status != READY_FOR_PAYOUT { return false; }
      if !started { return false; }
      if isClient && clientConfirmed { return false; }
      if !isClient && artisanConfirmed { return false; }
      var bothConfirmed := if isClient then artisanConfirmed else clientConfirmed;
      var nextStatus := if bothConfirmed then READY_FOR_PAYOUT
                        else if isClient then CLIENT_CONFIRMED else IN_PROGRESS;
      ok := TransitionContractStatus(nextStatus);
      if ok {
        if isClient { clientConfirmed := true; } else { artisanConfirmed := true; }
      }
    }

    method HandleDeliverableApproved() returns (ok: bool)
      modifies this
      ensures Value() == Next(old(Value()), DeliverableApproved)
    {
      ok := true;
      if status == IN_PROGRESS || status == CLIENT_CONFIRMED {
        ok := TransitionContractStatus(READY_FOR_PAYOUT);
        if ok { clientConfirmed, artisanConfirmed := true, true; }
      }
    }
  }
}
