// `events.rs`: the payloads, the helpers that build them from a stream, and
// the fold an indexer runs over them.
module Events {
  import opened Prelude
  import opened Types

  datatype Event =
    | StreamCreated(id: U64, sender: Address, recipient: Address, token: Address,
                    deposited: I128, startTime: U64, endTime: U64, cliffTime: U64,
                    cancellable: bool, pausable: bool, transferable: bool,
                    curve: ReleaseCurve, cliffMode: CliffMode, reference: Option<string>)
    | Withdrawn(id: U64, recipient: Address, amount: I128, withdrawn: I128, deposited: I128,
                status: StreamStatus, sender: Address, pausedAt: Option<U64>, pausedTotal: U64)
    | StreamCancelled(id: U64, sender: Address, recipient: Address, refunded: I128, vested: I128,
                      withdrawn: I128, endTime: U64, pausedAt: Option<U64>, pausedTotal: U64)
    | StreamPaused(id: U64, sender: Address, frozenAt: U64, pausedTotal: U64, recipient: Address)
    | StreamResumed(id: U64, sender: Address, pausedDuration: U64, pausedTotal: U64, recipient: Address)
    | ToppedUp(id: U64, sender: Address, amount: I128, deposited: I128, endTime: U64, recipient: Address)
    | RecipientTransferred(id: U64, oldRecipient: Address, newRecipient: Address, sender: Address)
    | DelegateGranted(id: U64, grantor: Address, delegate: Address, ops: Mask, expiresAt: Option<U64>)
    | DelegateRevoked(id: U64, grantor: Address, delegate: Address)
    | TtlExtended(id: U64, extendedTo: U32)
    | HaltOperatorSet(operator: Address)
    | HaltEngaged(operator: Address, haltedAt: U64)
    | HaltLifted(operator: Address, resumedAt: U64, haltedFor: U64)

  function CreatedEvent(id: U64, s: Stream): Event {
    StreamCreated(id, s.sender, s.recipient, s.token, s.deposited, s.startTime, s.endTime, s.cliffTime,
                  s.cancellable, s.pausable, s.transferable, s.curve, s.cliffMode, s.reference)
  }

  function WithdrawnEvent(id: U64, s: Stream, amount: I128): Event {
    Withdrawn(id, s.recipient, amount, s.withdrawn, s.deposited, s.status, s.sender, s.pausedAt, s.pausedTotal)
  }

  function CancelledEvent(id: U64, s: Stream, refunded: I128): Event {
    StreamCancelled(id, s.sender, s.recipient, refunded, s.deposited, s.withdrawn, s.endTime,
                    s.pausedAt, s.pausedTotal)
  }

  function PausedEvent(id: U64, s: Stream, frozenAt: U64): Event {
    StreamPaused(id, s.sender, frozenAt, s.pausedTotal, s.recipient)
  }

  function ResumedEvent(id: U64, s: Stream, pausedDuration: U64): Event {
    StreamResumed(id, s.sender, pausedDuration, s.pausedTotal, s.recipient)
  }

  function ToppedUpEvent(id: U64, s: Stream, amount: I128): Event {
    ToppedUp(id, s.sender, amount, s.deposited, s.endTime, s.recipient)
  }

  // ---- Replay: streams -------------------------------------------------

  /** The stream a creation event announces. */
  function Announced(e: Event): Stream
    requires e.StreamCreated?
  {
    Stream(e.sender, e.recipient, e.token, e.deposited, 0, e.startTime, e.endTime, e.cliffTime,
           e.cliffMode, e.cancellable, e.pausable, e.transferable, None, 0, Active, e.curve, e.reference)
  }

  /** What a lifecycle event says about the stream it names. */
  function Amended(s: Stream, e: Event): Stream {
    match e
    case Withdrawn(_, _, _, w, d, status, _, at, total) =>
      s.(withdrawn := w, deposited := d, status := status, pausedAt := at, pausedTotal := total)
    case StreamCancelled(_, _, _, _, v, w, end, at, total) =>
      s.(deposited := v, withdrawn := w, endTime := end, status := Cancelled, pausedAt := at, pausedTotal := total)
    case StreamPaused(_, _, at, total, _) =>
      s.(status := Paused, pausedAt := Some(at), pausedTotal := total)
    case StreamResumed(_, _, _, total, _) =>
      s.(status := Active, pausedAt := None, pausedTotal := total)
    case ToppedUp(_, _, _, d, end, _) =>
      s.(deposited := d, endTime := end)
    case RecipientTransferred(_, _, to, _) =>
      s.(recipient := to)
    case _ => s
  }

  predicate IsLifecycle(e: Event) {
    e.Withdrawn? || e.StreamCancelled? || e.StreamPaused? || e.StreamResumed? || e.ToppedUp? || e.RecipientTransferred?
  }

  function Observe(streams: map<U64, Stream>, e: Event): map<U64, Stream> {
    if e.StreamCreated? then streams[e.id := Announced(e)]
    else if IsLifecycle(e) && e.id in streams then streams[e.id := Amended(streams[e.id], e)]
    else streams
  }

  /** The indexer: streams rebuilt from the log alone. */
  function Replay(log: seq<Event>): map<U64, Stream> {
    if |log| == 0 then map[] else Observe(Replay(log[..|log| - 1]), log[|log| - 1])
  }

  // ---- Replay: grants and payouts --------------------------------------

  function ReplayGrants(log: seq<Event>): map<(U64, Address), DelegateGrant> {
    if |log| == 0 then map[]
    else
      var before := ReplayGrants(log[..|log| - 1]);
      match log[|log| - 1]
      case DelegateGranted(id, _, delegate, ops, expiresAt) =>
        before[(id, delegate) := DelegateGrant(ops, expiresAt)]
      case DelegateRevoked(id, _, delegate) => before - {(id, delegate)}
      case _ => before
  }

  /** The halt operator, and since when the contract is halted. */
  datatype Switch = Switch(operator: Option<Address>, haltedAt: Option<U64>)

  function ReplaySwitch(log: seq<Event>): Switch {
    if |log| == 0 then Switch(None, None)
    else
      var before := ReplaySwitch(log[..|log| - 1]);
      match log[|log| - 1]
      case HaltOperatorSet(operator) => before.(operator := Some(operator))
      case HaltEngaged(_, at) => before.(haltedAt := Some(at))
      case HaltLifted(_, _, _) => before.(haltedAt := None)
      case _ => before
  }

  /** Everything the log says was paid to the recipients of stream `id`. */
  function PaidOut(log: seq<Event>, id: U64): int {
    if |log| == 0 then 0
    else
      var e := log[|log| - 1];
      PaidOut(log[..|log| - 1], id) + if e.Withdrawn? && e.id == id then e.amount else 0
  }

  /** What an event says account `who` got in `token`, less what it gave, when these are the streams. */
  function Transferred(e: Event, streams: map<U64, Stream>, who: Address, token: Address): int {
    match e
    case StreamCreated(_, sender, _, t, deposited, _, _, _, _, _, _, _, _, _) =>
      var given: int := deposited;
      if sender == who && t == token then -given else 0
    case ToppedUp(id, sender, amount, _, _, _) =>
      var given: int := amount;
      if sender == who && id in streams && streams[id].token == token then -given else 0
    case Withdrawn(id, recipient, amount, _, _, _, _, _, _) =>
      if recipient == who && id in streams && streams[id].token == token then amount else 0
    case StreamCancelled(id, sender, _, refunded, _, _, _, _, _) =>
      if sender == who && id in streams && streams[id].token == token then refunded else 0
    case _ => 0
  }

  /** The account's net position in `token` according to the whole log. */
  function Stated(log: seq<Event>, who: Address, token: Address): int {
    if |log| == 0 then 0
    else
      var before := log[..|log| - 1];
      Stated(before, who, token) + Transferred(log[|log| - 1], Replay(before), who, token)
  }

  /** The grantor holds the role that owns the granted operations. */
  predicate IssuedByParty(streams: map<U64, Stream>, e: Event)
    requires e.DelegateGranted?
  {
    && e.id in streams
    && (e.ops * SENDER_OPS != {} ==> e.grantor == streams[e.id].sender)
    && (e.ops * RECIPIENT_OPS != {} ==> e.grantor == streams[e.id].recipient)
  }

  /** A lifecycle event names both parties and says by how much the stream it is about changes. */
  predicate Describes(e: Event, s: Stream)
    requires IsLifecycle(e)
  {
    match e
    case Withdrawn(_, recipient, amount, w, _, _, sender, _, _) =>
      recipient == s.recipient && sender == s.sender && amount == w - s.withdrawn
    case StreamCancelled(_, sender, recipient, refunded, vested, _, _, _, _) =>
      recipient == s.recipient && sender == s.sender && refunded == s.deposited - vested
    case StreamPaused(_, sender, _, _, recipient) => recipient == s.recipient && sender == s.sender
    case StreamResumed(_, sender, pausedDuration, total, recipient) =>
      recipient == s.recipient && sender == s.sender && pausedDuration == total - s.pausedTotal
    case ToppedUp(_, sender, amount, deposited, _, recipient) =>
      recipient == s.recipient && sender == s.sender && amount == deposited - s.deposited
    case RecipientTransferred(_, oldRecipient, _, sender) => oldRecipient == s.recipient && sender == s.sender
  }

  /** The operator is set once; it alone halts and resumes, in turn, and the length of a halt is right. */
  predicate InTurn(e: Event, sw: Switch) {
    match e
    case HaltOperatorSet(_) => sw.operator.None?
    case HaltEngaged(operator, _) => sw.operator == Some(operator) && sw.haltedAt.None?
    case HaltLifted(operator, at, haltedFor) =>
      sw.operator == Some(operator) && sw.haltedAt.Some? && haltedFor == SaturatingU64(at - sw.haltedAt.value)
    case _ => true
  }

  /** What an event may claim when these are the streams and this the switch. */
  predicate Truthful(streams: map<U64, Stream>, sw: Switch, e: Event) {
    && (e.StreamCreated? ==> e.id !in streams)
    && (IsLifecycle(e) ==> e.id in streams && Describes(e, streams[e.id]))
    && (e.DelegateGranted? ==> IssuedByParty(streams, e))
    && InTurn(e, sw)
  }

  /** Every event in the log is true of the streams as its predecessors left them. */
  predicate Lawful(log: seq<Event>) {
    |log| == 0 ||
    var before, e := log[..|log| - 1], log[|log| - 1];
    Lawful(before) && Truthful(Replay(before), ReplaySwitch(before), e)
  }

  lemma {:induction false} LawfulAt(log: seq<Event>, i: nat)
    requires Lawful(log) && i < |log|
    ensures Truthful(Replay(log[..i]), ReplaySwitch(log[..i]), log[i])
  {
    var before := log[..|log| - 1];
    if i < |before| {
      LawfulAt(before, i);
      assert before[..i] == log[..i];
    }
  }

  lemma AppendOne(log: seq<Event>, e: Event)
    ensures Lawful(log + [e]) <==> Lawful(log) && Truthful(Replay(log), ReplaySwitch(log), e)
    ensures Replay(log + [e]) == Observe(Replay(log), e)
    ensures forall who, t :: Stated(log + [e], who, t) == Stated(log, who, t) + Transferred(e, Replay(log), who, t)
    ensures forall id :: PaidOut(log + [e], id) == PaidOut(log, id) + if e.Withdrawn? && e.id == id then e.amount else 0
    ensures !e.HaltOperatorSet? && !e.HaltEngaged? && !e.HaltLifted? ==> ReplaySwitch(log + [e]) == ReplaySwitch(log)
    ensures e.HaltOperatorSet? ==> ReplaySwitch(log + [e]) == ReplaySwitch(log).(operator := Some(e.operator))
    ensures e.HaltEngaged? ==> ReplaySwitch(log + [e]) == ReplaySwitch(log).(haltedAt := Some(e.haltedAt))
    ensures e.HaltLifted? ==> ReplaySwitch(log + [e]) == ReplaySwitch(log).(haltedAt := None)
    ensures !e.DelegateGranted? && !e.DelegateRevoked? ==> ReplayGrants(log + [e]) == ReplayGrants(log)
    ensures e.DelegateGranted? ==>
              ReplayGrants(log + [e]) == ReplayGrants(log)[(e.id, e.delegate) := DelegateGrant(e.ops, e.expiresAt)]
    ensures e.DelegateRevoked? ==> ReplayGrants(log + [e]) == ReplayGrants(log) - {(e.id, e.delegate)}
  {
    assert (log + [e])[..|log|] == log;
  }
}
