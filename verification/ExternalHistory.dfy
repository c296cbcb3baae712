/** The engine as a state machine. A history records, in order, every committed
    write transaction and every outside answer a later write relies on. The
    database is the replay of the history, so a crash, which loses only what was
    held in memory, leaves a history that the next run simply continues. */
module ExternalHistory {
  import opened Basics
  import opened ExternalModel

  /** Why a received proof is rejected. */
  datatype Mismatch =
    | Undecodable
    | WrongContract
    | WrongOutput(carrier: Tx)
    | WrongSeal
    | WrongAmount(carrier: Tx, allocations: seq<Allocation>)
    | WrongCarrier(actual: Tx)

  /** Why a record is written. */
  datatype Step =
    | Create(request: string)                                              // Receive, Prepare
    | Rest                                                                 // retry bookkeeping only
    | Notice(bytes: Bytes, txid: Txid, vout: Option<nat>, at: nat)         // a consignment was found
    | Reject(mismatch: Mismatch)
    | Validate(carrier: Tx)
    | Acknowledge
    | Close
    | Demote(depth: nat)
    | Cancel
    | PrepareFailed(fascia: Encoding, proof: Bytes)
    | Prepare(fascia: Encoding, proof: Bytes, psbt: Psbt)
    | Finalize(tx: Tx, at: nat)
    | Deliver
    | Attempt
    | Announce
    | Nack
    | Reopen                                                               // over a credit whose flush failed

  /** What is asked of the chain, the stock and the signature checks, to be answered
      with yes or no. */
  datatype Question =
    | OutpointUsable(account: string, outpoint: Outpoint)
    | LegacyPending(account: string)
    | CarrierFits(key: OpKey, terms: Terms, psbt: Psbt)
    | Authorized(key: OpKey, anchor: Psbt)
    | WitnessesValid(key: OpKey, tx: Tx)
    | OutputUnspent(key: OpKey, outpoint: Outpoint)
    | SealTargeted(key: OpKey, proof: Bytes)
    | ProofPosted(key: OpKey, txid: Txid, proof: Bytes)
    | FasciaPromoted(key: OpKey, txid: Txid)

  datatype Event =
    // committed write transactions
    | Saved(record: Record, bind: Option<(IdemKey, Digest)>, reserve: bool, why: Step)
    | Credited(record: Record, outpoint: OutText)
    | Unconfirmed(account: string, outpoint: OutText)
    // answers
    | Answered(question: Question, yes: bool)
    | ClockRead(at: nat)
    | SlotRead(key: OpKey, slot: Option<Slot>)
    | AckRead(key: OpKey, answer: Option<bool>)
    | Previewed(key: OpKey, proof: Bytes, paid: Outpoint, carrier: Tx, allocations: seq<Allocation>)
    | Invoiced(key: OpKey, recipient: string)
    | RgbInputs(key: OpKey, holding: seq<Outpoint>)
    | Built(key: OpKey, outputs: seq<TxOut>)
    | FasciaEncoded(key: OpKey, bytes: Bytes)
    | ProofEncoded(key: OpKey, bytes: Bytes)
    | Relayed(key: OpKey, reply: Txid)
    | Confirmed(txid: Txid, depth: nat)
    | Seen(txid: Txid, tx: Tx)
    | NotSeen(txid: Txid)
    // what was done, or is known from answers
    | Fetched(key: OpKey, bytes: Bytes, txid: Txid, vout: Option<nat>, at: nat)
    | Validated(key: OpKey, proof: Bytes, txid: Txid, paid: Outpoint, contract: Contract, amount: u64, carrier: Tx)
    | AckSent(key: OpKey)
    | Acked(key: OpKey)
    | NackSent(key: OpKey)
    | MarkTried(account: string, outpoint: OutText)
    | SecretKept(key: OpKey)
    | Staged(key: OpKey, txid: Txid)
    | Accepted(key: OpKey, proof: Bytes)
    | Uploaded(key: OpKey, txid: Txid, proof: Bytes)
    | Posted(key: OpKey, tx: Tx)

  datatype History = Start | Then(before: History, event: Event)

  ghost predicate Has(log: History, e: Event) {
    log.Then? && (log.event == e || Has(log.before, e))
  }

  /** `p` is an earlier state of the history `log`, or `log` itself. */
  ghost predicate Prefix(p: History, log: History)
    decreases log
  {
    p == log || (log.Then? && Prefix(p, log.before))
  }

  /** A consignment for `key` was found before `deadline`. */
  ghost predicate FetchedBefore(log: History, key: OpKey, deadline: nat) {
    log.Then? &&
    ((log.event.Fetched? && log.event.key == key && log.event.at < deadline) ||
        FetchedBefore(log.before, key, deadline))
  }

  /** The chain returned a transaction with id `txid` and body `body`. */
  ghost predicate SeenBody(log: History, txid: Txid, body: Body) {
    log.Then? &&
    ((log.event.Seen? && log.event.txid == txid && log.event.tx.body == body) || SeenBody(log.before, txid, body))
  }

  /** The signed transaction was posted and its id came back, or the chain already
      had its body. */
  ghost predicate Launched(log: History, r: Record) {
    && r.signed.Some? && r.txid.Some?
    && (|| (Has(log, Posted(r.key, r.signed.value)) && Has(log, Relayed(r.key, r.txid.value)))
        || SeenBody(log, r.txid.value, r.signed.value.body))
  }

  /** The preview of `proof` on this carrier found that it brings `amount`. */
  ghost predicate AmountPreviewed(log: History, key: OpKey, proof: Bytes, paid: Outpoint, carrier: Tx,
                                  contract: Contract, amount: nat)
  {
    log.Then? &&
    ((&& log.event.Previewed? && log.event.key == key && log.event.proof == proof && log.event.paid == paid
      && log.event.carrier == carrier && Total(log.event.allocations, contract) == amount)
     || AmountPreviewed(log.before, key, proof, paid, carrier, contract, amount))
  }

  /** The proxy accepted `proof` for this carrier, or was seen to hold it. */
  ghost predicate ProxyHolds(log: History, key: OpKey, txid: Txid, proof: Bytes) {
    log.Then? &&
    (|| log.event == Answered(ProofPosted(key, txid, proof), true)
     || (&& log.event.SlotRead? && log.event.key == key && log.event.slot.Some?
         && log.event.slot.value.txid == Some(txid) && log.event.slot.value.consignment == Some(proof))
     || ProxyHolds(log.before, key, txid, proof))
  }

  /** What the proxy last answered about the acknowledgement; `None` if never asked. */
  ghost function LastAck(log: History, key: OpKey): Option<Option<bool>> {
    if log.Start? then None
    else if log.event.AckRead? && log.event.key == key then Some(log.event.answer)
    else LastAck(log.before, key)
  }

  ghost predicate CreditedKey(log: History, key: OpKey) {
    log.Then? && ((log.event.Credited? && log.event.record.key == key) || CreditedKey(log.before, key))
  }

  // ------------------------------------------------------------------ replay

  function InputSet(r: Record): set<OutText> {
    set o | o in r.terms.inputs
  }

  /** The effect of `save` on the reservations: claim the inputs when asked to,
      and release what a cancelled send owns. */
  function Reserve(m: map<OutText, OpId>, r: Record, reserve: bool): map<OutText, OpId> {
    var claimed := if reserve then m + (map o | o in InputSet(r) :: r.key.id) else m;
    if r.terms.direction == Send && r.status == Cancelled
    then claimed - (set o | o in InputSet(r) && o in claimed && claimed[o] == r.key.id)
    else claimed
  }

  function ApplySave(db: Db, r: Record, bind: Option<(IdemKey, Digest)>, reserve: bool): Db {
    Db(db.ops[r.key := Stripped(r)],
       if r.artifact != NoArtifact then db.artifacts[r.key := r.artifact] else db.artifacts,
       if bind.Some? then db.idem[bind.value.0 := Binding(bind.value.1, r.key.id)] else db.idem,
       Reserve(db.reservations, r, reserve),
       db.utxos)
  }

  function UtxoKeys(r: Record): set<(string, OutText)> {
    set o | o in r.terms.inputs :: (r.key.account, o)
  }

  function Settle(r: Record): Record {
    r.(status := Settled, retry := r.retry.(retryable := false))
  }

  function ApplyCredit(db: Db, r: Record, outpoint: OutText): Db {
    db.(ops := db.ops[r.key := Stripped(Settle(r))],
        reservations := if r.terms.direction == Receive then db.reservations - InputSet(r) else db.reservations,
        utxos := (db.utxos - UtxoKeys(r))[(r.key.account, outpoint) := true])
  }

  function ApplyUnconfirmed(db: Db, account: string, outpoint: OutText): Db {
    if (account, outpoint) in db.utxos then db.(utxos := db.utxos[(account, outpoint) := false]) else db
  }

  function Apply(db: Db, e: Event): Db {
    match e
    case Saved(r, bind, reserve, _) => ApplySave(db, r, bind, reserve)
    case Credited(r, outpoint) => ApplyCredit(db, r, outpoint)
    case Unconfirmed(account, outpoint) => ApplyUnconfirmed(db, account, outpoint)
    case _ => db
  }

  function Replay(log: History): Db {
    match log
    case Start => EmptyDb
    case Then(before, event) => Apply(Replay(before), event)
  }

  // ------------------------------------------------------- steps of a record

  /** `b` differs from `a` in retry bookkeeping and in what the chain and, for a
      send, the peer last reported. */
  predicate Touched(a: Record, b: Record) {
    b == a.(retry := b.retry, confirmations := b.confirmations,
            acknowledged := if a.terms.direction == Send then b.acknowledged else a.acknowledged)
  }

  function NoticeStatus(a: Record, vout: Option<nat>, at: nat): Status {
    if !a.terms.blind && vout.None? then a.status
    else if at >= a.terms.expiresAt || a.status == Cancelled then NeedsReview
    else Validating
  }

  /** The outpoint at which a receive expects its payment. */
  function ReceivesAt(w: World, r: Record): Option<Outpoint> {
    if r.receiveOutpoint.Some? then w.parse(r.receiveOutpoint.value) else None
  }

  /** What a step writes, besides bookkeeping. A found consignment without the
      output index that a witness invoice needs is kept, but the step ends there. */
  function Change(w: World, a: Record, why: Step): Record {
    match why
    case Create(_) => a
    case Rest => a
    case Notice(bytes, txid, vout, at) =>
      a.(artifact := a.artifact.(proof := bytes), txid := Some(txid),
         receiveOutpoint := if !a.terms.blind && vout.Some? then Some(w.show(Outpoint(txid, vout.value)))
             else a.receiveOutpoint,
         status := NoticeStatus(a, vout, at))
    case Reject(_) => a.(status := NeedsReview)
    case Validate(carrier) =>
      a.(candidate := Some(Carrier(carrier)), status := WaitingConfirmations, delivery := DeliveryValidated)
    case Acknowledge => a.(acknowledged := Some(true))
    case Close => a.(broadcast := BroadcastConfirmed)
    case Demote(_) => a.(status := NeedsReview, quarantine := true)
    case Cancel => a.(status := Cancelled)
    case PrepareFailed(fascia, proof) => a.(artifact := Artifact(fascia, proof))
    case Prepare(fascia, proof, psbt) =>
      a.(artifact := Artifact(fascia, proof), txid := Some(w.txidOf(psbt.body)),
         candidate := Some(Carrier(Tx(psbt.body, []))), anchor := Some(psbt), status := AwaitingSignature)
    case Finalize(tx, _) => a.(signed := Some(tx), status := Delivering)
    case Deliver => a.(delivery := Delivered)
    case Attempt => a.(broadcast := BroadcastUnknown)
    case Announce => a.(broadcast := BroadcastDone, status := WaitingConfirmations)
    case Nack => a.(status := NeedsReview)
    case Reopen => a.(status := WaitingConfirmations)
  }

  /** The evidence on which the proof of a receive is rejected: a mismatch that no
      later answer can mend. */
  ghost predicate Mismatched(w: World, log: History, a: Record, m: Mismatch) {
    var proof, paid := a.artifact.proof, ReceivesAt(w, a);
    match m
    case Undecodable => a.status == Validating && w.decode(proof).None?
    case WrongContract =>
      a.status == Validating && w.decode(proof).Some? && w.decode(proof).value.contract != a.terms.asset
    case WrongOutput(carrier) =>
      && a.status == Validating && !a.terms.blind && a.txid == Some(w.txidOf(carrier.body))
      && paid.Some? && !PaysTo(carrier, paid.value, a.key.account)
    case WrongSeal => a.status == Validating && a.terms.blind && Has(log, Answered(SealTargeted(a.key, proof), false))
    case WrongAmount(carrier, allocations) =>
      && a.status == Validating && paid.Some? && Has(log, Previewed(a.key, proof, paid.value, carrier, allocations))
      && Total(allocations, a.terms.asset) != a.terms.amount
    case WrongCarrier(actual) =>
      && a.status == WaitingConfirmations && a.txid.Some? && Has(log, Seen(a.txid.value, actual))
      && a.candidate.Some? && a.candidate.value.Carrier? && a.candidate.value.tx.body != actual.body
  }

  /** When a step may be taken on the stored record `a`. */
  ghost predicate Guard(w: World, log: History, a: Record, why: Step) {
    match why
    case Create(_) => false
    case Rest => true
    case Notice(bytes, txid, vout, at) =>
      a.terms.direction == Receive && a.artifact.proof == [] && a.status != NeedsReview && a.status != Settled &&
      |bytes| <= w.maxProof && Has(log, Fetched(a.key, bytes, txid, vout, at))
    case Reject(mismatch) => a.terms.direction == Receive && Mismatched(w, log, a, mismatch)
    case Validate(carrier) =>
      a.terms.direction == Receive && a.status == Validating && a.txid.Some? && ReceivesAt(w, a).Some? &&
      w.decode(a.artifact.proof).Some? &&
      Has(log, Validated(a.key, a.artifact.proof, a.txid.value, ReceivesAt(w, a).value, a.terms.asset, a.terms.amount,
                         carrier))
    case Acknowledge => a.terms.direction == Receive && a.status == WaitingConfirmations && Has(log, Acked(a.key))
    case Close => a.terms.direction == Receive && a.status == Settled
    case Demote(depth) =>
      && a.status == Settled && a.txid.Some? && Has(log, Confirmed(a.txid.value, depth)) && depth < a.terms.required
      && (MarkTarget(w, a).Some? ==> Has(log, MarkTried(a.key.account, MarkTarget(w, a).value)))
    case Cancel => a.terms.direction == Receive && a.artifact.proof == [] && a.txid.None?
    case PrepareFailed(_, _) => a.terms.direction == Send && a.status == Preparing
    case Prepare(fascia, proof, psbt) =>
      && a.terms.direction == Send && a.status == Preparing && a.candidate.Some? && a.candidate.value.Draft?
      && psbt.body.inputs == a.candidate.value.psbt.body.inputs && |proof| <= w.maxProof
      && Has(log, Built(a.key, psbt.body.outputs))
      && Has(log, FasciaEncoded(a.key, fascia)) && Has(log, ProofEncoded(a.key, proof))
    case Finalize(tx, at) =>
      && a.terms.direction == Send && a.status == AwaitingSignature && a.signed.None?
      && a.anchor.Some? && tx.body == a.anchor.value.body
      && Has(log, Answered(Authorized(a.key, a.anchor.value), true))
      && Has(log, Answered(WitnessesValid(a.key, tx), true))
      && at < a.terms.expiresAt && Has(log, ClockRead(at))
    case Deliver =>
      a.terms.direction == Send && a.signed.Some? && a.txid.Some? &&
          Has(log, Uploaded(a.key, a.txid.value, a.artifact.proof))
    case Attempt => a.terms.direction == Send && a.signed.Some? && a.delivery == Delivered &&
        a.broadcast != BroadcastDone
    case Announce => a.terms.direction == Send && a.broadcast == BroadcastUnknown && Launched(log, a)
    case Nack => a.terms.direction == Send && a.status == Settled
    case Reopen =>
      !w.flushes && a.status == Settled && log.Then? && log.event.Credited? && log.event.record.key == a.key
  }

  /** One write of a known operation: at most one step, plus bookkeeping. The
      error path of the recovery scan writes records that stopped half way
      through their work; they are covered because a step is what lies between
      two write attempts. */
  ghost predicate StepOk(w: World, log: History, a: Record, b: Record, why: Step) {
    Guard(w, log, a, why) && Touched(Change(w, a, why), b)
  }

  // ------------------------------------------------------- legal histories

  function KindOf(d: Direction): Kind {
    if d == Receive then ReceiveKind else PrepareKind
  }

  /** The caller's text is kept as it is, once it has been parsed. */
  predicate FreshReceive(w: World, r: Record) {
    && r.status == AwaitingTransfer
    && (r.terms.blind <==> r.receiveOutpoint.Some?)
    && r.terms.inputs == (if r.terms.blind then [r.receiveOutpoint.value] else [])
    && (r.terms.blind ==> w.parse(r.receiveOutpoint.value).Some?)
    && r.candidate.None? && r.terms.changeVout.None?
  }

  predicate FreshSend(w: World, r: Record) {
    && r.status == Preparing
    && !r.terms.blind && r.receiveOutpoint.None?
    && r.candidate.Some? && r.candidate.value.Draft?
    && r.terms.inputs == Spends(w, r.candidate.value.psbt.body.inputs)
    && r.terms.changeVout.Some?
    && forall i, j :: 0 <= i < j < |r.terms.inputs| ==> r.terms.inputs[i] != r.terms.inputs[j]
  }

  /** A record as `new_record` and its two callers build it. */
  predicate Fresh(w: World, r: Record) {
    && r.txid.None? && r.anchor.None? && r.signed.None? && r.acknowledged.None?
    && r.delivery == DeliveryNotStarted && r.broadcast == BroadcastNotStarted
    && r.artifact == NoArtifact
    && r.terms.required == w.required && !r.quarantine
    && if r.terms.direction == Receive then FreshReceive(w, r) else FreshSend(w, r)
  }

  /** No other receive of the account uses the proxy slot `recipient`. */
  predicate SlotFree(db: Db, account: string, recipient: string) {
    forall k :: k in db.ops && k.account == account && db.ops[k].terms.direction == Receive ==>
        db.ops[k].terms.recipient != recipient
  }

  /** No operation of the account was put up for review after it was settled. */
  predicate Unquarantined(db: Db, account: string) {
    forall k :: k in db.ops && k.account == account ==> !db.ops[k].quarantine
  }

  /** Everything `save` is told about a new operation; it checks the rest itself. */
  ghost predicate CreateOk(w: World, db: Db, r: Record, key: IdemKey) {
    && WellFormedKey(key) && key.account == r.key.account && key.kind == KindOf(r.terms.direction)
    && r.key.id == OperationId(key)
    && key !in db.idem
    && |db.ops| < w.maxOperations
    && Fresh(w, r)
    && (r.terms.direction == Receive ==> SlotFree(db, r.key.account, r.terms.recipient))
    && (r.terms.direction == Send ==> Unquarantined(db, r.key.account))
  }

  ghost predicate SaveAllowed(w: World, log: History, r: Record, bind: Option<(IdemKey, Digest)>, reserve: bool,
                              why: Step)
  {
    var db := Replay(log);
    if why.Create? then
      && reserve && bind.Some? && bind.value.0.request == why.request
      && CreateOk(w, db, r, bind.value.0)
      && forall o :: o in r.terms.inputs && o in db.reservations ==> db.reservations[o] == r.key.id
    else
      && !reserve
      && r.key in db.ops && StepOk(w, log, Loaded(db, r.key), r, why)
      && (bind.Some? ==>
            && bind.value.0 !in db.idem && bind.value.0.account == r.key.account && WellFormedKey(bind.value.0)
            && bind.value.0.kind == (if why.Cancel? then CancelKind else FinalizeKind))
  }

  /** The change output of a send, the invoiced output of a receive. */
  function CreditTarget(w: World, r: Record): Option<Outpoint> {
    if r.terms.direction == Receive then ReceivesAt(w, r)
    else if r.txid.Some? && r.terms.changeVout.Some? then Some(Outpoint(r.txid.value, r.terms.changeVout.value))
    else None
  }

  /** The text under which an operation that lost its confirmations looks for its
      tracked output: for a receive the text that it was stored with. */
  function MarkTarget(w: World, r: Record): Option<OutText> {
    if r.terms.direction == Receive then r.receiveOutpoint
    else if r.txid.Some? && r.terms.changeVout.Some?
    then Some(w.show(Outpoint(r.txid.value, r.terms.changeVout.value)))
    else None
  }

  ghost predicate CreditAllowed(w: World, log: History, r: Record, outpoint: OutText) {
    r.key in Replay(log).ops && CreditGround(w, log, Loaded(Replay(log), r.key), r, outpoint)
  }

  /** What the credit of the stored record `a`, as `r`, rests on. */
  ghost predicate CreditGround(w: World, log: History, a: Record, r: Record, outpoint: OutText) {
    && Touched(a, r)
    && a.status == WaitingConfirmations
    && CreditTarget(w, a).Some? && outpoint == w.show(CreditTarget(w, a).value)
    && a.txid.Some?
    && r.terms.required <= r.confirmations && Has(log, Confirmed(a.txid.value, r.confirmations))
    && if a.terms.direction == Receive then
         && a.acknowledged == Some(true)
         && a.candidate.Some? && a.candidate.value.Carrier?
         && SeenBody(log, a.txid.value, a.candidate.value.tx.body)
         && (a.terms.blind ==> Has(log, SecretKept(r.key)))
         && Has(log, Accepted(r.key, a.artifact.proof))
       else
         && LastAck(log, r.key) == Some(r.acknowledged)
         && Has(log, Answered(FasciaPromoted(r.key, a.txid.value), true))
  }

  /** A body is posted only for a stored signed transaction whose proof is
      marked delivered and whose broadcast attempt is already durable, and only when
      the chain has just answered that it does not have it. */
  ghost predicate PostAllowed(log: History, key: OpKey, tx: Tx) {
    var db := Replay(log);
    && key in db.ops
    && db.ops[key].terms.direction == Send
    && db.ops[key].signed == Some(tx)
    && db.ops[key].delivery == Delivered
    && db.ops[key].broadcast == BroadcastUnknown
    && db.ops[key].txid.Some? && log.Then? && log.event == NotSeen(db.ops[key].txid.value)
  }

  /** An answer that is possible at any time. */
  predicate Plain(e: Event) {
    || e.Answered? || e.ClockRead? || e.SlotRead? || e.AckRead? || e.Previewed? || e.Invoiced? || e.RgbInputs?
    || e.Built? || e.FasciaEncoded? || e.ProofEncoded? || e.Relayed? || e.Confirmed? || e.NotSeen?
    || e.SecretKept? || e.Staged? || e.Accepted?
  }

  /** What is checked of a proof before it counts as validated. */
  ghost predicate ValidateAllowed(w: World, log: History, key: OpKey, proof: Bytes, txid: Txid, paid: Outpoint,
                                  contract: Contract, amount: u64, carrier: Tx)
  {
    && w.decode(proof).Some? && w.decode(proof).value.contract == contract && w.txidOf(carrier.body) == txid
    && key in Replay(log).ops
    && (if Replay(log).ops[key].terms.blind then
          && Has(log, Answered(OutputUnspent(key, paid), true))
          && Has(log, Answered(SealTargeted(key, proof), true))
        else
          PaysTo(carrier, paid, key.account))
    && AmountPreviewed(log, key, proof, paid, carrier, contract, amount)
  }

  ghost predicate Allowed(w: World, log: History, e: Event) {
    match e
    case Saved(r, bind, reserve, why) => SaveAllowed(w, log, r, bind, reserve, why)
    case Credited(r, outpoint) => CreditAllowed(w, log, r, outpoint)
    case Fetched(key, bytes, txid, vout, at) =>
      && log.Then? && log.event == ClockRead(at)
      && Has(log, SlotRead(key, Some(Slot(Some(bytes), Some(txid), vout))))
    case Validated(key, proof, txid, paid, contract, amount, carrier) =>
      ValidateAllowed(w, log, key, proof, txid, paid, contract, amount, carrier)
    case AckSent(key) => key in Replay(log).ops && Replay(log).ops[key].status == WaitingConfirmations
    case Acked(key) => log.Then? && log.event == AckRead(key, Some(true)) && Has(log, AckSent(key))
    case NackSent(key) => log.Then? && log.event.Saved? && log.event.record.key == key && log.event.why.Reject?
    case Seen(txid, tx) => w.txidOf(tx.body) == txid
    case Uploaded(key, txid, proof) =>
      && key in Replay(log).ops && Loaded(Replay(log), key).artifact.proof == proof
      && Replay(log).ops[key].signed.Some? && ProxyHolds(log, key, txid, proof)
    case Posted(key, tx) => PostAllowed(log, key, tx)
    case _ => true
  }

  /** The histories the engine can produce, with any outside answers and a crash
      after any event. */
  ghost predicate Legal(w: World, log: History) {
    log.Then? ==> Legal(w, log.before) && Allowed(w, log.before, log.event)
  }
}
