/** What every legal history keeps about the stored operations. */
module ExternalInvariants {
  import opened Basics
  import opened ExternalModel
  import opened ExternalHistory

  // -------------------------------------------------------- single records

  predicate SendStatus(s: Status) {
    s == Preparing || s == AwaitingSignature || s == Delivering || s == WaitingConfirmations || s == Settled ||
        s == NeedsReview
  }

  predicate ReceiveStatus(s: Status) {
    s == AwaitingTransfer || s == Cancelled || s == Validating || s == WaitingConfirmations || s == Settled ||
        s == NeedsReview
  }

  /** The carrier and the artifacts of a prepared send are what was built and encoded
      for it. */
  ghost predicate Assembled(log: History, r: Record) {
    && r.anchor.Some? && Has(log, Built(r.key, r.anchor.value.body.outputs))
    && Has(log, FasciaEncoded(r.key, r.artifact.fascia)) && Has(log, ProofEncoded(r.key, r.artifact.proof))
  }

  /** The prepared carrier was authorized, and the witnesses of the signed transaction
      were found valid. */
  ghost predicate Consented(log: History, r: Record) {
    && r.anchor.Some? && Has(log, Answered(Authorized(r.key, r.anchor.value), true))
    && r.signed.Some? && Has(log, Answered(WitnessesValid(r.key, r.signed.value), true))
  }

  /** A stored send: once prepared its carrier is fixed, once signed its body is
      the prepared one, and delivery and broadcast happen in that order. */
  ghost predicate SendOk(w: World, log: History, r: Record) {
    && SendStatus(r.status) && !r.terms.blind
    && (r.status == Preparing ==>
          && r.anchor.None? && r.txid.None? && r.candidate.Some? && r.candidate.value.Draft?
          && r.terms.inputs == Spends(w, r.candidate.value.psbt.body.inputs))
    && (r.status != Preparing ==>
          && r.anchor.Some? && r.txid == Some(w.txidOf(r.anchor.value.body))
          && r.candidate == Some(Carrier(Tx(r.anchor.value.body, [])))
          && r.terms.inputs == Spends(w, r.anchor.value.body.inputs)
          && Assembled(log, r))
    && (r.signed.None? <==> r.status == Preparing || r.status == AwaitingSignature)
    && (r.signed.Some? ==> r.signed.value.body == r.anchor.value.body && Consented(log, r))
    && (r.delivery == Delivered ==> r.signed.Some? && Has(log, Uploaded(r.key, r.txid.value, r.artifact.proof)))
    && (r.broadcast != BroadcastNotStarted ==> r.delivery == Delivered)
    && (r.status == WaitingConfirmations || r.status == Settled || r.status == NeedsReview <==>
        r.broadcast == BroadcastDone)
    && (r.broadcast == BroadcastDone ==> Launched(log, r))
  }

  /** A stored receive. The clause about a non-empty proof is the one that records left half
      written by the scan's error path must not break. */
  ghost predicate ReceiveOk(w: World, log: History, r: Record) {
    && ReceiveStatus(r.status) && r.signed.None? && |r.artifact.proof| <= w.maxProof
    && (r.txid.None? ==> r.artifact.proof == [] && (r.status == AwaitingTransfer || r.status == Cancelled))
    && (if r.terms.blind then r.receiveOutpoint.Some? else r.terms.inputs == [])
    && (r.receiveOutpoint.Some? ==>
          && ReceivesAt(w, r).Some?
          && if r.terms.blind then r.terms.inputs == [r.receiveOutpoint.value]
             else Canonical(w, r.receiveOutpoint.value))
    && (!r.terms.blind && r.receiveOutpoint.Some? ==> r.status != AwaitingTransfer && r.status != Cancelled)
    && (r.artifact.proof != [] && r.receiveOutpoint.Some? ==> r.status != AwaitingTransfer && r.status != Cancelled)
    && (r.status == Validating ==> r.receiveOutpoint.Some? && FetchedBefore(log, r.key, r.terms.expiresAt))
    && (r.status == WaitingConfirmations || r.status == Settled ==> CarrierValidated(w, log, r))
    && (r.acknowledged.Some? ==> r.acknowledged.value && Has(log, Acked(r.key)))
  }

  /** The stored proof was validated for the invoiced contract and amount, on
      the carrier that the record keeps, after a notice that came in time. */
  ghost predicate CarrierValidated(w: World, log: History, r: Record) {
    && r.artifact.proof != [] && w.decode(r.artifact.proof).Some? && r.txid.Some? && ReceivesAt(w, r).Some?
    && r.candidate.Some? && r.candidate.value.Carrier?
    && FetchedBefore(log, r.key, r.terms.expiresAt)
    && Has(log, Validated(r.key, r.artifact.proof, r.txid.value, ReceivesAt(w, r).value, r.terms.asset, r.terms.amount,
                          r.candidate.value.tx))
  }

  ghost predicate RecordOk(w: World, log: History, r: Record) {
    && r.terms.required == w.required
    && if r.terms.direction == Send then SendOk(w, log, r) else ReceiveOk(w, log, r)
  }

  lemma RecordOkGrows(w: World, log: History, e: Event, r: Record)
    requires RecordOk(w, log, r)
    ensures RecordOk(w, Then(log, e), r)
  {
    if r.terms.direction == Send {
      SendOkGrows(w, log, e, r);
    } else {
      ReceiveOkGrows(w, log, e, r);
    }
    hide SendOk, ReceiveOk;
  }

  lemma SendOkGrows(w: World, log: History, e: Event, r: Record)
    requires SendOk(w, log, r)
    ensures SendOk(w, Then(log, e), r)
  {
    hide Spends;
  }

  lemma ReceiveOkGrows(w: World, log: History, e: Event, r: Record)
    requires ReceiveOk(w, log, r)
    ensures ReceiveOk(w, Then(log, e), r)
  {
    hide Canonical;
  }

  lemma {:induction false} FetchedEvidence(log: History, key: OpKey, bytes: Bytes, txid: Txid, vout: Option<nat>,
                                           at: nat, deadline: nat)
    requires Has(log, Fetched(key, bytes, txid, vout, at)) && at < deadline
    ensures FetchedBefore(log, key, deadline)
  {
    if log.event != Fetched(key, bytes, txid, vout, at) {
      FetchedEvidence(log.before, key, bytes, txid, vout, at, deadline);
    }
  }

  lemma CreateMakesOk(w: World, log: History, r: Record)
    requires Fresh(w, r)
    ensures RecordOk(w, log, r)
  {
  }

  /** Every step keeps the record invariant. */
  lemma StepKeepsOk(w: World, log: History, a: Record, b: Record, why: Step)
    requires GoodWorld(w) && RecordOk(w, log, a) && StepOk(w, log, a, b, why)
    ensures RecordOk(w, log, b)
  {
    if a.terms.direction == Send {
      SendStepKeepsOk(w, log, a, b, why);
    } else {
      ReceiveStepKeepsOk(w, log, a, b, why);
    }
    hide SendOk, ReceiveOk, Guard;
  }

  lemma SendStepKeepsOk(w: World, log: History, a: Record, b: Record, why: Step)
    requires a.terms.direction == Send && SendOk(w, log, a) && StepOk(w, log, a, b, why)
    ensures SendOk(w, log, b)
  {
    hide Has, SeenBody, Mismatched;
  }

  lemma ReceiveStepKeepsOk(w: World, log: History, a: Record, b: Record, why: Step)
    requires GoodWorld(w) && a.terms.direction == Receive && ReceiveOk(w, log, a) && StepOk(w, log, a, b, why)
    ensures ReceiveOk(w, log, b)
  {
    if why.Notice? {
      NoticeKeepsOk(w, log, a, b, why);
    } else {
      OthersKeepOk(w, log, a, b, why);
    }
    hide ReceiveOk, StepOk;
  }

  lemma NoticeKeepsOk(w: World, log: History, a: Record, b: Record, why: Step)
    requires GoodWorld(w) && a.terms.direction == Receive && ReceiveOk(w, log, a) && StepOk(w, log, a, b, why)
    requires why.Notice?
    ensures ReceiveOk(w, log, b)
  {
    if why.at < a.terms.expiresAt {
      FetchedEvidence(log, a.key, why.bytes, why.txid, why.vout, why.at, a.terms.expiresAt);
    }
    hide Has, FetchedBefore;
  }

  lemma OthersKeepOk(w: World, log: History, a: Record, b: Record, why: Step)
    requires GoodWorld(w) && a.terms.direction == Receive && ReceiveOk(w, log, a) && StepOk(w, log, a, b, why)
    requires !why.Notice?
    ensures ReceiveOk(w, log, b)
  {
    hide Has, FetchedBefore, Total, PaysTo, SeenBody, Canonical;
  }

  lemma CreditKeepsOk(w: World, log: History, r: Record, outpoint: OutText)
    requires CreditAllowed(w, log, r, outpoint)
    requires RecordOk(w, log, Loaded(Replay(log), r.key))
    ensures RecordOk(w, log, Settle(r))
  {
    hide Replay, Loaded, Has, SeenBody, LastAck, FetchedBefore;
  }

  /** The only ways in which the status of an operation moves: forward, except
      after a flush that failed. */
  predicate Forward(w: World, d: Direction, s: Status, t: Status) {
    || s == t
    || (!w.flushes && s == Settled && t == WaitingConfirmations)
    || (s == WaitingConfirmations && t == Settled)
    || (s == Settled && t == NeedsReview)
    || if d == Send then
         || (s == Preparing && t == AwaitingSignature)
         || (s == AwaitingSignature && t == Delivering)
         || (s == Delivering && t == WaitingConfirmations)
       else
         || (s == AwaitingTransfer && (t == Cancelled || t == Validating || t == NeedsReview))
         || (s == Cancelled && t == NeedsReview)
         || (s == Validating && (t == WaitingConfirmations || t == NeedsReview))
         || (s == WaitingConfirmations && t == NeedsReview)
  }

  lemma StepMovesForward(w: World, log: History, a: Record, b: Record, why: Step)
    requires GoodWorld(w) && RecordOk(w, log, a) && StepOk(w, log, a, b, why)
    ensures a.key == b.key && a.terms == b.terms
    ensures Forward(w, a.terms.direction, a.status, b.status)
    ensures b.terms.direction == Send ==> b.status != Cancelled
  {
  }

  // ----------------------------------------------------------- the database

  ghost predicate OpsOk(w: World, log: History) {
    var db := Replay(log);
    forall k :: k in db.ops ==> db.ops[k].key == k && RecordOk(w, log, Loaded(db, k))
  }

  ghost predicate ArtifactsOk(db: Db) {
    && (forall k :: k in db.ops ==> db.ops[k].artifact == NoArtifact)
    && (forall k :: k in db.artifacts ==>
          && k in db.ops
          && db.artifacts[k] != NoArtifact
          && (db.ops[k].terms.direction == Receive ==> db.artifacts[k].fascia == []))
  }

  ghost predicate BoundBy(db: Db, k: OpKey, i: IdemKey) {
    && k in db.ops && WellFormedKey(i) && i.account == k.account && i.kind == KindOf(db.ops[k].terms.direction)
    && k.id == OperationId(i)
    && i in db.idem && db.idem[i].id == k.id
  }

  /** Every operation was created under its own idempotency key. */
  ghost predicate BoundOk(db: Db) {
    forall k :: k in db.ops ==> exists i :: BoundBy(db, k, i)
  }

  ghost predicate IdemOk(db: Db) {
    forall i :: i in db.idem ==>
      && WellFormedKey(i) && OpKey(i.account, db.idem[i].id) in db.ops
      && (i.kind == ReceiveKind || i.kind == PrepareKind ==>
            && db.idem[i].id == OperationId(i)
            && db.ops[OpKey(i.account, db.idem[i].id)].terms.direction ==
                (if i.kind == ReceiveKind then Receive else Send))
  }

  /** The operation still holds its inputs: sends for ever, receives until credited. */
  ghost predicate Holds(log: History, k: OpKey) {
    k in Replay(log).ops && (Replay(log).ops[k].terms.direction == Send || !CreditedKey(log, k))
  }

  ghost predicate ReservedOk(log: History) {
    var db := Replay(log);
    forall k, o :: Holds(log, k) && o in db.ops[k].terms.inputs ==> o in db.reservations && db.reservations[o] == k.id
  }

  /** The status of an operation that was credited. */
  predicate CreditedStatus(w: World, s: Status) {
    s == Settled || s == NeedsReview || (!w.flushes && s == WaitingConfirmations)
  }

  ghost predicate CreditOk(w: World, log: History) {
    forall k :: CreditedKey(log, k) ==> k in Replay(log).ops && CreditedStatus(w, Replay(log).ops[k].status)
  }

  ghost predicate SlotsOk(db: Db) {
    forall j, k ::
      (&& j in db.ops && k in db.ops && j.account == k.account
       && db.ops[j].terms.direction == Receive && db.ops[k].terms.direction == Receive
       && db.ops[j].terms.recipient == db.ops[k].terms.recipient)
      ==> j == k
  }

  ghost predicate Inv(w: World, log: History) {
    && OpsOk(w, log) && ArtifactsOk(Replay(log)) && BoundOk(Replay(log)) && IdemOk(Replay(log))
    && (Steady(w) ==> ReservedOk(log)) && CreditOk(w, log) && SlotsOk(Replay(log))
    && |Replay(log).ops| <= w.maxOperations
  }

  /** Operation ids are unique across accounts. */
  lemma IdsUnique(db: Db, j: OpKey, k: OpKey)
    requires BoundOk(db) && j in db.ops && k in db.ops && j.id == k.id
    ensures j == k
  {
    var a :| BoundBy(db, j, a);
    var b :| BoundBy(db, k, b);
    IdemTextInjective(a, b);
  }

  /** A new operation gets a new id. */
  lemma CreateIsNew(w: World, db: Db, r: Record, i: IdemKey, k: OpKey)
    requires BoundOk(db) && CreateOk(w, db, r, i) && k in db.ops
    ensures k.id != r.key.id
  {
    if k.id == r.key.id {
      var b :| BoundBy(db, k, b);
      IdemTextInjective(i, b);
      assert false;
    }
  }
}
