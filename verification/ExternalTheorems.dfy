/** Safety of the external engine over all runs: statements about every legal
    history, hence about every sequence of requests, scans, outside answers and
    crashes. */
module ExternalTheorems {
  import opened Basics
  import opened ExternalModel
  import opened ExternalHistory
  import opened ExternalInvariants
  import opened ExternalInduction

  lemma {:induction false} PrefixLegal(w: World, p: History, log: History)
    requires Legal(w, log) && Prefix(p, log)
    ensures Legal(w, p)
    decreases log
  {
    hide Allowed;
    if p != log {
      PrefixLegal(w, p, log.before);
    }
  }

  lemma {:induction false} StoredOk(w: World, log: History, k: OpKey)
    requires GoodWorld(w) && Legal(w, log) && k in Replay(log).ops
    ensures RecordOk(w, log, Loaded(Replay(log), k)) && Loaded(Replay(log), k).key == k
  {
    hide Legal, RecordOk, SlotsOk, IdemOk, BoundOk, ReservedOk, CreditOk, ArtifactsOk;
    LegalKeepsInv(w, log);
  }

  lemma {:induction false} StoredCredit(w: World, log: History, k: OpKey)
    requires GoodWorld(w) && Legal(w, log) && CreditedKey(log, k)
    ensures k in Replay(log).ops && CreditedStatus(w, Replay(log).ops[k].status)
  {
    hide Legal, OpsOk, SlotsOk, IdemOk, BoundOk, ReservedOk, ArtifactsOk;
    LegalKeepsInv(w, log);
  }

  lemma {:induction false} StoredReservation(w: World, log: History, k: OpKey, o: OutText)
    requires GoodWorld(w) && Steady(w) && Legal(w, log) && Holds(log, k) && o in Replay(log).ops[k].terms.inputs
    ensures o in Replay(log).reservations && Replay(log).reservations[o] == k.id
  {
    hide Legal, OpsOk, SlotsOk, IdemOk, BoundOk, CreditOk, ArtifactsOk;
    LegalKeepsInv(w, log);
  }

  lemma {:induction false} StoredIdsUnique(w: World, log: History, j: OpKey, k: OpKey)
    requires GoodWorld(w) && Legal(w, log) && j in Replay(log).ops && k in Replay(log).ops && j.id == k.id
    ensures j == k
  {
    hide Legal, OpsOk, SlotsOk, IdemOk, BoundOk, ReservedOk, CreditOk, ArtifactsOk;
    LegalKeepsInv(w, log);
    IdsUnique(Replay(log), j, k);
  }

  /** How one event changes the stored record `k`. */
  lemma {:induction false} EventKeepsRecord(w: World, log: History, e: Event, k: OpKey)
    requires GoodWorld(w) && Legal(w, Then(log, e)) && k in Replay(log).ops
    ensures var db, db' := Replay(log), Replay(Then(log, e));
            && k in db'.ops
            && (Loaded(db', k) == Loaded(db, k)
                || (e.Saved? && e.record.key == k && !e.why.Create? && RecordOk(w, log, Loaded(db, k))
                    && StepOk(w, log, Loaded(db, k), e.record, e.why)
                    && Loaded(db', k) == e.record)
                || (e.Credited? && e.record.key == k && RecordOk(w, log, Loaded(db, k)) &&
                    CreditAllowed(w, log, e.record, e.outpoint)
                    && Loaded(db', k) == Settle(e.record)))
  {
    hide SaveAllowed, CreditAllowed, PostAllowed, Replay, Loaded, Inv;
    assert Legal(w, log) && Allowed(w, log, e);
    LegalKeepsInv(w, log);
    hide Legal;
    if e.Saved? {
      SavedKeepsRecord(w, log, e, k);
    } else if e.Credited? {
      CreditedKeepsRecord(w, log, e, k);
    } else {
      AnswerKeepsRecord(log, e, k);
    }
    hide *;
  }

  lemma AnswerKeepsRecord(log: History, e: Event, k: OpKey)
    requires k in Replay(log).ops && !e.Saved? && !e.Credited?
    ensures var db, db' := Replay(log), Replay(Then(log, e)); k in db'.ops && Loaded(db', k) == Loaded(db, k)
  {
  }

  lemma {:induction false} SavedKeepsRecord(w: World, log: History, e: Event, k: OpKey)
    requires GoodWorld(w) && Inv(w, log) && k in Replay(log).ops
    requires e.Saved? && SaveAllowed(w, log, e.record, e.bind, e.reserve, e.why)
    ensures var db, db' := Replay(log), Replay(Then(log, e));
            && k in db'.ops
            && (Loaded(db', k) == Loaded(db, k)
                || (e.record.key == k && !e.why.Create? && RecordOk(w, log, Loaded(db, k))
                    && StepOk(w, log, Loaded(db, k), e.record, e.why)
                    && Loaded(db', k) == e.record))
  {
    hide StepOk, RecordOk, ReservedOk, CreditOk, SlotsOk, IdemOk, BoundOk, ArtifactsOk, Fresh, SlotFree;
    var r, why := e.record, e.why;
    SavedShape(w, log, r, e.bind, e.reserve, why);
    if why.Create? {
      CreateAdds(w, Replay(log), r, e.bind.value.0, e.bind.value.1);
    } else if r.key == k {
      UpdateReadsBack(w, log, r, e.bind, why);
    }
  }

  lemma {:induction false} CreditedKeepsRecord(w: World, log: History, e: Event, k: OpKey)
    requires Inv(w, log) && k in Replay(log).ops && e.Credited? && CreditAllowed(w, log, e.record, e.outpoint)
    ensures var db, db' := Replay(log), Replay(Then(log, e));
            && k in db'.ops
            && (Loaded(db', k) == Loaded(db, k)
                || (e.record.key == k && RecordOk(w, log, Loaded(db, k)) && Loaded(db', k) == Settle(e.record)))
  {
    hide CreditAllowed, RecordOk, ReservedOk, CreditOk, SlotsOk, IdemOk, BoundOk, ArtifactsOk;
    CreditRewrites(w, log, e.record, e.outpoint);
  }

  /** What no event changes: what the operation is about and, once a send is
      signed, its transaction, its id and its proof. */
  ghost predicate Frozen(a: Record, b: Record) {
    && a.key == b.key && a.terms == b.terms
    && (a.signed.Some? ==> b.signed == a.signed && b.txid == a.txid && b.anchor == a.anchor && b.artifact == a.artifact)
  }

  lemma StepFrozen(w: World, log: History, a: Record, b: Record, why: Step)
    requires GoodWorld(w) && RecordOk(w, log, a) && StepOk(w, log, a, b, why)
    ensures Frozen(a, b)
  {
  }

  /** One event of a run: the record moves forward and frozen parts stay. */
  lemma {:induction false} EventMoves(w: World, log: History, e: Event, k: OpKey)
    requires GoodWorld(w) && Legal(w, Then(log, e)) && k in Replay(log).ops
    ensures var db, db' := Replay(log), Replay(Then(log, e));
            k in db'.ops && Frozen(Loaded(db, k), Loaded(db', k)) && db.ops[k].terms == db'.ops[k].terms
            && Forward(w, db.ops[k].terms.direction, db.ops[k].status, db'.ops[k].status)
  {
    EventKeepsRecord(w, log, e, k);
    hide Legal, RecordOk, StepOk, Replay;
    if e.Saved? && e.record.key == k && !e.why.Create? && StepOk(w, log, Loaded(Replay(log), k), e.record, e.why) &&
        RecordOk(w, log, Loaded(Replay(log), k)) {
      StepMovesForward(w, log, Loaded(Replay(log), k), e.record, e.why);
      StepFrozen(w, log, Loaded(Replay(log), k), e.record, e.why);
    }
  }

  /** The same over any stretch of a run. */
  lemma {:induction false} RunFrozen(w: World, p: History, log: History, k: OpKey)
    requires GoodWorld(w) && Legal(w, log) && Prefix(p, log) && k in Replay(p).ops
    ensures k in Replay(log).ops && Frozen(Loaded(Replay(p), k), Loaded(Replay(log), k))
    decreases log
  {
    hide Allowed, Apply, Loaded;
    if p != log {
      RunFrozen(w, p, log.before, k);
      EventMoves(w, log.before, log.event, k);
    }
  }

  // ------------------------------------------------------------- receives

  /** A validated proof decodes to the contract it was validated for, its preview
      found exactly the amount, and its carrier pays to the account or, for a blind
      invoice, its proof targets the invoiced seal on an unspent output. */
  lemma {:induction false} ValidatedIsProvable(w: World, log: History, e: Event)
    requires GoodWorld(w) && Legal(w, log) && e.Validated? && Has(log, e)
    ensures ValidateAllowed(w, log, e.key, e.proof, e.txid, e.paid, e.contract, e.amount, e.carrier)
  {
    hide SaveAllowed, CreditAllowed, PostAllowed, ValidateAllowed;
    if log.event != e {
      ValidatedIsProvable(w, log.before, e);
    } else {
      assert ValidateAllowed(w, log.before, e.key, e.proof, e.txid, e.paid, e.contract, e.amount, e.carrier);
    }
    ValidateStays(w, log.before, log.event, e);
  }

  lemma {:induction false} ValidateStays(w: World, log: History, d: Event, e: Event)
    requires GoodWorld(w) && Legal(w, Then(log, d)) && e.Validated?
    requires ValidateAllowed(w, log, e.key, e.proof, e.txid, e.paid, e.contract, e.amount, e.carrier)
    ensures ValidateAllowed(w, Then(log, d), e.key, e.proof, e.txid, e.paid, e.contract, e.amount, e.carrier)
  {
    EventMoves(w, log, d, e.key);
    hide Legal, Replay, Loaded, PaysTo, Total;
  }

  /** What is known of an operation that is about to be credited. */
  lemma {:induction false} CreditPremises(w: World, before: History, r: Record, outpoint: OutText, log: History)
    requires GoodWorld(w) && Legal(w, log) && Prefix(Then(before, Credited(r, outpoint)), log)
    ensures Legal(w, before) && CreditAllowed(w, before, r, outpoint) && r.key in Replay(before).ops
    ensures RecordOk(w, before, Loaded(Replay(before), r.key)) && Loaded(Replay(before), r.key).key == r.key
    ensures w.flushes ==> !CreditedKey(before, r.key)
  {
    PrefixLegal(w, Then(before, Credited(r, outpoint)), log);
    assert CreditAllowed(w, before, r, outpoint) && Legal(w, before);
    hide Legal, RecordOk;
    StoredOk(w, before, r.key);
    if CreditedKey(before, r.key) {
      StoredCredit(w, before, r.key);
    }
  }

  /** Everything that must have happened before a receive is credited. */
  ghost predicate Earned(w: World, log: History, a: Record, outpoint: OutText, depth: nat) {
    && a.artifact.proof != [] && a.txid.Some? && a.candidate.Some? && a.candidate.value.Carrier?
    && var carrier := a.candidate.value.tx;
    && ReceivesAt(w, a).Some? && outpoint == w.show(ReceivesAt(w, a).value)
    && Has(log, Validated(a.key, a.artifact.proof, a.txid.value, ReceivesAt(w, a).value, a.terms.asset, a.terms.amount,
                          carrier))
    && AmountPreviewed(log, a.key, a.artifact.proof, ReceivesAt(w, a).value, carrier, a.terms.asset, a.terms.amount)
    && (if a.terms.blind then
          && Has(log, Answered(OutputUnspent(a.key, ReceivesAt(w, a).value), true))
          && Has(log, Answered(SealTargeted(a.key, a.artifact.proof), true)) && Has(log, SecretKept(a.key))
        else
          PaysTo(carrier, ReceivesAt(w, a).value, a.key.account))
    && Has(log, AckSent(a.key)) && Has(log, AckRead(a.key, Some(true)))
    && w.required <= depth && Has(log, Confirmed(a.txid.value, depth))
    && SeenBody(log, a.txid.value, carrier.body)
    && Has(log, Accepted(a.key, a.artifact.proof))
    && FetchedBefore(log, a.key, a.terms.expiresAt)
  }

  /** A receive is credited only after its stored proof was validated for the invoiced
      contract, its preview found allocations that add up to exactly the invoiced
      amount, on a carrier that pays to the account or, for a blind invoice, on the
      invoiced seal; after the proxy was seen to hold the acknowledgement, the stock
      accepted the proof, and the very carrier that was validated was confirmed deeply
      enough; and only if the payment was first noticed before the invoice expired.
      The credited outpoint is then tracked as confirmed. */
  lemma {:induction false} ReceiveCreditIsEarned(w: World, before: History, r: Record, outpoint: OutText, log: History)
    requires GoodWorld(w) && Legal(w, log) && Prefix(Then(before, Credited(r, outpoint)), log)
    requires r.terms.direction == Receive
    ensures r.key in Replay(before).ops && Loaded(Replay(before), r.key).terms == r.terms
    ensures Earned(w, before, Loaded(Replay(before), r.key), outpoint, r.confirmations)
    ensures w.flushes ==> !CreditedKey(before, r.key)
    ensures var utxos := Replay(Then(before, Credited(r, outpoint))).utxos;
            (r.key.account, outpoint) in utxos && utxos[(r.key.account, outpoint)]
  {
    CreditPremises(w, before, r, outpoint, log);
    CreditMovesTracked(before, r, outpoint, r.key.account, outpoint);
    hide Legal, Replay, Loaded, Has, SeenBody, AmountPreviewed, FetchedBefore, LastAck, PaysTo, SendOk;
    var a := Loaded(Replay(before), r.key);
    AckedIsSeen(w, before, r.key);
    ValidatedIsProvable(w, before, Validated(a.key, a.artifact.proof, a.txid.value, ReceivesAt(w, a).value,
                                             a.terms.asset, a.terms.amount, a.candidate.value.tx));
  }

  /** An acknowledgement is sent only after validation, whether or not its answer
      ever arrives. */
  lemma {:induction false} AckFollowsValidation(w: World, before: History, key: OpKey, log: History)
    requires GoodWorld(w) && Legal(w, log) && Prefix(Then(before, AckSent(key)), log)
    requires key in Replay(before).ops && Replay(before).ops[key].terms.direction == Receive
    ensures CarrierValidated(w, before, Loaded(Replay(before), key))
  {
    PrefixLegal(w, Then(before, AckSent(key)), log);
    assert Replay(before).ops[key].status == WaitingConfirmations;
    hide Legal;
    StoredOk(w, before, key);
  }

  /** The proxy is seen to hold an acknowledgement only after one was sent, and only
      by an answer that says so. */
  lemma {:induction false} AckFollowsSending(w: World, before: History, key: OpKey, log: History)
    requires Legal(w, log) && Prefix(Then(before, Acked(key)), log)
    ensures Has(before, AckSent(key)) && LastAck(before, key) == Some(Some(true))
  {
    PrefixLegal(w, Then(before, Acked(key)), log);
  }

  lemma {:induction false} AckedIsSeen(w: World, log: History, key: OpKey)
    requires Legal(w, log) && Has(log, Acked(key))
    ensures Has(log, AckSent(key)) && Has(log, AckRead(key, Some(true)))
  {
    hide SaveAllowed, CreditAllowed, PostAllowed, ValidateAllowed;
    if log.event != Acked(key) {
      AckedIsSeen(w, log.before, key);
    }
  }

  lemma {:induction false} RejectedIs(w: World, log: History, e: Event)
    requires Legal(w, Then(log, e)) && e.Saved? && e.why.Reject?
    ensures e.record.key in Replay(log).ops
    ensures Mismatched(w, log, Loaded(Replay(log), e.record.key), e.why.mismatch) && e.record.status == NeedsReview
    ensures var db := Replay(Then(log, e)); e.record.key in db.ops && db.ops[e.record.key].status == NeedsReview
  {
    assert SaveAllowed(w, log, e.record, e.bind, e.reserve, e.why);
    hide Legal, Mismatched, Loaded;
  }

  /** The peer is told that its proof is rejected only over a mismatch that the stored
      receive really has; an answer that failed to come is no reason. */
  lemma {:induction false} NackFollowsMismatch(w: World, before: History, key: OpKey, log: History)
      returns (earlier: History, mismatch: Mismatch)
    requires GoodWorld(w) && Legal(w, log) && Prefix(Then(before, NackSent(key)), log)
    ensures before.Then? && before.before == earlier && key in Replay(earlier).ops
    ensures Mismatched(w, earlier, Loaded(Replay(earlier), key), mismatch)
    ensures key in Replay(log).ops && Replay(log).ops[key].status == NeedsReview
  {
    PrefixLegal(w, Then(before, NackSent(key)), log);
    earlier, mismatch := before.before, before.event.why.mismatch;
    RejectedIs(w, earlier, before.event);
    hide Allowed, Legal;
    PrefixTrans(before, Then(before, NackSent(key)), log);
    ReviewIsAbsorbing(w, before, log, key);
  }

  predicate Closed(s: Status) {
    s == Cancelled || s == NeedsReview
  }

  lemma {:induction false} ClosedStays(w: World, p: History, log: History, k: OpKey)
    requires GoodWorld(w) && Legal(w, log) && Prefix(p, log)
    requires k in Replay(p).ops && Closed(Replay(p).ops[k].status)
    ensures k in Replay(log).ops && Closed(Replay(log).ops[k].status)
    ensures CreditedKey(log, k) ==> CreditedKey(p, k)
    decreases log
  {
    hide Allowed, Apply, Loaded, Closed;
    if p != log {
      ClosedStays(w, p, log.before, k);
      ClosedEvent(w, log.before, log.event, k);
    }
  }

  lemma {:induction false} ClosedEvent(w: World, log: History, e: Event, k: OpKey)
    requires GoodWorld(w) && Legal(w, Then(log, e)) && k in Replay(log).ops && Closed(Replay(log).ops[k].status)
    ensures k in Replay(Then(log, e)).ops && Closed(Replay(Then(log, e)).ops[k].status)
    ensures CreditedKey(Then(log, e), k) ==> CreditedKey(log, k)
  {
    hide SaveAllowed, PostAllowed;
    EventMoves(w, log, e, k);
    hide Allowed, Legal;
  }

  /** A cancelled receive is never credited, and no later event undoes the
      cancellation except by putting it up for review. */
  lemma {:induction false} CancelledNeverCredited(w: World, p: History, log: History, k: OpKey)
    requires GoodWorld(w) && Legal(w, log) && Prefix(p, log)
    requires k in Replay(p).ops && Replay(p).ops[k].status == Cancelled
    ensures !CreditedKey(log, k)
    ensures k in Replay(log).ops && Closed(Replay(log).ops[k].status)
  {
    hide Legal;
    PrefixLegal(w, p, log);
    ClosedStays(w, p, log, k);
    if CreditedKey(p, k) {
      StoredCredit(w, p, k);
    }
  }

  // --------------------------------------------------------- reservations

  /** No two operations that still hold their inputs share an outpoint, across
      all accounts. */
  lemma {:induction false} HoldersAreDisjoint(w: World, log: History, j: OpKey, k: OpKey, o: OutText)
    requires GoodWorld(w) && Steady(w) && Legal(w, log) && Holds(log, j) && Holds(log, k)
    requires o in Replay(log).ops[j].terms.inputs && o in Replay(log).ops[k].terms.inputs
    ensures j == k
  {
    hide Legal;
    StoredReservation(w, log, j, o);
    StoredReservation(w, log, k, o);
    StoredIdsUnique(w, log, j, k);
  }

  /** The inputs of a send stay reserved for it for ever. */
  lemma {:induction false} SendReservationForever(w: World, p: History, log: History, k: OpKey, o: OutText)
    requires GoodWorld(w) && Steady(w) && Legal(w, log) && Prefix(p, log)
    requires k in Replay(p).ops && Replay(p).ops[k].terms.direction == Send && o in Replay(p).ops[k].terms.inputs
    ensures o in Replay(log).reservations && Replay(log).reservations[o] == k.id
  {
    hide Legal;
    RunFrozen(w, p, log, k);
    StoredReservation(w, log, k, o);
  }

  /** The unconditional removal in `credit` drops entries of the credited
      operation only. */
  lemma {:induction false} CreditDropsOwnEntriesOnly(w: World, log: History, r: Record, outpoint: OutText, o: OutText)
    requires GoodWorld(w) && Steady(w) && Legal(w, Then(log, Credited(r, outpoint)))
    requires o in Replay(log).reservations && o !in Replay(Then(log, Credited(r, outpoint))).reservations
    ensures Replay(log).reservations[o] == r.key.id && r.terms.direction == Receive
  {
    hide StepOk, CreateOk;
    LegalKeepsInv(w, log);
    hide SlotsOk, IdemOk, BoundOk, OpsOk, ArtifactsOk, ReservedOk, CreditOk, CreditAllowed;
    CreditRemovesOwn(w, log, r, outpoint, o);
  }

  /** A credit tracks the credited output as confirmed and stops tracking what the
      operation has spent; every other output is tracked as before. */
  lemma CreditMovesTracked(log: History, r: Record, outpoint: OutText, account: string, o: OutText)
    ensures var before, after := Replay(log).utxos, Replay(Then(log, Credited(r, outpoint))).utxos;
            if account == r.key.account && o == outpoint then (account, o) in after && after[(account, o)]
            else if account == r.key.account && o in r.terms.inputs then (account, o) !in after
            else
              && ((account, o) in after <==> (account, o) in before)
              && ((account, o) in after ==> after[(account, o)] == before[(account, o)])
  {
  }

  /** Receives of one account never share a proxy slot. */
  lemma {:induction false} SlotsAreUnique(w: World, log: History, j: OpKey, k: OpKey)
    requires GoodWorld(w) && Legal(w, log) && j in Replay(log).ops && k in Replay(log).ops && j.account == k.account
    requires Replay(log).ops[j].terms.direction == Receive && Replay(log).ops[k].terms.direction == Receive
    requires Replay(log).ops[j].terms.recipient == Replay(log).ops[k].terms.recipient
    ensures j == k
  {
    hide Legal;
    LegalKeepsInv(w, log);
  }

  lemma {:induction false} PrefixesNest(a: History, b: History, log: History)
    requires Prefix(a, log) && Prefix(b, log)
    ensures Prefix(a, b) || Prefix(b, a)
    decreases log
  {
    if a != log && b != log {
      PrefixesNest(a, b, log.before);
    }
  }

  lemma {:induction false} CreditedGrows(p: History, log: History, key: OpKey)
    requires Prefix(p, log) && CreditedKey(p, key)
    ensures CreditedKey(log, key)
    decreases log
  {
    if p != log {
      CreditedGrows(p, log.before, key);
    }
  }

  /** A credited receive is still stored, under the terms it was credited on. */
  lemma {:induction false} CreditedIsStored(w: World, p: History, r: Record, outpoint: OutText, log: History)
    requires GoodWorld(w) && w.flushes && Legal(w, log) && Prefix(Then(p, Credited(r, outpoint)), log)
    requires r.terms.direction == Receive
    ensures r.key in Replay(log).ops && Loaded(Replay(log), r.key).terms == r.terms
    ensures CreditedKey(Then(p, Credited(r, outpoint)), r.key) && !CreditedKey(p, r.key)
  {
    hide Legal, Replay, Earned;
    ReceiveCreditIsEarned(w, p, r, outpoint, log);
    PrefixTrans(p, Then(p, Credited(r, outpoint)), log);
    RunFrozen(w, p, log, r.key);
  }

  /** What arrives at one proxy slot of an account is credited once at most, over
      all its receives and over all time. */
  lemma {:induction false} SlotCreditedOnce(
      w: World, log: History, p: History, a: Record, x: OutText, q: History, b: Record, y: OutText)
    requires GoodWorld(w) && w.flushes && Legal(w, log)
    requires Prefix(Then(p, Credited(a, x)), log) && Prefix(Then(q, Credited(b, y)), log)
    requires a.terms.direction == Receive && b.terms.direction == Receive
    requires a.key.account == b.key.account && a.terms.recipient == b.terms.recipient
    ensures p == q && a == b && x == y
  {
    hide Legal, Replay;
    CreditedIsStored(w, p, a, x, log);
    CreditedIsStored(w, q, b, y, log);
    SlotsAreUnique(w, log, a.key, b.key);
    var p', q' := Then(p, Credited(a, x)), Then(q, Credited(b, y));
    PrefixesNest(p', q', log);
    if p' != q' {
      if Prefix(p', q') {
        CreditedGrows(p', q, a.key);
      } else {
        CreditedGrows(q', p, a.key);
      }
    }
  }

  // ------------------------------------------------------------------ sends

  /** The signed transaction of a send is durable once and for all. */
  lemma {:induction false} SignedNeverChanges(w: World, p: History, log: History, k: OpKey)
    requires GoodWorld(w) && Legal(w, log) && Prefix(p, log)
    requires k in Replay(p).ops && Replay(p).ops[k].signed.Some?
    ensures k in Replay(log).ops && Replay(log).ops[k].signed == Replay(p).ops[k].signed
    ensures Replay(log).ops[k].txid == Replay(p).ops[k].txid
  {
    hide Legal;
    RunFrozen(w, p, log, k);
  }

  lemma {:induction false} UploadedIsHeld(w: World, log: History, key: OpKey, txid: Txid, proof: Bytes)
    requires Legal(w, log) && Has(log, Uploaded(key, txid, proof))
    ensures ProxyHolds(log, key, txid, proof)
  {
    hide SaveAllowed, CreditAllowed, PostAllowed, ValidateAllowed, Replay, Loaded;
    if log.event != Uploaded(key, txid, proof) {
      UploadedIsHeld(w, log.before, key, txid, proof);
    }
  }

  /** Whatever is ever posted to the chain for a send is its durable signed
      transaction, authorized and with witnesses found valid, has the id recorded at
      preparation, and is posted only after the proxy accepted, or was seen to hold,
      the proof that was encoded for this carrier and stays stored with it. */
  lemma {:induction false} PostedIsDurable(w: World, before: History, key: OpKey, tx: Tx, log: History)
    requires GoodWorld(w) && Legal(w, log) && Prefix(Then(before, Posted(key, tx)), log)
    ensures key in Replay(log).ops
    ensures var r := Loaded(Replay(log), key);
            && r.signed == Some(tx)
            && r.txid == Some(w.txidOf(tx.body))
            && r.anchor.Some? && tx.body == r.anchor.value.body
            && Assembled(before, r) && Consented(before, r)
            && ProxyHolds(before, key, r.txid.value, r.artifact.proof)
  {
    PrefixLegal(w, Then(before, Posted(key, tx)), log);
    assert PostAllowed(before, key, tx) && Legal(w, before);
    var a := Loaded(Replay(before), key);
    assert a.terms.direction == Send && a.signed == Some(tx) && a.delivery == Delivered;
    hide Legal, Replay, Loaded, Has, ProxyHolds, SeenBody, Allowed;
    StoredOk(w, before, key);
    UploadedIsHeld(w, before, key, a.txid.value, a.artifact.proof);
    PrefixTrans(before, Then(before, Posted(key, tx)), log);
    RunFrozen(w, before, log, key);
  }

  /** Whatever is posted for a send spends exactly the inputs reserved for it. */
  lemma {:induction false} PostedSpendsReserved(w: World, before: History, key: OpKey, tx: Tx, log: History)
    requires GoodWorld(w) && Legal(w, log) && Prefix(Then(before, Posted(key, tx)), log)
    ensures key in Replay(log).ops && Replay(log).ops[key].terms.direction == Send
    ensures Replay(log).ops[key].terms.inputs == Spends(w, tx.body.inputs)
  {
    hide Legal;
    PostedIsDurable(w, before, key, tx, log);
    StoredOk(w, log, key);
  }

  /** Two posted sends never spend the same outpoint, whatever the accounts. */
  lemma {:induction false} PostedNeverShare(
      w: World, log: History, p: History, j: OpKey, a: Tx, q: History, k: OpKey, b: Tx, m: nat, n: nat)
    requires GoodWorld(w) && Steady(w) && Legal(w, log)
    requires Prefix(Then(p, Posted(j, a)), log) && Prefix(Then(q, Posted(k, b)), log)
    requires m < |a.body.inputs| && n < |b.body.inputs|
    requires a.body.inputs[m].previous == b.body.inputs[n].previous
    ensures j == k && a == b
  {
    hide Legal, Replay;
    PostedSpendsReserved(w, p, j, a, log);
    PostedSpendsReserved(w, q, k, b, log);
    var o := w.show(a.body.inputs[m].previous);
    assert Spends(w, a.body.inputs)[m] == o == Spends(w, b.body.inputs)[n];
    HoldersAreDisjoint(w, log, j, k, o);
    PostedIsDurable(w, p, j, a, log);
    PostedIsDurable(w, q, k, b, log);
  }

  /** A send that waits for confirmations, is settled or is under review was really
      launched: its durable transaction was posted, or the chain had it. */
  lemma {:induction false} BroadcastIsReal(w: World, log: History, k: OpKey)
    requires GoodWorld(w) && Legal(w, log) && k in Replay(log).ops
    requires Replay(log).ops[k].terms.direction == Send && Replay(log).ops[k].broadcast == BroadcastDone
    ensures Launched(log, Loaded(Replay(log), k))
  {
    hide Legal;
    StoredOk(w, log, k);
  }

  /** The change of a send is credited only after the proxy held its proof, its
      transaction was launched and confirmed deeply enough, its state was promoted, and
      the proxy was asked what the peer says; the record carries its last answer. */
  lemma {:induction false} SendCreditIsEarned(w: World, before: History, r: Record, outpoint: OutText, log: History)
    requires GoodWorld(w) && Legal(w, log) && Prefix(Then(before, Credited(r, outpoint)), log)
    requires r.terms.direction == Send
    ensures r.key in Replay(before).ops && (w.flushes ==> !CreditedKey(before, r.key))
    ensures var a := Loaded(Replay(before), r.key);
            && a.terms == r.terms && a.signed.Some? && a.txid.Some? && Launched(before, a)
            && ProxyHolds(before, a.key, a.txid.value, a.artifact.proof)
            && Has(before, Confirmed(a.txid.value, r.confirmations)) && r.terms.required <= r.confirmations
            && Has(before, Answered(FasciaPromoted(r.key, a.txid.value), true))
            && LastAck(before, r.key) == Some(r.acknowledged)
            && a.terms.changeVout.Some? && outpoint == w.show(Outpoint(a.txid.value, a.terms.changeVout.value))
  {
    CreditPremises(w, before, r, outpoint, log);
    hide Legal, Replay, Loaded, Has, SeenBody, LastAck;
    var a := Loaded(Replay(before), r.key);
    UploadedIsHeld(w, before, a.key, a.txid.value, a.artifact.proof);
  }

  /** From the request to the credit: the change of a send is credited to that output
      of its carrier which the request named as change, the carrier spends the inputs
      of the caller's PSBT in their order, and nothing that the request fixed has
      changed on the way. */
  lemma {:induction false} ChangeGoesWhereRequested(
      w: World, p: History, r: Record, bind: Option<(IdemKey, Digest)>, name: string, before: History, s: Record,
      outpoint: OutText, log: History)
    requires GoodWorld(w) && Legal(w, log) && r.key == s.key && r.terms.direction == Send
    requires Prefix(Then(p, Saved(r, bind, true, Create(name))), before)
    requires Prefix(Then(before, Credited(s, outpoint)), log)
    ensures s.terms == r.terms && r.terms.changeVout.Some? && r.candidate.Some? && r.candidate.value.Draft?
    ensures var psbt := r.candidate.value.psbt;
            && s.anchor.Some? && SamePrevious(s.anchor.value.body.inputs, psbt.body.inputs)
            && outpoint == w.show(Outpoint(w.txidOf(s.anchor.value.body), r.terms.changeVout.value))
  {
    var created := Then(p, Saved(r, bind, true, Create(name)));
    PrefixTrans(before, Then(before, Credited(s, outpoint)), log);
    PrefixLegal(w, before, log);
    PrefixLegal(w, created, before);
    CreatedIsStored(w, p, r, bind, name);
    RunFrozen(w, created, before, r.key);
    CreditCarriesAnchor(w, before, s, outpoint, log);
    SpendsDecides(w, s.anchor.value.body.inputs, r.candidate.value.psbt.body.inputs);
  }

  /** The two lists of inputs spend the same outputs, in the same order. */
  predicate SamePrevious(a: seq<TxIn>, b: seq<TxIn>) {
    |a| == |b| && forall i :: 0 <= i < |a| ==> a[i].previous == b[i].previous
  }

  lemma SpendsDecides(w: World, a: seq<TxIn>, b: seq<TxIn>)
    requires ReadsBack(w) && Spends(w, a) == Spends(w, b)
    ensures SamePrevious(a, b)
  {
    forall i | 0 <= i < |a|
      ensures a[i].previous == b[i].previous
    {
      assert Spends(w, a)[i] == Spends(w, b)[i];
      assert w.parse(w.show(a[i].previous)) == Some(a[i].previous);
      assert w.parse(w.show(b[i].previous)) == Some(b[i].previous);
    }
  }

  lemma {:induction false} CreatedIsStored(w: World, log: History, r: Record, bind: Option<(IdemKey, Digest)>,
                                           name: string)
    requires Legal(w, Then(log, Saved(r, bind, true, Create(name))))
    ensures Fresh(w, r)
    ensures var db := Replay(Then(log, Saved(r, bind, true, Create(name))));
            r.key in db.ops && Loaded(db, r.key).terms == r.terms
  {
    hide Fresh, SlotFree, Unquarantined;
  }

  lemma {:induction false} CreditCarriesAnchor(w: World, before: History, s: Record, outpoint: OutText, log: History)
    requires GoodWorld(w) && Legal(w, log) && Prefix(Then(before, Credited(s, outpoint)), log)
    requires s.key in Replay(before).ops && Loaded(Replay(before), s.key).terms.direction == Send
    ensures s.terms == Loaded(Replay(before), s.key).terms && s.terms.changeVout.Some?
    ensures s.anchor.Some? && s.terms.inputs == Spends(w, s.anchor.value.body.inputs)
    ensures outpoint == w.show(Outpoint(w.txidOf(s.anchor.value.body), s.terms.changeVout.value))
  {
    PrefixLegal(w, Then(before, Credited(s, outpoint)), log);
    assert CreditAllowed(w, before, s, outpoint) && Legal(w, before);
    hide Legal, Replay, Loaded;
    StoredOk(w, before, s.key);
  }

  lemma {:induction false} PrefixTrans(a: History, b: History, c: History)
    requires Prefix(a, b) && Prefix(b, c)
    ensures Prefix(a, c)
    decreases c
  {
    if b != c {
      PrefixTrans(a, b, c.before);
    }
  }

  // ----------------------------------------------------------------- status

  /** How far along an operation is. */
  function Rank(d: Direction, s: Status): (n: nat)
    ensures n <= 5
  {
    match s
    case Preparing => 0
    case AwaitingSignature => 1
    case Delivering => 2
    case AwaitingTransfer => 0
    case Cancelled => 1
    case Validating => 1
    case WaitingConfirmations => if d == Send then 3 else 2
    case Settled => if d == Send then 4 else 3
    case NeedsReview => if d == Send then 5 else 4
  }

  ghost function StatusChanges(log: History, k: OpKey): nat {
    if log.Start? then 0
    else
      StatusChanges(log.before, k) +
      if k in Replay(log.before).ops && k in Replay(log).ops &&
          Replay(log.before).ops[k].status != Replay(log).ops[k].status
      then 1 else 0
  }

  lemma RankRises(w: World, a: Record, b: Record)
    requires w.flushes && a.terms == b.terms && Forward(w, a.terms.direction, a.status, b.status)
    ensures a.status == b.status || Rank(a.terms.direction, a.status) < Rank(b.terms.direction, b.status)
  {
  }

  /** In any run, however long, an operation changes its status at most four
      times (a receive) or five times (a send): each change moves up in a fixed
      order. */
  lemma {:induction false} StatusChangesAreBounded(w: World, log: History, k: OpKey)
    requires GoodWorld(w) && w.flushes && Legal(w, log)
    ensures StatusChanges(log, k) <= 5
    ensures k in Replay(log).ops ==>
            StatusChanges(log, k) <= Rank(Replay(log).ops[k].terms.direction, Replay(log).ops[k].status)
    ensures k !in Replay(log).ops ==> StatusChanges(log, k) == 0
  {
    hide Allowed, Apply, Loaded, Frozen;
    if log.Then? {
      StatusChangesAreBounded(w, log.before, k);
      if k in Replay(log.before).ops {
        EventMoves(w, log.before, log.event, k);
        RankRises(w, Replay(log.before).ops[k], Replay(log).ops[k]);
      }
    }
  }

  /** Review is final. */
  lemma {:induction false} ReviewIsAbsorbing(w: World, p: History, log: History, k: OpKey)
    requires GoodWorld(w) && Legal(w, log) && Prefix(p, log)
    requires k in Replay(p).ops && Replay(p).ops[k].status == NeedsReview
    ensures k in Replay(log).ops && Replay(log).ops[k].status == NeedsReview
    decreases log
  {
    hide Allowed, Apply;
    if p != log {
      ReviewIsAbsorbing(w, p, log.before, k);
      EventMoves(w, log.before, log.event, k);
    }
  }

  // ------------------------------------------------------------ idempotency

  lemma {:induction false} BindingStays(w: World, log: History, e: Event, i: IdemKey)
    requires Legal(w, Then(log, e)) && i in Replay(log).idem
    ensures i in Replay(Then(log, e)).idem && Replay(Then(log, e)).idem[i] == Replay(log).idem[i]
  {
    hide StepOk, Fresh, CreditAllowed;
  }

  /** A request id stays bound to the same parameters and the same operation,
      and that operation exists. */
  lemma {:induction false} BindingForever(w: World, p: History, log: History, i: IdemKey)
    requires GoodWorld(w) && Legal(w, log) && Prefix(p, log) && i in Replay(p).idem
    ensures i in Replay(log).idem && Replay(log).idem[i] == Replay(p).idem[i]
    ensures OpKey(i.account, Replay(p).idem[i].id) in Replay(log).ops
    decreases log
  {
    if p != log {
      BindingForever(w, p, log.before, i);
      BindingStays(w, log.before, log.event, i);
    }
    LegalKeepsInv(w, log);
    hide SlotsOk, BoundOk, OpsOk, ArtifactsOk, ReservedOk, CreditOk, Legal;
  }

  /** How many operations were created under the key `i`. */
  ghost function Creations(log: History, i: IdemKey): nat {
    if log.Start? then 0
    else
      Creations(log.before, i) +
      if log.event.Saved? && log.event.why.Create? && log.event.bind.Some? && log.event.bind.value.0 == i then 1 else 0
  }

  /** No request creates a second operation, and the configured capacity is
      never exceeded. */
  lemma {:induction false} CreatedAtMostOnce(w: World, log: History, i: IdemKey)
    requires GoodWorld(w) && Legal(w, log)
    ensures Creations(log, i) <= 1
    ensures i !in Replay(log).idem ==> Creations(log, i) == 0
    ensures |Replay(log).ops| <= w.maxOperations
  {
    hide SlotsOk, BoundOk, OpsOk, ArtifactsOk, ReservedOk, CreditOk, IdemOk, Allowed, Replay;
    LegalKeepsInv(w, log);
    if log.Then? {
      CreatedAtMostOnce(w, log.before, i);
      BindingGrows(w, log.before, log.event, i);
    }
  }

  /** A creation binds a key that was not bound, and no binding is lost. */
  lemma {:induction false} BindingGrows(w: World, log: History, e: Event, i: IdemKey)
    requires Legal(w, Then(log, e))
    ensures i in Replay(log).idem ==> i in Replay(Then(log, e)).idem
    ensures e.Saved? && e.why.Create? && e.bind.Some? && e.bind.value.0 == i ==>
              i !in Replay(log).idem && i in Replay(Then(log, e)).idem
  {
    hide StepOk, Fresh, SlotFree, CreditAllowed;
  }
}
