/** Expiry of receive invoices: when can a proof that arrived too late still be
    credited? Exactly when the record it is stored into was left at `Validating`
    with an empty proof, for a witness invoice, and the answer names no output:
    the check of the clock is then skipped. */
module ExternalExpiry {
  import opened Basics
  import opened ExternalModel
  import opened ExternalHistory
  import opened ExternalInvariants
  import opened ExternalInduction
  import opened ExternalTheorems

  /** The very bytes `proof` were handed out for `key` before `deadline`. */
  ghost predicate ProofFetchedBefore(log: History, key: OpKey, proof: Bytes, deadline: nat) {
    log.Then? &&
    ((log.event.Fetched? && log.event.key == key && log.event.bytes == proof && log.event.at < deadline)
     || ProofFetchedBefore(log.before, key, proof, deadline))
  }

  /** The proxy answered with an empty consignment for `key`. */
  ghost predicate EmptyFetch(log: History, key: OpKey) {
    log.Then? &&
    ((log.event.Fetched? && log.event.key == key && log.event.bytes == []) || EmptyFetch(log.before, key))
  }

  /** A stored record for which the next notice may bypass the clock. */
  predicate GapOpen(a: Record, vout: Option<nat>) {
    !a.terms.blind && a.status == Validating && a.artifact.proof == [] && vout.None?
  }

  /** `proof` was stored for `key` after expiry, through an open gap. */
  ghost predicate GapNotice(log: History, key: OpKey, proof: Bytes) {
    log.Then? &&
    (IsGapNotice(log.before, log.event, key, proof) || GapNotice(log.before, key, proof))
  }

  ghost predicate IsGapNotice(log: History, e: Event, key: OpKey, proof: Bytes) {
    && e.Saved? && e.why.Notice? && e.record.key == key && e.why.bytes == proof
    && e.why.at >= e.record.terms.expiresAt
    && key in Replay(log).ops && GapOpen(Loaded(Replay(log), key), e.why.vout)
  }

  lemma {:induction false} FetchedProof(
      log: History, key: OpKey, bytes: Bytes, txid: Txid, vout: Option<nat>, at: nat, deadline: nat)
    requires Has(log, Fetched(key, bytes, txid, vout, at))
    ensures at < deadline ==> ProofFetchedBefore(log, key, bytes, deadline)
    ensures bytes == [] ==> EmptyFetch(log, key)
  {
    if log.event != Fetched(key, bytes, txid, vout, at) {
      FetchedProof(log.before, key, bytes, txid, vout, at, deadline);
    }
  }

  lemma {:induction false} EmptyProofFetched(log: History, key: OpKey, deadline: nat)
    requires ProofFetchedBefore(log, key, [], deadline)
    ensures EmptyFetch(log, key)
  {
    if !(log.event.Fetched? && log.event.key == key && log.event.bytes == []) {
      EmptyProofFetched(log.before, key, deadline);
    }
  }

  /** The stored proof of a receive on its way to being credited came in time,
      or through the gap that an empty consignment opened. */
  ghost predicate Timely(log: History, r: Record) {
    r.terms.direction == Receive && OnTrack(r.status) ==>
      || ProofFetchedBefore(log, r.key, r.artifact.proof, r.terms.expiresAt)
      || (GapNotice(log, r.key, r.artifact.proof) && !r.terms.blind && EmptyFetch(log, r.key))
  }

  /** A receive on its way to being credited. */
  predicate OnTrack(s: Status) {
    s == Validating || s == WaitingConfirmations || s == Settled
  }

  lemma OtherStep(w: World, log: History, a: Record, b: Record, why: Step)
    requires StepOk(w, log, a, b, why) && !why.Notice?
    ensures a.key == b.key && a.terms == b.terms
    ensures b.terms.direction == Receive ==>
              a.artifact.proof == b.artifact.proof && (OnTrack(b.status) ==> OnTrack(a.status))
  {
  }

  lemma {:induction false} StepKeepsTimely(w: World, log: History, a: Record, e: Event)
    requires GoodWorld(w) && RecordOk(w, log, a) && Timely(log, a)
    requires e.Saved? && StepOk(w, log, a, e.record, e.why)
    requires a.key in Replay(log).ops && Loaded(Replay(log), a.key) == a
    ensures Timely(Then(log, e), e.record)
  {
    hide Replay, Loaded;
    if !e.why.Notice? {
      OtherStep(w, log, a, e.record, e.why);
      TimelyGrows(log, e, a);
      hide RecordOk, StepOk;
    } else {
      FetchedProof(log, a.key, e.why.bytes, e.why.txid, e.why.vout, e.why.at, a.terms.expiresAt);
      if ProofFetchedBefore(log, a.key, [], a.terms.expiresAt) {
        EmptyProofFetched(log, a.key, a.terms.expiresAt);
      }
    }
  }

  lemma TimelyGrows(log: History, e: Event, r: Record)
    requires Timely(log, r)
    ensures Timely(Then(log, e), r)
  {
  }

  lemma {:induction false} EventKeepsTimely(w: World, log: History, e: Event, k: OpKey)
    requires GoodWorld(w) && Legal(w, Then(log, e)) && k in Replay(log).ops && Timely(log, Loaded(Replay(log), k))
    ensures k in Replay(Then(log, e)).ops && Timely(Then(log, e), Loaded(Replay(Then(log, e)), k))
  {
    hide Legal, Replay, Loaded, StepOk, RecordOk;
    EventKeepsRecord(w, log, e, k);
    StoredOk(w, log, k) by { PrefixLegal(w, log, Then(log, e)); }
    var a, b := Loaded(Replay(log), k), Loaded(Replay(Then(log, e)), k);
    TimelyGrows(log, e, a);
    if a != b && e.Saved? {
      StepKeepsTimely(w, log, a, e);
    }
  }

  lemma {:induction false} RunTimely(w: World, log: History, k: OpKey)
    requires GoodWorld(w) && Legal(w, log) && k in Replay(log).ops
    ensures Timely(log, Loaded(Replay(log), k))
  {
    hide Allowed, Apply, Loaded, Timely;
    if k in Replay(log.before).ops {
      RunTimely(w, log.before, k);
      EventKeepsTimely(w, log.before, log.event, k);
    } else {
      FirstIsTimely(w, log.before, log.event, k);
    }
  }

  lemma {:induction false} FirstIsTimely(w: World, log: History, e: Event, k: OpKey)
    requires GoodWorld(w) && Legal(w, Then(log, e)) && k !in Replay(log).ops && k in Replay(Then(log, e)).ops
    ensures Timely(Then(log, e), Loaded(Replay(Then(log, e)), k))
  {
    hide StepOk;
  }

  /** A receive is credited on a proof that was handed out before expiry, or on
      one stored through the gap; for a blind invoice, or if the proxy never
      answered with an empty consignment, only on the former. */
  lemma {:induction false} LateProofNeverCredited(
      w: World, before: History, r: Record, outpoint: OutText, log: History)
    requires GoodWorld(w) && Legal(w, log) && Prefix(Then(before, Credited(r, outpoint)), log)
    requires r.terms.direction == Receive
    ensures r.key in Replay(before).ops
    ensures var proof := Loaded(Replay(before), r.key).artifact.proof;
            || ProofFetchedBefore(before, r.key, proof, r.terms.expiresAt)
            || (GapNotice(before, r.key, proof) && !r.terms.blind && EmptyFetch(before, r.key))
  {
    CreditPremises(w, before, r, outpoint, log);
    RunTimely(w, before, r.key);
    hide Legal, Replay, Loaded, Has, SeenBody, LastAck, ProofFetchedBefore, GapNotice, EmptyFetch, RecordOk;
  }

  // ------------------------------------------------- extending a history

  /** `h` is a legal history that stores `a`. */
  ghost predicate Stores(w: World, h: History, a: Record) {
    && Legal(w, h) && a.key in Replay(h).ops && Loaded(Replay(h), a.key) == a
    && (a.artifact == NoArtifact <==> a.key !in Replay(h).artifacts)
  }

  lemma {:induction false} StoresLoaded(w: World, h: History, k: OpKey)
    requires GoodWorld(w) && Legal(w, h) && k in Replay(h).ops
    ensures Stores(w, h, Loaded(Replay(h), k)) && RecordOk(w, h, Loaded(Replay(h), k))
  {
    hide Legal, Replay, RecordOk, SlotsOk, IdemOk, BoundOk, ReservedOk, CreditOk;
    LegalKeepsInv(w, h);
  }

  /** No consignment is answered, nothing is created, bound or credited. */
  predicate QuietEvent(e: Event) {
    !e.Fetched? && !e.Credited? && (e.Saved? ==> !e.why.Create? && e.bind.None?)
  }

  /** Between `p` and `h` there are quiet events only. */
  ghost predicate Quiet(p: History, h: History)
    decreases h
  {
    p == h || (h.Then? && QuietEvent(h.event) && Quiet(p, h.before))
  }

  lemma {:induction false} QuietKeeps(p: History, h: History, key: OpKey, proof: Bytes, deadline: nat)
    requires Quiet(p, h)
    ensures Prefix(p, h) && (EmptyFetch(p, key) ==> EmptyFetch(h, key))
    ensures ProofFetchedBefore(h, key, proof, deadline) ==> ProofFetchedBefore(p, key, proof, deadline)
    decreases h
  {
    if p != h {
      QuietKeeps(p, h.before, key, proof, deadline);
    }
  }

  lemma {:induction false} ExtendByStep(w: World, h: History, a: Record, b: Record, why: Step)
    requires Stores(w, h, a) && !why.Create? && StepOk(w, h, a, b, why) && a.key == b.key
    requires b.artifact == NoArtifact ==> a.artifact == NoArtifact
    ensures Stores(w, Then(h, Saved(b, None, false, why)), b)
  {
    hide StepOk;
  }

  lemma {:induction false} ExtendByChange(w: World, h: History, a: Record, why: Step)
    requires Stores(w, h, a) && !why.Create? && Guard(w, h, a, why)
    requires Change(w, a, why).artifact == NoArtifact ==> a.artifact == NoArtifact
    ensures Stores(w, Then(h, Saved(Change(w, a, why), None, false, why)), Change(w, a, why))
  {
    assert StepOk(w, h, a, Change(w, a, why), why) && Change(w, a, why).key == a.key;
    hide StepOk, Stores, Change;
    ExtendByStep(w, h, a, Change(w, a, why), why);
  }

  lemma ExtendByAnswer(w: World, h: History, a: Record, e: Event)
    requires Stores(w, h, a) && !e.Saved? && !e.Credited? && Allowed(w, h, e)
    ensures Stores(w, Then(h, e), a)
    ensures Has(Then(h, e), e)
  {
  }

  /** The proxy hands out a consignment for `key`, and the clock is read. */
  function FetchRun(h: History, key: OpKey, bytes: Bytes, txid: Txid, vout: Option<nat>, at: nat): History {
    Then(Then(Then(h, SlotRead(key, Some(Slot(Some(bytes), Some(txid), vout)))), ClockRead(at)),
         Fetched(key, bytes, txid, vout, at))
  }

  lemma {:induction false} FetchIsLegal(
      w: World, h: History, a: Record, bytes: Bytes, txid: Txid, vout: Option<nat>, at: nat)
    requires Stores(w, h, a)
    ensures Stores(w, FetchRun(h, a.key, bytes, txid, vout, at), a)
    ensures Has(FetchRun(h, a.key, bytes, txid, vout, at), Fetched(a.key, bytes, txid, vout, at))
  {
    var e1, e2 := SlotRead(a.key, Some(Slot(Some(bytes), Some(txid), vout))), ClockRead(at);
    ExtendByAnswer(w, h, a, e1);
    ExtendByAnswer(w, Then(h, e1), a, e2);
    assert Has(Then(Then(h, e1), e2), e1);
    hide Stores;
    ExtendByAnswer(w, Then(Then(h, e1), e2), a, Fetched(a.key, bytes, txid, vout, at));
  }

  /** What the run with a fetch in it says about when proofs were handed out. */
  lemma {:induction false} FetchRunFetches(h: History, key: OpKey, bytes: Bytes, txid: Txid, vout: Option<nat>, at: nat,
                                           proof: Bytes, deadline: nat)
    ensures var h' := FetchRun(h, key, bytes, txid, vout, at);
            && Prefix(h, h') && (EmptyFetch(h, key) || bytes == [] ==> EmptyFetch(h', key))
            && (ProofFetchedBefore(h', key, proof, deadline) ==>
                ProofFetchedBefore(h, key, proof, deadline) || (bytes == proof && at < deadline))
  {
    var h1 := Then(h, SlotRead(key, Some(Slot(Some(bytes), Some(txid), vout))));
    var h2 := Then(h1, ClockRead(at));
    assert Prefix(h, h1) && Prefix(h, h2);
    assert EmptyFetch(h, key) ==> EmptyFetch(h1, key) && EmptyFetch(h2, key);
    assert ProofFetchedBefore(h2, key, proof, deadline) ==> ProofFetchedBefore(h1, key, proof, deadline);
  }

  /** `h` extends `p` and can be continued by crediting `key` on `proof`. */
  ghost predicate CreditsNext(w: World, p: History, h: History, key: OpKey, proof: Bytes, credit: Event) {
    && Prefix(p, h) && credit.Credited? && credit.record.key == key && Legal(w, Then(h, credit))
    && key in Replay(h).ops && Loaded(Replay(h), key).artifact.proof == proof
  }

  /** Some run that goes on from `p` credits `key` on `proof`. */
  ghost predicate CanBeCredited(w: World, p: History, key: OpKey, proof: Bytes) {
    exists h, credit :: CreditsNext(w, p, h, key, proof, credit)
  }

  /** `tx` has the announced id, and the output at which a witness invoice expects
      its payment pays to the account. */
  ghost predicate Carries(w: World, a: Record, txid: Txid, tx: Tx) {
    && w.txidOf(tx.body) == txid && ReceivesAt(w, a).Some?
    && (a.terms.blind || PaysTo(tx, ReceivesAt(w, a).value, a.key.account))
  }

  /** `proof` decodes, is about the invoiced asset and names a carrier that pays. */
  ghost predicate Provable(w: World, a: Record, proof: Bytes, txid: Txid) {
    && w.decode(proof).Some? && w.decode(proof).value.contract == a.terms.asset
    && exists tx :: Carries(w, a, txid, tx)
  }

  /** From a stored proof at `Validating` the rest of the protocol runs through. */
  lemma {:induction false} CreditTail(w: World, h: History, b: Record, txid: Txid, tx: Tx)
      returns (run: History, credit: Event)
    requires Stores(w, h, b) && b.terms.direction == Receive && b.status == Validating && b.artifact.proof != []
    requires GoodWorld(w) && b.txid == Some(txid) && Carries(w, b, txid, tx)
    requires w.decode(b.artifact.proof).Some? && w.decode(b.artifact.proof).value.contract == b.terms.asset
    requires b.terms.required == w.required
    ensures CreditsNext(w, h, run, b.key, b.artifact.proof, credit) && Quiet(h, run)
    ensures Replay(run).ops[b.key].terms == b.terms
  {
    var e := Validated(b.key, b.artifact.proof, txid, ReceivesAt(w, b).value, b.terms.asset, b.terms.amount, tx);
    var h1 := CreditHead(w, h, b, txid, tx);
    assert Guard(w, h1, b, Validate(tx)) && h1.Then? && h1.event == e;
    var c := Change(w, b, Validate(tx));
    hide Stores, CreditsNext, Guard;
    ExtendByChange(w, h1, b, Validate(tx));
    run, credit := CreditMiddle(w, h, Then(h1, Saved(c, None, false, Validate(tx))), c, txid, tx);
  }

  /** The answers on which a proof is validated. */
  lemma {:induction false} CreditHead(w: World, h: History, b: Record, txid: Txid, tx: Tx) returns (run: History)
    requires Stores(w, h, b) && b.terms.direction == Receive && Carries(w, b, txid, tx)
    requires w.decode(b.artifact.proof).Some? && w.decode(b.artifact.proof).value.contract == b.terms.asset
    ensures var paid := ReceivesAt(w, b).value;
            var e := Validated(b.key, b.artifact.proof, txid, paid, b.terms.asset, b.terms.amount, tx);
            run.Then? && run.event == e && Stores(w, run, b) && Has(run, e) && Quiet(h, run)
  {
    var proof, paid := b.artifact.proof, ReceivesAt(w, b).value;
    var one := Allocation(b.terms.asset, b.terms.amount);
    var e1, e2 := Answered(OutputUnspent(b.key, paid), true), Answered(SealTargeted(b.key, proof), true);
    var e3 := Previewed(b.key, proof, paid, tx, [one]);
    var h1 := Then(h, e1);
    var h2 := Then(h1, e2);
    var h3 := Then(h2, e3);
    assert Allowed(w, h, e1) && Allowed(w, h1, e2) && Allowed(w, h2, e3) && Quiet(h, h);
    assert QuietEvent(e1) && QuietEvent(e2) && QuietEvent(e3);
    assert Has(h1, e1) && Has(h2, e1) && Has(h3, e1) && Has(h2, e2) && Has(h3, e2);
    TotalOfOne(one, b.terms.asset);
    assert AmountPreviewed(h3, b.key, proof, paid, tx, b.terms.asset, b.terms.amount);
    assert b.terms.blind || PaysTo(tx, paid, b.key.account);
    assert w.txidOf(tx.body) == txid && ReceivesAt(w, b).Some?;
    hide *;
    ExtendQuietly(w, h, h, b, e1);
    ExtendQuietly(w, h, h1, b, e2);
    ExtendQuietly(w, h, h2, b, e3);
    run := CreditVerdict(w, h, h3, b, txid, paid, tx);
  }

  lemma {:induction false} CreditVerdict(
      w: World, p: History, h: History, b: Record, txid: Txid, paid: Outpoint, tx: Tx) returns (run: History)
    requires Quiet(p, h) && Stores(w, h, b)
    requires w.decode(b.artifact.proof).Some? && w.decode(b.artifact.proof).value.contract == b.terms.asset
    requires w.txidOf(tx.body) == txid && (b.terms.blind || PaysTo(tx, paid, b.key.account))
    requires Has(h, Answered(OutputUnspent(b.key, paid), true))
    requires Has(h, Answered(SealTargeted(b.key, b.artifact.proof), true))
    requires AmountPreviewed(h, b.key, b.artifact.proof, paid, tx, b.terms.asset, b.terms.amount)
    ensures var e := Validated(b.key, b.artifact.proof, txid, paid, b.terms.asset, b.terms.amount, tx);
            run.Then? && run.event == e && Stores(w, run, b) && Has(run, e) && Quiet(p, run)
  {
    var e := Validated(b.key, b.artifact.proof, txid, paid, b.terms.asset, b.terms.amount, tx);
    hide Has, AmountPreviewed, PaysTo;
    assert Allowed(w, h, e) && QuietEvent(e);
    hide *;
    ExtendQuietly(w, p, h, b, e);
    run := Then(h, e);
  }

  lemma {:induction false} CreditMiddle(w: World, p: History, h: History, c: Record, txid: Txid, tx: Tx)
      returns (run: History, credit: Event)
    requires Quiet(p, h)
    requires Stores(w, h, c) && c.terms.direction == Receive && c.status == WaitingConfirmations
    requires c.txid == Some(txid) && ReceivesAt(w, c).Some? && txid == w.txidOf(tx.body)
    requires c.artifact.proof != [] && c.candidate == Some(Carrier(tx)) && c.terms.required == w.required
    ensures CreditsNext(w, p, run, c.key, c.artifact.proof, credit) && Quiet(p, run)
    ensures Replay(run).ops[c.key].terms == c.terms
  {
    var h1 := AckAnswers(w, p, h, c);
    var d := c.(acknowledged := Some(true));
    AckAllowed(w, h1, c);
    assert QuietEvent(Saved(d, None, false, Acknowledge));
    hide Stores, CreditsNext, Replay, StepOk, Has;
    ExtendByStep(w, h1, c, d, Acknowledge);
    run, credit := CreditEnd(w, p, Then(h1, Saved(d, None, false, Acknowledge)), d, txid, tx);
  }

  lemma AckAllowed(w: World, log: History, c: Record)
    requires c.terms.direction == Receive && c.status == WaitingConfirmations && Has(log, Acked(c.key))
    ensures StepOk(w, log, c, c.(acknowledged := Some(true)), Acknowledge)
  {
    hide Has;
  }

  lemma {:induction false} AckAnswers(w: World, p: History, h: History, c: Record) returns (run: History)
    requires Quiet(p, h) && Stores(w, h, c) && c.status == WaitingConfirmations
    ensures Quiet(p, run) && Stores(w, run, c) && Has(run, Acked(c.key))
  {
    var e1, e2, e3 := AckSent(c.key), AckRead(c.key, Some(true)), Acked(c.key);
    var h1, h2 := Then(h, e1), Then(Then(h, e1), e2);
    assert Allowed(w, h, e1) && Allowed(w, h1, e2);
    assert Has(h1, e1) && Has(h2, e1);
    assert Allowed(w, h2, e3);
    assert QuietEvent(e1) && QuietEvent(e2) && QuietEvent(e3);
    hide *;
    ExtendQuietly(w, p, h, c, e1);
    ExtendQuietly(w, p, h1, c, e2);
    ExtendQuietly(w, p, h2, c, e3);
    run := Then(h2, e3);
  }

  lemma ExtendQuietly(w: World, p: History, h: History, a: Record, e: Event)
    requires Quiet(p, h) && Stores(w, h, a) && QuietEvent(e) && !e.Saved? && Allowed(w, h, e)
    ensures Quiet(p, Then(h, e)) && Stores(w, Then(h, e), a) && Has(Then(h, e), e)
  {
    hide Stores, Allowed;
    ExtendByAnswer(w, h, a, e);
  }

  lemma {:induction false} CreditEnd(w: World, p: History, h: History, d: Record, txid: Txid, tx: Tx)
      returns (run: History, credit: Event)
    requires Quiet(p, h)
    requires Stores(w, h, d) && d.terms.direction == Receive && d.status == WaitingConfirmations
    requires d.txid == Some(txid) && ReceivesAt(w, d).Some? && txid == w.txidOf(tx.body)
    requires d.artifact.proof != [] && d.candidate == Some(Carrier(tx)) && d.terms.required == w.required
    requires d.acknowledged == Some(true)
    ensures CreditsNext(w, p, run, d.key, d.artifact.proof, credit) && Quiet(p, run)
    ensures Replay(run).ops[d.key].terms == d.terms
  {
    hide Stores, CreditsNext;
    var h1 := Then(h, Confirmed(txid, w.required));
    var h2 := Then(h1, Seen(txid, tx));
    var h3 := Then(h2, SecretKept(d.key));
    run := Then(h3, Accepted(d.key, d.artifact.proof));
    ExtendByAnswer(w, h, d, Confirmed(txid, w.required));
    ExtendByAnswer(w, h1, d, Seen(txid, tx));
    ExtendByAnswer(w, h2, d, SecretKept(d.key));
    ExtendByAnswer(w, h3, d, Accepted(d.key, d.artifact.proof));
    assert Has(h2, Confirmed(txid, w.required)) && SeenBody(h2, txid, tx.body);
    assert Has(h3, Confirmed(txid, w.required)) && SeenBody(h3, txid, tx.body);
    assert Quiet(p, h1) && Quiet(p, h2) && Quiet(p, h3) && Quiet(p, run);
    QuietKeeps(p, run, d.key, [], 0);
    credit := CreditNow(w, p, run, d, txid, tx);
  }

  /** With all the evidence there, the credit is next. */
  lemma {:induction false} CreditNow(w: World, p: History, h: History, d: Record, txid: Txid, tx: Tx)
      returns (credit: Event)
    requires Prefix(p, h)
    requires Stores(w, h, d) && d.terms.direction == Receive && d.status == WaitingConfirmations
    requires d.txid == Some(txid) && ReceivesAt(w, d).Some?
    requires d.candidate == Some(Carrier(tx)) && d.terms.required == w.required && d.acknowledged == Some(true)
    requires Has(h, Confirmed(txid, w.required)) && SeenBody(h, txid, tx.body)
    requires Has(h, SecretKept(d.key)) && Has(h, Accepted(d.key, d.artifact.proof))
    ensures CreditsNext(w, p, h, d.key, d.artifact.proof, credit) && Replay(h).ops[d.key].terms == d.terms
  {
    hide Prefix, Has, SeenBody;
    var r := d.(confirmations := w.required);
    var text := w.show(ReceivesAt(w, d).value);
    assert CreditAllowed(w, h, r, text);
    credit := Credited(r, text);
    hide CreditAllowed, ReceivesAt;
  }

  // ---------------------------------------------------- the exact condition

  /** A record that holds a proof and is not being validated, or is under review,
      gets no further. */
  predicate Stuck(r: Record) {
    || r.status == NeedsReview
    || (r.terms.direction == Receive && r.artifact.proof != [] &&
        (r.status == AwaitingTransfer || r.status == Cancelled))
  }

  /** From `a` on, a stuck record stays stuck and a received proof stays as it is. */
  ghost predicate Kept(a: Record, b: Record) {
    && (Stuck(a) ==> Stuck(b))
    && (a.terms.direction == Receive && a.artifact.proof != [] ==>
          && b.key == a.key && b.terms == a.terms && b.artifact.proof == a.artifact.proof && b.txid == a.txid
          && b.receiveOutpoint == a.receiveOutpoint)
  }

  lemma {:induction false} StepKept(w: World, log: History, a: Record, b: Record, why: Step)
    requires GoodWorld(w) && RecordOk(w, log, a) && StepOk(w, log, a, b, why)
    ensures Kept(a, b)
  {
    StepMovesForward(w, log, a, b, why);
  }

  lemma {:induction false} EventKept(w: World, log: History, e: Event, k: OpKey)
    requires GoodWorld(w) && Legal(w, Then(log, e)) && k in Replay(log).ops
    ensures k in Replay(Then(log, e)).ops && Kept(Loaded(Replay(log), k), Loaded(Replay(Then(log, e)), k))
  {
    EventKeepsRecord(w, log, e, k);
    hide Legal, Replay, Loaded, RecordOk, StepOk;
    var a, b := Loaded(Replay(log), k), Loaded(Replay(Then(log, e)), k);
    if a != b && e.Saved? {
      StepKept(w, log, a, b, e.why);
    }
  }

  lemma {:induction false} RunKept(w: World, p: History, log: History, k: OpKey)
    requires GoodWorld(w) && Legal(w, log) && Prefix(p, log) && k in Replay(p).ops
    ensures k in Replay(log).ops && Kept(Loaded(Replay(p), k), Loaded(Replay(log), k))
    decreases log
  {
    hide Allowed, Apply, Loaded, Stuck;
    if p != log {
      RunKept(w, p, log.before, k);
      EventKept(w, log.before, log.event, k);
    }
  }

  /** A notice that was saved, taken after expiry. */
  ghost predicate LateNotice(w: World, h: History, e: Event) {
    && Legal(w, Then(h, e)) && e.Saved? && e.why.Notice? && e.why.at >= e.record.terms.expiresAt
  }

  /** What a notice leaves stored. */
  lemma {:induction false} NoticeStored(w: World, h: History, e: Event)
    requires GoodWorld(w) && LateNotice(w, h, e)
    ensures e.record.key in Replay(h).ops
    ensures var a := Loaded(Replay(h), e.record.key);
            && RecordOk(w, h, a) && StepOk(w, h, a, e.record, e.why)
            && Stores(w, Then(h, e), e.record) && RecordOk(w, Then(h, e), e.record)
  {
    var k := e.record.key;
    assert Legal(w, h) && k in Replay(h).ops && StepOk(w, h, Loaded(Replay(h), k), e.record, e.why);
    StoresLoaded(w, h, k);
    LegalKeepsInv(w, h);
    hide StepOk, RecordOk, ReservedOk, CreditOk, SlotsOk, IdemOk, BoundOk;
    SavedShape(w, h, e.record, e.bind, e.reserve, e.why);
    UpdateReadsBack(w, h, e.record, e.bind, e.why);
    StoresLoaded(w, Then(h, e), k);
  }

  /** What a run that credits `key` on `proof` says about the two. */
  lemma {:induction false} CreditedIsProvable(w: World, p: History, h: History, key: OpKey, proof: Bytes, credit: Event)
    requires GoodWorld(w) && CreditsNext(w, p, h, key, proof, credit)
    requires Replay(h).ops[key].terms.direction == Receive
    ensures Loaded(Replay(h), key).txid.Some? && proof != []
    ensures Provable(w, Loaded(Replay(h), key), proof, Loaded(Replay(h), key).txid.value)
    ensures Loaded(Replay(h), key).status == WaitingConfirmations
  {
    assert Legal(w, h) && CreditAllowed(w, h, credit.record, credit.outpoint);
    hide Legal, Replay;
    StoredOk(w, h, key);
    var x := Loaded(Replay(h), key);
    ValidatedIsProvable(w, h, Validated(x.key, x.artifact.proof, x.txid.value, ReceivesAt(w, x).value,
                                        x.terms.asset, x.terms.amount, x.candidate.value.tx));
    assert Carries(w, x, x.txid.value, x.candidate.value.tx);
  }

  /** If the gap was not open, no later run credits the proof that came late. */
  lemma {:induction false} NoGapNoCredit(w: World, h: History, e: Event, run: History, credit: Event)
    requires GoodWorld(w) && LateNotice(w, h, e)
    requires CreditsNext(w, Then(h, e), run, e.record.key, e.why.bytes, credit)
    ensures e.record.key in Replay(h).ops && GapOpen(Loaded(Replay(h), e.record.key), e.why.vout)
    ensures Provable(w, Loaded(Replay(h), e.record.key), e.why.bytes, e.why.txid)
  {
    var k := e.record.key;
    NoticeStored(w, h, e);
    LateNoticeOutcome(w, h, Loaded(Replay(h), k), e.record, e.why);
    assert Legal(w, run) && Prefix(Then(h, e), run) && Loaded(Replay(Then(h, e)), k) == e.record;
    hide *;
    RunKept(w, Then(h, e), run, k);
    RunFrozen(w, Then(h, e), run, k);
    var x := Loaded(Replay(run), k);
    assert Kept(e.record, x) && Frozen(e.record, x);
    CreditsOnReceive(w, Then(h, e), run, k, e.why.bytes, credit, e.record);
    ProvableByTerms(w, x, Loaded(Replay(h), k), e.why.bytes, e.why.txid);
  }

  lemma {:induction false} CreditsOnReceive(
      w: World, p: History, h: History, key: OpKey, proof: Bytes, credit: Event, b: Record)
    requires GoodWorld(w) && CreditsNext(w, p, h, key, proof, credit) && b.terms.direction == Receive
    requires Kept(b, Loaded(Replay(h), key)) && Frozen(b, Loaded(Replay(h), key)) && b.artifact.proof == proof
    ensures !Stuck(b) && proof != [] && b.txid.Some?
    ensures Provable(w, Loaded(Replay(h), key), proof, b.txid.value)
  {
    hide Replay, Legal, Provable;
    CreditedIsProvable(w, p, h, key, proof, credit);
  }

  /** A late notice leaves a stuck record unless the gap was open. */
  lemma {:induction false} LateNoticeOutcome(w: World, log: History, a: Record, b: Record, why: Step)
    requires GoodWorld(w) && RecordOk(w, log, a) && StepOk(w, log, a, b, why)
    requires why.Notice? && why.at >= b.terms.expiresAt
    ensures b.terms == a.terms && b.terms.direction == Receive
    ensures b.artifact.proof == why.bytes && b.txid == Some(why.txid)
    ensures why.bytes != [] && !Stuck(b) ==> GapOpen(a, why.vout)
    ensures a.key == b.key && (GapOpen(a, why.vout) ==> a.receiveOutpoint == b.receiveOutpoint)
  {
  }

  lemma ProvableByTerms(w: World, a: Record, b: Record, proof: Bytes, txid: Txid)
    requires Provable(w, a, proof, txid)
    requires a.key == b.key && a.terms == b.terms && a.receiveOutpoint == b.receiveOutpoint
    ensures Provable(w, b, proof, txid)
  {
    var tx :| Carries(w, a, txid, tx);
    assert Carries(w, b, txid, tx);
  }

  /** If it was open, some later run does. */
  lemma {:induction false} GapOpens(w: World, h: History, e: Event) returns (run: History, credit: Event)
    requires GoodWorld(w) && LateNotice(w, h, e)
    requires GapOpen(Loaded(Replay(h), e.record.key), e.why.vout)
    requires Provable(w, Loaded(Replay(h), e.record.key), e.why.bytes, e.why.txid)
    ensures CreditsNext(w, Then(h, e), run, e.record.key, e.why.bytes, credit)
    ensures Quiet(Then(h, e), run)
    ensures Replay(run).ops[e.record.key].terms == e.record.terms
  {
    NoticeStored(w, h, e);
    hide Stores, CreditsNext;
    var a := Loaded(Replay(h), e.record.key);
    LateNoticeOutcome(w, h, a, e.record, e.why);
    var tx :| Carries(w, a, e.why.txid, tx);
    assert Carries(w, e.record, e.why.txid, tx);
    run, credit := CreditTail(w, Then(h, e), e.record, e.why.txid, tx);
  }

  /** The exact condition: a proof stored after expiry can still be credited if and
      only if the record was left at `Validating` with an empty proof, the invoice
      is a witness invoice, the answer names no output, and the proof is good. */
  lemma {:induction false} LateProofCreditedExactly(w: World, h: History, e: Event)
    requires GoodWorld(w) && LateNotice(w, h, e)
    ensures e.record.key in Replay(h).ops
    ensures var a := Loaded(Replay(h), e.record.key);
            CanBeCredited(w, Then(h, e), e.record.key, e.why.bytes) <==>
            GapOpen(a, e.why.vout) && Provable(w, a, e.why.bytes, e.why.txid)
  {
    NoticeStored(w, h, e);
    hide LateNotice, CreditsNext, GapOpen, Provable, Stores, RecordOk, StepOk, Replay;
    var k := e.record.key;
    if CanBeCredited(w, Then(h, e), k, e.why.bytes) {
      var run, credit :| CreditsNext(w, Then(h, e), run, k, e.why.bytes, credit);
      NoGapNoCredit(w, h, e, run, credit);
    }
    if GapOpen(Loaded(Replay(h), k), e.why.vout) && Provable(w, Loaded(Replay(h), k), e.why.bytes, e.why.txid) {
      var run, credit := GapOpens(w, h, e);
    }
  }

  // ------------------------------------------------------------- a whole run

  /** The invoice of the example: one unit of `asset`, payable to an output of the
      carrier, expiring at time 10. */
  function LateInvoice(w: World, asset: Contract): Record {
    Record(OpKey("acct", OperationId(IdemKey("acct", ReceiveKind, "r1"))),
           Terms(Receive, asset, 1, "slot", w.required, 10, false, None, None, []),
           AwaitingTransfer, None, None, DeliveryNotStarted, BroadcastNotStarted, None, 0, None, NoArtifact, None, None,
           Retry(true, 0, 0), false)
  }

  function LateCarrier(): Tx {
    Tx(Body([], [TxOut("acct", 546)]), [])
  }

  /** First half of the run: an empty consignment is answered in time and
      stored, and the process crashes before rejecting it. */
  function EmptyThenCrash(w: World, asset: Contract, hash: Digest): History {
    var r := LateInvoice(w, asset);
    var txid := w.txidOf(LateCarrier().body);
    Then(FetchRun(Then(Start, Saved(r, Some((IdemKey("acct", ReceiveKind, "r1"), hash)), true, Create("r1"))),
                  r.key, [], txid, Some(0), 5),
         Saved(AfterEmpty(w, asset), None, false, Notice([], txid, Some(0), 5)))
  }

  function AfterEmpty(w: World, asset: Contract): Record {
    Change(w, LateInvoice(w, asset), Notice([], w.txidOf(LateCarrier().body), Some(0), 5))
  }

  lemma {:induction false} InvoiceIsLegal(w: World, asset: Contract, hash: Digest)
    requires w.maxOperations >= 1
    ensures var r, i := LateInvoice(w, asset), IdemKey("acct", ReceiveKind, "r1");
            Stores(w, Then(Start, Saved(r, Some((i, hash)), true, Create("r1"))), r)
  {
    var r := LateInvoice(w, asset);
    var i := IdemKey("acct", ReceiveKind, "r1");
    assert WellFormedKey(i) && CreateOk(w, EmptyDb, r, i);
    assert Replay(Start) == EmptyDb && Legal(w, Start);
  }

  lemma {:induction false} EmptyThenCrashIsLegal(w: World, asset: Contract, hash: Digest)
    requires w.maxOperations >= 1
    ensures Stores(w, EmptyThenCrash(w, asset, hash), AfterEmpty(w, asset))
  {
    var r := LateInvoice(w, asset);
    var txid := w.txidOf(LateCarrier().body);
    var i := IdemKey("acct", ReceiveKind, "r1");
    var h := Then(Start, Saved(r, Some((i, hash)), true, Create("r1")));
    InvoiceIsLegal(w, asset, hash);
    hide Stores, Legal, Replay, FetchRun;
    FetchIsLegal(w, h, r, [], txid, Some(0), 5);
    ExtendByStep(w, FetchRun(h, r.key, [], txid, Some(0), 5), r, AfterEmpty(w, asset), Notice([], txid, Some(0), 5));
  }

  /** The gap is reached: after expiry the real proof arrives without an output
      index, is stored, and is then credited like any other. */
  lemma {:induction false} LateProofCanBeCredited(w: World, proof: Bytes, late: nat, hash: Digest)
      returns (run: History, credit: Event)
    requires GoodWorld(w) && w.maxOperations >= 1 && Receivable(w, proof) && late >= 10
    ensures credit.Credited? && Legal(w, Then(run, credit))
    ensures var key := credit.record.key;
            && key in Replay(run).ops && Replay(run).ops[key].terms.expiresAt == 10
            && Loaded(Replay(run), key).artifact.proof == proof
            && EmptyFetch(run, key) && !ProofFetchedBefore(run, key, proof, 10)
  {
    var asset := w.decode(proof).value.contract;
    var txid := w.txidOf(LateCarrier().body);
    EmptyThenCrashIsLegal(w, asset, hash);
    EmptyThenCrashGap(w, asset, hash, proof);
    run, credit := LateTail(w, EmptyThenCrash(w, asset, hash), AfterEmpty(w, asset), LateCarrier(), proof, late);
  }

  /** The late answer and the notice that stores it. */
  function LateFetch(w: World, h: History, a: Record, tx: Tx, proof: Bytes, late: nat): History {
    FetchRun(h, a.key, proof, w.txidOf(tx.body), None, late)
  }

  function LateSave(w: World, a: Record, tx: Tx, proof: Bytes, late: nat): Event {
    var why := Notice(proof, w.txidOf(tx.body), None, late);
    Saved(Change(w, a, why), None, false, why)
  }

  lemma {:induction false} LateSaveIsLegal(w: World, h: History, a: Record, tx: Tx, proof: Bytes, late: nat)
    requires Stores(w, h, a) && a.terms.direction == Receive && GapOpen(a, None)
    requires proof != [] && |proof| <= w.maxProof && late >= a.terms.expiresAt
    ensures var h1 := LateFetch(w, h, a, tx, proof, late);
            a.key in Replay(h1).ops && Loaded(Replay(h1), a.key) == a
            && LateNotice(w, h1, LateSave(w, a, tx, proof, late))
  {
    var h1, n := LateFetch(w, h, a, tx, proof, late), LateSave(w, a, tx, proof, late);
    FetchIsLegal(w, h, a, proof, w.txidOf(tx.body), None, late);
    assert StepOk(w, h1, a, n.record, n.why);
    hide StepOk, Replay, Loaded, Change, LateFetch;
    ExtendByStep(w, h1, a, n.record, n.why);
  }

  lemma LateSaveIsLate(w: World, h: History, a: Record, tx: Tx, proof: Bytes, late: nat, deadline: nat)
    requires late >= deadline
    ensures var h2 := Then(LateFetch(w, h, a, tx, proof, late), LateSave(w, a, tx, proof, late));
            && Prefix(h, h2) && (EmptyFetch(h, a.key) ==> EmptyFetch(h2, a.key))
            && (ProofFetchedBefore(h2, a.key, proof, deadline) ==> ProofFetchedBefore(h, a.key, proof, deadline))
  {
    FetchRunFetches(h, a.key, proof, w.txidOf(tx.body), None, late, proof, deadline);
    hide FetchRun;
  }

  /** From any history with an open gap, a late proof is fetched and credited. */
  lemma {:induction false} LateTail(w: World, h: History, a: Record, tx: Tx, proof: Bytes, late: nat)
      returns (run: History, credit: Event)
    requires GoodWorld(w) && Stores(w, h, a) && a.terms.direction == Receive && GapOpen(a, None)
    requires Receivable(w, proof) && w.decode(proof).value.contract == a.terms.asset && late >= a.terms.expiresAt
    requires Carries(w, a, w.txidOf(tx.body), tx)
    ensures CreditsNext(w, h, run, a.key, proof, credit) && Replay(run).ops[a.key].terms == a.terms
    ensures EmptyFetch(h, a.key) ==> EmptyFetch(run, a.key)
    ensures ProofFetchedBefore(run, a.key, proof, a.terms.expiresAt) ==>
              ProofFetchedBefore(h, a.key, proof, a.terms.expiresAt)
  {
    var h1, n := LateFetch(w, h, a, tx, proof, late), LateSave(w, a, tx, proof, late);
    LateSaveIsLegal(w, h, a, tx, proof, late);
    assert Provable(w, a, proof, w.txidOf(tx.body));
    assert n.record.key == a.key && n.record.terms == a.terms;
    LateSaveIsLate(w, h, a, tx, proof, late, a.terms.expiresAt);
    hide *;
    run, credit := GapOpens(w, h1, n);
    PrefixedCredit(w, h, Then(h1, n), run, a.key, proof, credit);
    QuietKeeps(Then(h1, n), run, a.key, proof, a.terms.expiresAt);
  }

  lemma PrefixedCredit(w: World, p: History, q: History, h: History, key: OpKey, proof: Bytes, credit: Event)
    requires Prefix(p, q) && CreditsNext(w, q, h, key, proof, credit)
    ensures CreditsNext(w, p, h, key, proof, credit)
  {
    hide Prefix, Legal, Replay;
    PrefixTrans(p, q, h);
  }

  lemma {:induction false} EmptyThenCrashGap(w: World, asset: Contract, hash: Digest, proof: Bytes)
    requires proof != []
    ensures EmptyFetch(EmptyThenCrash(w, asset, hash), LateInvoice(w, asset).key)
    ensures !ProofFetchedBefore(EmptyThenCrash(w, asset, hash), LateInvoice(w, asset).key, proof, 10)
  {
    var r, i := LateInvoice(w, asset), IdemKey("acct", ReceiveKind, "r1");
    var h := Then(Start, Saved(r, Some((i, hash)), true, Create("r1")));
    assert !ProofFetchedBefore(Start, r.key, proof, 10);
    FetchRunFetches(h, r.key, [], w.txidOf(LateCarrier().body), Some(0), 5, proof, 10);
    hide FetchRun;
  }
}
