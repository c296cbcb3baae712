/** A commit whose flush fails. For a credit this leaves the caller with a record
    that still waits, which the recovery scan then writes over the settled one. What
    is promised of credits, of status changes and of reservations holds exactly if
    that can not happen. */
module ExternalDisk {
  import opened Basics
  import opened ExternalModel
  import opened ExternalHistory
  import opened ExternalInvariants
  import opened ExternalInduction
  import opened ExternalTheorems
  import opened ExternalExpiry

  // --------------------------------------------------------- counting credits

  ghost function CreditCount(log: History, k: OpKey): nat {
    if log.Start? then 0
    else CreditCount(log.before, k) + if log.event.Credited? && log.event.record.key == k then 1 else 0
  }

  lemma {:induction false} CountMeans(log: History, k: OpKey)
    ensures CreditCount(log, k) > 0 <==> CreditedKey(log, k)
  {
    if log.Then? {
      CountMeans(log.before, k);
    }
  }

  /** With a disk that flushes, no operation is credited twice. */
  lemma {:induction false} CreditedAtMostOnce(w: World, log: History, k: OpKey)
    requires GoodWorld(w) && w.flushes && Legal(w, log)
    ensures CreditCount(log, k) <= 1
  {
    if log.Then? {
      CreditedAtMostOnce(w, log.before, k);
      if log.event.Credited? && log.event.record.key == k {
        CountMeans(log.before, k);
        CreditIsFirst(w, log.before, log.event);
      }
    }
  }

  lemma {:induction false} CreditIsFirst(w: World, log: History, e: Event)
    requires GoodWorld(w) && w.flushes && Legal(w, Then(log, e)) && e.Credited?
    ensures !CreditedKey(log, e.record.key)
  {
    hide SaveAllowed, PostAllowed;
    assert Legal(w, log) && CreditAllowed(w, log, e.record, e.outpoint);
    hide Legal;
    if CreditedKey(log, e.record.key) {
      StoredCredit(w, log, e.record.key);
    }
  }

  /** Without any operation nothing is credited and no status changes. */
  lemma {:induction false} NothingHappens(w: World, log: History, k: OpKey)
    requires GoodWorld(w) && Legal(w, log) && w.maxOperations == 0
    ensures Replay(log).ops == map[] && CreditCount(log, k) == 0 && StatusChanges(log, k) == 0
  {
    NoOperation(w, log);
    if log.Then? {
      NothingHappens(w, log.before, k);
    }
  }

  lemma {:induction false} NoOperation(w: World, log: History)
    requires GoodWorld(w) && Legal(w, log) && w.maxOperations == 0
    ensures Replay(log).ops == map[]
  {
    hide Legal, OpsOk, SlotsOk, IdemOk, BoundOk, ReservedOk, CreditOk, ArtifactsOk;
    LegalKeepsInv(w, log);
  }

  // ------------------------------------------------------------------- cycles

  /** The operation of `r` may be credited next. */
  ghost predicate CanCredit(w: World, log: History, r: Record, outpoint: OutText) {
    Legal(w, log) && CreditAllowed(w, log, r, outpoint)
  }

  /** A credit whose flush fails, and the write that reopens the operation. */
  function Reopened(log: History, r: Record, outpoint: OutText): History {
    Then(Then(log, Credited(r, outpoint)), Saved(r, None, false, Reopen))
  }

  lemma {:induction false} ReopenIsLegal(w: World, log: History, r: Record, outpoint: OutText)
    requires GoodWorld(w) && !w.flushes && CanCredit(w, log, r, outpoint)
    ensures Legal(w, Then(log, Credited(r, outpoint))) && Legal(w, Reopened(log, r, outpoint))
    ensures r.key in Replay(Reopened(log, r, outpoint)).ops
    ensures Loaded(Replay(Reopened(log, r, outpoint)), r.key) == r
  {
    var log1 := Then(log, Credited(r, outpoint));
    CreditedIsSettled(w, log, r, outpoint);
    assert StepOk(w, log1, Settle(r), r, Reopen);
    hide *;
    ReopenStored(w, log1, r);
    assert Reopened(log, r, outpoint) == Then(log1, Saved(r, None, false, Reopen)) by {
      ReopenedIs(log, r, outpoint);
    }
  }

  lemma ReopenedIs(log: History, r: Record, outpoint: OutText)
    ensures Reopened(log, r, outpoint) == Then(Then(log, Credited(r, outpoint)), Saved(r, None, false, Reopen))
  {
  }

  lemma {:induction false} CreditedIsSettled(w: World, log: History, r: Record, outpoint: OutText)
    requires GoodWorld(w) && CanCredit(w, log, r, outpoint)
    ensures var log1 := Then(log, Credited(r, outpoint));
            && Legal(w, log1) && ArtifactsOk(Replay(log1)) && r.status == WaitingConfirmations
            && r.key in Replay(log1).ops && Loaded(Replay(log1), r.key) == Settle(r)
  {
    var log1 := Then(log, Credited(r, outpoint));
    assert Legal(w, log) && r.status == WaitingConfirmations;
    hide CreditAllowed;
    assert Legal(w, log1);
    hide Legal, SlotsOk, IdemOk, BoundOk, ReservedOk, CreditOk, OpsOk, ArtifactsOk;
    LegalKeepsInv(w, log);
    LegalKeepsInv(w, log1);
    CreditRewrites(w, log, r, outpoint);
  }

  lemma {:induction false} ReopenStored(w: World, log: History, r: Record)
    requires Legal(w, log) && ArtifactsOk(Replay(log)) && r.key in Replay(log).ops
    requires StepOk(w, log, Loaded(Replay(log), r.key), r, Reopen)
    ensures Legal(w, Then(log, Saved(r, None, false, Reopen)))
    ensures var db := Replay(Then(log, Saved(r, None, false, Reopen))); r.key in db.ops && Loaded(db, r.key) == r
  {
    hide StepOk, ArtifactsOk;
    assert SaveAllowed(w, log, r, None, false, Reopen);
    hide SaveAllowed;
    UpdateReadsBack(w, log, r, None, Reopen);
  }

  /** After one round the operation may be credited again: everything that the credit
      rests on is still in the history. */
  lemma {:induction false} CanCreditAgain(w: World, log: History, r: Record, outpoint: OutText)
    requires GoodWorld(w) && !w.flushes && CanCredit(w, log, r, outpoint)
    ensures CanCredit(w, Reopened(log, r, outpoint), r, outpoint)
  {
    ReopenIsLegal(w, log, r, outpoint);
    hide Legal;
    EvidenceStays(w, log, r, outpoint, Credited(r, outpoint), Saved(r, None, false, Reopen));
  }

  lemma {:induction false} EvidenceStays(w: World, log: History, r: Record, outpoint: OutText, d: Event, e: Event)
    requires CreditAllowed(w, log, r, outpoint) && !d.AckRead? && !e.AckRead?
    requires r.key in Replay(Then(Then(log, d), e)).ops && Loaded(Replay(Then(Then(log, d), e)), r.key) == r
    ensures CreditAllowed(w, Then(Then(log, d), e), r, outpoint)
  {
    var a := Loaded(Replay(log), r.key);
    hide Replay, Loaded;
    assert CreditGround(w, log, a, r, outpoint);
    GroundStays(w, log, d, a, r, outpoint);
    GroundStays(w, Then(log, d), e, a, r, outpoint);
    GroundOfTouched(w, Then(Then(log, d), e), a, r, outpoint);
    hide CreditGround;
  }

  lemma GroundStays(w: World, log: History, e: Event, a: Record, r: Record, outpoint: OutText)
    requires CreditGround(w, log, a, r, outpoint) && !e.AckRead?
    ensures CreditGround(w, Then(log, e), a, r, outpoint)
  {
  }

  lemma GroundOfTouched(w: World, log: History, a: Record, r: Record, outpoint: OutText)
    requires CreditGround(w, log, a, r, outpoint)
    ensures CreditGround(w, log, r, r, outpoint)
  {
    hide Has, SeenBody, LastAck;
  }

  /** One round counts one credit and two changes of status. */
  lemma {:induction false} RoundCounts(w: World, log: History, r: Record, outpoint: OutText)
    requires GoodWorld(w) && !w.flushes && CanCredit(w, log, r, outpoint)
    ensures CreditCount(Reopened(log, r, outpoint), r.key) == CreditCount(log, r.key) + 1
    ensures StatusChanges(Reopened(log, r, outpoint), r.key) == StatusChanges(log, r.key) + 2
  {
    hide Legal, Loaded;
    var log1 := Then(log, Credited(r, outpoint));
    assert r.status == WaitingConfirmations && Replay(log).ops[r.key].status == WaitingConfirmations by {
      assert Touched(Loaded(Replay(log), r.key), r);
      LoadedStatus(Replay(log), r.key);
    }
    hide CreditAllowed;
    assert Replay(log1).ops[r.key].status == Settled;
    assert Replay(Reopened(log, r, outpoint)).ops[r.key].status == WaitingConfirmations;
    assert StatusChanges(log1, r.key) == StatusChanges(log, r.key) + 1;
  }

  lemma LoadedStatus(db: Db, k: OpKey)
    requires k in db.ops
    ensures Loaded(db, k).status == db.ops[k].status
  {
  }

  /** However often: an operation that may be credited once may be credited any
      number of times. */
  lemma {:induction false} Rounds(w: World, log: History, r: Record, outpoint: OutText, n: nat) returns (run: History)
    requires GoodWorld(w) && !w.flushes && CanCredit(w, log, r, outpoint)
    ensures CanCredit(w, run, r, outpoint) && CreditCount(run, r.key) >= n && StatusChanges(run, r.key) >= 2 * n
  {
    hide CanCredit, Reopened;
    if n == 0 {
      run := log;
    } else {
      run := Rounds(w, log, r, outpoint, n - 1);
      CanCreditAgain(w, run, r, outpoint);
      RoundCounts(w, run, r, outpoint);
      run := Reopened(run, r, outpoint);
    }
  }

  // ------------------------------------------------------------------ a send

  /** A send that spends `o`. */
  function PlainPsbt(o: Outpoint): Psbt {
    RawPsbt(Body([TxIn(o, [])], []), [PsbtInput(None, None, None)])
  }

  const SEND_KEY := IdemKey("acct", PrepareKind, "s1")

  function PlainSend(w: World, o: Outpoint): Record {
    Record(OpKey("acct", OperationId(SEND_KEY)),
           Terms(Send, "asset", 1, "peer", w.required, 10, false, None, Some(0), Spends(w, [TxIn(o, [])])),
           Preparing, None, None, DeliveryNotStarted, BroadcastNotStarted, None, 0, None, NoArtifact,
           Some(Draft(PlainPsbt(o))), None, Retry(true, 0, 0), false)
  }

  lemma {:induction false} SendIsFresh(w: World, o: Outpoint)
    ensures Fresh(w, PlainSend(w, o)) && PlainSend(w, o).terms.inputs == [w.show(o)]
  {
  }

  function SendCreated(w: World, o: Outpoint, hash: Digest): History {
    Then(Start, Saved(PlainSend(w, o), Some((SEND_KEY, hash)), true, Create("s1")))
  }

  lemma {:induction false} SendCreatedIsLegal(w: World, o: Outpoint, hash: Digest)
    requires w.maxOperations >= 1
    ensures Stores(w, SendCreated(w, o, hash), PlainSend(w, o))
  {
    var r := PlainSend(w, o);
    SendIsFresh(w, o);
    assert WellFormedKey(SEND_KEY) && Replay(Start) == EmptyDb && Legal(w, Start);
    hide Fresh;
    assert CreateOk(w, EmptyDb, r, SEND_KEY);
  }

  /** The send is prepared and signed. */
  lemma {:induction false} SendSigned(w: World, h: History, a: Record, psbt: Psbt) returns (run: History, b: Record)
    requires Stores(w, h, a) && a.terms.direction == Send && a.status == Preparing && a.candidate == Some(Draft(psbt))
    requires a.signed.None? && a.delivery == DeliveryNotStarted && a.broadcast == BroadcastNotStarted
    requires w.maxProof >= 1 && a.terms.expiresAt > 0
    ensures Stores(w, run, b) && b.key == a.key && b.terms == a.terms && b.signed == Some(Tx(psbt.body, []))
    ensures b.txid == Some(w.txidOf(psbt.body)) && b.artifact == Artifact([0], [0]) && b.status == Delivering
    ensures b.delivery == DeliveryNotStarted && b.broadcast == BroadcastNotStarted
  {
    hide Stores;
    var c, h1 := SendPrepared(w, h, a, psbt);
    var e1 := Answered(Authorized(a.key, psbt), true);
    var e2 := Answered(WitnessesValid(a.key, Tx(psbt.body, [])), true);
    var h2 := ThreeAnswers(w, h1, c, e1, e2, ClockRead(0));
    var sign := Finalize(Tx(psbt.body, []), 0);
    b := Change(w, c, sign);
    ExtendByChange(w, h2, c, sign);
    run := Then(h2, Saved(b, None, false, sign));
  }

  lemma {:induction false} SendPrepared(w: World, h: History, a: Record, psbt: Psbt) returns (c: Record, run: History)
    requires w.maxProof >= 1
    requires Stores(w, h, a) && a.terms.direction == Send && a.status == Preparing && a.candidate == Some(Draft(psbt))
    ensures Stores(w, run, c) && c == Change(w, a, Prepare([0], [0], psbt))
  {
    hide Stores;
    var why := Prepare([0], [0], psbt);
    var h1 := ThreeAnswers(
        w, h, a, Built(a.key, psbt.body.outputs), FasciaEncoded(a.key, [0]), ProofEncoded(a.key, [0]));
    c := Change(w, a, why);
    ExtendByChange(w, h1, a, why);
    run := Then(h1, Saved(c, None, false, why));
  }

  lemma {:induction false} ThreeAnswers(w: World, h: History, a: Record, e1: Event, e2: Event, e3: Event)
      returns (run: History)
    requires Stores(w, h, a) && Plain(e1) && Plain(e2) && Plain(e3)
    ensures Stores(w, run, a) && Has(run, e1) && Has(run, e2) && Has(run, e3)
    ensures run == Then(Then(Then(h, e1), e2), e3)
  {
    var h1, h2 := Then(h, e1), Then(Then(h, e1), e2);
    run := Then(h2, e3);
    assert Has(h1, e1) && Has(h2, e2);
    assert Has(h2, e1);
    assert Has(run, e1) && Has(run, e2);
    hide *;
    PlainAnswer(w, h, a, e1);
    PlainAnswer(w, h1, a, e2);
    PlainAnswer(w, h2, a, e3);
  }

  lemma PlainAnswer(w: World, h: History, a: Record, e: Event)
    requires Stores(w, h, a) && Plain(e)
    ensures Stores(w, Then(h, e), a) && Has(Then(h, e), e)
  {
    hide Stores;
    ExtendByAnswer(w, h, a, e);
  }

  /** Its proof is uploaded. */
  lemma {:induction false} SendUploaded(w: World, h: History, a: Record) returns (run: History)
    requires Stores(w, h, a) && a.terms.direction == Send && a.signed.Some? && a.txid.Some? && a.artifact != NoArtifact
    ensures Stores(w, run, a.(delivery := Delivered))
  {
    var d := Answered(ProofPosted(a.key, a.txid.value, a.artifact.proof), true);
    var e := Uploaded(a.key, a.txid.value, a.artifact.proof);
    ExtendByAnswer(w, h, a, d);
    var h1 := Then(h, d);
    assert Allowed(w, h1, e);
    hide Allowed;
    ExtendByAnswer(w, h1, a, e);
    assert Guard(w, Then(h1, e), a, Deliver) && Change(w, a, Deliver) == a.(delivery := Delivered);
    hide *;
    ExtendByChange(w, Then(h1, e), a, Deliver);
    run := Then(Then(h1, e), Saved(a.(delivery := Delivered), None, false, Deliver));
  }

  /** Its broadcast is attempted. */
  lemma {:induction false} SendDelivered(w: World, h: History, a: Record) returns (run: History, b: Record)
    requires Stores(w, h, a) && a.terms.direction == Send && a.signed.Some? && a.txid.Some? && a.artifact != NoArtifact
    requires a.broadcast == BroadcastNotStarted
    ensures Stores(w, run, b) && b == a.(delivery := Delivered, broadcast := BroadcastUnknown)
  {
    var c := a.(delivery := Delivered);
    b := a.(delivery := Delivered, broadcast := BroadcastUnknown);
    hide Stores;
    run := SendUploaded(w, h, a);
    assert Guard(w, run, c, Attempt) && Change(w, c, Attempt) == b;
    hide *;
    ExtendByChange(w, run, c, Attempt);
    run := Then(run, Saved(b, None, false, Attempt));
  }

  /** Its transaction is posted and confirmed, and its state promoted. */
  lemma {:induction false} SendConfirmed(w: World, h: History, a: Record)
      returns (run: History, r: Record, outpoint: OutText)
    requires Stores(w, h, a) && a.terms.direction == Send && a.signed.Some? && a.txid.Some? && a.artifact != NoArtifact
    requires a.delivery == Delivered && a.broadcast == BroadcastUnknown && a.terms.changeVout.Some?
    requires a.terms.required == w.required
    ensures CanCredit(w, run, r, outpoint) && r.key == a.key
  {
    var h1 := SendPosted(w, h, a);
    var b := a.(broadcast := BroadcastDone, status := WaitingConfirmations);
    hide *;
    AnnounceAllowed(w, h1, a);
    ExtendByChange(w, h1, a, Announce);
    run, r, outpoint := SendPromoted(w, Then(h1, Saved(b, None, false, Announce)), b);
  }

  lemma AnnounceAllowed(w: World, log: History, a: Record)
    requires a.terms.direction == Send && a.broadcast == BroadcastUnknown && a.signed.Some? && a.txid.Some?
    requires Has(log, Posted(a.key, a.signed.value)) && Has(log, Relayed(a.key, a.txid.value))
    ensures Guard(w, log, a, Announce)
    ensures Change(w, a, Announce) == a.(broadcast := BroadcastDone, status := WaitingConfirmations)
  {
    hide Has, SeenBody;
  }

  lemma {:induction false} SendPosted(w: World, h: History, a: Record) returns (run: History)
    requires Stores(w, h, a) && a.terms.direction == Send && a.signed.Some? && a.txid.Some?
    requires a.delivery == Delivered && a.broadcast == BroadcastUnknown
    ensures Stores(w, run, a) && Has(run, Posted(a.key, a.signed.value)) && Has(run, Relayed(a.key, a.txid.value))
  {
    var c, e, d := NotSeen(a.txid.value), Posted(a.key, a.signed.value), Relayed(a.key, a.txid.value);
    var h1, h2 := Then(h, c), Then(Then(h, c), e);
    PlainAnswer(w, h, a, c);
    assert Allowed(w, h1, e) && Has(h2, e);
    run := Then(h2, d);
    assert Has(run, e);
    hide *;
    ExtendByAnswer(w, h1, a, e) by { assert !e.Saved? && !e.Credited?; }
    PlainAnswer(w, h2, a, d) by { assert Plain(d) by { PlainRelayed(a.key, a.txid.value); } }
  }

  lemma PlainRelayed(key: OpKey, txid: Txid)
    ensures Plain(Relayed(key, txid))
  {
  }

  lemma {:induction false} SendPromoted(w: World, h: History, b: Record)
      returns (run: History, r: Record, outpoint: OutText)
    requires Stores(w, h, b) && b.terms.direction == Send && b.status == WaitingConfirmations && b.txid.Some?
    requires b.terms.changeVout.Some? && b.terms.required == w.required
    ensures CanCredit(w, run, r, outpoint) && r.key == b.key
  {
    var e1, e2 := Confirmed(b.txid.value, w.required), Answered(FasciaPromoted(b.key, b.txid.value), true);
    run := ThreeAnswers(w, h, b, e1, e2, AckRead(b.key, None));
    r := b.(confirmations := w.required, acknowledged := None);
    outpoint := w.show(Outpoint(b.txid.value, b.terms.changeVout.value));
    assert LastAck(run, b.key) == Some(None);
    hide Replay, Loaded, Has, LastAck;
  }

  /** A send that may be credited. */
  lemma {:induction false} SendRun(w: World, o: Outpoint, hash: Digest)
      returns (run: History, r: Record, outpoint: OutText)
    requires w.maxOperations >= 1 && w.maxProof >= 1
    ensures CanCredit(w, run, r, outpoint)
  {
    SendCreatedIsLegal(w, o, hash);
    var a := PlainSend(w, o);
    hide Stores, CanCredit;
    var b, c;
    run, b := SendSigned(w, SendCreated(w, o, hash), a, PlainPsbt(o));
    run, c := SendDelivered(w, run, b);
    run, r, outpoint := SendConfirmed(w, run, c);
  }

  // ------------------------------------------------------ the exact conditions

  ghost predicate NeverCreditedTwice(w: World) {
    forall log, k :: Legal(w, log) ==> CreditCount(log, k) <= 1
  }

  ghost predicate StatusBounded(w: World, bound: nat) {
    forall log, k :: Legal(w, log) ==> StatusChanges(log, k) <= bound
  }

  /** No operation is ever credited twice if and only if the disk flushes what it
      commits, or no operation is admitted. */
  lemma {:induction false} CreditedOnceExactly(w: World, o: Outpoint, hash: Digest)
    requires GoodWorld(w)
    ensures NeverCreditedTwice(w) <==> w.flushes || w.maxOperations == 0
  {
    hide Legal, CanCredit;
    if w.flushes || w.maxOperations == 0 {
      forall log, k | Legal(w, log)
        ensures CreditCount(log, k) <= 1
      {
        if w.flushes {
          CreditedAtMostOnce(w, log, k);
        } else {
          NothingHappens(w, log, k);
        }
      }
    } else {
      var run, r, outpoint := SendRun(w, o, hash);
      run := Rounds(w, run, r, outpoint, 2);
      CanCreditIsLegal(w, run, r, outpoint);
    }
  }

  lemma CanCreditIsLegal(w: World, log: History, r: Record, outpoint: OutText)
    requires CanCredit(w, log, r, outpoint)
    ensures Legal(w, log)
  {
  }

  /** The status of an operation changes at most five times if and only if the same
      holds; otherwise there is no bound at all. */
  lemma {:induction false} StatusBoundedExactly(w: World, bound: nat, o: Outpoint, hash: Digest)
    requires GoodWorld(w) && bound >= 5
    ensures StatusBounded(w, bound) <==> w.flushes || w.maxOperations == 0
  {
    hide Legal, CanCredit;
    if w.flushes || w.maxOperations == 0 {
      forall log, k | Legal(w, log)
        ensures StatusChanges(log, k) <= bound
      {
        if w.flushes {
          StatusChangesAreBounded(w, log, k);
        } else {
          NothingHappens(w, log, k);
        }
      }
    } else {
      var run, r, outpoint := SendRun(w, o, hash);
      run := Rounds(w, run, r, outpoint, bound + 1);
      CanCreditIsLegal(w, run, r, outpoint);
    }
  }
}
