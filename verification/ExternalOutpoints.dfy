/** Reservations are kept under texts of outpoints. A send writes them down itself;
    for a blind receive the caller's text is kept. When do they keep apart what
    they stand for, and when is a credited output found again? */
module ExternalOutpoints {
  import opened Basics
  import opened ExternalModel
  import opened ExternalHistory
  import opened ExternalInvariants
  import opened ExternalInduction
  import opened ExternalTheorems
  import opened ExternalExpiry
  import opened ExternalDisk
  import opened ExternalReservations

  /** The operation still holds the outpoint, under some text. */
  ghost predicate HoldsOutpoint(w: World, log: History, k: OpKey, o: Outpoint) {
    Holds(log, k) && exists t :: t in Replay(log).ops[k].terms.inputs && w.parse(t) == Some(o)
  }

  /** No outpoint is held by two operations. */
  ghost predicate OutpointsDisjoint(w: World, log: History) {
    forall j, k, o :: HoldsOutpoint(w, log, j, o) && HoldsOutpoint(w, log, k, o) ==> j == k
  }

  ghost predicate AllCanonical(w: World, texts: iset<OutText>) {
    forall t :: t in texts ==> Canonical(w, t)
  }

  /** As long as blind receives use these texts only, no outpoint is ever held twice. */
  ghost predicate AlwaysDisjoint(w: World, texts: iset<OutText>) {
    forall log :: Legal(w, log) && BlindIn(log, texts) ==> OutpointsDisjoint(w, log)
  }

  // ------------------------------------------------------- canonical texts

  lemma {:induction false} InputsCanonical(w: World, log: History, texts: iset<OutText>, k: OpKey, t: OutText)
    requires GoodWorld(w) && Legal(w, log) && BlindIn(log, texts) && AllCanonical(w, texts)
    requires k in Replay(log).ops && t in Replay(log).ops[k].terms.inputs
    ensures Canonical(w, t)
  {
    InputsFrom(w, log, texts, k, t);
    hide Legal, Replay;
  }

  lemma {:induction false} CanonicalIsDisjoint(w: World, texts: iset<OutText>, log: History)
    requires GoodWorld(w) && AllCanonical(w, texts) && Legal(w, log) && BlindIn(log, texts) && Apart(log)
    ensures OutpointsDisjoint(w, log)
  {
    hide Legal, Replay, AllCanonical, BlindIn, Holds;
    forall j, k, o | HoldsOutpoint(w, log, j, o) && HoldsOutpoint(w, log, k, o)
      ensures j == k
    {
      assert j in Replay(log).ops && k in Replay(log).ops by {
        HoldersAreStored(log, j);
        HoldersAreStored(log, k);
      }
      var s :| s in Replay(log).ops[j].terms.inputs && w.parse(s) == Some(o);
      var t :| t in Replay(log).ops[k].terms.inputs && w.parse(t) == Some(o);
      InputsCanonical(w, log, texts, j, s);
      InputsCanonical(w, log, texts, k, t);
      assert Both(log, j, k, s);
    }
  }

  lemma HoldersAreStored(log: History, k: OpKey)
    requires Holds(log, k)
    ensures k in Replay(log).ops
  {
  }

  lemma {:induction false} FewIsDisjoint(w: World, log: History)
    requires GoodWorld(w) && Legal(w, log) && w.maxOperations <= 1
    ensures OutpointsDisjoint(w, log)
  {
    AdmittedOps(w, log);
    hide Legal, Replay;
    forall j, k, o | HoldsOutpoint(w, log, j, o) && HoldsOutpoint(w, log, k, o)
      ensures j == k
    {
      AtMostOne(Replay(log).ops.Keys, j, k);
    }
  }

  // ------------------------------------------------------------- the witness

  lemma KeysDiffer()
    ensures WellFormedKey(SEND_KEY) && BlindOp("r1").id != OperationId(SEND_KEY)
  {
    assert WellFormedKey(BlindKey("r1")) && WellFormedKey(SEND_KEY);
    if IdemText(BlindKey("r1")) == IdemText(SEND_KEY) {
      IdemTextInjective(BlindKey("r1"), SEND_KEY);
    }
  }

  /** What is stored after the invoice. */
  lemma {:induction false} BlindStored(w: World, asset: Contract, t: OutText, hash: Digest)
    ensures var db, r := Replay(Then(Start, BlindCreate(w, asset, t, "r1", hash))), BlindInvoice(w, asset, t, "r1");
            && db.ops == map[r.key := r]
            && db.idem == map[BlindKey("r1") := Binding(hash, r.key.id)]
            && db.reservations == map[t := r.key.id]
  {
    var r := BlindInvoice(w, asset, t, "r1");
    var db := Replay(Then(Start, BlindCreate(w, asset, t, "r1", hash)));
    assert Replay(Start) == EmptyDb;
    assert db == ApplySave(EmptyDb, r, Some((BlindKey("r1"), hash)), true);
    assert InputSet(r) == {t};
  }

  lemma {:induction false} SendIsAdded(w: World, t: OutText, hash: Digest)
    requires w.parse(t).Some? && !Canonical(w, t) && w.maxOperations >= 2
    ensures SaveAllowed(w, Then(Start, BlindCreate(w, "asset", t, "r1", hash)), PlainSend(w, w.parse(t).value),
                        Some((SEND_KEY, hash)), true, Create("s1"))
  {
    BlindStored(w, "asset", t, hash);
    SendIsFresh(w, w.parse(t).value);
    KeysDiffer();
    hide Replay, Fresh, Spends, WellFormedKey, OperationId;
    var db := Replay(Then(Start, BlindCreate(w, "asset", t, "r1", hash)));
    assert |db.ops| == 1 && SEND_KEY !in db.idem;
  }

  /** Two texts of one outpoint are reserved side by side: a blind receive under the
      caller's text and a send under the program's own. */
  lemma {:induction false} AliasIsHeldTwice(w: World, t: OutText, hash: Digest)
      returns (log: History, j: OpKey, k: OpKey)
    requires GoodWorld(w) && w.parse(t).Some? && !Canonical(w, t) && w.maxOperations >= 2
    ensures Legal(w, log) && BlindIn(log, iset{t}) && j != k
    ensures HoldsOutpoint(w, log, j, w.parse(t).value) && HoldsOutpoint(w, log, k, w.parse(t).value)
  {
    var o := w.parse(t).value;
    var h := Then(Start, BlindCreate(w, "asset", t, "r1", hash));
    var r, s := BlindInvoice(w, "asset", t, "r1"), PlainSend(w, o);
    FirstCreated(w, "asset", t, hash);
    SendIsAdded(w, t, hash);
    SendIsFresh(w, o);
    BlindStored(w, "asset", t, hash);
    KeysDiffer();
    FewLegal(w, h, {"r1"}, t);
    j, k := r.key, s.key;
    var e := Saved(s, Some((SEND_KEY, hash)), true, Create("s1"));
    log := Then(h, e);
    assert r.terms.inputs == [t] && r.key == BlindOp("r1");
    assert s.receiveOutpoint.None? && s.terms.direction == Send && s.key.id == OperationId(SEND_KEY);
    hide *;
    AddedIsLegal(w, h, e, iset{t});
    BothHold(w, h, e, r, s, t, o);
  }

  lemma AddedIsLegal(w: World, h: History, e: Event, texts: iset<OutText>)
    requires Legal(w, h) && BlindIn(h, texts) && e.Saved? && e.record.receiveOutpoint.None?
    requires SaveAllowed(w, h, e.record, e.bind, e.reserve, e.why)
    ensures Legal(w, Then(h, e)) && BlindIn(Then(h, e), texts)
  {
    hide SaveAllowed;
  }

  lemma {:induction false} BothHold(w: World, h: History, e: Event, r: Record, s: Record, t: OutText, o: Outpoint)
    requires GoodWorld(w) && e.Saved? && e.record == s && s.terms.direction == Send && s.terms.inputs == [w.show(o)]
    requires Replay(h).ops == map[r.key := r] && r.key != s.key && !CreditedKey(h, r.key)
    requires r.terms.inputs == [t] && w.parse(t) == Some(o)
    ensures HoldsOutpoint(w, Then(h, e), r.key, o) && HoldsOutpoint(w, Then(h, e), s.key, o)
  {
    var log := Then(h, e);
    assert Replay(log).ops[r.key] == r && Replay(log).ops[s.key].terms == s.terms;
    hide Replay;
    assert t in Replay(log).ops[r.key].terms.inputs && w.show(o) in Replay(log).ops[s.key].terms.inputs;
  }

  /** A text held twice is an outpoint held twice. */
  lemma BothHoldOutpoint(w: World, log: History, j: OpKey, k: OpKey, t: OutText)
    requires Both(log, j, k, t) && w.parse(t).Some?
    ensures HoldsOutpoint(w, log, j, w.parse(t).value) && HoldsOutpoint(w, log, k, w.parse(t).value)
  {
    hide Replay, Holds;
  }

  /** When no text is ever held twice. */
  ghost predicate TextsApart(w: World, texts: iset<OutText>) {
    Steady(w) || w.maxOperations <= 2 || texts == iset{}
  }

  /** The exact condition, for any parser: whatever texts blind receives may use, no
      outpoint is ever held by two operations if and only if each of the texts is the
      one that the program itself writes and no text is ever held twice, or no two
      operations are admitted. */
  lemma {:induction false} DisjointExactly(w: World, texts: iset<OutText>, hash: Digest)
    requires GoodWorld(w) && forall t :: t in texts ==> w.parse(t).Some?
    ensures AlwaysDisjoint(w, texts) <==> w.maxOperations <= 1 || (AllCanonical(w, texts) && TextsApart(w, texts))
  {
    hide Legal, HoldsOutpoint, Canonical, Both, Apart;
    if w.maxOperations <= 1 || (AllCanonical(w, texts) && TextsApart(w, texts)) {
      forall log | Legal(w, log) && BlindIn(log, texts)
        ensures OutpointsDisjoint(w, log)
      {
        if w.maxOperations <= 1 {
          FewIsDisjoint(w, log);
        } else {
          IsApart(w, texts, log);
          CanonicalIsDisjoint(w, texts, log);
        }
      }
    } else if !AllCanonical(w, texts) {
      var t :| t in texts && !Canonical(w, t);
      var log, j, k := AliasIsHeldTwice(w, t, hash);
      BlindInMore(log, iset{t}, texts);
      assert !OutpointsDisjoint(w, log);
    } else {
      var t :| t in texts;
      var proof :| Receivable(w, proof);
      var log, j, k := TextIsHeldTwice(w, t, proof, hash);
      BlindInMore(log, iset{t}, texts);
      BothHoldOutpoint(w, log, j, k, t);
      assert !OutpointsDisjoint(w, log);
    }
  }

  // ----------------------------------------------- finding the credited output

  /** Not a blind receive, or one whose text the program itself would write. */
  predicate OwnText(w: World, r: Record) {
    r.terms.blind ==> r.receiveOutpoint.Some? && Canonical(w, r.receiveOutpoint.value)
  }

  /** What the output of an operation is tracked under is what it looks for when it
      loses its confirmations, if and only if it is not a blind receive or the
      caller's text is the one that the program itself writes. */
  lemma {:induction false} CreditFoundExactly(w: World, log: History, r: Record, outpoint: OutText)
    requires GoodWorld(w) && Legal(w, Then(log, Credited(r, outpoint)))
    ensures MarkTarget(w, r).Some?
    ensures MarkTarget(w, r).value == outpoint <==> OwnText(w, r)
    ensures r.terms.blind ==>
              r.terms.direction == Receive && r.receiveOutpoint.Some? && r.receiveOutpoint.value in r.terms.inputs
  {
    assert Legal(w, log) && CreditAllowed(w, log, r, outpoint);
    hide Legal, Replay;
    StoredOk(w, log, r.key);
  }

  /** The same at any later time: marking then changes the tracked entry, or misses
      it. */
  lemma {:induction false} MarkedExactly(w: World, before: History, r: Record, outpoint: OutText, log: History)
    requires GoodWorld(w) && Legal(w, log) && Prefix(Then(before, Credited(r, outpoint)), log)
    ensures r.key in Replay(log).ops
    ensures var a := Loaded(Replay(log), r.key);
            && MarkTarget(w, a).Some?
            && var marked := Replay(Then(log, Unconfirmed(r.key.account, MarkTarget(w, a).value))).utxos;
            var entry := (r.key.account, outpoint);
            entry in Replay(log).utxos && Replay(log).utxos[entry] ==>
              entry in marked && (!marked[entry] <==> OwnText(w, r))
  {
    PrefixLegal(w, Then(before, Credited(r, outpoint)), log);
    CreditFoundExactly(w, before, r, outpoint);
    TargetStays(w, before, r, outpoint, log);
    hide Legal, OwnText, Replay, Loaded, MarkTarget;
    MarkEffect(log, r.key.account, MarkTarget(w, r).value, outpoint);
  }

  lemma MarkEffect(log: History, account: string, t: OutText, o: OutText)
    ensures var before, after := Replay(log).utxos, Replay(Then(log, Unconfirmed(account, t))).utxos;
            (account, o) in before && before[(account, o)] ==>
              (account, o) in after && (!after[(account, o)] <==> o == t)
  {
  }

  /** An operation looks for the same text for ever. */
  lemma {:induction false} TargetStays(w: World, before: History, r: Record, outpoint: OutText, log: History)
    requires GoodWorld(w) && Legal(w, log) && Prefix(Then(before, Credited(r, outpoint)), log)
    ensures r.key in Replay(log).ops && MarkTarget(w, Loaded(Replay(log), r.key)) == MarkTarget(w, r)
  {
    PrefixLegal(w, Then(before, Credited(r, outpoint)), log);
    assert Legal(w, before) && CreditAllowed(w, before, r, outpoint);
    hide Legal, Replay, Loaded;
    PrefixTrans(before, Then(before, Credited(r, outpoint)), log);
    StoredOk(w, before, r.key);
    RunKept(w, before, log, r.key);
    RunFrozen(w, before, log, r.key);
  }

  /** As long as blind receives use these texts only, what is credited is found. */
  ghost predicate AlwaysFound(w: World, texts: iset<OutText>) {
    forall log, r, outpoint :: Legal(w, Then(log, Credited(r, outpoint))) && BlindIn(log, texts) ==>
      MarkTarget(w, r) == Some(outpoint)
  }

  /** For every other text there is a run that credits a blind receive and can not
      find the output again. */
  lemma {:induction false} AliasIsNotFound(w: World, t: OutText, proof: Bytes, hash: Digest)
      returns (log: History, r: Record, outpoint: OutText)
    requires GoodWorld(w) && w.parse(t).Some? && !Canonical(w, t)
    requires w.maxOperations >= 1 && Receivable(w, proof)
    ensures Legal(w, Then(log, Credited(r, outpoint))) && BlindIn(log, iset{t})
    ensures MarkTarget(w, r) != Some(outpoint)
  {
    hide Few, CanCredit, Legal, Replay, BlindIn, Canonical;
    log, r, outpoint := FirstIsPaid(w, t, proof, hash);
    FewLegal(w, log, {"r1"}, t);
    CreditIsLegal(w, log, r, outpoint);
    CreditFoundExactly(w, log, r, outpoint);
  }

  /** The exact condition, for any parser. Unless nothing can be credited at all, the
      credited output is found again in every run if and only if each text that
      blind receives may use is the one that the program itself writes. */
  lemma {:induction false} FoundExactly(w: World, texts: iset<OutText>, hash: Digest)
    requires GoodWorld(w) && forall t :: t in texts ==> w.parse(t).Some?
    ensures AlwaysFound(w, texts) <==>
            w.maxOperations == 0 || (forall proof :: !Receivable(w, proof)) || AllCanonical(w, texts)
  {
    if w.maxOperations == 0 || (forall proof :: !Receivable(w, proof)) || AllCanonical(w, texts) {
      forall log, r, outpoint | Legal(w, Then(log, Credited(r, outpoint))) && BlindIn(log, texts)
        ensures MarkTarget(w, r) == Some(outpoint)
      {
        FoundIfCanonical(w, texts, log, r, outpoint);
      }
    } else {
      var t :| t in texts && !Canonical(w, t);
      var proof :| Receivable(w, proof);
      var log, r, outpoint := AliasIsNotFound(w, t, proof, hash);
      BlindInMore(log, iset{t}, texts);
    }
  }

  lemma {:induction false} FoundIfCanonical(w: World, texts: iset<OutText>, log: History, r: Record, outpoint: OutText)
    requires GoodWorld(w) && Legal(w, Then(log, Credited(r, outpoint))) && BlindIn(log, texts)
    requires w.maxOperations == 0 || (forall proof :: !Receivable(w, proof)) || AllCanonical(w, texts)
    ensures MarkTarget(w, r) == Some(outpoint)
  {
    CreditFoundExactly(w, log, r, outpoint);
    if r.terms.blind {
      SomethingIsDecoded(w, log, r, outpoint);
      InputsCanonical(w, log, texts, r.key, r.receiveOutpoint.value);
    }
  }

  /** A credited receive needs an operation and a proof. */
  lemma {:induction false} SomethingIsDecoded(w: World, log: History, r: Record, outpoint: OutText)
    requires GoodWorld(w) && Legal(w, Then(log, Credited(r, outpoint))) && r.terms.direction == Receive
    ensures w.maxOperations >= 1 && Legal(w, log) && r.key in Replay(log).ops && Replay(log).ops[r.key].terms == r.terms
    ensures exists proof :: Receivable(w, proof)
  {
    var log' := Then(log, Credited(r, outpoint));
    assert Prefix(log', log') && Legal(w, log);
    hide Legal, OpsOk, SlotsOk, IdemOk, BoundOk, ReservedOk, CreditOk, ArtifactsOk, Replay;
    LegalKeepsInv(w, log);
    CreditPremises(w, log, r, outpoint, log');
    var a := Loaded(Replay(log), r.key);
    WaitingIsDecoded(w, log, a);
    assert Receivable(w, a.artifact.proof);
    assert |Replay(log).ops.Keys| > 0;
  }
}
