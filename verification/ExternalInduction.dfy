/** Every legal history satisfies the database invariant. */
module ExternalInduction {
  import opened Basics
  import opened ExternalModel
  import opened ExternalHistory
  import opened ExternalInvariants

  lemma StepKeepsTerms(w: World, log: History, a: Record, b: Record, why: Step)
    requires StepOk(w, log, a, b, why)
    ensures a.key == b.key && a.terms == b.terms
  {
  }

  /** No step loses the artifacts of a record. */
  lemma StepKeepsArtifact(w: World, log: History, a: Record, b: Record, why: Step)
    requires StepOk(w, log, a, b, why) && (a.terms.direction == Receive ==> a.artifact.fascia == [])
    ensures b.artifact == NoArtifact ==> a.artifact == NoArtifact
  {
  }

  /** A written record is the one that is read back. */
  lemma UpdateReadsBack(w: World, log: History, r: Record, bind: Option<(IdemKey, Digest)>, why: Step)
    requires ArtifactsOk(Replay(log)) && !why.Create?
    requires SaveAllowed(w, log, r, bind, false, why)
    ensures Loaded(ApplySave(Replay(log), r, bind, false), r.key) == r
  {
    hide Replay, StepOk, Reserve;
    StepKeepsArtifact(w, log, Loaded(Replay(log), r.key), r, why);
  }

  lemma {:induction false} UpdateOps(w: World, log: History, r: Record, bind: Option<(IdemKey, Digest)>, why: Step)
    requires GoodWorld(w) && Inv(w, log) && !why.Create?
    requires SaveAllowed(w, log, r, bind, false, why)
    ensures OpsOk(w, Then(log, Saved(r, bind, false, why)))
  {
    hide StepOk, RecordOk, ReservedOk, CreditOk, SlotsOk, IdemOk, BoundOk, ArtifactsOk;
    var e := Saved(r, bind, false, why);
    var db, db' := Replay(log), Replay(Then(log, e));
    UpdateReadsBack(w, log, r, bind, why);
    StepKeepsOk(w, log, Loaded(db, r.key), r, why);
    forall k | k in db'.ops
      ensures db'.ops[k].key == k && RecordOk(w, Then(log, e), Loaded(db', k))
    {
      if k != r.key {
        assert Loaded(db', k) == Loaded(db, k);
      }
      RecordOkGrows(w, log, e, Loaded(db', k));
    }
  }

  /** The stored record at `k` is replaced by one with the same terms. */
  ghost predicate Rewritten(db: Db, db': Db, k: OpKey) {
    && k in db.ops && db'.ops.Keys == db.ops.Keys
    && (forall j :: j in db.ops && j != k ==> db'.ops[j] == db.ops[j])
    && db'.ops[k].terms == db.ops[k].terms
  }

  lemma {:induction false} RewriteKeepsSlots(db: Db, db': Db, k: OpKey)
    requires Rewritten(db, db', k) && SlotsOk(db)
    ensures SlotsOk(db')
  {
    forall j | j in db.ops ensures db'.ops[j].terms == db.ops[j].terms {
    }
  }

  lemma {:induction false} RewriteKeepsBound(db: Db, db': Db, k: OpKey)
    requires Rewritten(db, db', k) && BoundOk(db)
    requires forall i :: i in db.idem ==> i in db'.idem && db'.idem[i] == db.idem[i]
    ensures BoundOk(db')
  {
    forall j | j in db'.ops
      ensures exists i :: BoundBy(db', j, i)
    {
      var i :| BoundBy(db, j, i);
      assert db'.ops[j].terms == db.ops[j].terms;
      assert BoundBy(db', j, i);
    }
  }

  lemma {:induction false} RewriteKeepsIdem(db: Db, db': Db, k: OpKey, bind: Option<(IdemKey, Digest)>)
    requires Rewritten(db, db', k) && IdemOk(db)
    requires db'.idem == if bind.Some? then db.idem[bind.value.0 := Binding(bind.value.1, k.id)] else db.idem
    requires bind.Some? ==>
               && WellFormedKey(bind.value.0) && bind.value.0.account == k.account
               && (bind.value.0.kind == FinalizeKind || bind.value.0.kind == CancelKind)
    ensures IdemOk(db')
  {
    forall j | j in db.ops ensures db'.ops[j].terms == db.ops[j].terms {
    }
  }

  lemma {:induction false} UpdateRewrites(w: World, log: History, r: Record, bind: Option<(IdemKey, Digest)>, why: Step)
    requires !why.Create? && OpsOk(w, log)
    requires SaveAllowed(w, log, r, bind, false, why)
    ensures Rewritten(Replay(log), ApplySave(Replay(log), r, bind, false), r.key)
    ensures bind.Some? ==> bind.value.0 !in Replay(log).idem
  {
    hide StepOk, RecordOk;
    StepKeepsTerms(w, log, Loaded(Replay(log), r.key), r, why);
  }

  lemma {:induction false} UpdateRest(w: World, log: History, r: Record, bind: Option<(IdemKey, Digest)>, why: Step)
    requires Inv(w, log) && !why.Create?
    requires SaveAllowed(w, log, r, bind, false, why)
    ensures var db' := Replay(Then(log, Saved(r, bind, false, why)));
            BoundOk(db') && IdemOk(db') && SlotsOk(db') && |db'.ops| <= w.maxOperations
  {
    hide StepOk, RecordOk, OpsOk, ReservedOk, CreditOk, SlotsOk, IdemOk, BoundOk, ArtifactsOk;
    var db, db' := Replay(log), Replay(Then(log, Saved(r, bind, false, why)));
    UpdateRewrites(w, log, r, bind, why);
    RewriteKeepsSlots(db, db', r.key);
    RewriteKeepsBound(db, db', r.key);
    RewriteKeepsIdem(db, db', r.key, bind);
    assert |db'.ops.Keys| == |db.ops.Keys|;
  }

  lemma {:induction false} UpdateArtifacts(w: World, log: History, r: Record, bind: Option<(IdemKey, Digest)>,
                                           why: Step)
    requires OpsOk(w, log) && ArtifactsOk(Replay(log)) && !why.Create?
    requires SaveAllowed(w, log, r, bind, false, why)
    ensures ArtifactsOk(ApplySave(Replay(log), r, bind, false))
  {
    hide RecordOk, StepOk, OpsOk, ArtifactsOk, ApplySave, Loaded;
    StepKeepsTerms(w, log, Loaded(Replay(log), r.key), r, why);
    StepKeepsFascia(w, log, Loaded(Replay(log), r.key), r, why);
    RewriteKeepsArtifacts(Replay(log), r, bind);
  }

  lemma RewriteKeepsArtifacts(db: Db, r: Record, bind: Option<(IdemKey, Digest)>)
    requires ArtifactsOk(db) && r.key in db.ops && Loaded(db, r.key).terms == r.terms
    requires r.terms.direction == Receive && Loaded(db, r.key).artifact.fascia == [] ==> r.artifact.fascia == []
    ensures ArtifactsOk(ApplySave(db, r, bind, false))
  {
  }

  /** No step gives a receive a fascia. */
  lemma StepKeepsFascia(w: World, log: History, a: Record, b: Record, why: Step)
    requires StepOk(w, log, a, b, why)
    ensures a.terms.direction == Receive && a.artifact.fascia == [] ==> b.artifact.fascia == []
  {
  }

  lemma {:induction false} UpdateCredit(w: World, log: History, r: Record, bind: Option<(IdemKey, Digest)>, why: Step)
    requires GoodWorld(w) && OpsOk(w, log) && CreditOk(w, log) && !why.Create?
    requires SaveAllowed(w, log, r, bind, false, why)
    ensures CreditOk(w, Then(log, Saved(r, bind, false, why)))
  {
    hide StepOk, RecordOk;
    StepMovesForward(w, log, Loaded(Replay(log), r.key), r, why);
  }

  lemma {:induction false} ReservationsUntouched(log: History, e: Event, k: OpKey)
    requires ReservedOk(log) && !e.Credited?
    requires Rewritten(Replay(log), Replay(Then(log, e)), k)
    requires Replay(Then(log, e)).reservations == Replay(log).reservations
    ensures ReservedOk(Then(log, e))
  {
    var db, db' := Replay(log), Replay(Then(log, e));
    hide Apply;
    forall j, o | Holds(Then(log, e), j) && o in db'.ops[j].terms.inputs
      ensures o in db'.reservations && db'.reservations[o] == j.id
    {
      assert db'.ops[j].terms == db.ops[j].terms;
      assert Holds(log, j);
    }
  }

  lemma {:induction false} UpdateReserved(w: World, log: History, r: Record, bind: Option<(IdemKey, Digest)>, why: Step)
    requires GoodWorld(w) && OpsOk(w, log) && ReservedOk(log) && !why.Create?
    requires SaveAllowed(w, log, r, bind, false, why)
    ensures ReservedOk(Then(log, Saved(r, bind, false, why)))
  {
    hide StepOk, RecordOk, ReservedOk;
    StepMovesForward(w, log, Loaded(Replay(log), r.key), r, why);
    UpdateRewrites(w, log, r, bind, why);
    ReservationsUntouched(log, Saved(r, bind, false, why), r.key);
  }

  lemma {:induction false} UpdateKeepsInv(w: World, log: History, r: Record, bind: Option<(IdemKey, Digest)>, why: Step)
    requires GoodWorld(w) && Inv(w, log) && !why.Create?
    requires SaveAllowed(w, log, r, bind, false, why)
    ensures Inv(w, Then(log, Saved(r, bind, false, why)))
  {
    hide SaveAllowed, OpsOk, ReservedOk, CreditOk, SlotsOk, IdemOk, BoundOk, ArtifactsOk;
    UpdateOps(w, log, r, bind, why);
    UpdateRest(w, log, r, bind, why);
    UpdateArtifacts(w, log, r, bind, why);
    UpdateCredit(w, log, r, bind, why);
    if Steady(w) {
      UpdateReserved(w, log, r, bind, why);
    }
  }

  lemma ReservedFrom(log: History)
    requires forall k, o :: Holds(log, k) && o in Replay(log).ops[k].terms.inputs ==>
               o in Replay(log).reservations && Replay(log).reservations[o] == k.id
    ensures ReservedOk(log)
  {
  }

  // ----------------------------------------------------------------- credit

  lemma {:induction false} CreditRewrites(w: World, log: History, r: Record, outpoint: OutText)
    requires OpsOk(w, log) && ArtifactsOk(Replay(log)) && CreditAllowed(w, log, r, outpoint)
    ensures Rewritten(Replay(log), ApplyCredit(Replay(log), r, outpoint), r.key)
    ensures Loaded(ApplyCredit(Replay(log), r, outpoint), r.key) == Settle(r)
  {
    hide RecordOk;
  }

  lemma {:induction false} CreditOps(w: World, log: History, r: Record, outpoint: OutText)
    requires OpsOk(w, log) && ArtifactsOk(Replay(log)) && CreditAllowed(w, log, r, outpoint)
    ensures OpsOk(w, Then(log, Credited(r, outpoint)))
  {
    hide RecordOk, ArtifactsOk;
    var e := Credited(r, outpoint);
    var db, db' := Replay(log), Replay(Then(log, e));
    CreditRewrites(w, log, r, outpoint);
    CreditKeepsOk(w, log, r, outpoint);
    forall k | k in db'.ops
      ensures db'.ops[k].key == k && RecordOk(w, Then(log, e), Loaded(db', k))
    {
      if k != r.key {
        assert Loaded(db', k) == Loaded(db, k);
      }
      RecordOkGrows(w, log, e, Loaded(db', k));
    }
  }

  /** A receive being credited has not been credited before, so every entry
      that the credit removes belongs to it. */
  lemma {:induction false} CreditRemovesOwn(w: World, log: History, r: Record, outpoint: OutText, o: OutText)
    requires Inv(w, log) && Steady(w) && CreditAllowed(w, log, r, outpoint) && o in r.terms.inputs
    ensures o in Replay(log).reservations && Replay(log).reservations[o] == r.key.id
  {
    hide OpsOk, ArtifactsOk, SlotsOk, IdemOk, BoundOk, CreditOk, Steady;
    assert r.key in Replay(log).ops && Replay(log).ops[r.key].terms == r.terms;
    hide CreditAllowed;
    if r.terms.direction == Receive {
      CreditedFirst(w, log, r, outpoint);
    }
    assert Holds(log, r.key);
  }

  lemma {:induction false} CreditedFirst(w: World, log: History, r: Record, outpoint: OutText)
    requires Inv(w, log) && Steady(w) && CreditAllowed(w, log, r, outpoint) && r.terms.direction == Receive
    ensures !CreditedKey(log, r.key)
  {
    hide OpsOk, ReservedOk, ArtifactsOk, SlotsOk, IdemOk, BoundOk, CreditAllowed, Replay, Loaded, RecordOk;
    CreditFacts(w, log, r, outpoint);
    WaitingIsDecoded(w, log, Loaded(Replay(log), r.key));
  }

  lemma CreditFacts(w: World, log: History, r: Record, outpoint: OutText)
    requires OpsOk(w, log) && CreditAllowed(w, log, r, outpoint)
    ensures r.key in Replay(log).ops && Replay(log).ops[r.key].status == WaitingConfirmations
    ensures var a := Loaded(Replay(log), r.key);
            a.status == WaitingConfirmations && a.terms == r.terms && RecordOk(w, log, a)
  {
    hide RecordOk, Replay;
  }

  lemma WaitingIsDecoded(w: World, log: History, a: Record)
    requires RecordOk(w, log, a) && a.terms.direction == Receive && a.status == WaitingConfirmations
    ensures Receivable(w, a.artifact.proof)
  {
  }

  lemma {:induction false} CreditLeavesOthers(w: World, log: History, r: Record, outpoint: OutText, k: OpKey,
                                              o: OutText)
    requires Inv(w, log) && Steady(w) && CreditAllowed(w, log, r, outpoint) && k != r.key
    requires Holds(log, k) && o in Replay(log).ops[k].terms.inputs
    ensures o in Replay(log).reservations && Replay(log).reservations[o] == k.id
    ensures o !in r.terms.inputs
  {
    hide RecordOk, ArtifactsOk, SlotsOk, IdemOk, BoundOk, CreditOk, CreditAllowed;
    if o in r.terms.inputs {
      CreditRemovesOwn(w, log, r, outpoint, o);
      assert r.key in Replay(log).ops by {
        CreditRewrites(w, log, r, outpoint);
      }
      IdsUnique(Replay(log), k, r.key);
    }
  }

  lemma {:induction false} CreditHolds(w: World, log: History, r: Record, outpoint: OutText, k: OpKey, o: OutText)
    requires Inv(w, log) && Steady(w) && CreditAllowed(w, log, r, outpoint)
    requires Holds(Then(log, Credited(r, outpoint)), k)
    requires o in Replay(Then(log, Credited(r, outpoint))).ops[k].terms.inputs
    ensures var m := Replay(Then(log, Credited(r, outpoint))).reservations; o in m && m[o] == k.id
  {
    hide Inv, CreditAllowed;
    assert Rewritten(Replay(log), Replay(Then(log, Credited(r, outpoint))), r.key) by {
      InvOps(w, log);
      CreditRewrites(w, log, r, outpoint);
    }
    if k != r.key {
      CreditLeavesOthers(w, log, r, outpoint, k, o);
    } else {
      CreditRemovesOwn(w, log, r, outpoint, o);
    }
  }

  lemma {:induction false} InvOps(w: World, log: History)
    requires Inv(w, log)
    ensures OpsOk(w, log) && ArtifactsOk(Replay(log))
  {
    hide OpsOk, ReservedOk, SlotsOk, IdemOk, BoundOk, ArtifactsOk, CreditOk;
  }

  lemma {:induction false} CreditReserved(w: World, log: History, r: Record, outpoint: OutText)
    requires Inv(w, log) && Steady(w) && CreditAllowed(w, log, r, outpoint)
    ensures ReservedOk(Then(log, Credited(r, outpoint)))
  {
    hide Inv, CreditAllowed, Apply, ReservedOk;
    var log' := Then(log, Credited(r, outpoint));
    forall k, o | Holds(log', k) && o in Replay(log').ops[k].terms.inputs
      ensures o in Replay(log').reservations && Replay(log').reservations[o] == k.id
    {
      CreditHolds(w, log, r, outpoint, k, o);
    }
    ReservedFrom(log');
  }

  lemma {:induction false} CreditTables(w: World, log: History, r: Record, outpoint: OutText)
    requires OpsOk(w, log) && ArtifactsOk(Replay(log)) && CreditOk(w, log) && CreditAllowed(w, log, r, outpoint)
    ensures ArtifactsOk(ApplyCredit(Replay(log), r, outpoint)) && CreditOk(w, Then(log, Credited(r, outpoint)))
  {
    hide RecordOk, CreditAllowed;
    CreditRewrites(w, log, r, outpoint);
  }

  lemma {:induction false} CreditKeepsInv(w: World, log: History, r: Record, outpoint: OutText)
    requires Inv(w, log) && CreditAllowed(w, log, r, outpoint)
    ensures Inv(w, Then(log, Credited(r, outpoint)))
  {
    hide OpsOk, ReservedOk, SlotsOk, IdemOk, BoundOk, CreditAllowed, ArtifactsOk, CreditOk;
    var db, db' := Replay(log), Replay(Then(log, Credited(r, outpoint)));
    CreditOps(w, log, r, outpoint);
    if Steady(w) {
      CreditReserved(w, log, r, outpoint);
    }
    CreditTables(w, log, r, outpoint);
    CreditRewrites(w, log, r, outpoint);
    RewriteKeepsSlots(db, db', r.key);
    RewriteKeepsBound(db, db', r.key);
    RewriteKeepsIdem(db, db', r.key, None);
    assert |db'.ops.Keys| == |db.ops.Keys|;
  }

  // --------------------------------------------------------------- creation

  /** A record is added under a new id. */
  ghost predicate Added(w: World, db: Db, r: Record, i: IdemKey, hash: Digest) {
    && BoundOk(db) && CreateOk(w, db, r, i)
    && forall o :: o in r.terms.inputs && o in db.reservations ==> db.reservations[o] == r.key.id
  }

  lemma {:induction false} CreateKeepsBound(w: World, db: Db, r: Record, i: IdemKey, hash: Digest)
    requires Added(w, db, r, i, hash)
    ensures BoundOk(ApplySave(db, r, Some((i, hash)), true))
  {
    var db' := ApplySave(db, r, Some((i, hash)), true);
    forall k | k in db'.ops
      ensures exists j :: BoundBy(db', k, j)
    {
      if k == r.key {
        assert BoundBy(db', k, i);
      } else {
        var j :| BoundBy(db, k, j);
        assert BoundBy(db', k, j);
      }
    }
  }

  lemma {:induction false} CreateAdds(w: World, db: Db, r: Record, i: IdemKey, hash: Digest)
    requires Added(w, db, r, i, hash)
    ensures r.key !in db.ops
    ensures |ApplySave(db, r, Some((i, hash)), true).ops| == |db.ops| + 1
  {
    hide Reserve, Fresh;
    if r.key in db.ops {
      CreateIsNew(w, db, r, i, r.key);
    }
    assert ApplySave(db, r, Some((i, hash)), true).ops.Keys == db.ops.Keys + {r.key};
  }

  lemma {:induction false} CreateKeepsIdem(w: World, db: Db, r: Record, i: IdemKey, hash: Digest)
    requires CreateOk(w, db, r, i) && IdemOk(db) && r.key !in db.ops
    ensures IdemOk(ApplySave(db, r, Some((i, hash)), true))
  {
    hide Reserve, Fresh;
  }

  lemma {:induction false} CreateKeepsSlots(w: World, db: Db, r: Record, i: IdemKey, hash: Digest)
    requires CreateOk(w, db, r, i) && SlotsOk(db) && ArtifactsOk(db) && r.key !in db.ops
    ensures SlotsOk(ApplySave(db, r, Some((i, hash)), true)) && ArtifactsOk(ApplySave(db, r, Some((i, hash)), true))
  {
    hide Reserve, FreshReceive, FreshSend, WellFormedKey;
  }

  lemma {:induction false} CreateClaims(w: World, log: History, r: Record, i: IdemKey, hash: Digest, k: OpKey,
                                        o: OutText)
    requires Added(w, Replay(log), r, i, hash) && ReservedOk(log)
    requires Holds(log, k) && o in Replay(log).ops[k].terms.inputs
    ensures o in Replay(log).reservations && Replay(log).reservations[o] == k.id && o !in r.terms.inputs
  {
    hide Reserve, Fresh, BoundOk;
    CreateIsNew(w, Replay(log), r, i, k);
  }

  lemma ClaimEffect(m: map<OutText, OpId>, r: Record, o: OutText)
    requires r.status != Cancelled
    ensures o in r.terms.inputs ==> o in Reserve(m, r, true) && Reserve(m, r, true)[o] == r.key.id
    ensures o !in r.terms.inputs && o in m ==> o in Reserve(m, r, true) && Reserve(m, r, true)[o] == m[o]
  {
  }

  lemma {:induction false} CreateHolds(w: World, log: History, r: Record, i: IdemKey, hash: Digest, k: OpKey,
                                       o: OutText)
    requires Added(w, Replay(log), r, i, hash) && ReservedOk(log) && r.key !in Replay(log).ops
    requires k == r.key || Holds(log, k)
    requires o in (if k == r.key then r else Replay(log).ops[k]).terms.inputs
    ensures var m := Reserve(Replay(log).reservations, r, true); o in m && m[o] == k.id
  {
    hide ReservedOk, Added, Reserve, Fresh;
    AddedFresh(w, Replay(log), r, i, hash);
    ClaimEffect(Replay(log).reservations, r, o);
    if k != r.key {
      CreateClaims(w, log, r, i, hash, k, o);
    }
  }

  lemma {:induction false} CreateReserved(w: World, log: History, r: Record, i: IdemKey, hash: Digest)
    requires Added(w, Replay(log), r, i, hash) && ReservedOk(log) && r.key !in Replay(log).ops
    ensures ReservedOk(Then(log, Saved(r, Some((i, hash)), true, Create(i.request))))
  {
    hide ReservedOk, Added, Reserve;
    var log' := Then(log, Saved(r, Some((i, hash)), true, Create(i.request)));
    forall k, o | Holds(log', k) && o in Replay(log').ops[k].terms.inputs
      ensures o in Replay(log').reservations && Replay(log').reservations[o] == k.id
    {
      CreateHolds(w, log, r, i, hash, k, o);
    }
    ReservedFrom(log');
  }

  lemma CreateCredit(w: World, log: History, e: Event)
    requires CreditOk(w, log) && e.Saved? && e.record.key !in Replay(log).ops
    ensures CreditOk(w, Then(log, e))
  {
  }

  lemma {:induction false} AddedFresh(w: World, db: Db, r: Record, i: IdemKey, hash: Digest)
    requires Added(w, db, r, i, hash)
    ensures Fresh(w, r) && r.status != Cancelled && |db.ops| < w.maxOperations
  {
    hide BoundOk;
  }

  lemma {:induction false} CreateOps(w: World, log: History, r: Record, i: IdemKey, hash: Digest)
    requires Inv(w, log) && Added(w, Replay(log), r, i, hash) && r.key !in Replay(log).ops
    ensures OpsOk(w, Then(log, Saved(r, Some((i, hash)), true, Create(i.request))))
  {
    hide RecordOk, ReservedOk, SlotsOk, IdemOk, BoundOk, CreditOk, Reserve;
    var e := Saved(r, Some((i, hash)), true, Create(i.request));
    var db, db' := Replay(log), Replay(Then(log, e));
    CreateMakesOk(w, log, r);
    assert Loaded(db', r.key) == r;
    forall k | k in db'.ops
      ensures db'.ops[k].key == k && RecordOk(w, Then(log, e), Loaded(db', k))
    {
      if k != r.key {
        assert Loaded(db', k) == Loaded(db, k);
      }
      RecordOkGrows(w, log, e, Loaded(db', k));
    }
  }

  lemma {:induction false} CreateKeepsInv(w: World, log: History, r: Record, i: IdemKey, hash: Digest)
    requires Inv(w, log) && SaveAllowed(w, log, r, Some((i, hash)), true, Create(i.request))
    ensures Inv(w, Then(log, Saved(r, Some((i, hash)), true, Create(i.request))))
  {
    hide OpsOk, ReservedOk, SlotsOk, IdemOk, BoundOk, ArtifactsOk, CreditOk, CreateOk, Reserve;
    assert Added(w, Replay(log), r, i, hash);
    AddedFresh(w, Replay(log), r, i, hash);
    CreateKeepsBound(w, Replay(log), r, i, hash);
    CreateAdds(w, Replay(log), r, i, hash);
    CreateKeepsIdem(w, Replay(log), r, i, hash);
    CreateKeepsSlots(w, Replay(log), r, i, hash);
    if Steady(w) {
      CreateReserved(w, log, r, i, hash);
    }
    CreateCredit(w, log, Saved(r, Some((i, hash)), true, Create(i.request)));
    CreateOps(w, log, r, i, hash);
  }

  // ------------------------------------------------------------- other events

  lemma {:induction false} AnswerKeepsOps(w: World, log: History, e: Event)
    requires OpsOk(w, log) && !e.Saved? && !e.Credited?
    ensures OpsOk(w, Then(log, e))
  {
    hide RecordOk;
    var db, db' := Replay(log), Replay(Then(log, e));
    forall k | k in db'.ops
      ensures db'.ops[k].key == k && RecordOk(w, Then(log, e), Loaded(db', k))
    {
      assert Loaded(db', k) == Loaded(db, k);
      RecordOkGrows(w, log, e, Loaded(db, k));
    }
  }

  lemma {:induction false} AnswerKeepsHeld(w: World, log: History, e: Event)
    requires CreditOk(w, log) && !e.Saved? && !e.Credited?
    ensures CreditOk(w, Then(log, e)) && (ReservedOk(log) ==> ReservedOk(Then(log, e)))
  {
    forall k | Holds(Then(log, e), k) ensures Holds(log, k) {
    }
  }

  lemma {:induction false} AnswerKeepsTables(db: Db, db': Db)
    requires BoundOk(db) && IdemOk(db) && SlotsOk(db) && ArtifactsOk(db)
    requires db'.ops == db.ops && db'.artifacts == db.artifacts && db'.idem == db.idem
    ensures BoundOk(db') && IdemOk(db') && SlotsOk(db') && ArtifactsOk(db')
  {
    AnswerKeepsBound(db, db');
    hide BoundOk;
  }

  lemma {:induction false} AnswerKeepsBound(db: Db, db': Db)
    requires BoundOk(db) && db'.ops == db.ops && db'.idem == db.idem
    ensures BoundOk(db')
  {
    forall k | k in db'.ops
      ensures exists i :: BoundBy(db', k, i)
    {
      var i :| BoundBy(db, k, i);
      assert BoundBy(db', k, i);
    }
  }

  lemma {:induction false} AnswerKeepsInv(w: World, log: History, e: Event)
    requires Inv(w, log) && !e.Saved? && !e.Credited?
    ensures Inv(w, Then(log, e))
  {
    hide OpsOk, ReservedOk, SlotsOk, IdemOk, BoundOk, ArtifactsOk, CreditOk;
    AnswerKeepsOps(w, log, e);
    AnswerKeepsHeld(w, log, e);
    AnswerKeepsTables(Replay(log), Replay(Then(log, e)));
  }

  /** The invariant holds in every state of every run: whatever the proxy, the
      chain and the clock answer, and wherever the process crashes. */
  lemma {:induction false} LegalKeepsInv(w: World, log: History)
    requires GoodWorld(w) && Legal(w, log)
    ensures Inv(w, log)
  {
    hide SaveAllowed, CreditAllowed, OpsOk, ReservedOk, CreditOk, SlotsOk, IdemOk, BoundOk, ArtifactsOk;
    match log
    case Start => StartInv(w);
    case Then(before, event) =>
      LegalKeepsInv(w, before);
      match event
      case Saved(r, bind, reserve, why) =>
        SavedShape(w, before, r, bind, reserve, why);
        if why.Create? {
          CreateKeepsInv(w, before, r, bind.value.0, bind.value.1);
        } else {
          UpdateKeepsInv(w, before, r, bind, why);
        }
      case Credited(r, outpoint) => CreditKeepsInv(w, before, r, outpoint);
      case _ => AnswerKeepsInv(w, before, event);
  }

  lemma {:induction false} StartInv(w: World)
    ensures Inv(w, Start)
  {
    assert Replay(Start) == Db(map[], map[], map[], map[], map[]);
    EmptyTables(Replay(Start));
    EmptyHeld(w, Start);
    hide *;
  }

  lemma EmptyTables(db: Db)
    requires db.ops == map[] && db.artifacts == map[] && db.idem == map[]
    ensures ArtifactsOk(db) && BoundOk(db) && IdemOk(db) && SlotsOk(db)
  {
  }

  lemma {:induction false} EmptyHeld(w: World, log: History)
    requires log == Start && Replay(log).ops == map[]
    ensures OpsOk(w, log) && ReservedOk(log) && CreditOk(w, log)
  {
    hide RecordOk;
  }

  lemma {:induction false} SavedShape(w: World, log: History, r: Record, bind: Option<(IdemKey, Digest)>,
                                      reserve: bool, why: Step)
    requires SaveAllowed(w, log, r, bind, reserve, why)
    ensures reserve == why.Create?
    ensures why.Create? ==> bind.Some? && why == Create(bind.value.0.request)
  {
    hide CreateOk, StepOk;
  }
}
