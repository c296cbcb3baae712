/** Reservations under the texts of outpoints: when does no text ever belong to two
    operations that hold it? Always if the disk flushes what it commits. Otherwise a
    receive that is credited a second time takes away the entry of another one. */
module ExternalReservations {
  import opened Basics
  import opened ExternalModel
  import opened ExternalHistory
  import opened ExternalInvariants
  import opened ExternalInduction
  import opened ExternalTheorems
  import opened ExternalExpiry
  import opened ExternalDisk

  /** All blind receives were created with texts from `texts`. */
  ghost predicate BlindIn(log: History, texts: iset<OutText>) {
    log.Then? ==>
      && BlindIn(log.before, texts)
      && (log.event.Saved? && log.event.why.Create? && log.event.record.receiveOutpoint.Some? ==>
            log.event.record.receiveOutpoint.value in texts)
  }

  lemma {:induction false} BlindInMore(log: History, a: iset<OutText>, b: iset<OutText>)
    requires BlindIn(log, a) && a <= b
    ensures BlindIn(log, b)
  {
    if log.Then? {
      BlindInMore(log.before, a, b);
    }
  }

  lemma {:induction false} QuietBlind(p: History, h: History, texts: iset<OutText>)
    requires Quiet(p, h) && BlindIn(p, texts)
    ensures BlindIn(h, texts)
    decreases h
  {
    if p != h {
      QuietBlind(p, h.before, texts);
    }
  }

  /** The event that first stores an operation creates it. */
  lemma {:induction false} FirstIsCreate(w: World, log: History, e: Event, k: OpKey)
    requires Legal(w, Then(log, e)) && k !in Replay(log).ops && k in Replay(Then(log, e)).ops
    ensures e.Saved? && e.why.Create? && e.record.key == k && Fresh(w, e.record)
    ensures Replay(Then(log, e)).ops[k].terms == e.record.terms
  {
    hide StepOk, Fresh;
  }

  /** Where the inputs of an operation come from. */
  lemma {:induction false} InputsFrom(w: World, log: History, texts: iset<OutText>, k: OpKey, t: OutText)
    requires GoodWorld(w) && Legal(w, log) && BlindIn(log, texts)
    requires k in Replay(log).ops && t in Replay(log).ops[k].terms.inputs
    ensures t in texts || (Replay(log).ops[k].terms.direction == Send && Canonical(w, t))
  {
    hide Allowed, Apply, Fresh, Canonical;
    if k in Replay(log.before).ops {
      EventMoves(w, log.before, log.event, k);
      InputsFrom(w, log.before, texts, k, t);
    } else {
      FirstIsCreate(w, log.before, log.event, k);
      FreshInputs(w, log.event.record, t);
    }
  }

  lemma {:induction false} FreshInputs(w: World, r: Record, t: OutText)
    requires GoodWorld(w) && Fresh(w, r) && t in r.terms.inputs
    ensures if r.terms.direction == Send then Canonical(w, t) else r.receiveOutpoint == Some(t)
  {
    if r.terms.direction == Send {
      var ins := r.candidate.value.psbt.body.inputs;
      var i :| 0 <= i < |ins| && Spends(w, ins)[i] == t;
      assert t == w.show(ins[i].previous);
    }
  }

  // -------------------------------------------------------- holding a text

  /** No two operations hold the same text. */
  ghost predicate Apart(log: History) {
    forall j, k, o :: Both(log, j, k, o) ==> j == k
  }

  ghost predicate Both(log: History, j: OpKey, k: OpKey, o: OutText) {
    && Holds(log, j) && Holds(log, k)
    && o in Replay(log).ops[j].terms.inputs && o in Replay(log).ops[k].terms.inputs
  }

  /** As long as blind receives use these texts only, no text is ever held twice. */
  ghost predicate AlwaysApart(w: World, texts: iset<OutText>) {
    forall log :: Legal(w, log) && BlindIn(log, texts) ==> Apart(log)
  }

  lemma {:induction false} SteadyIsApart(w: World, log: History)
    requires GoodWorld(w) && Steady(w) && Legal(w, log)
    ensures Apart(log)
  {
    hide Legal, Replay, Holds, Steady;
    forall j, k, o | Both(log, j, k, o)
      ensures j == k
    {
      HoldersAreDisjoint(w, log, j, k, o);
    }
  }

  /** The credit takes no entry away from another operation. */
  ghost predicate NoDrop(log: History, r: Record) {
    r.terms.direction == Receive ==>
      forall k, o :: k != r.key && Holds(log, k) && o in Replay(log).ops[k].terms.inputs ==> o !in r.terms.inputs
  }

  lemma {:induction false} CreditNoDrop(w: World, log: History, r: Record, outpoint: OutText)
    requires OpsOk(w, log) && ArtifactsOk(Replay(log)) && CreditAllowed(w, log, r, outpoint)
    requires ReservedOk(log) && NoDrop(log, r)
    ensures ReservedOk(Then(log, Credited(r, outpoint)))
  {
    var log' := Then(log, Credited(r, outpoint));
    var db, db' := Replay(log), Replay(log');
    hide OpsOk, ArtifactsOk, ReservedOk, NoDrop, CreditAllowed;
    CreditRewrites(w, log, r, outpoint);
    CreditEffect(w, log, r, outpoint);
    hide Replay, Holds;
    forall k, o | Holds(log', k) && o in db'.ops[k].terms.inputs
      ensures o in db'.reservations && db'.reservations[o] == k.id
    {
      StillHeld(log, r, outpoint, k, o);
    }
    ReservedFrom(log');
  }

  lemma CreditEffect(w: World, log: History, r: Record, outpoint: OutText)
    requires CreditAllowed(w, log, r, outpoint)
    ensures r.key in Replay(log).ops && Replay(log).ops[r.key].terms.direction == r.terms.direction
    ensures var db, db' := Replay(log), Replay(Then(log, Credited(r, outpoint)));
            db'.reservations == if r.terms.direction == Receive then db.reservations - InputSet(r) else db.reservations
  {
  }

  lemma {:induction false} StillHeld(log: History, r: Record, outpoint: OutText, k: OpKey, o: OutText)
    requires ReservedOk(log) && NoDrop(log, r) && r.key in Replay(log).ops
    requires Rewritten(Replay(log), Replay(Then(log, Credited(r, outpoint))), r.key)
    requires Holds(Then(log, Credited(r, outpoint)), k)
    requires o in Replay(Then(log, Credited(r, outpoint))).ops[k].terms.inputs
    requires Replay(log).ops[r.key].terms.direction == r.terms.direction
    ensures o in Replay(log).reservations && Replay(log).reservations[o] == k.id
    ensures r.terms.direction == Receive ==> o !in InputSet(r)
  {
    var log' := Then(log, Credited(r, outpoint));
    assert Replay(log').ops[k].terms == Replay(log).ops[k].terms;
    assert k == r.key ==> r.terms.direction == Send;
    assert Holds(log, k);
    hide Replay;
  }

  /** One event, if it is no credit that takes something away. */
  lemma {:induction false} ReservedStep(w: World, log: History, e: Event)
    requires GoodWorld(w) && Legal(w, Then(log, e)) && ReservedOk(log)
    requires e.Credited? ==> NoDrop(log, e.record)
    ensures ReservedOk(Then(log, e))
  {
    hide SaveAllowed, CreditAllowed, PostAllowed, ReservedOk, NoDrop;
    assert Legal(w, log) && Allowed(w, log, e);
    LegalKeepsInv(w, log);
    hide Legal, OpsOk, SlotsOk, IdemOk, BoundOk, CreditOk, ArtifactsOk, Replay;
    match e
    case Saved(r, bind, reserve, why) =>
      SavedShape(w, log, r, bind, reserve, why);
      if why.Create? {
        CreatedReserved(w, log, r, bind.value.0, bind.value.1);
      } else {
        UpdateReserved(w, log, r, bind, why);
      }
    case Credited(r, outpoint) => CreditNoDrop(w, log, r, outpoint);
    case _ => AnswerKeepsHeld(w, log, e);
  }

  lemma {:induction false} CreatedReserved(w: World, log: History, r: Record, i: IdemKey, hash: Digest)
    requires BoundOk(Replay(log)) && ReservedOk(log) && SaveAllowed(w, log, r, Some((i, hash)), true, Create(i.request))
    ensures ReservedOk(Then(log, Saved(r, Some((i, hash)), true, Create(i.request)))) && r.key !in Replay(log).ops
    ensures Added(w, Replay(log), r, i, hash)
  {
    hide ReservedOk, BoundOk, CreateOk;
    assert Added(w, Replay(log), r, i, hash);
    CreateAdds(w, Replay(log), r, i, hash);
    CreateReserved(w, log, r, i, hash);
  }

  /** Without blind receives nothing is ever taken away. */
  lemma {:induction false} NoBlindReserved(w: World, log: History)
    requires GoodWorld(w) && Legal(w, log) && BlindIn(log, iset{})
    ensures ReservedOk(log)
  {
    if log.Start? {
      EmptyHeld(w, log);
    } else {
      NoBlindReserved(w, log.before);
      if log.event.Credited? {
        NoBlindNoDrop(w, log.before, log.event.record, log.event.outpoint);
      }
      ReservedStep(w, log.before, log.event);
    }
  }

  lemma {:induction false} NoBlindNoDrop(w: World, log: History, r: Record, outpoint: OutText)
    requires GoodWorld(w) && Legal(w, Then(log, Credited(r, outpoint))) && BlindIn(log, iset{})
    ensures NoDrop(log, r)
  {
    hide SaveAllowed, PostAllowed;
    assert Legal(w, log) && r.key in Replay(log).ops && Replay(log).ops[r.key].terms == r.terms by {
      assert CreditAllowed(w, log, r, outpoint);
    }
    hide Legal, Replay;
    if r.terms.direction == Receive && r.terms.inputs != [] {
      InputsFrom(w, log, iset{}, r.key, r.terms.inputs[0]);
    }
  }

  lemma {:induction false} OpsGrow(w: World, log: History, e: Event)
    requires GoodWorld(w) && Legal(w, Then(log, e))
    ensures Replay(log).ops.Keys <= Replay(Then(log, e)).ops.Keys
  {
    hide Legal, Replay, Loaded;
    forall k | k in Replay(log).ops.Keys
      ensures k in Replay(Then(log, e)).ops.Keys
    {
      EventMoves(w, log, e, k);
    }
  }

  lemma Fewer(a: set<OpKey>, b: set<OpKey>)
    requires a <= b
    ensures |a| <= |b|
  {
    assert b == a + (b - a);
  }

  lemma AtMostOne(s: set<OpKey>, j: OpKey, k: OpKey)
    requires |s| <= 1 && j in s && k in s
    ensures j == k
  {
    assert |s - {j}| == |s| - 1;
    assert k !in s - {j};
  }

  /** A single operation keeps its entries until it is credited itself. */
  lemma {:induction false} OneIsReserved(w: World, log: History)
    requires GoodWorld(w) && Legal(w, log) && |Replay(log).ops.Keys| <= 1
    ensures ReservedOk(log)
  {
    hide Allowed, Apply, NoDrop, ReservedOk;
    if log.Start? {
      EmptyHeld(w, log);
    } else {
      OpsGrow(w, log.before, log.event);
      Fewer(Replay(log.before).ops.Keys, Replay(log).ops.Keys);
      OneIsReserved(w, log.before);
      if log.event.Credited? {
        AloneNoDrop(w, log.before, log.event.record, log.event.outpoint);
      }
      ReservedStep(w, log.before, log.event);
    }
  }

  lemma {:induction false} AloneNoDrop(w: World, log: History, r: Record, outpoint: OutText)
    requires GoodWorld(w) && Legal(w, Then(log, Credited(r, outpoint))) && |Replay(log).ops.Keys| <= 1
    ensures NoDrop(log, r)
  {
    hide SaveAllowed, PostAllowed;
    assert r.key in Replay(log).ops by {
      assert CreditAllowed(w, log, r, outpoint);
    }
    hide Legal, Replay;
    forall k | k in Replay(log).ops.Keys
      ensures k == r.key
    {
      AtMostOne(Replay(log).ops.Keys, k, r.key);
    }
  }

  /** Two operations are kept apart, whatever the disk does. */
  lemma {:induction false} TwoAreApart(w: World, log: History)
    requires GoodWorld(w) && Legal(w, log) && |Replay(log).ops.Keys| <= 2
    ensures Apart(log)
  {
    hide Allowed, Apply, Both;
    if log.Then? {
      OpsGrow(w, log.before, log.event);
      Fewer(Replay(log.before).ops.Keys, Replay(log).ops.Keys);
      TwoAreApart(w, log.before);
      forall j, k, o | Both(log, j, k, o)
        ensures j == k
      {
        if j != k {
          TwoStep(w, log.before, log.event, j, k, o);
        }
      }
    } else {
      assert forall j, k, o :: !Both(log, j, k, o) by {
        StartHoldsNothing();
      }
    }
  }

  lemma StartHoldsNothing()
    ensures forall j, k, o :: !Both(Start, j, k, o)
  {
  }

  /** What is held twice afterwards was held twice before, or is claimed anew. */
  lemma {:induction false} TwoStep(w: World, log: History, e: Event, j: OpKey, k: OpKey, o: OutText)
    requires GoodWorld(w) && Legal(w, Then(log, e)) && |Replay(Then(log, e)).ops.Keys| <= 2
    requires Both(Then(log, e), j, k, o) && j != k
    ensures Both(log, j, k, o)
  {
    assert Legal(w, log);
    if j in Replay(log).ops && k in Replay(log).ops {
      HeldBefore(w, log, e, j);
      HeldBefore(w, log, e, k);
    } else if j in Replay(log).ops {
      NewIsApart(w, log, e, j, k, o);
    } else if k in Replay(log).ops {
      NewIsApart(w, log, e, k, j, o);
    } else {
      FirstIsCreate(w, log, e, j);
      FirstIsCreate(w, log, e, k);
    }
  }

  lemma {:induction false} HeldBefore(w: World, log: History, e: Event, k: OpKey)
    requires GoodWorld(w) && Legal(w, Then(log, e)) && Holds(Then(log, e), k) && k in Replay(log).ops
    ensures Holds(log, k) && Replay(Then(log, e)).ops[k].terms == Replay(log).ops[k].terms
  {
    EventMoves(w, log, e, k);
    hide Legal, Replay;
  }

  lemma {:induction false} NewIsApart(w: World, log: History, e: Event, j: OpKey, k: OpKey, o: OutText)
    requires GoodWorld(w) && Legal(w, Then(log, e)) && |Replay(Then(log, e)).ops.Keys| <= 2
    requires k !in Replay(log).ops && k in Replay(Then(log, e)).ops
    requires j in Replay(log).ops && Holds(Then(log, e), j) && o in Replay(Then(log, e)).ops[j].terms.inputs
    ensures o !in Replay(Then(log, e)).ops[k].terms.inputs
  {
    hide SaveAllowed, PostAllowed, CreditAllowed, Replay, Fresh, Holds;
    FirstIsCreate(w, log, e, k);
    HeldBefore(w, log, e, j);
    OpsGrow(w, log, e);
    assert Legal(w, log) && SaveAllowed(w, log, e.record, e.bind, e.reserve, e.why);
    hide Legal;
    var keys := Replay(Then(log, e)).ops.Keys;
    Fewer(Replay(log).ops.Keys, keys - {k});
    OneIsReserved(w, log);
    SavedShape(w, log, e.record, e.bind, e.reserve, e.why);
    NewClaims(w, log, e.record, e.bind.value.0, e.bind.value.1, j, o);
  }

  lemma {:induction false} NewClaims(w: World, log: History, r: Record, i: IdemKey, hash: Digest, j: OpKey, o: OutText)
    requires GoodWorld(w) && Legal(w, log) && ReservedOk(log) && Holds(log, j) && o in Replay(log).ops[j].terms.inputs
    requires SaveAllowed(w, log, r, Some((i, hash)), true, Create(i.request))
    ensures o !in r.terms.inputs
  {
    hide Legal, OpsOk, SlotsOk, IdemOk, BoundOk, CreditOk, ArtifactsOk, ReservedOk, SaveAllowed, Replay;
    LegalKeepsInv(w, log);
    CreatedReserved(w, log, r, i, hash);
    CreateClaims(w, log, r, i, hash, j, o);
  }

  // ------------------------------------------------------------- the witness

  function BlindKey(name: string): IdemKey {
    IdemKey("acct", ReceiveKind, name)
  }

  function BlindOp(name: string): OpKey {
    OpKey("acct", OperationId(BlindKey(name)))
  }

  /** A blind receive under the text `t`, expiring at time 10. */
  function BlindInvoice(w: World, asset: Contract, t: OutText, name: string): Record {
    Record(BlindOp(name),
           Terms(Receive, asset, 1, name, w.required, 10, true, None, None, [t]),
           AwaitingTransfer, None, None, DeliveryNotStarted, BroadcastNotStarted, None, 0, Some(t), NoArtifact, None,
           None, Retry(true, 0, 0), false)
  }

  function BlindCreate(w: World, asset: Contract, t: OutText, name: string, hash: Digest): Event {
    Saved(BlindInvoice(w, asset, t, name), Some((BlindKey(name), hash)), true, Create(name))
  }

  lemma BlindOpsDiffer(a: string, b: string)
    requires Identifier(a) && Identifier(b) && a != b
    ensures BlindOp(a) != BlindOp(b)
  {
    assert AccountText("acct");
    if IdemText(BlindKey(a)) == IdemText(BlindKey(b)) {
      IdemTextInjective(BlindKey(a), BlindKey(b));
    }
  }

  ghost predicate Named(db: Db, k: OpKey, names: set<string>) {
    k in db.ops && db.ops[k].terms.recipient in names
  }

  /** A run of at most as many operations as there are names, all under them. */
  ghost predicate Few(w: World, log: History, names: set<string>, t: OutText) {
    && Legal(w, log) && BlindIn(log, iset{t}) && |Replay(log).ops| <= |names|
    && (forall k :: k in Replay(log).ops ==> Named(Replay(log), k, names))
    && (forall i :: i in Replay(log).idem ==> i.request in names)
  }

  lemma {:induction false} FewStart(w: World, t: OutText)
    ensures Few(w, Start, {}, t)
  {
    assert Replay(Start) == EmptyDb;
  }

  lemma {:induction false} InvoiceAllowed(
      w: World, log: History, names: set<string>, asset: Contract, t: OutText, name: string, hash: Digest)
    requires Few(w, log, names, t) && t !in Replay(log).reservations && w.parse(t).Some?
    requires name !in names && |names| < w.maxOperations && Identifier(name)
    ensures SaveAllowed(w, log, BlindInvoice(w, asset, t, name), Some((BlindKey(name), hash)), true, Create(name))
  {
    hide Replay, Legal, BlindIn;
    assert AccountText("acct") && WellFormedKey(BlindKey(name));
    assert Fresh(w, BlindInvoice(w, asset, t, name));
    hide Fresh, WellFormedKey;
    assert BlindKey(name) !in Replay(log).idem;
    assert SlotFree(Replay(log), "acct", name);
  }

  /** Another blind receive is created under the text, which nobody has reserved. */
  lemma {:induction false} AddInvoice(
      w: World, log: History, names: set<string>, asset: Contract, t: OutText, name: string, hash: Digest)
    requires GoodWorld(w) && Few(w, log, names, t) && t !in Replay(log).reservations && w.parse(t).Some?
    requires name !in names && |names| < w.maxOperations && Identifier(name)
    ensures var log', r := Then(log, BlindCreate(w, asset, t, name, hash)), BlindInvoice(w, asset, t, name);
            && Few(w, log', names + {name}, t) && Stores(w, log', r)
            && Replay(log').ops[r.key] == r && !CreditedKey(log', r.key)
    ensures forall k :: k in Replay(log).ops ==>
              k != BlindOp(name) && k in Replay(Then(log, BlindCreate(w, asset, t, name, hash))).ops
              && Loaded(Replay(Then(log, BlindCreate(w, asset, t, name, hash))), k) == Loaded(Replay(log), k)
  {
    var e := BlindCreate(w, asset, t, name, hash);
    InvoiceAllowed(w, log, names, asset, t, name, hash);
    assert Legal(w, log);
    NewInvoice(w, log, asset, t, name, hash);
    InvoiceStored(w, log, names, asset, t, name, hash);
  }

  /** The id is new, so nothing is known of it yet. */
  lemma {:induction false} NewInvoice(w: World, log: History, asset: Contract, t: OutText, name: string, hash: Digest)
    requires GoodWorld(w) && Legal(w, log)
    requires SaveAllowed(w, log, BlindInvoice(w, asset, t, name), Some((BlindKey(name), hash)), true, Create(name))
    ensures BlindOp(name) !in Replay(log).ops && BlindOp(name) !in Replay(log).artifacts
    ensures !CreditedKey(log, BlindOp(name))
  {
    LegalKeepsInv(w, log);
    hide Legal, OpsOk, SlotsOk, IdemOk, BoundOk, ReservedOk, CreateOk, Replay;
    assert Added(w, Replay(log), BlindInvoice(w, asset, t, name), BlindKey(name), hash);
    CreateAdds(w, Replay(log), BlindInvoice(w, asset, t, name), BlindKey(name), hash);
  }

  lemma {:induction false} InvoiceStored(
      w: World, log: History, names: set<string>, asset: Contract, t: OutText, name: string, hash: Digest)
    requires Few(w, log, names, t) && name !in names
    requires SaveAllowed(w, log, BlindInvoice(w, asset, t, name), Some((BlindKey(name), hash)), true, Create(name))
    requires BlindOp(name) !in Replay(log).ops && BlindOp(name) !in Replay(log).artifacts
    requires !CreditedKey(log, BlindOp(name))
    ensures var log', r := Then(log, BlindCreate(w, asset, t, name, hash)), BlindInvoice(w, asset, t, name);
            && Few(w, log', names + {name}, t) && Stores(w, log', r)
            && Replay(log').ops[r.key] == r && !CreditedKey(log', r.key)
    ensures forall k :: k in Replay(log).ops ==>
              k != BlindOp(name) && k in Replay(Then(log, BlindCreate(w, asset, t, name, hash))).ops
              && Loaded(Replay(Then(log, BlindCreate(w, asset, t, name, hash))), k) == Loaded(Replay(log), k)
  {
    var r, e := BlindInvoice(w, asset, t, name), BlindCreate(w, asset, t, name, hash);
    var log' := Then(log, e);
    var db, db' := Replay(log), Replay(log');
    InvoiceTables(w, log, asset, t, name, hash);
    assert r.key == BlindOp(name) && r.terms.recipient == name && r.artifact == NoArtifact && e.record == r;
    assert e.bind == Some((BlindKey(name), hash)) && e.reserve && e.why == Create(name);
    assert BlindKey(name).request == name;
    hide SaveAllowed, Replay, BlindInvoice, BlindCreate, BlindOp, BlindKey;
    InvoiceLegal(w, log, e, t);
    NotCreditedBy(log, e, r.key);
    hide Legal, BlindIn, CreditedKey;
    OneMoreRow(db, db', r);
    OneMoreName(db, db', r, names, name);
    hide Loaded;
  }

  lemma NotCreditedBy(log: History, e: Event, k: OpKey)
    requires !CreditedKey(log, k) && e.Saved?
    ensures !CreditedKey(Then(log, e), k)
  {
  }

  lemma OneMoreRow(db: Db, db': Db, r: Record)
    requires db'.ops == db.ops[r.key := r] && db'.artifacts == db.artifacts
    requires r.key !in db.ops && r.key !in db.artifacts
    ensures r.key in db'.ops && Loaded(db', r.key) == r && |db'.ops| == |db.ops| + 1
    ensures forall k :: k in db.ops ==> k != r.key && k in db'.ops && Loaded(db', k) == Loaded(db, k)
  {
    assert db'.ops.Keys == db.ops.Keys + {r.key};
  }

  lemma OneMoreName(db: Db, db': Db, r: Record, names: set<string>, name: string)
    requires db'.ops == db.ops[r.key := r] && r.terms.recipient == name && name !in names
    requires forall k :: k in db.ops ==> Named(db, k, names)
    ensures forall k :: k in db'.ops ==> Named(db', k, names + {name})
    ensures |names + {name}| == |names| + 1
  {
    forall k | k in db'.ops
      ensures Named(db', k, names + {name})
    {
      assert k != r.key ==> Named(db, k, names);
    }
  }

  lemma InvoiceLegal(w: World, log: History, e: Event, t: OutText)
    requires Legal(w, log) && BlindIn(log, iset{t}) && e.Saved? && e.record.receiveOutpoint == Some(t)
    requires SaveAllowed(w, log, e.record, e.bind, e.reserve, e.why)
    ensures Legal(w, Then(log, e)) && BlindIn(Then(log, e), iset{t})
  {
    hide SaveAllowed;
  }

  lemma {:induction false} InvoiceTables(
      w: World, log: History, asset: Contract, t: OutText, name: string, hash: Digest)
    ensures var db, db' := Replay(log), Replay(Then(log, BlindCreate(w, asset, t, name, hash)));
            var r := BlindInvoice(w, asset, t, name);
            && db'.ops == db.ops[r.key := r] && db'.artifacts == db.artifacts
            && db'.idem == db.idem[BlindKey(name) := Binding(hash, r.key.id)]
    ensures BlindInvoice(w, asset, t, name).receiveOutpoint == Some(t)
  {
  }

  /** Events that create and bind nothing. */
  predicate PlainEvent(e: Event) {
    e.Saved? ==> !e.why.Create? && e.bind.None?
  }

  lemma {:induction false} FewEvent(w: World, log: History, e: Event, names: set<string>, t: OutText)
    requires GoodWorld(w) && Few(w, log, names, t) && Legal(w, Then(log, e)) && PlainEvent(e)
    ensures Few(w, Then(log, e), names, t)
    ensures t !in Replay(log).reservations ==> t !in Replay(Then(log, e)).reservations
  {
    var log' := Then(log, e);
    SameKeys(w, log, e);
    assert BlindIn(log', iset{t});
    hide Legal, BlindIn, Replay;
    forall k | k in Replay(log').ops
      ensures Named(Replay(log'), k, names)
    {
      assert Named(Replay(log), k, names);
      EventMoves(w, log, e, k);
    }
    assert |Replay(log').ops.Keys| == |Replay(log).ops.Keys|;
  }

  lemma {:induction false} SameKeys(w: World, log: History, e: Event)
    requires Legal(w, Then(log, e)) && PlainEvent(e)
    ensures Replay(Then(log, e)).ops.Keys == Replay(log).ops.Keys && Replay(Then(log, e)).idem == Replay(log).idem
    ensures forall o :: o in Replay(Then(log, e)).reservations ==> o in Replay(log).reservations
  {
    LegalAllows(w, log, e);
    hide Legal;
    if e.Credited? {
      CreditStores(w, log, e.record, e.outpoint);
      CreditKeys(Replay(log), e.record, e.outpoint);
    } else if e.Saved? {
      SaveStores(w, log, e);
      SaveKeys(Replay(log), e.record);
    }
    hide Allowed, ApplySave, ApplyCredit;
  }

  lemma SaveKeys(db: Db, r: Record)
    requires r.key in db.ops
    ensures var db' := ApplySave(db, r, None, false);
            db'.ops.Keys == db.ops.Keys && db'.idem == db.idem &&
            forall o :: o in db'.reservations ==> o in db.reservations
  {
  }

  lemma CreditKeys(db: Db, r: Record, outpoint: OutText)
    requires r.key in db.ops
    ensures var db' := ApplyCredit(db, r, outpoint);
            db'.ops.Keys == db.ops.Keys && db'.idem == db.idem &&
            forall o :: o in db'.reservations ==> o in db.reservations
  {
  }

  lemma SaveStores(w: World, log: History, e: Event)
    requires e.Saved? && SaveAllowed(w, log, e.record, e.bind, e.reserve, e.why) && !e.why.Create?
    ensures e.record.key in Replay(log).ops && !e.reserve
  {
    hide Replay, StepOk;
  }

  lemma CreditStores(w: World, log: History, r: Record, outpoint: OutText)
    requires CreditAllowed(w, log, r, outpoint)
    ensures r.key in Replay(log).ops
  {
    hide Replay, Loaded;
  }

  lemma LegalAllows(w: World, log: History, e: Event)
    requires Legal(w, Then(log, e))
    ensures Legal(w, log) && Allowed(w, log, e)
  {
    hide Allowed;
  }

  lemma {:induction false} FewQuiet(w: World, p: History, h: History, names: set<string>, t: OutText)
    requires GoodWorld(w) && Few(w, p, names, t) && Legal(w, h) && Quiet(p, h)
    ensures Few(w, h, names, t)
    decreases h
  {
    hide Few, Allowed;
    if p != h {
      FewQuiet(w, p, h.before, names, t);
      FewEvent(w, h.before, h.event, names, t);
    }
  }

  /** A payment that arrives in time for a blind receive. */
  function PaidInTime(proof: Bytes, txid: Txid): Step {
    Notice(proof, txid, None, 5)
  }

  function Paid(w: World, h: History, r: Record, proof: Bytes, txid: Txid): History {
    Then(FetchRun(h, r.key, proof, txid, None, 5),
         Saved(Change(w, r, PaidInTime(proof, txid)), None, false, PaidInTime(proof, txid)))
  }

  lemma {:induction false} PaidIsStored(
      w: World, h: History, names: set<string>, asset: Contract, t: OutText, name: string, proof: Bytes, txid: Txid)
    requires GoodWorld(w) && Few(w, h, names, t) && Stores(w, h, BlindInvoice(w, asset, t, name))
    requires proof != [] && |proof| <= w.maxProof
    ensures var r := BlindInvoice(w, asset, t, name);
            var b := Change(w, r, PaidInTime(proof, txid));
            && Stores(w, Paid(w, h, r, proof, txid), b) && Few(w, Paid(w, h, r, proof, txid), names, t)
            && b.key == r.key && b.terms == r.terms && b.status == Validating && b.receiveOutpoint == Some(t)
            && b.artifact.proof == proof && b.txid == Some(txid)
  {
    hide Stores, Few, Legal, Replay;
    var r, why := BlindInvoice(w, asset, t, name), PaidInTime(proof, txid);
    var b, h1 := Change(w, r, why), FetchRun(h, r.key, proof, txid, None, 5);
    FetchIsLegal(w, h, r, proof, txid, None, 5);
    assert StepOk(w, h1, r, b, why) && Paid(w, h, r, proof, txid) == Then(h1, Saved(b, None, false, why));
    assert b.key == r.key && b.terms == r.terms && b.status == Validating && b.receiveOutpoint == Some(t);
    assert b.artifact.proof == proof && b.txid == Some(txid);
    hide *;
    ExtendByStep(w, h1, r, b, why);
    StoresLegal(w, h1, r);
    StoresLegal(w, Then(h1, Saved(b, None, false, why)), b);
    FewFetched(w, h, r.key, proof, txid, names, t);
    FewEvent(w, h1, Saved(b, None, false, why), names, t);
  }

  lemma {:induction false} FewFetched(
      w: World, h: History, key: OpKey, proof: Bytes, txid: Txid, names: set<string>, t: OutText)
    requires GoodWorld(w) && Few(w, h, names, t) && Legal(w, FetchRun(h, key, proof, txid, None, 5))
    ensures Few(w, FetchRun(h, key, proof, txid, None, 5), names, t)
  {
    var h3 := FetchRun(h, key, proof, txid, None, 5);
    var h1, h2 := h3.before.before, h3.before;
    assert Legal(w, h2) && Legal(w, h1);
    hide Few, Legal;
    FewEvent(w, h, h1.event, names, t);
    FewEvent(w, h1, h2.event, names, t);
    FewEvent(w, h2, h3.event, names, t);
  }

  lemma StoresLegal(w: World, h: History, a: Record)
    requires Stores(w, h, a)
    ensures Legal(w, h) && a.key in Replay(h).ops
  {
  }

  lemma BlindCarries(w: World, b: Record, tx: Tx)
    requires b.terms.blind && b.receiveOutpoint.Some? && w.parse(b.receiveOutpoint.value).Some?
    ensures Carries(w, b, w.txidOf(tx.body), tx)
  {
  }

  lemma {:induction false} FirstCreated(w: World, asset: Contract, t: OutText, hash: Digest)
    requires GoodWorld(w) && w.parse(t).Some? && w.maxOperations >= 1
    ensures var log := Then(Start, BlindCreate(w, asset, t, "r1", hash));
            Few(w, log, {"r1"}, t) && Stores(w, log, BlindInvoice(w, asset, t, "r1"))
            && !CreditedKey(log, BlindOp("r1"))
  {
    FewStart(w, t);
    assert {} + {"r1"} == {"r1"} && Identifier("r1") && Replay(Start) == EmptyDb;
    assert BlindInvoice(w, asset, t, "r1").key == BlindOp("r1");
    hide Few, Stores, BlindCreate, BlindInvoice, BlindOp, CreditedKey, Identifier;
    AddInvoice(w, Start, {}, asset, t, "r1", hash);
  }

  /** A first blind receive is created, paid and about to be credited. */
  lemma {:induction false} FirstIsPaid(w: World, t: OutText, proof: Bytes, hash: Digest)
      returns (run: History, r: Record, outpoint: OutText)
    requires GoodWorld(w) && w.parse(t).Some? && Receivable(w, proof) && w.maxOperations >= 1
    ensures CanCredit(w, run, r, outpoint) && Few(w, run, {"r1"}, t)
    ensures r.terms.direction == Receive && r.terms.blind && r.terms.inputs == [t] && r.receiveOutpoint == Some(t)
    ensures r.key == BlindOp("r1")
  {
    var asset, tx := w.decode(proof).value.contract, LateCarrier();
    var txid := w.txidOf(tx.body);
    var a := BlindInvoice(w, asset, t, "r1");
    assert a.key == BlindOp("r1") && a.terms.direction == Receive && a.terms.blind && a.terms.inputs == [t];
    assert a.terms.asset == asset && a.terms.required == w.required;
    hide Stores, CreditsNext, Few, Legal, Replay, BlindCreate, Paid, Change, BlindInvoice, BlindOp;
    hide Carries, LateCarrier;
    FirstCreated(w, asset, t, hash);
    var h := Then(Start, BlindCreate(w, asset, t, "r1", hash));
    PaidIsStored(w, h, {"r1"}, asset, t, "r1", proof, txid);
    var h1, b := Paid(w, h, a, proof, txid), Change(w, a, PaidInTime(proof, txid));
    BlindCarries(w, b, tx);
    var credit;
    run, credit := CreditTail(w, h1, b, txid, tx);
    NextCanCredit(w, h1, run, b, credit);
    r, outpoint := credit.record, credit.outpoint;
    CanCreditIsLegal(w, run, r, outpoint);
    FewQuiet(w, h1, run, {"r1"}, t);
  }

  lemma {:induction false} NextCanCredit(w: World, h: History, run: History, b: Record, credit: Event)
    requires GoodWorld(w) && Stores(w, h, b) && b.terms.direction == Receive && b.artifact.proof != []
    requires CreditsNext(w, h, run, b.key, b.artifact.proof, credit)
    ensures credit.Credited? && CanCredit(w, run, credit.record, credit.outpoint) && credit.record.key == b.key
    ensures credit.record.receiveOutpoint == b.receiveOutpoint && credit.record.terms == b.terms
  {
    assert Legal(w, run) && CreditAllowed(w, run, credit.record, credit.outpoint) && Loaded(Replay(h), b.key) == b;
    assert Prefix(h, run) && b.key in Replay(h).ops;
    hide Legal, Replay, Loaded;
    RunKept(w, h, run, b.key);
  }

  /** The credit frees the text of a receive. */
  lemma CreditFrees(w: World, log: History, r: Record, outpoint: OutText, t: OutText)
    requires CanCredit(w, log, r, outpoint) && r.terms.direction == Receive && t in r.terms.inputs
    ensures t !in Replay(Then(log, Credited(r, outpoint))).reservations
  {
    CreditEffect(w, log, r, outpoint);
    hide Replay, Legal;
  }

  /** One more invoice leaves the operation as it is, ready to be credited again. */
  lemma {:induction false} StillCanCredit(w: World, log: History, r: Record, outpoint: OutText, e: Event)
    requires CanCredit(w, log, r, outpoint) && Legal(w, Then(log, e)) && r.key in Replay(Then(log, e)).ops
    requires !e.AckRead?
    requires Loaded(Replay(Then(log, e)), r.key) == Loaded(Replay(log), r.key)
    ensures CanCredit(w, Then(log, e), r, outpoint)
  {
    GroundStays(w, log, e, Loaded(Replay(log), r.key), r, outpoint);
    hide Legal, Replay, Loaded, CreditGround;
  }

  /** The receive is credited, its flush fails and it is reopened; another receive
      reserves the text that the credit freed. */
  lemma {:induction false} SecondReserves(w: World, t: OutText, proof: Bytes, hash: Digest)
      returns (log: History, r: Record, outpoint: OutText)
    requires GoodWorld(w) && !w.flushes && w.parse(t).Some? && Receivable(w, proof) && w.maxOperations >= 2
    ensures CanCredit(w, log, r, outpoint) && Few(w, log, {"r1", "r2"}, t)
    ensures r.terms.direction == Receive && t in r.terms.inputs && r.key == BlindOp("r1")
    ensures BlindOp("r2") in Replay(log).ops && Replay(log).ops[BlindOp("r2")].terms.inputs == [t]
    ensures Replay(log).ops[BlindOp("r2")].terms.direction == Receive && !CreditedKey(log, BlindOp("r2"))
  {
    hide Few, CanCredit, Legal, Replay, Reopened;
    var run;
    run, r, outpoint := FirstIsPaid(w, t, proof, hash);
    ReopenIsLegal(w, run, r, outpoint);
    CanCreditAgain(w, run, r, outpoint);
    ReopenedIs(run, r, outpoint);
    var log1, log2 := Then(run, Credited(r, outpoint)), Reopened(run, r, outpoint);
    CreditFrees(w, run, r, outpoint, t);
    FewEvent(w, run, Credited(r, outpoint), {"r1"}, t);
    FewEvent(w, log1, Saved(r, None, false, Reopen), {"r1"}, t);
    assert {"r1"} + {"r2"} == {"r1", "r2"} && Identifier("r2");
    AddInvoice(w, log2, {"r1"}, "asset", t, "r2", hash);
    var e := BlindCreate(w, "asset", t, "r2", hash);
    log := Then(log2, e);
    FewLegal(w, log, {"r1", "r2"}, t);
    assert BlindInvoice(w, "asset", t, "r2").key == BlindOp("r2");
    StillCanCredit(w, log2, r, outpoint, e);
  }

  lemma FewLegal(w: World, log: History, names: set<string>, t: OutText)
    requires Few(w, log, names, t)
    ensures Legal(w, log) && BlindIn(log, iset{t})
  {
  }

  /** The first is credited again and takes the entry of the second away. */
  lemma {:induction false} SecondLoses(w: World, t: OutText, proof: Bytes, hash: Digest) returns (log: History)
    requires GoodWorld(w) && !w.flushes && w.parse(t).Some? && Receivable(w, proof) && w.maxOperations >= 2
    ensures Few(w, log, {"r1", "r2"}, t) && t !in Replay(log).reservations
    ensures Holds(log, BlindOp("r2")) && t in Replay(log).ops[BlindOp("r2")].terms.inputs
    ensures !CreditedKey(log, BlindOp("r2"))
  {
    hide Few, CanCredit, Legal, Replay, BlindIn, BlindOp, BlindCreate, Loaded;
    var before, r, outpoint := SecondReserves(w, t, proof, hash);
    var e := Credited(r, outpoint);
    log := Then(before, e);
    CreditFrees(w, before, r, outpoint, t);
    CreditIsLegal(w, before, r, outpoint);
    FewEvent(w, before, e, {"r1", "r2"}, t);
    EventMoves(w, before, e, BlindOp("r2"));
    assert Identifier("r1") && Identifier("r2");
    BlindOpsDiffer("r1", "r2");
  }

  /** A third receive reserves the text beside the second. */
  lemma {:induction false} TextIsHeldTwice(w: World, t: OutText, proof: Bytes, hash: Digest)
      returns (log: History, j: OpKey, k: OpKey)
    requires GoodWorld(w) && !w.flushes && w.parse(t).Some? && Receivable(w, proof) && w.maxOperations >= 3
    ensures Legal(w, log) && BlindIn(log, iset{t}) && Both(log, j, k, t) && j != k
  {
    hide Few, CanCredit, Legal, Replay, BlindIn, BlindOp, BlindCreate, Loaded;
    var log4 := SecondLoses(w, t, proof, hash);
    j, k := BlindOp("r2"), BlindOp("r3");
    assert {"r1", "r2"} + {"r3"} == {"r1", "r2", "r3"} && Identifier("r3") && Identifier("r2");
    BlindOpsDiffer("r2", "r3");
    AddInvoice(w, log4, {"r1", "r2"}, "asset", t, "r3", hash);
    log := Then(log4, BlindCreate(w, "asset", t, "r3", hash));
    FewLegal(w, log, {"r1", "r2", "r3"}, t);
    InvoiceIs(w, "asset", t, "r3", hash);
    NotCreditedBy(log4, BlindCreate(w, "asset", t, "r3", hash), j);
    LoadedTerms(Replay(log4), Replay(log), j);
  }

  lemma InvoiceIs(w: World, asset: Contract, t: OutText, name: string, hash: Digest)
    ensures var r, e := BlindInvoice(w, asset, t, name), BlindCreate(w, asset, t, name, hash);
            r.key == BlindOp(name) && r.terms.inputs == [t] && r.terms.direction == Receive && e.Saved? && e.record == r
  {
  }

  lemma LoadedTerms(a: Db, b: Db, k: OpKey)
    requires k in a.ops && k in b.ops && Loaded(a, k) == Loaded(b, k)
    ensures a.ops[k].terms == b.ops[k].terms
  {
  }

  lemma CreditIsLegal(w: World, log: History, r: Record, outpoint: OutText)
    requires CanCredit(w, log, r, outpoint)
    ensures Legal(w, Then(log, Credited(r, outpoint)))
  {
    hide CreditAllowed;
  }

  /** As long as blind receives use these texts only, every operation that holds its
      inputs has them reserved. */
  ghost predicate AlwaysReserved(w: World, texts: iset<OutText>) {
    forall log :: Legal(w, log) && BlindIn(log, texts) ==> ReservedOk(log)
  }

  /** What an operation holds stays reserved for it if and only if no receive can be
      credited twice, or no two operations are admitted, or there is no blind receive. */
  lemma {:induction false} ReservedExactly(w: World, texts: iset<OutText>, hash: Digest)
    requires GoodWorld(w) && forall t :: t in texts ==> w.parse(t).Some?
    ensures AlwaysReserved(w, texts) <==> Steady(w) || w.maxOperations <= 1 || texts == iset{}
  {
    hide Legal, ReservedOk;
    if Steady(w) || w.maxOperations <= 1 || texts == iset{} {
      forall log | Legal(w, log) && BlindIn(log, texts)
        ensures ReservedOk(log)
      {
        IsReserved(w, texts, log);
      }
    } else {
      var t :| t in texts;
      var proof :| Receivable(w, proof);
      var log := SecondLoses(w, t, proof, hash);
      FewLegal(w, log, {"r1", "r2"}, t);
      BlindInMore(log, iset{t}, texts);
      NotReserved(log, BlindOp("r2"), t);
    }
  }

  lemma NotReserved(log: History, k: OpKey, t: OutText)
    requires Holds(log, k) && t in Replay(log).ops[k].terms.inputs && t !in Replay(log).reservations
    ensures !ReservedOk(log)
  {
    hide Replay;
  }

  lemma {:induction false} IsReserved(w: World, texts: iset<OutText>, log: History)
    requires GoodWorld(w) && Legal(w, log) && BlindIn(log, texts)
    requires Steady(w) || w.maxOperations <= 1 || texts == iset{}
    ensures ReservedOk(log)
  {
    hide Legal, BlindIn, Steady, OpsOk, SlotsOk, IdemOk, BoundOk, ReservedOk, CreditOk, ArtifactsOk, Replay;
    if Steady(w) {
      LegalKeepsInv(w, log);
    } else if texts == iset{} {
      NoBlindReserved(w, log);
    } else {
      AdmittedOps(w, log);
      OneIsReserved(w, log);
    }
  }

  /** If two posted sends spend the same outpoint, they hold the same text. */
  lemma {:induction false} PostedShareText(
      w: World, log: History, p: History, j: OpKey, a: Tx, q: History, k: OpKey, b: Tx, m: nat, n: nat)
    requires GoodWorld(w) && Legal(w, log)
    requires Prefix(Then(p, Posted(j, a)), log) && Prefix(Then(q, Posted(k, b)), log)
    requires m < |a.body.inputs| && n < |b.body.inputs|
    requires a.body.inputs[m].previous == b.body.inputs[n].previous
    ensures Both(log, j, k, w.show(a.body.inputs[m].previous))
  {
    hide Legal, Replay;
    PostedSpendsReserved(w, p, j, a, log);
    PostedSpendsReserved(w, q, k, b, log);
    var o := w.show(a.body.inputs[m].previous);
    assert Spends(w, a.body.inputs)[m] == o == Spends(w, b.body.inputs)[n];
  }

  /** The exact condition for any set of texts that blind receives may use: no text is
      ever held by two operations if and only if no receive can be credited twice, or
      fewer than three operations are admitted, or there is no blind receive. */
  lemma {:induction false} ApartExactly(w: World, texts: iset<OutText>, hash: Digest)
    requires GoodWorld(w) && forall t :: t in texts ==> w.parse(t).Some?
    ensures AlwaysApart(w, texts) <==> Steady(w) || w.maxOperations <= 2 || texts == iset{}
  {
    hide Legal, Both, Apart;
    if Steady(w) || w.maxOperations <= 2 || texts == iset{} {
      forall log | Legal(w, log) && BlindIn(log, texts)
        ensures Apart(log)
      {
        IsApart(w, texts, log);
      }
    } else {
      var t :| t in texts;
      var proof :| Receivable(w, proof);
      var log, j, k := TextIsHeldTwice(w, t, proof, hash);
      BlindInMore(log, iset{t}, texts);
      NotApart(log, j, k, t);
    }
  }

  lemma NotApart(log: History, j: OpKey, k: OpKey, o: OutText)
    requires Both(log, j, k, o) && j != k
    ensures !Apart(log)
  {
    hide Both;
  }

  lemma {:induction false} IsApart(w: World, texts: iset<OutText>, log: History)
    requires GoodWorld(w) && Legal(w, log) && BlindIn(log, texts)
    requires Steady(w) || w.maxOperations <= 2 || texts == iset{}
    ensures Apart(log)
  {
    hide Legal, Both, Apart, BlindIn, Steady;
    if Steady(w) {
      SteadyIsApart(w, log);
    } else if texts == iset{} {
      NoBlindReserved(w, log);
      ReservedIsApart(w, log);
    } else {
      AdmittedOps(w, log);
      TwoAreApart(w, log);
    }
  }

  lemma {:induction false} AdmittedOps(w: World, log: History)
    requires GoodWorld(w) && Legal(w, log)
    ensures |Replay(log).ops.Keys| <= w.maxOperations
  {
    hide Legal, OpsOk, SlotsOk, IdemOk, BoundOk, ReservedOk, CreditOk, ArtifactsOk;
    LegalKeepsInv(w, log);
    hide Replay;
    assert |Replay(log).ops.Keys| == |Replay(log).ops|;
  }

  lemma {:induction false} ReservedIsApart(w: World, log: History)
    requires GoodWorld(w) && Legal(w, log) && ReservedOk(log)
    ensures Apart(log)
  {
    hide Legal, Replay;
    forall j, k, o | Both(log, j, k, o)
      ensures j == k
    {
      assert Replay(log).reservations[o] == j.id && Replay(log).reservations[o] == k.id;
      StoredIdsUnique(w, log, j, k);
    }
  }
}
