/** The engine itself: the write transactions, the request handlers and the
    recovery scan, written as the daemon runs them. Answers of the proxy, the
    chain, the clock, the stock and the disk are arbitrary, and the process may
    crash at any of them. Every method extends a legal history. */
module ExternalEngine {
  import opened Basics
  import opened ExternalModel
  import opened ExternalHistory
  import opened ExternalInvariants
  import opened ExternalInduction
  import opened ExternalSchedule
  import opened ExternalTheorems

  /** The checked sum of `advance_receive`: an error exactly on 64-bit overflow. */
  method CheckedTotal(s: seq<Allocation>, contract: Contract) returns (sum: Result<u64>)
    ensures sum.Ok? <==> Total(s, contract) < U64_LIMIT
    ensures sum.Ok? ==> sum.value == Total(s, contract)
    ensures !sum.Crash?
  {
    var n: nat := 0;
    for i := 0 to |s|
      invariant n == Total(s[..i], contract)
      invariant n < U64_LIMIT
    {
      assert s[..i + 1][..i] == s[..i];
      if s[i].contract == contract {
        if n + s[i].amount >= U64_LIMIT {
          TotalGrows(s, i + 1, contract);
          return Err;
        }
        n := n + s[i].amount;
      }
    }
    assert s[..|s|] == s;
    sum := Ok(n);
  }

  lemma {:induction false} TotalGrows(s: seq<Allocation>, n: nat, contract: Contract)
    requires n <= |s|
    ensures Total(s[..n], contract) <= Total(s, contract)
  {
    if n == |s| {
      assert s[..n] == s;
    } else {
      assert s[..|s| - 1][..n] == s[..n];
      TotalGrows(s[..|s| - 1], n, contract);
    }
  }

  /** A call to the proxy, the chain service, the stock or the clock: any answer
      is possible, and so is a failure or a crash. `what` names the call. */
  method Ask<T(0)>(what: string) returns (a: Result<T>) {
    a := *;
  }

  /** An invoice is for a positive amount and expires within seven days. */
  method TermsOpen(amount: u64, expiresAt: nat, now: nat) returns (open: bool)
    ensures open <==> 0 < amount && now < expiresAt <= now + 604800
  {
    open := !(amount == 0 || expiresAt <= now || expiresAt > now + 7 * 86400);
  }

  function Unretryable(r: Record): Record {
    r.(retry := r.retry.(retryable := false))
  }

  function Touch(r: Record, depth: nat): Record {
    r.(confirmations := depth)
  }

  function Taken(r: Record, n: nat): set<OutText>
    requires n <= |r.terms.inputs|
  {
    set o | o in r.terms.inputs[..n]
  }

  lemma TakenNext(r: Record, n: nat)
    requires n < |r.terms.inputs|
    ensures Taken(r, n + 1) == Taken(r, n) + {r.terms.inputs[n]}
  {
  }

  /** The reservation loop of `save`: claim every input, or find one that
      another operation holds. */
  method ClaimInputs(held: map<OutText, OpId>, r: Record) returns (ok: bool, reserved: map<OutText, OpId>)
    ensures ok <==> forall o :: o in r.terms.inputs && o in held ==> held[o] == r.key.id
    ensures ok ==> reserved == held + (map o | o in InputSet(r) :: r.key.id)
  {
    reserved := held;
    var i := 0;
    while i < |r.terms.inputs|
      invariant 0 <= i <= |r.terms.inputs|
      invariant reserved.Keys == held.Keys + Taken(r, i)
      invariant forall o :: o in reserved ==> reserved[o] == if o in Taken(r, i) then r.key.id else held[o]
      invariant forall o :: o in Taken(r, i) && o in held ==> held[o] == r.key.id
    {
      var input := r.terms.inputs[i];
      if input in reserved && reserved[input] != r.key.id {
        return false, reserved;
      }
      TakenNext(r, i);
      reserved := reserved[input := r.key.id];
      i := i + 1;
    }
    assert Taken(r, i) == InputSet(r);
    ok := true;
  }

  /** Everything that was part of the history still is. */
  ghost predicate Grows(a: History, b: History) {
    forall p :: Prefix(p, a) ==> Prefix(p, b)
  }

  /** The record `r` in memory is the stored one. */
  ghost predicate Clean(log: History, r: Record) {
    r.key in Replay(log).ops && Loaded(Replay(log), r.key) == r
  }

  /** The record `r` in memory differs from the stored one by the step `why`. */
  ghost predicate Pending(w: World, log: History, r: Record, why: Step) {
    r.key in Replay(log).ops && !why.Create? && StepOk(w, log, Loaded(Replay(log), r.key), r, why)
  }

  /** The last answer is how deep the carrier of the operation is. */
  ghost predicate Measured(log: History, r: Record) {
    r.txid.Some? && log.Then? && log.event == Confirmed(r.txid.value, r.confirmations)
  }

  /** A pass that ended well: the operation is credited and settled, or its
      carrier was just found not to be deep enough yet. */
  ghost predicate Progressed(log: History, r: Record) {
    || (r.status == Settled && r.terms.required <= r.confirmations && CreditedKey(log, r.key))
    || (r.status == WaitingConfirmations && r.confirmations < r.terms.required && Measured(log, r))
  }

  /** There was nothing to do: the proxy has just answered that it holds nothing for
      the receive, or the send is not signed. */
  ghost predicate Idle(log: History, a: Record) {
    if a.terms.direction == Receive then log.Then? && log.event == SlotRead(a.key, None) else a.signed.None?
  }

  /** The settled operation was just found to be still deep enough. */
  ghost predicate Watched(log: History, a: Record, b: Record) {
    b == a.(retry := b.retry, confirmations := b.confirmations) && b.terms.required <= b.confirmations &&
    Measured(log, b)
  }

  /** At the end of `log` the scan wrote back the operation that was stored as `a`,
      at time `later`. After a failed attempt it is due again after the back-off;
      otherwise it made progress, or there was nothing to do. */
  ghost predicate Tried(log: History, a: Record, later: nat) {
    && log.Then? && log.event.Saved? && log.event.record.key == a.key
    && var b := log.event.record;
    if b.retry.attempts == 0 then
      && b.retry.nextRetryAt == later + 60
      && if a.status == Settled then Watched(log.before, a, b)
         else
           || (b == a.(retry := b.retry) && Idle(log.before, a))
           || (a.status == Preparing && b.status == AwaitingSignature)
           || Progressed(log.before, b)
    else
      && b.retry.attempts == a.retry.attempts + 1 && b.retry.nextRetryAt == later + Backoff(b.retry.attempts)
      && (b.retry.retryable <==> b.status != NeedsReview)
  }

  /** Only the operation `key` differs between the two states. */
  ghost predicate Frame(a: Db, b: Db, key: OpKey) {
    forall k :: k != key && k in a.ops ==> k in b.ops && Loaded(b, k) == Loaded(a, k)
  }

  lemma FrameRefl(db: Db, key: OpKey)
    ensures Frame(db, db, key)
  {
  }

  /** What the two kinds of writes of a record leave on disk. */
  lemma ReplayWrites(log: History)
    ensures forall r, bind, reserve, why ::
              Replay(Then(log, Saved(r, bind, reserve, why))) == ApplySave(Replay(log), r, bind, reserve)
    ensures forall r, outpoint :: Replay(Then(log, Credited(r, outpoint))) == ApplyCredit(Replay(log), r, outpoint)
  {
  }

  lemma SaveFrames(db: Db, r: Record, bind: Option<(IdemKey, Digest)>, reserve: bool)
    ensures Frame(db, ApplySave(db, r, bind, reserve), r.key)
  {
  }

  lemma CreditFrames(db: Db, r: Record, outpoint: OutText)
    ensures Frame(db, ApplyCredit(db, r, outpoint), r.key)
  {
  }

  /** Only the operations in the list differ between the two states. */
  ghost predicate Untouched(a: Db, b: Db, keys: seq<OpKey>) {
    forall k :: k in a.ops && k !in keys ==> k in b.ops && Loaded(b, k) == Loaded(a, k)
  }

  lemma UntouchedStep(a: Db, b: Db, c: Db, keys: seq<OpKey>, i: nat)
    requires i < |keys| && Untouched(a, b, keys[..i]) && Frame(b, c, keys[i])
    ensures Untouched(a, c, keys[..i + 1])
  {
    assert keys[..i + 1] == keys[..i] + [keys[i]];
    hide Loaded;
  }

  lemma UntouchedMore(a: Db, b: Db, keys: seq<OpKey>, i: nat)
    requires i <= |keys| && Untouched(a, b, keys[..i])
    ensures Untouched(a, b, keys)
  {
    hide Loaded;
  }

  /** At some point of `log` the operation that was stored as `a` was tried. */
  ghost predicate WasTried(log: History, a: Record, later: nat) {
    exists p :: Prefix(p, log) && Tried(p, a, later)
  }

  /** Every listed operation that was due when the clock was read before it was
      tried, and written back by the clock read after it. */
  ghost predicate AllTried(log: History, db: Db, due: seq<OpKey>, clock: seq<(nat, nat)>) {
    && |clock| <= |due| && Known(db.ops, due)
    && forall i :: 0 <= i < |clock| && DueAt(Loaded(db, due[i]), clock[i].0) ==>
                   WasTried(log, Loaded(db, due[i]), clock[i].1)
  }

  lemma AllTriedStep(p: History, log: History, db: Db, due: seq<OpKey>, clock: seq<(nat, nat)>, now: nat, later: nat)
    requires AllTried(p, db, due, clock) && Grows(p, log) && |clock| < |due|
    requires DueAt(Loaded(db, due[|clock|]), now) ==> Tried(log, Loaded(db, due[|clock|]), later)
    ensures AllTried(log, db, due, clock + [(now, later)])
  {
    hide Tried, DueAt, Loaded;
    var clock' := clock + [(now, later)];
    forall i | 0 <= i < |clock'| && DueAt(Loaded(db, due[i]), clock'[i].0)
      ensures WasTried(log, Loaded(db, due[i]), clock'[i].1)
    {
      if i < |clock| {
        assert WasTried(p, Loaded(db, due[i]), clock[i].1);
      } else {
        assert Prefix(log, log);
      }
    }
  }

  /** Both are work records of the same operation. */
  ghost predicate SameWork(a: Record, b: Record) {
    a.key == b.key && a.retry.attempts == b.retry.attempts
  }

  lemma CleanIsPending(w: World, log: History, r: Record)
    requires Clean(log, r)
    ensures Pending(w, log, r, Rest)
  {
  }

  lemma TakeStep(w: World, log: History, a: Record, b: Record, why: Step)
    requires Clean(log, a) && a.key == b.key && !why.Create? && StepOk(w, log, a, b, why)
    ensures Pending(w, log, b, why)
  {
    hide StepOk;
  }

  lemma AnswerKeepsWork(w: World, log: History, e: Event, r: Record)
    requires !e.Saved? && !e.Credited?
    ensures Clean(log, r) ==> Clean(Then(log, e), r)
  {
  }

  class Engine {
    const w: World
    var ops: map<OpKey, Record>
    var artifacts: map<OpKey, Artifact>
    var idem: map<IdemKey, Binding>
    var reservations: map<OutText, OpId>
    var utxos: map<(string, OutText), bool>
    ghost var log: History

    function Durable(): Db
      reads this`ops, this`artifacts, this`idem, this`reservations, this`utxos
    {
      Db(ops, artifacts, idem, reservations, utxos)
    }

    ghost predicate Valid()
      reads this
    {
      GoodWorld(w) && Durable() == Replay(log) && Legal(w, log)
    }

    constructor (w: World)
      requires GoodWorld(w)
      ensures Valid() && log == Start && this.w == w
    {
      this.w := w;
      ops, artifacts, idem, reservations, utxos := map[], map[], map[], map[], map[];
      log := Start;
    }

    // ------------------------------------------------------ write transactions

    /** What a caller of `Save` has established; the conflicts that remain are
        found by `Save` itself. */
    ghost predicate SaveReady(r: Record, bind: Option<(IdemKey, Digest)>, reserve: bool, why: Step)
      reads this
    {
      if why.Create? then
        reserve && bind.Some? && bind.value.0.request == why.request && CreateOk(w, Durable(), r, bind.value.0)
      else
        SaveAllowed(w, log, r, bind, reserve, why)
    }

    /** The request id is bound to other parameters or another operation. */
    predicate Conflicts(r: Record, bind: Option<(IdemKey, Digest)>)
      reads this`idem
    {
      bind.Some? && bind.value.0 in idem && idem[bind.value.0] != Binding(bind.value.1, r.key.id)
    }

    /** An input is held by another operation. */
    predicate Contested(r: Record)
      reads this`reservations
    {
      exists o :: o in r.terms.inputs && o in reservations && reservations[o] != r.key.id
    }

    /** `save`: one atomic transaction over all keyspaces. It fails, without
        effect, on a binding to another request, on an input reserved by another
        operation, or on a disk error; a crash, and an error of the flush, may also
        come after the commit. */
    method Save(r: Record, bind: Option<(IdemKey, Digest)>, reserve: bool, ghost why: Step) returns (out: Outcome)
      requires Valid() && (Conflicts(r, bind) || SaveReady(r, bind, reserve, why))
      modifies this
      ensures Valid()
      ensures old(Conflicts(r, bind)) || (reserve && old(Contested(r))) ==> out.Failed? && log == old(log)
      ensures out.Done? ==> log == Then(old(log), Saved(r, bind, reserve, why))
      ensures !out.Done? ==> log == old(log) || log == Then(old(log), Saved(r, bind, reserve, why))
      ensures Frame(old(Durable()), Durable(), r.key)
    {
      hide StepOk, CreateOk, Legal, Frame;
      FrameRefl(Durable(), r.key);
      var bound := idem;
      if bind.Some? {
        if bind.value.0 in bound && bound[bind.value.0] != Binding(bind.value.1, r.key.id) {
          return Failed;
        }
        bound := bound[bind.value.0 := Binding(bind.value.1, r.key.id)];
      }
      var reserved := reservations;
      if reserve {
        var ok;
        ok, reserved := ClaimInputs(reserved, r);
        if !ok {
          return Failed;
        }
      }
      if r.terms.direction == Send && r.status == Cancelled {
        reserved := reserved - (set o | o in InputSet(r) && o in reserved && reserved[o] == r.key.id);
      }
      assert SaveAllowed(w, log, r, bind, reserve, why);
      assert reserved == Reserve(reservations, r, reserve);
      hide SaveAllowed, Reserve;
      out := Commit(r, bind, reserve, why, bound, reserved);
    }

    /** The write itself. */
    method Commit(r: Record, bind: Option<(IdemKey, Digest)>, ghost reserve: bool, ghost why: Step,
                  bound: map<IdemKey, Binding>, reserved: map<OutText, OpId>)
      returns (out: Outcome)
      requires Valid() && SaveAllowed(w, log, r, bind, reserve, why)
      requires bound == if bind.Some? then idem[bind.value.0 := Binding(bind.value.1, r.key.id)] else idem
      requires reserved == Reserve(reservations, r, reserve)
      modifies this
      ensures Valid()
      ensures out.Done? ==> log == Then(old(log), Saved(r, bind, reserve, why))
      ensures !out.Done? ==> log == old(log) || log == Then(old(log), Saved(r, bind, reserve, why))
      ensures Frame(old(Durable()), Durable(), r.key)
    {
      hide SaveAllowed, Reserve, Legal, Frame, Replay;
      FrameRefl(Durable(), r.key);
      ReplayWrites(log);
      var commits: bool := *;
      if !commits {
        var crash: bool := *;
        return if crash then Crashed else Failed;
      }
      SaveFrames(Durable(), r, bind, reserve);
      LegalThen(w, log, Saved(r, bind, reserve, why));
      ghost var next := ApplySave(Durable(), r, bind, reserve);
      assert next.ops == ops[r.key := Stripped(r)] && next.idem == bound && next.reservations == reserved;
      assert next.utxos == utxos;
      assert next.artifacts == if r.artifact != NoArtifact then artifacts[r.key := r.artifact] else artifacts;
      hide ApplySave, Stripped;
      ops, idem, reservations := ops[r.key := Stripped(r)], bound, reserved;
      if r.artifact != NoArtifact {
        artifacts := artifacts[r.key := r.artifact];
      }
      log := Then(log, Saved(r, bind, reserve, why));
      assert Durable() == next;
      out := *;
    }

    /** `credit`: track the received or change output, drop the spent ones,
        release what a receive had reserved, and settle the operation, in one
        transaction. If the flush fails after the commit, the caller is left with a
        record that still waits, over a settled one. */
    method Credit(r: Record, outpoint: OutText) returns (out: Outcome, ghost rest: Step)
      requires Valid() && CreditAllowed(w, log, r, outpoint) && Pending(w, log, r, Rest)
      modifies this
      ensures Valid() && Frame(old(Durable()), Durable(), r.key) && Grows(old(log), log)
      ensures out.Done? ==> log == Then(old(log), Credited(r, outpoint)) && rest == Rest
      ensures !out.Done? ==> log == old(log) || log == Then(old(log), Credited(r, outpoint))
      ensures out.Failed? ==> Pending(w, log, r, rest)
      ensures out.Failed? && w.flushes ==> log == old(log)
    {
      hide CreditAllowed, Legal, Frame, Replay, Pending;
      rest := Rest;
      GrowsRefl(log);
      FrameRefl(Durable(), r.key);
      ReplayWrites(log);
      var commits: bool := *;
      if !commits {
        var crash: bool := *;
        return if crash then Crashed else Failed, rest;
      }
      utxos := utxos - UtxoKeys(r);
      if r.terms.direction == Receive {
        reservations := reservations - InputSet(r);
      }
      utxos := utxos[(r.key.account, outpoint) := true];
      ops := ops[r.key := Stripped(Settle(r))];
      log := Then(log, Credited(r, outpoint));
      CreditFrames(old(Durable()), r, outpoint);
      LegalThen(w, old(log), Credited(r, outpoint));
      GrowsByOne(old(log), log);
      var crash: bool, flushed: bool := *, *;
      out := if crash then Crashed else if flushed || w.flushes then Done else Failed;
      if out.Failed? {
        rest := Reopen;
        ReopenStep(w, old(log), r, outpoint);
      }
    }

    /** `mark_utxo_unconfirmed`: looks under the text that the operation was stored
        with. */
    method MarkUnconfirmed(r: Record) returns (out: Outcome)
      requires Valid()
      modifies this`log, this`utxos
      ensures Valid() && Frame(old(Durable()), Durable(), r.key) && Grows(old(log), log)
      ensures forall x :: Clean(old(log), x) ==> Clean(log, x)
      ensures MarkTarget(w, r).Some? ==> Has(log, MarkTried(r.key.account, MarkTarget(w, r).value))
      ensures MarkTarget(w, r).None? ==> out.Failed?
      ensures out.Done? ==> var o := (r.key.account, MarkTarget(w, r).value); o in utxos ==> !utxos[o]
    {
      var target := MarkTarget(w, r);
      if target.None? {
        return Failed;
      }
      Note(MarkTried(r.key.account, target.value));
      var commits: bool := *;
      if !commits {
        var crash: bool := *;
        return if crash then Crashed else Failed;
      }
      if (r.key.account, target.value) in utxos {
        ghost var before := log;
        utxos := utxos[(r.key.account, target.value) := false];
        log := Then(log, Unconfirmed(r.key.account, target.value));
        forall x ensures Clean(before, x) ==> Clean(log, x) {
          AnswerKeepsWork(w, before, log.event, x);
        }
      }
      out := *;
    }

    /** Record an outside answer. */
    ghost method Note(e: Event)
      requires Valid() && Allowed(w, log, e) && !e.Saved? && !e.Credited? && !e.Unconfirmed?
      modifies this`log
      ensures Valid() && log == Then(old(log), e) && Grows(old(log), log) && Has(log, e)
      ensures forall r :: Clean(old(log), r) ==> Clean(log, r)
    {
      forall r ensures Clean(log, r) ==> Clean(Then(log, e), r) {
        AnswerKeepsWork(w, log, e, r);
      }
      hide Allowed, Clean;
      log := Then(log, e);
    }

    // --------------------------------------------------------- the work record

    /** Save the work record; afterwards it has no pending step. */
    method Write(r: Record, ghost why: Step) returns (out: Outcome, ghost rest: Step)
      requires Valid() && Pending(w, log, r, why)
      modifies this
      ensures Valid() && Grows(old(log), log) && Frame(old(Durable()), Durable(), r.key)
      ensures out.Done? ==> Clean(log, r) && rest == Rest && log == Then(old(log), Saved(r, None, false, why))
      ensures out.Failed? ==> Pending(w, log, r, rest)
    {
      hide Legal, StepOk;
      rest := why;
      assert SaveReady(r, None, false, why);
      out := Save(r, None, false, why);
      if out.Done? || log != old(log) {
        rest := Rest;
        SavedIsClean(w, old(log), r, why);
        CleanIsPending(w, log, r);
      }
    }

    // ------------------------------------------------------------- the chain

    /** `chain_tx`: an answer with the wrong id is an error. */
    method ChainTx(txid: Txid) returns (a: Result<Option<Tx>>)
      requires Valid()
      modifies this`log
      ensures Valid()
      ensures a.Ok? && a.value.Some? ==>
              log == Then(old(log), Seen(txid, a.value.value)) && w.txidOf(a.value.value.body) == txid
      ensures a.Ok? && a.value.None? ==> log == Then(old(log), NotSeen(txid))
      ensures !a.Ok? ==> log == old(log)
      ensures Grows(old(log), log) && forall r :: Clean(old(log), r) ==> Clean(log, r)
    {
      a := Ask<Option<Tx>>("GET /tx/{txid}/hex");
      if a.Ok? && a.value.None? {
        Note(NotSeen(txid));
      } else if a.Ok? {
        if w.txidOf(a.value.value.body) != txid {
          return Err;
        }
        Note(Seen(txid, a.value.value));
      }
    }

    /** `confirmations`: the depth of a transaction, zero while unconfirmed. */
    method Confirmations(txid: Txid) returns (a: Result<nat>)
      requires Valid()
      modifies this`log
      ensures Valid()
      ensures a.Ok? ==> log == Then(old(log), Confirmed(txid, a.value)) && Has(log, Confirmed(txid, a.value))
      ensures !a.Ok? ==> log == old(log)
      ensures Grows(old(log), log) && forall r :: Clean(old(log), r) ==> Clean(log, r)
    {
      a := Ask<nat>("GET /tx/{txid}/status, /blocks/tip/height");
      if a.Ok? {
        Note(Confirmed(txid, a.value));
      }
    }

    /** A call whose answer enters the history as it comes. */
    method AskFor<T(0,!new)>(what: string, ghost answer: T -> Event) returns (a: Result<T>)
      requires Valid() && forall x :: Plain(answer(x))
      modifies this`log
      ensures Valid()
      ensures a.Ok? ==> log == Then(old(log), answer(a.value)) && Has(log, answer(a.value))
      ensures !a.Ok? ==> log == old(log)
      ensures Grows(old(log), log) && forall r :: Clean(old(log), r) ==> Clean(log, r)
    {
      hide Legal, Clean, Replay, Grows;
      GrowsRefl(log);
      a := Ask<T>(what);
      if a.Ok? {
        PlainAllowed(w, log, answer(a.value));
        Note(answer(a.value));
      }
    }

    /** A call that leaves its mark in the history once it has succeeded. */
    method Act(what: string, ghost e: Event) returns (a: Result<bool>)
      requires Valid() && Plain(e)
      modifies this`log
      ensures Valid()
      ensures a.Ok? ==> log == Then(old(log), e) && Has(log, e)
      ensures !a.Ok? ==> log == old(log)
      ensures Grows(old(log), log) && forall r :: Clean(old(log), r) ==> Clean(log, r)
    {
      a := AskFor<bool>(what, (x: bool) => e);
    }

    /** A message to the peer; it is sent even if its reply is lost. */
    method Tell(what: string, ghost e: Event) returns (a: Result<bool>)
      requires Valid() && (e.AckSent? || e.NackSent?) && Allowed(w, log, e)
      modifies this`log
      ensures Valid() && log == Then(old(log), e) && Has(log, e)
      ensures Grows(old(log), log) && forall r :: Clean(old(log), r) ==> Clean(log, r)
    {
      Note(e);
      a := Ask<bool>(what);
    }

    /** A question to the chain, the stock or the signature checks. */
    method AskWhether(question: Question) returns (a: Result<bool>)
      requires Valid()
      modifies this`log
      ensures Valid()
      ensures a.Ok? ==> log == Then(old(log), Answered(question, a.value)) && Has(log, Answered(question, a.value))
      ensures !a.Ok? ==> log == old(log)
      ensures Grows(old(log), log) && forall r :: Clean(old(log), r) ==> Clean(log, r)
    {
      a := AskFor<bool>("a question with a yes or no answer", x => Answered(question, x));
    }

    method ReadClock() returns (now: nat)
      requires Valid()
      modifies this`log
      ensures Valid() && log == Then(old(log), ClockRead(now)) && Has(log, ClockRead(now))
      ensures Grows(old(log), log) && forall r :: Clean(old(log), r) ==> Clean(log, r)
    {
      now := *;
      Note(ClockRead(now));
    }

    /** What the proxy holds for an operation; `None` when its slot is empty. */
    method ReadSlot(key: OpKey) returns (a: Result<Option<Slot>>)
      requires Valid()
      modifies this`log
      ensures Valid()
      ensures a.Ok? ==> log == Then(old(log), SlotRead(key, a.value)) && Has(log, SlotRead(key, a.value))
      ensures !a.Ok? ==> log == old(log)
      ensures Grows(old(log), log) && forall r :: Clean(old(log), r) ==> Clean(log, r)
    {
      a := AskFor<Option<Slot>>("consignment.get", x => SlotRead(key, x));
    }

    /** Which acknowledgement the proxy holds. */
    method ReadAck(key: OpKey) returns (a: Result<Option<bool>>)
      requires Valid()
      modifies this`log
      ensures Valid()
      ensures a.Ok? ==> log == Then(old(log), AckRead(key, a.value)) && LastAck(log, key) == Some(a.value)
      ensures !a.Ok? ==> log == old(log)
      ensures Grows(old(log), log) && forall r :: Clean(old(log), r) ==> Clean(log, r)
    {
      a := AskFor<Option<bool>>("ack.get", x => AckRead(key, x));
    }

    // -------------------------------------------------------------- receives

    /** `reject`: put the receive up for review and tell the peer. It always ends
        in an error. */
    method RejectReceive(ghost stored: Record, r0: Record, ghost mismatch: Mismatch)
      returns (out: Outcome, r: Record, ghost why: Step)
      requires Valid() && Clean(log, stored) && Touched(stored, r0) && r0.terms.direction == Receive
      requires Mismatched(w, log, stored, mismatch)
      modifies this
      ensures Valid() && Grows(old(log), log) && SameWork(r0, r) && Frame(old(Durable()), Durable(), r0.key) &&
              !out.Done?
      ensures out.Failed? ==> Pending(w, log, r, why) && r.status == NeedsReview
    {
      hide Legal, Clean, Pending, Replay, Loaded, Mismatched;
      r := Unretryable(r0.(status := NeedsReview));
      why := Reject(mismatch);
      TakeStep(w, log, stored, r, why);
      hide StepOk;
      why :- Write(r, why);
      var posted := Tell("ack.post false", NackSent(r.key));
      CleanIsPending(w, log, r);
      out := if posted.Crash? then Crashed else Failed;
    }

    /** First part of `advance_receive`: look for a consignment. */
    method FetchProof(r0: Record)
      returns (out: Outcome, r: Record, more: bool, ghost why: Step, slot: Option<Slot>)
      requires Valid() && Clean(log, r0) && r0.terms.direction == Receive && r0.artifact.proof == []
      requires r0.status != NeedsReview && r0.status != Settled
      modifies this
      ensures Valid() && Grows(old(log), log) && SameWork(r0, r) && Frame(old(Durable()), Durable(), r0.key)
      ensures !out.Crashed? ==> Pending(w, log, r, why)
      ensures out.Done? && !more ==> r == r0 && Idle(log, r0)
      ensures !out.Crashed? && log != old(log) ==>
                && Has(log, SlotRead(r0.key, slot))
                && if slot.Some? && slot.value.txid.Some? && slot.value.consignment.Some? &&
                      |slot.value.consignment.value| <= w.maxProof
                   then Some(r.artifact.proof) == slot.value.consignment && r.txid == slot.value.txid
                   else r == r0 && (out.Done? <==> slot.None?)
      ensures out.Done? && more ==> Clean(log, r) && r.status == Validating && r.terms == r0.terms
    {
      hide Legal, Clean, Pending, Replay, Loaded, StepOk, Has;
      r, why, more, slot := r0, Rest, false, None;
      CleanIsPending(w, log, r);
      slot :- ReadSlot(r.key);
      CleanIsPending(w, log, r);
      if slot.None? {
        return Done, r, false, why, slot;
      }
      if slot.value.consignment.None? || |slot.value.consignment.value| > w.maxProof || slot.value.txid.None? {
        return Failed, r, false, why, slot;
      }
      ghost var asked := log;
      var bytes, txid, vout := slot.value.consignment.value, slot.value.txid.value, slot.value.vout;
      var now := ReadClock();
      HasNext(log, SlotRead(r.key, slot));
      Note(Fetched(r.key, bytes, txid, vout, now));
      out, r, more, why := StoreNotice(r0, bytes, txid, vout, now);
      HasStays(asked, log, SlotRead(r0.key, slot));
    }

    /** A consignment was found: keep it, unless the invoice is over. */
    method StoreNotice(r0: Record, bytes: Bytes, txid: Txid, vout: Option<nat>, now: nat)
      returns (out: Outcome, r: Record, more: bool, ghost why: Step)
      requires Valid() && Clean(log, r0) && r0.terms.direction == Receive && r0.artifact.proof == []
      requires r0.status != NeedsReview && r0.status != Settled && |bytes| <= w.maxProof
      requires Has(log, Fetched(r0.key, bytes, txid, vout, now))
      modifies this
      ensures Valid() && Grows(old(log), log) && SameWork(r0, r) && Frame(old(Durable()), Durable(), r0.key)
      ensures !out.Crashed? ==> Pending(w, log, r, why)
      ensures out.Done? ==> more && Clean(log, r) && r.status == Validating && r.terms == r0.terms
      ensures r.artifact.proof == bytes && r.txid == Some(txid)
    {
      hide Legal, Clean, Pending, Replay, Loaded, StepOk, Has;
      GrowsRefl(log);
      r, more, why := r0, false, Notice(bytes, txid, vout, now);
      NoticeStep(w, log, r0, why);
      r := r.(artifact := r.artifact.(proof := bytes), txid := Some(txid));
      if !r.terms.blind {
        if vout.None? {
          return Failed, r, false, why;
        }
        r := r.(receiveOutpoint := Some(w.show(Outpoint(txid, vout.value))));
      }
      if now >= r.terms.expiresAt || r.status == Cancelled {
        r := Unretryable(r.(status := NeedsReview));
        why :- Write(r, why);
        CleanIsPending(w, log, r);
        return Failed, r, false, why;
      }
      r := r.(status := Validating);
      why :- Write(r, why);
      CleanIsPending(w, log, r);
      out, more := Done, true;
    }

    /** The carrier of a consignment: its own copy, or else the chain's. */
    method FindOrFetchCarrier(transfer: Transfer, txid: Txid) returns (a: Result<Tx>)
      requires Valid()
      modifies this`log
      ensures Valid() && Grows(old(log), log)
      ensures a.Ok? ==> w.txidOf(a.value.body) == txid
      ensures var own := FindCarrier(w, transfer.witnesses, txid);
              if own.Some? then a == Ok(own.value) && log == old(log) else a.Ok? ==> Has(log, Seen(txid, a.value))
      ensures forall r :: Clean(old(log), r) ==> Clean(log, r)
    {
      var own := FindCarrier(w, transfer.witnesses, txid);
      if own.Some? {
        return Ok(own.value);
      }
      var found := ChainTx(txid);
      a := match found
        case Ok(tx) => (if tx.Some? then Ok(tx.value) else Err)
        case Err => Err
        case Crash => Crash;
    }

    /** `preview_external_rgb_receive`. */
    method Preview(r: Record, outpoint: Outpoint, candidate: Tx) returns (a: Result<seq<Allocation>>)
      requires Valid()
      modifies this`log
      ensures Valid()
      ensures a.Ok? ==> log == Then(old(log), Previewed(r.key, r.artifact.proof, outpoint, candidate, a.value))
      ensures !a.Ok? ==> log == old(log)
      ensures Grows(old(log), log) && forall r :: Clean(old(log), r) ==> Clean(log, r)
    {
      a := AskFor<seq<Allocation>>("preview_external_rgb_receive",
          x => Previewed(r.key, r.artifact.proof, outpoint, candidate, x));
    }

    /** Where a transfer pays to: an output of the account, or the seal of a blind
        invoice. `Ok(false)` when the proof must be rejected. */
    method CheckTarget(r: Record, outpoint: Outpoint, candidate: Tx) returns (a: Result<bool>, ghost mismatch: Mismatch)
      requires Valid() && r.status == Validating && ReceivesAt(w, r) == Some(outpoint)
      requires r.txid == Some(w.txidOf(candidate.body))
      modifies this`log
      ensures Valid() && Grows(old(log), log) && forall r :: Clean(old(log), r) ==> Clean(log, r)
      ensures a == Ok(true) ==> Targeted(log, r, outpoint, candidate)
      ensures a == Ok(false) ==> Mismatched(w, log, r, mismatch)
    {
      hide Legal, Clean, Replay, ReceivesAt;
      mismatch := WrongSeal;
      if !r.terms.blind {
        mismatch := WrongOutput(candidate);
        var pays := outpoint.vout < |candidate.body.outputs| &&
            candidate.body.outputs[outpoint.vout].script == r.key.account;
        GrowsRefl(log);
        return Ok(pays), mismatch;
      }
      a := AskWhether(OutputUnspent(r.key, outpoint));
      if a != Ok(true) {
        a := if a.Crash? then Crash else Err;
        return;
      }
      a := AskWhether(SealTargeted(r.key, r.artifact.proof));
      if a.Ok? {
        HasNext(log, Answered(OutputUnspent(r.key, outpoint), true));
      }
    }

    /** What the preview of a transfer finds: the amount it would bring for the
        invoiced contract, `None` when the proof must be rejected. */
    method PreviewAmount(r: Record, outpoint: Outpoint, candidate: Tx)
      returns (a: Result<Option<u64>>, ghost mismatch: Mismatch)
      requires Valid() && r.status == Validating && ReceivesAt(w, r) == Some(outpoint)
      requires r.txid == Some(w.txidOf(candidate.body))
      modifies this`log
      ensures Valid() && Grows(old(log), log) && forall r :: Clean(old(log), r) ==> Clean(log, r)
      ensures a.Ok? && a.value.Some? ==>
                && Targeted(log, r, outpoint, candidate)
                && AmountPreviewed(log, r.key, r.artifact.proof, outpoint, candidate, r.terms.asset, a.value.value)
      ensures a.Ok? && a.value != Some(r.terms.amount) ==> Mismatched(w, log, r, mismatch)
    {
      hide Legal, Clean, Replay, ReceivesAt, Targeted;
      var targets;
      targets, mismatch := CheckTarget(r, outpoint, candidate);
      if !targets.Ok? {
        return if targets.Err? then Err else Crash, mismatch;
      }
      if !targets.value {
        return Ok(None), mismatch;
      }
      var allocations := Preview(r, outpoint, candidate);
      if !allocations.Ok? {
        return if allocations.Err? then Err else Crash, mismatch;
      }
      TargetedStays(log.before, log.event, r, outpoint, candidate);
      var amount := CheckedTotal(allocations.value, r.terms.asset);
      mismatch := WrongAmount(candidate, allocations.value);
      a := if amount.Ok? then Ok(Some(amount.value)) else Err;
    }

    /** Second part of `advance_receive`: validate the stored proof. It is put up for
        review only on a mismatch that was found. */
    method ValidateProof(r0: Record) returns (out: Outcome, r: Record, ghost why: Step)
      requires Valid() && Clean(log, r0) && r0.terms.direction == Receive && r0.status == Validating
      requires r0.txid.Some? && ReceivesAt(w, r0).Some?
      modifies this
      ensures Valid() && Grows(old(log), log) && SameWork(r0, r) && Frame(old(Durable()), Durable(), r0.key)
      ensures out.Failed? ==> Pending(w, log, r, why)
      ensures out.Done? ==> Clean(log, r) && r.status == WaitingConfirmations && r.terms == r0.terms
      ensures out.Done? ==> r.txid == r0.txid && r.receiveOutpoint == r0.receiveOutpoint
    {
      hide Legal, Clean, Pending, Replay, Loaded, Mismatched, Targeted, AmountPreviewed, StepOk, Has;
      r, why := r0, Rest;
      CleanIsPending(w, log, r);
      var transfer := w.decode(r.artifact.proof);
      if transfer.None? || transfer.value.contract != r.terms.asset {
        ghost var mismatch := if transfer.None? then Undecodable else WrongContract;
        UnreadableMismatch(w, log, r, mismatch);
        out, r, why := RejectReceive(r, r, mismatch);
        return;
      }
      var found := FindOrFetchCarrier(transfer.value, r.txid.value);
      CleanIsPending(w, log, r);
      if !found.Ok? {
        return if found.Err? then Failed else Crashed, r, why;
      }
      var candidate := found.value;
      var amount, mismatch := PreviewAmount(r, ReceivesAt(w, r).value, candidate);
      CleanIsPending(w, log, r);
      if !amount.Ok? {
        return if amount.Err? then Failed else Crashed, r, why;
      }
      if amount.value != Some(r.terms.amount) {
        out, r, why := RejectReceive(r, r, mismatch);
        return;
      }
      MayValidate(w, log, r, candidate);
      Note(Validated(r.key, r.artifact.proof, r.txid.value, ReceivesAt(w, r).value, r.terms.asset, r.terms.amount,
                     candidate));
      r := r.(candidate := Some(Carrier(candidate)), status := WaitingConfirmations, delivery := DeliveryValidated);
      why := Validate(candidate);
      ValidateStep(w, log, r0, candidate);
      why :- Write(r, why);
      out := Done;
    }

    /** Third part: acknowledge the transfer and see the acknowledgement recorded. */
    method AcknowledgeTransfer(r0: Record) returns (out: Outcome, r: Record, ghost why: Step)
      requires Valid() && Clean(log, r0) && r0.terms.direction == Receive && r0.status == WaitingConfirmations
      modifies this
      ensures Valid() && Grows(old(log), log) && SameWork(r0, r) && Frame(old(Durable()), Durable(), r0.key)
      ensures out.Failed? ==> Pending(w, log, r, why)
      ensures out.Done? ==> Clean(log, r) && r == r0.(acknowledged := Some(true))
    {
      hide Legal, Pending;
      r, why := r0, Rest;
      CleanIsPending(w, log, r);
      var posted := Tell("ack.post true", AckSent(r.key));
      CleanIsPending(w, log, r);
      if !posted.Ok? {
        return if posted.Err? then Failed else Crashed, r, why;
      }
      var ack: Option<bool> :- ReadAck(r.key);
      CleanIsPending(w, log, r);
      if ack != Some(true) {
        return Failed, r, why;
      }
      HasNext(log, AckSent(r.key));
      Note(Acked(r.key));
      hide Clean, Replay;
      r := r.(acknowledged := Some(true));
      why := Acknowledge;
      TakeStep(w, log, r0, r, why);
      why :- Write(r, why);
      out := Done;
    }

    /** Last part: credit the transfer once its carrier is deep enough. */
    method CreditReceive(r0: Record) returns (out: Outcome, r: Record, ghost why: Step)
      requires Valid() && Clean(log, r0) && r0.terms.direction == Receive && r0.status == WaitingConfirmations
      requires r0.txid.Some? && ReceivesAt(w, r0).Some? && r0.acknowledged == Some(true)
      modifies this
      ensures Valid() && Grows(old(log), log) && SameWork(r0, r) && Frame(old(Durable()), Durable(), r0.key)
      ensures !out.Crashed? ==> Pending(w, log, r, why)
      ensures out.Done? ==> Progressed(log, r)
    {
      hide Legal, Clean, Pending, Replay, StepOk, Loaded;
      r, why := r0, Rest;
      CleanIsPending(w, log, r);
      var depth: nat :- Confirmations(r.txid.value);
      r := Touch(r, depth);
      TouchStep(w, log, r0, depth);
      if depth < r.terms.required {
        return Done, r, why;
      }
      var actual: Option<Tx> :- ChainTx(r.txid.value);
      TouchStep(w, log, r0, depth);
      if actual.None? || r.candidate.None? || r.candidate.value.Draft? {
        return Failed, r, why;
      }
      if actual.value.body != r.candidate.value.tx.body {
        out, r, why := RejectReceive(r0, r, WrongCarrier(actual.value));
      } else {
        out, r, why := AcceptAndCredit(r0, depth, actual.value);
      }
    }

    /** The stock accepts the transfer, then the operation is credited. */
    method AcceptAndCredit(r0: Record, depth: nat, ghost actual: Tx) returns (out: Outcome, r: Record, ghost why: Step)
      requires Valid() && Clean(log, r0) && r0.terms.direction == Receive && r0.status == WaitingConfirmations
      requires r0.txid.Some? && ReceivesAt(w, r0).Some? && r0.acknowledged == Some(true) && r0.terms.required <= depth
      requires r0.candidate.Some? && r0.candidate.value.Carrier? && actual.body == r0.candidate.value.tx.body
      requires Has(log, Confirmed(r0.txid.value, depth)) && Has(log, Seen(r0.txid.value, actual))
      modifies this
      ensures Valid() && Grows(old(log), log) && SameWork(r0, r) && Frame(old(Durable()), Durable(), r0.key)
      ensures !out.Crashed? ==> Pending(w, log, r, why)
      ensures out.Done? ==> Progressed(log, r)
    {
      hide Legal, Clean, Pending, Replay, StepOk, CreditAllowed, Loaded, Has;
      r, why := Touch(r0, depth), Rest;
      TouchStep(w, log, r0, depth);
      if r.terms.blind {
        var stored: bool :- Act("store_external_rgb_receive_secret", SecretKept(r.key));
        TouchStep(w, log, r0, depth);
      }
      if w.decode(r.artifact.proof).None? {
        return Failed, r, why;
      }
      ghost var before := log;
      var accepted: bool :- Act("accept_rgb20_transfer_with_chain_source", Accepted(r.key, r.artifact.proof));
      HasStays(old(log), log, Confirmed(r0.txid.value, depth));
      HasStays(old(log), log, Seen(r0.txid.value, actual));
      if r.terms.blind {
        HasStays(before, log, SecretKept(r.key));
      }
      out, r, why := CreditAccepted(r0, depth, actual);
    }

    /** The accepted transfer is credited. */
    method CreditAccepted(r0: Record, depth: nat, ghost actual: Tx) returns (out: Outcome, r: Record, ghost why: Step)
      requires Valid() && Clean(log, r0) && r0.terms.direction == Receive && r0.status == WaitingConfirmations
      requires r0.txid.Some? && ReceivesAt(w, r0).Some? && r0.acknowledged == Some(true) && r0.terms.required <= depth
      requires r0.candidate.Some? && r0.candidate.value.Carrier? && actual.body == r0.candidate.value.tx.body
      requires Has(log, Confirmed(r0.txid.value, depth)) && Has(log, Seen(r0.txid.value, actual))
      requires Has(log, Accepted(r0.key, r0.artifact.proof)) && (r0.terms.blind ==> Has(log, SecretKept(r0.key)))
      modifies this
      ensures Valid() && Grows(old(log), log) && SameWork(r0, r) && Frame(old(Durable()), Durable(), r0.key)
      ensures !out.Crashed? ==> Pending(w, log, r, why)
      ensures out.Done? ==> Progressed(log, r)
    {
      hide Legal, Clean, Pending, Replay, StepOk, CreditAllowed, Loaded, Has;
      r, why := Touch(r0, depth), Rest;
      TouchStep(w, log, r0, depth);
      CreditReady(w, log, r0, depth, actual);
      var text := w.show(ReceivesAt(w, r).value);
      why :- Credit(r, text);
      CreditIsClean(w, log.before, r, text);
      ghost var settled := Settle(r);
      r := Unretryable(r.(status := Settled, broadcast := BroadcastConfirmed));
      why := Close;
      CloseStep(w, log, settled);
      out := Done;
    }

    /** `advance_receive`. */
    method AdvanceReceive(r0: Record) returns (out: Outcome, r: Record, ghost why: Step)
      requires Valid() && Clean(log, r0) && r0.terms.direction == Receive
      requires r0.status != NeedsReview && r0.status != Settled
      modifies this
      ensures Valid() && Grows(old(log), log) && SameWork(r0, r) && Frame(old(Durable()), Durable(), r0.key)
      ensures !out.Crashed? ==> Pending(w, log, r, why)
      ensures out.Done? ==> (r == r0 && Idle(log, r0)) || Progressed(log, r)
    {
      hide Legal, Clean, Pending, Replay, StepOk, Loaded, Has;
      r, why := r0, Rest;
      CleanIsPending(w, log, r);
      if r.artifact.proof == [] {
        var more: bool;
        var slot: Option<Slot>;
        out, r, more, why, slot := FetchProof(r);
        if !out.Done? || !more {
          return;
        }
      }
      out, r, why := ContinueReceive(r);
    }

    /** The rest of `advance_receive`, once there is a proof. */
    method ContinueReceive(r0: Record) returns (out: Outcome, r: Record, ghost why: Step)
      requires Valid() && Clean(log, r0) && r0.terms.direction == Receive
      requires r0.status != NeedsReview && r0.status != Settled && (r0.artifact.proof != [] || r0.status == Validating)
      modifies this
      ensures Valid() && Grows(old(log), log) && SameWork(r0, r) && Frame(old(Durable()), Durable(), r0.key)
      ensures !out.Crashed? ==> Pending(w, log, r, why)
      ensures out.Done? ==> Progressed(log, r)
    {
      hide Legal, Clean, Pending, Replay, StepOk, Loaded, Has;
      r, why := r0, Rest;
      CleanIsPending(w, log, r);
      if r.txid.None? || ReceivesAt(w, r).None? {
        return Failed, r, why;
      }
      OnTheWay(w, log, r);
      if r.status == Validating {
        r, why :- ValidateProof(r);
      }
      if r.acknowledged != Some(true) {
        r, why :- AcknowledgeTransfer(r);
      }
      out, r, why := CreditReceive(r);
    }

    // ----------------------------------------------------------------- sends

    /** `finish_preparation`: build the transfer for the reserved carrier, which
        keeps its inputs; an output commits to the transfer. The artifacts are in
        the record before the last checks are made. */
    method FinishPreparation(r0: Record) returns (out: Outcome, r: Record, ghost why: Step)
      requires Valid() && Clean(log, r0) && r0.terms.direction == Send && r0.status == Preparing
      requires r0.candidate.Some? && r0.candidate.value.Draft?
      modifies this
      ensures Valid() && Grows(old(log), log) && SameWork(r0, r) && Frame(old(Durable()), Durable(), r0.key)
      ensures !out.Crashed? ==> Pending(w, log, r, why)
      ensures out.Done? ==> Clean(log, r) && r.status == AwaitingSignature && r.terms == r0.terms
      ensures out.Done? ==> r.anchor.Some? && r.anchor.value.body.inputs == r0.candidate.value.psbt.body.inputs
      ensures out.Failed? && r.anchor.None? && log != old(log) && log.Then? && log.event.ProofEncoded? ==>
              |r.artifact.proof| > w.maxProof
    {
      hide Legal, Clean, Pending, Replay, Loaded, Has, StepOk;
      r, why := r0, Rest;
      CleanIsPending(w, log, r);
      var outputs: seq<TxOut> :- AskFor<seq<TxOut>>("prepare_external_rgb_transfer", x => Built(r0.key, x));
      ghost var built := log;
      CleanIsPending(w, log, r);
      var psbt: Psbt := r.candidate.value.psbt.(body := r.candidate.value.psbt.body.(outputs := outputs));
      var fascia: Encoding :- AskFor<Encoding>("encode_fascia_bytes", (x: Encoding) => FasciaEncoded(r0.key, x));
      ghost var encoded := log;
      r := r.(artifact := r.artifact.(fascia := fascia));
      why := PrepareFailed(fascia, r.artifact.proof);
      PrepareFailedStep(w, log, r0, fascia, r.artifact.proof);
      var proof: Encoding :-
        AskFor<Encoding>("encode_rgb20_transfer_consignment", (x: Encoding) => ProofEncoded(r0.key, x));
      HasStays(built, log, Built(r.key, outputs));
      HasStays(encoded, log, FasciaEncoded(r.key, fascia));
      out, r, why := StorePrepared(r0, fascia, proof, psbt);
    }

    /** The artifacts are there: the size is checked and the prepared send stored. */
    method StorePrepared(r0: Record, fascia: Encoding, proof: Encoding, psbt: Psbt)
      returns (out: Outcome, r: Record, ghost why: Step)
      requires Valid() && Clean(log, r0) && r0.terms.direction == Send && r0.status == Preparing
      requires r0.candidate.Some? && r0.candidate.value.Draft?
      requires psbt.body.inputs == r0.candidate.value.psbt.body.inputs
      requires Has(log, Built(r0.key, psbt.body.outputs)) && Has(log, FasciaEncoded(r0.key, fascia))
      requires Has(log, ProofEncoded(r0.key, proof))
      modifies this
      ensures Valid() && Grows(old(log), log) && SameWork(r0, r) && Frame(old(Durable()), Durable(), r0.key)
      ensures !out.Crashed? ==> Pending(w, log, r, why)
      ensures out.Done? ==> Clean(log, r) && r.status == AwaitingSignature && r.terms == r0.terms
      ensures out.Done? ==> r.anchor == Some(psbt)
      ensures out.Failed? && r.anchor.None? ==> |r.artifact.proof| > w.maxProof
    {
      hide Legal, Clean, Pending, Replay, Loaded, Has, StepOk;
      r := r0.(artifact := Artifact(fascia, proof));
      why := PrepareFailed(fascia, proof);
      PrepareFailedStep(w, log, r0, fascia, proof);
      if |proof| > w.maxProof {
        return Failed, r, why;
      }
      r := r.(txid := Some(w.txidOf(psbt.body)), candidate := Some(Carrier(Tx(psbt.body, []))), anchor := Some(psbt));
      r := Unretryable(r.(status := AwaitingSignature));
      why := Prepare(fascia, proof, psbt);
      PrepareStep(w, log, r0, fascia, proof, psbt);
      why :- Write(r, why);
      CleanIsPending(w, log, r);
      out := Done;
    }

    /** `upload`: done when the proxy accepts the proof or already has it. */
    method Upload(r: Record) returns (out: Outcome)
      requires Valid() && Clean(log, r) && r.txid.Some? && r.signed.Some?
      modifies this`log
      ensures Valid() && Grows(old(log), log) && Clean(log, r)
      ensures out.Done? ==> Has(log, Uploaded(r.key, r.txid.value, r.artifact.proof))
    {
      hide Legal;
      var accepted: bool :- AskWhether(ProofPosted(r.key, r.txid.value, r.artifact.proof));
      if !accepted {
        var stored: Option<Slot> :- ReadSlot(r.key);
        if stored.None? || stored.value.txid != r.txid || stored.value.consignment != Some(r.artifact.proof) {
          return Failed;
        }
      }
      Note(Uploaded(r.key, r.txid.value, r.artifact.proof));
      out := Done;
    }

    /** `broadcast`: nothing is posted when the chain already has the carrier. */
    method BroadcastTx(r: Record) returns (out: Outcome)
      requires Valid() && Clean(log, r) && r.terms.direction == Send && r.txid.Some?
      requires r.signed.Some? && r.delivery == Delivered && r.broadcast == BroadcastUnknown
      modifies this`log
      ensures Valid() && Grows(old(log), log) && Clean(log, r)
      ensures out.Done? ==> Launched(log, r)
    {
      SignedCarrier(w, log, r);
      hide Legal, Clean, Replay;
      var actual: Option<Tx> :- ChainTx(r.txid.value);
      if actual.Some? {
        if r.candidate.None? || r.candidate.value.Draft? || actual.value.body != r.candidate.value.tx.body {
          return Failed;
        }
        return Done;
      }
      var reply: Txid :- Relay(r);
      out := if reply == r.txid.value then Done else Failed;
    }

    /** Post the signed transaction; the chain service answers with its id. */
    method Relay(r: Record) returns (a: Result<Txid>)
      requires Valid() && Clean(log, r) && r.terms.direction == Send
      requires r.signed.Some? && r.delivery == Delivered && r.broadcast == BroadcastUnknown
      requires r.txid.Some? && log.Then? && log.event == NotSeen(r.txid.value)
      modifies this`log
      ensures Valid() && Grows(old(log), log) && Clean(log, r)
      ensures a.Ok? ==> Has(log, Posted(r.key, r.signed.value)) && Has(log, Relayed(r.key, a.value))
    {
      hide Legal;
      Note(Posted(r.key, r.signed.value));
      ghost var posted := log;
      a := AskFor<Txid>("POST /tx", x => Relayed(r.key, x));
      HasStays(posted, log, Posted(r.key, r.signed.value));
    }

    /** Deliver the proof, then broadcast the transaction, each recorded. */
    method DeliverAndBroadcast(r0: Record) returns (out: Outcome, r: Record, ghost why: Step)
      requires Valid() && Clean(log, r0) && r0.terms.direction == Send && r0.signed.Some? && r0.txid.Some?
      modifies this
      ensures Valid() && Grows(old(log), log) && SameWork(r0, r) && Frame(old(Durable()), Durable(), r0.key)
      ensures !out.Crashed? ==> Pending(w, log, r, why)
      ensures out.Done? ==> Clean(log, r) && why == Rest && r.broadcast == BroadcastDone && r.terms == r0.terms
      ensures out.Done? ==> r.status == r0.status || r.status == WaitingConfirmations
    {
      hide Legal, Clean, Pending, Replay, StepOk, Loaded, Has, Launched;
      r, why := r0, Rest;
      CleanIsPending(w, log, r);
      if r.delivery != Delivered {
        out := Upload(r);
        CleanIsPending(w, log, r);
        if !out.Done? {
          return;
        }
        DeliverStep(w, log, r);
        r, why := r.(delivery := Delivered), Deliver;
        why :- Write(r, why);
        CleanIsPending(w, log, r);
      }
      if r.broadcast != BroadcastDone {
        AttemptStep(w, log, r);
        r, why := r.(broadcast := BroadcastUnknown), Attempt;
        why :- Write(r, why);
        CleanIsPending(w, log, r);
        out := BroadcastTx(r);
        CleanIsPending(w, log, r);
        if !out.Done? {
          return;
        }
        AnnounceStep(w, log, r);
        r, why := r.(broadcast := BroadcastDone, status := WaitingConfirmations), Announce;
        why :- Write(r, why);
        CleanIsPending(w, log, r);
      }
      out := Done;
    }

    /** Whether the stock has taken over the fascia of a send: if not yet, it is staged
        and promoted, and the stock is asked again. */
    method Promote(key: OpKey, txid: Txid) returns (a: Result<bool>)
      requires Valid()
      modifies this`log
      ensures Valid() && Grows(old(log), log) && LastAck(log, key) == LastAck(old(log), key)
      ensures forall r :: Clean(old(log), r) ==> Clean(log, r)
      ensures a == Ok(true) ==> Has(log, Answered(FasciaPromoted(key, txid), true))
      ensures a == Ok(false) ==> log.Then? && log.before.Then? && log.before.event == Staged(key, txid)
    {
      hide Legal, Clean, Replay, Has, Grows;
      a := AskWhether(FasciaPromoted(key, txid));
      if a == Ok(false) {
        ghost var asked := log;
        var staged :=
          Act("stage_sender_fascia, scan_and_promote_confirmed_staged_rgb_stocks", Staged(key, txid));
        if !staged.Ok? {
          return if staged.Err? then Err else Crash;
        }
        assert LastAck(log, key) == LastAck(asked, key);
        GrowsTrans(old(log), asked, log);
        ghost var staging := log;
        a := AskWhether(FasciaPromoted(key, txid));
        GrowsTrans(old(log), staging, log);
      }
    }

    /** The sender's stock takes over the confirmed fascia, then the change output
        is credited. A peer that rejected the payment puts it up for review. */
    method SettleSend(ghost r0: Record, r1: Record) returns (out: Outcome, r: Record, ghost why: Step)
      requires Valid() && Clean(log, r0) && Touched(r0, r1) && r0.terms.direction == Send &&
               r0.status == WaitingConfirmations
      requires r0.txid.Some? && r1.terms.required <= r1.confirmations &&
               Has(log, Confirmed(r0.txid.value, r1.confirmations))
      requires LastAck(log, r0.key) == Some(r1.acknowledged)
      modifies this
      ensures Valid() && Grows(old(log), log) && SameWork(r1, r) && Frame(old(Durable()), Durable(), r0.key)
      ensures !out.Crashed? ==> Pending(w, log, r, why)
      ensures out.Done? ==> r == Settle(r1) && CreditedKey(log, r.key) && r1.acknowledged != Some(false)
      ensures !out.Crashed? && r.status == Settled ==> r1.acknowledged != Some(false)
    {
      hide Legal, Clean, Pending, Replay, StepOk, CreditAllowed, Loaded;
      r, why := r1, Rest;
      TouchedStep(w, log, r0, r);
      var promoted := Promote(r.key, r.txid.value);
      TouchedStep(w, log, r0, r);
      if promoted != Ok(true) || r.terms.changeVout.None? {
        return if promoted.Crash? then Crashed else Failed, r, why;
      }
      HasStays(old(log), log, Confirmed(r0.txid.value, r1.confirmations));
      var outpoint := w.show(Outpoint(r.txid.value, r.terms.changeVout.value));
      SendCreditReady(w, log, r0, r, outpoint);
      why :- Credit(r, outpoint);
      CreditIsClean(w, log.before, r, outpoint);
      r := Settle(r);
      CleanIsPending(w, log, r);
      if r.acknowledged == Some(false) {
        NackStep(w, log, r);
        r, why := r.(status := NeedsReview), Nack;
        return Failed, r, why;
      }
      out := Done;
    }

    /** `advance_send`. */
    method AdvanceSend(r0: Record) returns (out: Outcome, r: Record, ghost why: Step)
      requires Valid() && Clean(log, r0) && r0.terms.direction == Send
      requires r0.status != NeedsReview && r0.status != Settled
      modifies this
      ensures Valid() && Grows(old(log), log) && SameWork(r0, r) && Frame(old(Durable()), Durable(), r0.key)
      ensures !out.Crashed? ==> Pending(w, log, r, why)
      ensures out.Done? ==>
                || (r == r0 && Idle(log, r0)) || (r0.status == Preparing && r.status == AwaitingSignature)
                || Progressed(log, r)
      ensures out.Done? && r.status == Settled ==> r.acknowledged != Some(false)
    {
      hide Legal, Clean, Pending, Replay, StepOk, Loaded;
      r, why := r0, Rest;
      CleanIsPending(w, log, r);
      SignedHasId(w, log, r);
      if r.status == Preparing {
        if r.candidate.None? || r.candidate.value.Carrier? {
          return Failed, r, why;
        }
        var parsed: bool :- Ask<bool>("parse the preparation input and the beneficiary");
        out, r, why := FinishPreparation(r);
        return;
      }
      if r.signed.None? {
        return Done, r, why;
      }
      r, why :- DeliverAndBroadcast(r);
      SignedHasId(w, log, r);
      out, r, why := WatchSend(r);
    }

    /** The rest of `advance_send`: what the peer says, how deep the carrier is and,
        once it is deep enough, settlement. */
    method WatchSend(r0: Record) returns (out: Outcome, r: Record, ghost why: Step)
      requires Valid() && Clean(log, r0) && r0.terms.direction == Send && r0.status == WaitingConfirmations
      requires r0.txid.Some?
      modifies this
      ensures Valid() && Grows(old(log), log) && SameWork(r0, r) && Frame(old(Durable()), Durable(), r0.key)
      ensures !out.Crashed? ==> Pending(w, log, r, why)
      ensures out.Done? ==> Progressed(log, r) && (r.status == Settled ==> r.acknowledged != Some(false))
    {
      hide Legal, Clean, Pending, Replay, StepOk, Loaded;
      r, why := r0, Rest;
      CleanIsPending(w, log, r);
      var ack: Option<bool> :- ReadAck(r.key);
      r := r.(acknowledged := ack);
      TouchedStep(w, log, r0, r);
      var depth: nat :- Confirmations(r.txid.value);
      assert LastAck(log, r.key) == Some(ack);
      r := r.(confirmations := depth);
      TouchedStep(w, log, r0, r);
      if depth < r.terms.required {
        return Done, r, why;
      }
      out, r, why := SettleSend(r0, r);
    }

    // ------------------------------------------------------------------ scan

    /** `advance`: a settled operation is only watched for lost confirmations. */
    method Advance(r0: Record) returns (out: Outcome, r: Record, ghost why: Step)
      requires Valid() && Clean(log, r0) && r0.status != NeedsReview
      modifies this
      ensures Valid() && Grows(old(log), log) && SameWork(r0, r) && Frame(old(Durable()), Durable(), r0.key)
      ensures !out.Crashed? ==> Pending(w, log, r, why)
      ensures out.Done? && r0.status != Settled ==>
                || (r == r0 && Idle(log, r0)) || (r0.status == Preparing && r.status == AwaitingSignature)
                || Progressed(log, r)
      ensures out.Done? && r0.status == Settled ==> Watched(log, r0, r)
      ensures out.Failed? && r0.status == Settled && r != r0 ==>
              && r == Unretryable(Touch(r0, r.confirmations).(status := NeedsReview, quarantine := true))
              && r.confirmations < r.terms.required
      ensures r0.status == Settled && !out.Crashed? && log != old(log) ==>
              r.txid.Some? && Has(log, Confirmed(r.txid.value, r.confirmations)) && (r == r0 ==> out.Done?)
    {
      hide Legal, Clean, Pending, Replay, StepOk, Loaded, Has;
      r, why := r0, Rest;
      if r.status != Settled {
        if r.terms.direction == Receive {
          out, r, why := AdvanceReceive(r);
        } else {
          out, r, why := AdvanceSend(r);
        }
        return;
      }
      out, r, why := WatchSettled(r0);
    }

    /** A settled operation that lost its confirmations is put up for review, its
        account is quarantined and the disk is asked to mark its output. */
    method WatchSettled(r0: Record) returns (out: Outcome, r: Record, ghost why: Step)
      requires Valid() && Clean(log, r0) && r0.status == Settled
      modifies this
      ensures Valid() && Grows(old(log), log) && SameWork(r0, r) && Frame(old(Durable()), Durable(), r0.key)
      ensures !out.Crashed? ==> Pending(w, log, r, why)
      ensures out.Done? ==> Watched(log, r0, r)
      ensures out.Failed? && r != r0 ==>
              && r == Unretryable(Touch(r0, r.confirmations).(status := NeedsReview, quarantine := true))
              && r.confirmations < r.terms.required
      ensures !out.Crashed? && log != old(log) ==>
              r.txid.Some? && Has(log, Confirmed(r.txid.value, r.confirmations)) && (r == r0 ==> out.Done?)
    {
      hide Legal, Clean, Pending, Replay, StepOk, Loaded, Has;
      r, why := r0, Rest;
      CleanIsPending(w, log, r);
      if r.txid.None? {
        return Failed, r, why;
      }
      var depth: nat :- Confirmations(r.txid.value);
      r := Touch(r, depth);
      TouchStep(w, log, r0, depth);
      if depth < r.terms.required {
        r := Unretryable(r.(status := NeedsReview, quarantine := true));
        why := Demote(depth);
        ghost var before := log;
        out := MarkUnconfirmed(r);
        HasStays(before, log, Confirmed(r0.txid.value, depth));
        DemoteStep(w, log, r0, depth);
        return if out.Crashed? then Crashed else Failed, r, why;
      }
      out := Done;
    }

    /** One operation of `scan_operations`: advance it and write it back, also
        when it stopped half way. The clock is read before and after. */
    method ScanOne(key: OpKey) returns (out: Outcome, now: nat, later: nat)
      requires Valid()
      modifies this
      ensures Valid() && Grows(old(log), log) && Frame(old(Durable()), Durable(), key)
      ensures out.Done? ==> key in old(ops)
      ensures out.Done? ==> var a := Loaded(old(Durable()), key);
                            if DueAt(a, now) then Tried(log, a, later) else log == old(log)
    {
      hide Legal, Pending, Replay, StepOk;
      now, later := 0, 0;
      if key !in ops {
        return Failed, now, later;
      }
      var r := Loaded(Durable(), key);
      CleanFromLoad(w, log, key);
      now :- Ask<nat>("clock");
      if r.retry.nextRetryAt > now || r.status == AwaitingSignature || r.status == NeedsReview
         || (r.terms.direction == Send && r.status == Cancelled) {
        return Done, now, later;
      }
      hide Clean;
      ghost var why := Rest;
      out, r, why := Advance(r);
      if out.Crashed? {
        return;
      }
      later :- Ask<nat>("clock");
      var retry := if out.Done? then Retry(r.retry.retryable, later + 60, 0)
                   else Retry(r.status != NeedsReview, later + Backoff(r.retry.attempts + 1), r.retry.attempts + 1);
      RetryStep(w, log, r, retry, why);
      out, why := Write(r.(retry := retry), why);
    }

    /** The keys of the operations, in the order in which the disk lists them. */
    method Keys() returns (order: seq<OpKey>)
      ensures Enumerates(order, ops)
    {
      order := [];
      var rest := ops.Keys;
      while rest != {}
        invariant NoRepeats(order) && forall k :: k in ops <==> k in rest || k in order
        invariant forall k :: k in order ==> k !in rest
        decreases |rest|
      {
        var k :| k in rest;
        NoRepeatsSnoc(order, k);
        order, rest := order + [k], rest - {k};
      }
    }

    /** The snapshot at the start of a scan: what is due, by a clock that is read
        for every operation anew, longest waiting first. */
    method Snapshot() returns (out: Outcome, order: seq<OpKey>, clock: seq<nat>, due: seq<OpKey>)
      ensures out.Done? ==> Agenda(ops, order, clock, due)
    {
      order := Keys();
      clock, due := [], [];
      var found := [];
      for i := 0 to |order|
        invariant |clock| == i && Known(ops, found) && NoRepeats(found)
        invariant forall k :: k in found ==> k in order[..i]
        invariant forall j :: 0 <= j < i ==> (order[j] in found <==> DueAt(ops[order[j]], clock[j]))
      {
        var now: nat :- Ask<nat>("clock");
        if DueAt(ops[order[i]], now) {
          NoRepeatsSnoc(found, order[i]);
          found := found + [order[i]];
        }
        clock := clock + [now];
      }
      due := Sorted(ops, found);
      SortedIsByTime(ops, found);
      SameElements(found, due);
      out := Done;
    }

    /** The rest of a scan: the first 32 operations of a list are tried one by one,
        each if it is still due. */
    method ScanAll(due: seq<OpKey>) returns (out: Outcome, clock: seq<(nat, nat)>)
      requires Valid() && NoRepeats(due) && Known(ops, due)
      modifies this
      ensures Valid() && Grows(old(log), log) && Untouched(old(Durable()), Durable(), due)
      ensures out.Done? ==> |clock| == if |due| < SCAN_LIMIT then |due| else SCAN_LIMIT
      ensures out.Done? ==> AllTried(log, old(Durable()), due, clock)
      ensures out.Done? ==> Untouched(old(Durable()), Durable(), due[..|clock|])
    {
      hide Legal, Replay, Loaded, DueAt, Tried, Frame;
      clock := [];
      GrowsRefl(log);
      ghost var start := Durable();
      while |clock| < |due| && |clock| < SCAN_LIMIT
        invariant |clock| <= |due| && |clock| <= SCAN_LIMIT
        invariant Valid() && Grows(old(log), log)
        invariant AllTried(log, start, due, clock) && Untouched(start, Durable(), due[..|clock|])
      {
        ghost var before, db := log, Durable();
        var now, later;
        out, now, later := ScanOne(due[|clock|]);
        UntouchedStep(start, db, Durable(), due, |clock|);
        if !out.Done? {
          UntouchedMore(start, Durable(), due, |clock| + 1);
          return;
        }
        AllTriedStep(before, log, start, due, clock, now, later);
        clock := clock + [(now, later)];
      }
      UntouchedMore(start, Durable(), due, |clock|);
      out := Done;
    }

    /** `scan_operations`: everything found due is tried, longest waiting first and
        at most 32 of it, and nothing else changes. */
    method Scan() returns (out: Outcome, order: seq<OpKey>, first: seq<nat>, due: seq<OpKey>, clock: seq<(nat, nat)>)
      requires Valid()
      modifies this
      ensures Valid() && Grows(old(log), log) && Untouched(old(Durable()), Durable(), due)
      ensures out.Done? ==> Agenda(old(ops), order, first, due)
      ensures out.Done? ==> |clock| == if |due| < SCAN_LIMIT then |due| else SCAN_LIMIT
      ensures out.Done? ==> AllTried(log, old(Durable()), due, clock)
      ensures out.Done? ==> Untouched(old(Durable()), Durable(), due[..|clock|])
    {
      hide Legal, Replay, Loaded, DueAt, Tried;
      clock := [];
      GrowsRefl(log);
      out, order, first, due := Snapshot();
      if !out.Done? {
        return;
      }
      out, clock := ScanAll(due);
    }

    // -------------------------------------------------------------- requests

    /** `replay`: what an earlier request with the same id decided. `None` means
        that the id is new. */
    method Recall(key: IdemKey, hash: Digest) returns (a: Result<Option<Record>>)
      requires Valid()
      ensures !a.Crash?
      ensures a == Ok(None) <==> AccountText(key.account) && Identifier(key.request) && key !in idem
      ensures a.Ok? && a.value.Some? ==>
                && key in idem && idem[key].hash == hash
                && OpKey(key.account, idem[key].id) in ops
                && Clean(log, a.value.value) && Replied(log, key, hash, a.value.value)
      ensures key in idem ==> (a.Ok? <==> idem[key].hash == hash)
    {
      hide Legal;
      if key in idem {
        BoundOperationExists(w, log, key);
      }
      if !AccountText(key.account) || !Identifier(key.request) {
        return Err;
      }
      if key !in idem {
        return Ok(None);
      }
      if idem[key].hash != hash {
        return Err;
      }
      CleanFromLoad(w, log, OpKey(key.account, idem[key].id));
      a := Ok(Some(Loaded(Durable(), OpKey(key.account, idem[key].id))));
    }

    /** `Receive`: issue an invoice and reserve the blinded outpoint. */
    method ReceiveRequest(account: string, request: string, hash: Digest, asset: Contract, amount: u64, expiresAt: nat,
                          blind: Option<OutText>)
      returns (out: Outcome, view: Option<Record>, now: nat)
      requires Valid()
      modifies this
      ensures Valid() && Grows(old(log), log)
      ensures out.Done? <==> view.Some?
      ensures view.Some? ==> Replied(log, IdemKey(account, ReceiveKind, request), hash, view.value)
      ensures view.Some? && IdemKey(account, ReceiveKind, request) !in old(idem) ==>
                && Clean(log, view.value) && view.value.status == AwaitingTransfer
                && view.value.receiveOutpoint == blind
                && view.value.terms.asset == asset && view.value.terms.amount == amount
                && view.value.terms.expiresAt == expiresAt
                && amount > 0 && Has(log, ClockRead(now)) && now < expiresAt <= now + 7 * 86400
                && Invited(w, log, account, blind)
                && Has(log, Invoiced(view.value.key, view.value.terms.recipient))
      ensures IdemKey(account, ReceiveKind, request) in old(idem) ==>
              Repeated(old(log), log, IdemKey(account, ReceiveKind, request), hash, view)
    {
      hide Legal, Replay, Grows, Has, Invited;
      view, now := None, 0;
      var key := IdemKey(account, ReceiveKind, request);
      GrowsRefl(log);
      var earlier: Option<Record> :- Recall(key, hash);
      if earlier.Some? {
        return Done, earlier, now;
      }
      now := ReadClock();
      var open := TermsOpen(amount, expiresAt, now);
      if !open {
        return Failed, None, now;
      }
      ghost var before := log;
      var r;
      out, r := IssueInvoice(key, hash, asset, amount, expiresAt, blind);
      GrowsTrans(old(log), before, log);
      if out.Done? {
        HasStays(before, log, ClockRead(now));
        view := Some(r);
      }
    }

    /** Second half of `Receive`: store the invoice under a free proxy slot and
        reserve the blinded outpoint. */
    method IssueInvoice(key: IdemKey, hash: Digest, asset: Contract, amount: u64, expiresAt: nat,
                        blind: Option<OutText>)
      returns (out: Outcome, r: Record)
      requires Valid() && WellFormedKey(key) && key.kind == ReceiveKind && key !in idem
      modifies this
      ensures Valid() && Grows(old(log), log)
      ensures out.Done? ==> Clean(log, r) && Replied(log, key, hash, r) && r.status == AwaitingTransfer
      ensures out.Done? ==>
              r.receiveOutpoint == blind && r.terms.asset == asset && r.terms.amount == amount &&
                  r.terms.expiresAt == expiresAt
      ensures out.Done? ==> Invited(w, log, key.account, blind) && Has(log, Invoiced(r.key, r.terms.recipient))
    {
      hide Legal, Replay, Clean, Replied, Invited, Has;
      GrowsRefl(log);
      r := NewRecord(w, key, Terms(Receive, asset, amount, "", w.required, expiresAt, blind.Some?, None, None,
                                   if blind.Some? then [blind.value] else []))
           .(receiveOutpoint := blind);
      if blind.Some? {
        if w.parse(blind.value).None? {
          return Failed, r;
        }
        var usable: bool :- AskWhether(OutpointUsable(key.account, w.parse(blind.value).value));
        if !usable {
          return Failed, r;
        }
      }
      ghost var checked := log;
      var recipient: string :- AskFor<string>("beneficiary of the new invoice",
          x => Invoiced(OpKey(key.account, OperationId(key)), x));
      ghost var invoiced := log;
      var legacy: bool :- AskWhether(LegacyPending(key.account));
      if !SlotFree(Durable(), key.account, recipient) || |ops| >= w.maxOperations || legacy {
        return Failed, r;
      }
      ghost var before := log;
      InvitedBy(w, checked, before, key.account, blind);
      r := r.(terms := r.terms.(recipient := recipient));
      out := Save(r, Some((key, hash)), true, Create(key.request));
      GrowsByOne(before, log);
      if out.Done? {
        SaveReplies(log, key, hash);
        NewIsClean(w, log.before, r, key, hash);
        InvitedStays(w, before, log, key.account, blind);
        HasStays(invoiced, log, Invoiced(r.key, recipient));
      }
    }

    /** What the stock says about the inputs of a carrier: which of them hold RGB
        state. All of those must be tracked, and confirmed. */
    method CheckInputs(key: OpKey, terms: Terms, psbt: Psbt) returns (a: Result<bool>, holding: seq<Outpoint>)
      requires Valid()
      modifies this`log
      ensures Valid() && Grows(old(log), log)
      ensures a == Ok(true) ==> Vetted(w, log, old(Durable()), key, terms, psbt, holding)
    {
      hide Legal, Clean, Replay, Has, Grows;
      holding := [];
      GrowsRefl(log);
      a := AskWhether(CarrierFits(key, terms, psbt));
      if a != Ok(true) {
        return;
      }
      ghost var asked := log;
      var found := AskFor<seq<Outpoint>>("list_rgb20_assets_for_utxos", x => RgbInputs(key, x));
      if !found.Ok? {
        return if found.Err? then Err else Crash, holding;
      }
      holding := found.value;
      GrowsTrans(old(log), asked, log);
      HasNext(log, Answered(CarrierFits(key, terms, psbt), true));
      if exists o | o in holding :: !((key.account, w.show(o)) in utxos && utxos[(key.account, w.show(o))]) {
        return Ok(false), holding;
      }
      ghost var before := log;
      var legacy := AskWhether(LegacyPending(key.account));
      GrowsTrans(old(log), before, log);
      if !legacy.Ok? {
        return if legacy.Err? then Err else Crash, holding;
      }
      HasNext(log, Answered(CarrierFits(key, terms, psbt), true));
      HasNext(log, RgbInputs(key, holding));
      a := Ok(!legacy.value);
    }

    /** First half of `Prepare`: reserve the inputs of the caller's carrier. */
    method ReserveCarrier(key: IdemKey, hash: Digest, psbt: Psbt, asset: Contract, amount: u64, recipient: string,
                          expiresAt: nat, recipientVout: Option<nat>, changeVout: nat)
      returns (out: Outcome, r: Record, holding: seq<Outpoint>)
      requires Valid() && WellFormedKey(key) && key.kind == PrepareKind && key !in idem
      requires Unquarantined(Durable(), key.account)
      modifies this
      ensures Valid() && Grows(old(log), log)
      ensures out.Done? ==>
              Clean(log, r) && Replied(log, key, hash, r) && r.terms.direction == Send && r.status == Preparing
      ensures out.Done? ==> r.candidate == Some(Draft(psbt)) && r.key == OpKey(key.account, OperationId(key))
      ensures out.Done? ==> Requested(w, r.terms, psbt, asset, amount, recipient, expiresAt, recipientVout, changeVout)
      ensures out.Done? ==> Vetted(w, log, old(Durable()), r.key, r.terms, psbt, holding)
    {
      hide Legal, Replay, Clean, Replied, Grows, Vetted;
      var inputs := Spends(w, psbt.body.inputs);
      r := NewRecord(w, key, Terms(Send, asset, amount, recipient, w.required, expiresAt, false, recipientVout,
                                   Some(changeVout), inputs))
           .(candidate := Some(Draft(psbt)));
      GrowsRefl(log);
      var valid;
      valid, holding := CheckInputs(r.key, r.terms, psbt);
      if !valid.Ok? {
        return if valid.Err? then Failed else Crashed, r, holding;
      }
      if !valid.value || !(forall i, j :: 0 <= i < j < |inputs| ==> inputs[i] != inputs[j]) ||
          |ops| >= w.maxOperations {
        return Failed, r, holding;
      }
      ghost var before := log;
      out := Save(r, Some((key, hash)), true, Create(key.request));
      GrowsByOne(before, log);
      GrowsTrans(old(log), before, log);
      if out.Done? {
        SaveReplies(log, key, hash);
        NewIsClean(w, log.before, r, key, hash);
        VettedStays(w, before, log, old(Durable()), r.key, r.terms, psbt, holding);
      }
    }

    /** `Prepare`: reserve the inputs of the caller's carrier, then build the
        transfer. */
    method PrepareRequest(account: string, request: string, hash: Digest, psbt: Psbt, asset: Contract, amount: u64,
                          recipient: string, expiresAt: nat, recipientVout: Option<nat>, changeVout: nat)
      returns (out: Outcome, view: Option<Record>, holding: seq<Outpoint>)
      requires Valid()
      modifies this
      ensures Valid() && Grows(old(log), log)
      ensures out.Done? <==> view.Some?
      ensures view.Some? ==> Replied(log, IdemKey(account, PrepareKind, request), hash, view.value)
      ensures view.Some? && IdemKey(account, PrepareKind, request) !in old(idem) ==>
                && Clean(log, view.value) && view.value.status == AwaitingSignature
                && view.value.key == OpKey(account, OperationId(IdemKey(account, PrepareKind, request)))
                && Requested(w, view.value.terms, psbt, asset, amount, recipient, expiresAt, recipientVout, changeVout)
                && view.value.anchor.Some? && view.value.anchor.value.body.inputs == psbt.body.inputs
                && Vetted(w, log, old(Durable()), view.value.key, view.value.terms, psbt, holding)
                && Unquarantined(old(Durable()), account)
      ensures IdemKey(account, PrepareKind, request) in old(idem) ==>
              Repeated(old(log), log, IdemKey(account, PrepareKind, request), hash, view)
    {
      hide Legal, Replay, Clean, Pending, Replied, Vetted, Requested, Grows;
      view, holding := None, [];
      var key := IdemKey(account, PrepareKind, request);
      GrowsRefl(log);
      var earlier: Option<Record> :- Recall(key, hash);
      if earlier.Some? {
        return Done, earlier, holding;
      }
      if exists k :: k in ops && k.account == account && ops[k].quarantine {
        return Failed, None, holding;
      }
      var r;
      out, r, holding := ReserveCarrier(key, hash, psbt, asset, amount, recipient, expiresAt, recipientVout,
          changeVout);
      if !out.Done? {
        return;
      }
      ghost var reserved, why := log, Rest;
      out, r, why := FinishPreparation(r);
      GrowsTrans(old(log), reserved, log);
      if out.Failed? {
        ghost var before := log;
        out, why := Write(r, why);
        GrowsTrans(old(log), before, log);
        return if out.Crashed? then Crashed else Failed, None, holding;
      }
      if out.Done? {
        ReplyStays(w, reserved, log, key, hash, r);
        VettedStays(w, reserved, log, old(Durable()), r.key, r.terms, psbt, holding);
        view := Some(r);
      }
    }

    /** Whether a signed PSBT may complete a prepared send. */
    method CheckSigned(r: Record, signed: Psbt) returns (a: Result<Tx>)
      requires Valid() && r.anchor.Some?
      modifies this`log
      ensures Valid() && Grows(old(log), log) && forall r :: Clean(old(log), r) ==> Clean(log, r)
      ensures a.Ok? ==>
                && a.value == ExtractTx(signed) && signed.body == a.value.body == r.anchor.value.body
                && Completes(r.anchor.value, signed)
                && Has(log, Answered(Authorized(r.key, r.anchor.value), true))
                && Has(log, Answered(WitnessesValid(r.key, a.value), true))
    {
      hide Legal, Clean, Replay, ExtractTx, Completes;
      var authorized := AskWhether(Authorized(r.key, r.anchor.value));
      if authorized != Ok(true) {
        return if authorized.Crash? then Crash else Err;
      }
      var verified := AskWhether(WitnessesValid(r.key, ExtractTx(signed)));
      if !verified.Ok? {
        return if verified.Err? then Err else Crash;
      }
      HasNext(log, Answered(Authorized(r.key, r.anchor.value), true));
      a := FinalizedTransaction(r.anchor.value, signed, verified.value);
    }

    /** `Finalize`: keep the first valid signed transaction, for good. */
    method FinalizeRequest(account: string, request: string, hash: Digest, id: OpId, signed: Psbt)
      returns (out: Outcome, view: Option<Record>, now: nat)
      requires Valid()
      modifies this
      ensures Valid() && Grows(old(log), log)
      ensures out.Done? <==> view.Some?
      ensures view.Some? ==> Replied(log, IdemKey(account, FinalizeKind, request), hash, view.value)
      ensures view.Some? && IdemKey(account, FinalizeKind, request) !in old(idem) ==>
                && OpKey(account, id) in Replay(old(log)).ops && view.value.key == OpKey(account, id)
                && var a := Loaded(Replay(old(log)), OpKey(account, id));
                && a.anchor.Some? && view.value.signed == Some(ExtractTx(signed)) && signed.body == a.anchor.value.body
                && Completes(a.anchor.value, signed)
                && (a.signed.Some? ==> a.signed == view.value.signed)
                && (a.signed.None? ==>
                      && a.status == AwaitingSignature && view.value.status == Delivering
                      && now < a.terms.expiresAt && Has(log, ClockRead(now)))
                && Replay(log).ops[view.value.key].signed == view.value.signed
      ensures IdemKey(account, FinalizeKind, request) in old(idem) ==>
              Repeated(old(log), log, IdemKey(account, FinalizeKind, request), hash, view)
    {
      hide Legal, Grows, Completes, ExtractTx, Has;
      view, now := None, 0;
      var key := IdemKey(account, FinalizeKind, request);
      GrowsRefl(log);
      var earlier: Option<Record> :- Recall(key, hash);
      if earlier.Some? {
        return Done, earlier, now;
      }
      if OpKey(account, id) !in ops {
        return Failed, None, now;
      }
      var r := Loaded(Durable(), OpKey(account, id));
      CleanFromLoad(w, log, OpKey(account, id));
      if r.terms.direction != Send || r.anchor.None? {
        return Failed, None, now;
      }
      var tx := CheckSigned(r, signed);
      if !tx.Ok? {
        return if tx.Err? then Failed else Crashed, None, now;
      }
      ghost var before := log;
      out, view, now := KeepSigned(key, hash, r, tx.value);
      GrowsTrans(old(log), before, log);
    }

    /** Second half of `Finalize`. */
    method KeepSigned(key: IdemKey, hash: Digest, r0: Record, tx: Tx)
      returns (out: Outcome, view: Option<Record>, now: nat)
      requires Valid() && Clean(log, r0) && r0.terms.direction == Send && r0.anchor.Some?
      requires key !in idem && key.account == r0.key.account && WellFormedKey(key) && key.kind == FinalizeKind
      requires tx.body == r0.anchor.value.body && Has(log, Answered(Authorized(r0.key, r0.anchor.value), true))
      requires Has(log, Answered(WitnessesValid(r0.key, tx), true))
      modifies this
      ensures Valid() && Grows(old(log), log)
      ensures out.Done? <==> view.Some?
      ensures view.Some? ==>
                && Replied(log, key, hash, view.value) && view.value.key == r0.key && view.value.signed == Some(tx)
                && (r0.signed.Some? ==> r0.signed == view.value.signed)
                && (r0.signed.None? ==>
                      && r0.status == AwaitingSignature && view.value.status == Delivering
                      && now < r0.terms.expiresAt && Has(log, ClockRead(now)))
                && Replay(log).ops[view.value.key].signed == view.value.signed
    {
      hide Legal, Grows, Replied, Has, StepOk;
      view, now := None, 0;
      GrowsRefl(log);
      ghost var why := Rest;
      var r := r0;
      RestStep(w, log, r0);
      if r.signed.Some? {
        if r.signed.value != tx {
          return Failed, None, now;
        }
      } else {
        now := ReadClock();
        if r.status != AwaitingSignature || now >= r.terms.expiresAt {
          return Failed, None, now;
        }
        r := r.(signed := Some(tx), status := Delivering, retry := r.retry.(retryable := true));
        why := Finalize(tx, now);
        HasNext(log, Answered(Authorized(r0.key, r0.anchor.value), true));
        HasNext(log, Answered(WitnessesValid(r0.key, tx), true));
        FinalizeStep(w, log, r0, tx, now);
      }
      ghost var before := log;
      out := SaveStep(key, hash, r0, r, why);
      GrowsByOne(before, log);
      GrowsTrans(old(log), before, log);
      if out.Done? {
        if why.Finalize? {
          HasStays(before, log, ClockRead(now));
        }
        SaveReplies(log, key, hash);
        view := Some(r);
      }
    }

    /** `Cancel`: only a receive for which no payment was seen. */
    method CancelRequest(account: string, request: string, hash: Digest, id: OpId)
      returns (out: Outcome, view: Option<Record>)
      requires Valid()
      modifies this
      ensures Valid() && Grows(old(log), log)
      ensures out.Done? <==> view.Some?
      ensures view.Some? ==> Replied(log, IdemKey(account, CancelKind, request), hash, view.value)
      ensures view.Some? && IdemKey(account, CancelKind, request) !in old(idem) ==>
                && OpKey(account, id) in old(ops) && view.value.key == OpKey(account, id)
                && var a := Loaded(old(Durable()), OpKey(account, id));
                && a.terms.direction == Receive && a.artifact.proof == [] && a.txid.None?
                && view.value == Unretryable(a.(status := Cancelled))
                && OpKey(account, id) in ops && ops[OpKey(account, id)].status == Cancelled
      ensures IdemKey(account, CancelKind, request) in old(idem) ==>
              Repeated(old(log), log, IdemKey(account, CancelKind, request), hash, view)
    {
      hide Legal, Grows;
      view := None;
      var key := IdemKey(account, CancelKind, request);
      GrowsRefl(log);
      var earlier: Option<Record> :- Recall(key, hash);
      if earlier.Some? {
        return Done, earlier;
      }
      if OpKey(account, id) !in ops {
        return Failed, None;
      }
      var r := Loaded(Durable(), OpKey(account, id));
      CleanFromLoad(w, log, OpKey(account, id));
      ghost var a := r;
      if r.terms.direction == Send || r.artifact.proof != [] || r.txid.Some? {
        return Failed, None;
      }
      r := Unretryable(r.(status := Cancelled));
      out := SaveStep(key, hash, a, r, Cancel);
      GrowsByOne(old(log), log);
      if out.Done? {
        SaveReplies(log, key, hash);
        view := Some(r);
      }
    }

    /** `Refresh`: make the operation due again. */
    method RefreshRequest(account: string, id: OpId) returns (out: Outcome)
      requires Valid()
      modifies this
      ensures Valid() && Grows(old(log), log)
      ensures out.Done? ==>
                && OpKey(account, id) in old(ops) && OpKey(account, id) in ops
                && var a := Loaded(old(Durable()), OpKey(account, id));
                Loaded(Durable(), OpKey(account, id)) == a.(retry := a.retry.(nextRetryAt := 0))
      ensures Frame(old(Durable()), Durable(), OpKey(account, id))
    {
      hide Legal, Grows;
      GrowsRefl(log);
      if OpKey(account, id) !in ops {
        return Failed;
      }
      var r := Loaded(Durable(), OpKey(account, id));
      CleanFromLoad(w, log, OpKey(account, id));
      TouchedStep(w, log, r, r.(retry := r.retry.(nextRetryAt := 0)));
      ghost var rest;
      out, rest := Write(r.(retry := r.retry.(nextRetryAt := 0)), Rest);
    }

    /** Save a step together with the request that asked for it. */
    method SaveStep(key: IdemKey, hash: Digest, ghost a: Record, r: Record, ghost why: Step) returns (out: Outcome)
      requires Valid() && Clean(log, a) && a.key == r.key && !why.Create? && StepOk(w, log, a, r, why)
      requires key !in idem && key.account == r.key.account && WellFormedKey(key)
      requires key.kind == if why.Cancel? then CancelKind else FinalizeKind
      modifies this
      ensures Valid()
      ensures out.Done? ==> log == Then(old(log), Saved(r, Some((key, hash)), false, why))
      ensures !out.Done? ==> log == old(log) || log == Then(old(log), Saved(r, Some((key, hash)), false, why))
    {
      hide StepOk, Legal;
      out := Save(r, Some((key, hash)), false, why);
    }
  }

  /** A request or a scan, as it may reach the daemon. A scan may also try one
      operation, and leave the next one until after other requests. */
  datatype Call =
    | ReceiveCall(account: string, request: string, hash: Digest, asset: Contract, amount: u64, expiresAt: nat,
                  blind: Option<OutText>)
    | PrepareCall(account: string, request: string, hash: Digest, psbt: Psbt, asset: Contract, amount: u64,
                  recipient: string, expiresAt: nat, recipientVout: Option<nat>, changeVout: nat)
    | FinalizeCall(account: string, request: string, hash: Digest, id: OpId, signed: Psbt)
    | CancelCall(account: string, request: string, hash: Digest, id: OpId)
    | RefreshCall(account: string, id: OpId)
    | ScanCall
    | ScanOneCall(key: OpKey)

  method Perform(engine: Engine, call: Call) returns (out: Outcome)
    requires engine.Valid()
    modifies engine
    ensures engine.Valid() && Grows(old(engine.log), engine.log)
  {
    var view: Option<Record>;
    var now: nat;
    var holding: seq<Outpoint>;
    match call
    case ReceiveCall(account, request, hash, asset, amount, expiresAt, blind) =>
      out, view, now := engine.ReceiveRequest(account, request, hash, asset, amount, expiresAt, blind);
    case PrepareCall(account, request, hash, psbt, asset, amount, recipient, expiresAt, recipientVout, changeVout) =>
      out, view, holding := engine.PrepareRequest(account, request, hash, psbt, asset, amount, recipient, expiresAt,
          recipientVout, changeVout);
    case FinalizeCall(account, request, hash, id, signed) =>
      out, view, now := engine.FinalizeRequest(account, request, hash, id, signed);
    case CancelCall(account, request, hash, id) =>
      out, view := engine.CancelRequest(account, request, hash, id);
    case RefreshCall(account, id) =>
      out := engine.RefreshRequest(account, id);
    case ScanCall =>
      var order, first, due, clock;
      out, order, first, due, clock := engine.Scan();
    case ScanOneCall(key) =>
      var later;
      out, now, later := engine.ScanOne(key);
  }

  /** The daemon over any sequence of calls, restarted after every crash: its
      history is legal, so all theorems about legal histories hold of it, at the
      end and at every point before. */
  method Run(w: World, calls: seq<Call>) returns (engine: Engine)
    requires GoodWorld(w)
    ensures fresh(engine) && engine.w == w && engine.Valid()
    ensures Legal(w, engine.log) && Inv(w, engine.log)
  {
    engine := new Engine(w);
    for i := 0 to |calls|
      invariant fresh(engine) && engine.w == w && engine.Valid()
    {
      var out := Perform(engine, calls[i]);
    }
    LegalKeepsInv(w, engine.log);
  }

  /** The account has no legacy operations and, for a blind invoice, the outpoint was
      found to be an unspent output of the account that holds no RGB state. */
  ghost predicate Invited(w: World, log: History, account: string, blind: Option<OutText>) {
    && Has(log, Answered(LegacyPending(account), false))
    && (blind.Some? ==>
          && w.parse(blind.value).Some?
          && Has(log, Answered(OutpointUsable(account, w.parse(blind.value).value), true)))
  }

  lemma InvitedBy(w: World, a: History, b: History, account: string, blind: Option<OutText>)
    requires Grows(a, b) && Has(b, Answered(LegacyPending(account), false))
    requires blind.Some? ==>
               && w.parse(blind.value).Some?
               && Has(a, Answered(OutpointUsable(account, w.parse(blind.value).value), true))
    ensures Invited(w, b, account, blind)
  {
    if blind.Some? {
      HasStays(a, b, Answered(OutpointUsable(account, w.parse(blind.value).value), true));
    }
  }

  lemma InvitedStays(w: World, a: History, b: History, account: string, blind: Option<OutText>)
    requires Grows(a, b) && Invited(w, a, account, blind)
    ensures Invited(w, b, account, blind)
  {
    HasStays(a, b, Answered(LegacyPending(account), false));
    InvitedBy(w, a, b, account, blind);
  }

  /** The terms of a send are those of its request, and its inputs are the previous
      outputs of the caller's carrier. */
  ghost predicate Requested(w: World, terms: Terms, psbt: Psbt, asset: Contract, amount: u64, recipient: string,
                            expiresAt: nat, recipientVout: Option<nat>, changeVout: nat)
  {
    && terms.direction == Send && terms.asset == asset && terms.amount == amount && terms.recipient == recipient
    && terms.expiresAt == expiresAt && terms.required == w.required
    && terms.recipientVout == recipientVout && terms.changeVout == Some(changeVout)
    && |terms.inputs| == |psbt.body.inputs|
    && forall i :: 0 <= i < |terms.inputs| ==> terms.inputs[i] == w.show(psbt.body.inputs[i].previous)
  }

  /** The carrier fits the invoice and the authorization, the account has no legacy
      operations, and every input that holds RGB state is tracked as confirmed. */
  ghost predicate Vetted(w: World, log: History, db: Db, key: OpKey, terms: Terms, psbt: Psbt, holding: seq<Outpoint>) {
    && Has(log, Answered(CarrierFits(key, terms, psbt), true)) && Has(log, Answered(LegacyPending(key.account), false))
    && Has(log, RgbInputs(key, holding))
    && forall o :: o in holding ==> (key.account, w.show(o)) in db.utxos && db.utxos[(key.account, w.show(o))]
  }

  lemma VettedStays(w: World, a: History, b: History, db: Db, key: OpKey, terms: Terms, psbt: Psbt,
                    holding: seq<Outpoint>)
    requires Grows(a, b) && Vetted(w, a, db, key, terms, psbt, holding)
    ensures Vetted(w, b, db, key, terms, psbt, holding)
  {
    HasStays(a, b, Answered(CarrierFits(key, terms, psbt), true));
    HasStays(a, b, Answered(LegacyPending(key.account), false));
    HasStays(a, b, RgbInputs(key, holding));
  }

  /** The request `key` is answered, now and for good, with the operation `r`. */
  ghost predicate Replied(log: History, key: IdemKey, hash: Digest, r: Record) {
    && key in Replay(log).idem && Replay(log).idem[key] == Binding(hash, r.key.id)
    && r.key == OpKey(key.account, r.key.id) && r.key in Replay(log).ops
  }

  /** A repeated request changes nothing; it is answered with the operation as it
      is stored, or refused. */
  ghost predicate Repeated(before: History, log: History, key: IdemKey, hash: Digest, view: Option<Record>) {
    && log == before && key in Replay(log).idem
    && (view.Some? <==> Replay(log).idem[key].hash == hash)
    && (view.Some? ==> Clean(log, view.value))
  }

  lemma GrowsRefl(log: History)
    ensures Grows(log, log)
  {
  }

  lemma GrowsTrans(a: History, b: History, c: History)
    requires Grows(a, b) && Grows(b, c)
    ensures Grows(a, c)
  {
  }

  /** What a history has, it keeps. */
  lemma {:induction false} HasStays(a: History, b: History, e: Event)
    requires Grows(a, b) && Has(a, e)
    ensures Has(b, e)
  {
    assert Prefix(a, a);
    PrefixHas(a, b, e);
  }

  lemma {:induction false} PrefixHas(a: History, b: History, e: Event)
    requires Prefix(a, b) && Has(a, e)
    ensures Has(b, e)
    decreases b
  {
    if a != b {
      PrefixHas(a, b.before, e);
    }
  }

  lemma HasNext(log: History, e: Event)
    requires log.Then? && Has(log.before, e)
    ensures Has(log, e)
  {
  }

  /** A transfer pays to an output of the account or, for a blind invoice, to the
      invoiced seal on an unspent output. */
  ghost predicate Targeted(log: History, r: Record, outpoint: Outpoint, candidate: Tx) {
    if r.terms.blind then
      && Has(log, Answered(OutputUnspent(r.key, outpoint), true))
      && Has(log, Answered(SealTargeted(r.key, r.artifact.proof), true))
    else
      PaysTo(candidate, outpoint, r.key.account)
  }

  lemma TargetedStays(log: History, e: Event, r: Record, outpoint: Outpoint, candidate: Tx)
    requires Targeted(log, r, outpoint, candidate)
    ensures Targeted(Then(log, e), r, outpoint, candidate)
  {
  }

  lemma UnreadableMismatch(w: World, log: History, r: Record, mismatch: Mismatch)
    requires r.status == Validating
    requires match mismatch
             case Undecodable => w.decode(r.artifact.proof).None?
             case WrongContract =>
               w.decode(r.artifact.proof).Some? && w.decode(r.artifact.proof).value.contract != r.terms.asset
             case _ => false
    ensures Mismatched(w, log, r, mismatch)
  {
  }

  lemma GrowsByOne(a: History, b: History)
    requires a == b || (b.Then? && b.before == a)
    ensures Grows(a, b)
  {
  }

  lemma SaveReplies(log: History, key: IdemKey, hash: Digest)
    requires log.Then? && log.event.Saved? && log.event.bind == Some((key, hash)) &&
             log.event.record.key.account == key.account
    ensures Replied(log, key, hash, log.event.record)
  {
  }

  lemma ReplyStays(w: World, p: History, log: History, key: IdemKey, hash: Digest, r: Record)
    requires GoodWorld(w) && Legal(w, log) && Grows(p, log) && Clean(log, r)
    requires exists r0 :: Replied(p, key, hash, r0) && r0.key == r.key
    ensures Replied(log, key, hash, r)
  {
    hide Legal;
    assert Prefix(p, p);
    BindingForever(w, p, log, key);
  }

  function NewRecord(w: World, key: IdemKey, terms: Terms): Record {
    Record(OpKey(key.account, OperationId(key)), terms,
           if terms.direction == Receive then AwaitingTransfer else Preparing,
           None, None, DeliveryNotStarted, BroadcastNotStarted, None, 0, None, NoArtifact, None, None,
           Retry(true, 0, 0), false)
  }

  lemma BoundOperationExists(w: World, log: History, key: IdemKey)
    requires GoodWorld(w) && Legal(w, log) && key in Replay(log).idem
    ensures OpKey(key.account, Replay(log).idem[key].id) in Replay(log).ops && WellFormedKey(key)
  {
    hide Legal, OpsOk, SlotsOk, BoundOk, ReservedOk, CreditOk, ArtifactsOk;
    LegalKeepsInv(w, log);
  }

  lemma NewIsClean(w: World, log: History, r: Record, key: IdemKey, hash: Digest)
    requires GoodWorld(w) && Legal(w, Then(log, Saved(r, Some((key, hash)), true, Create(key.request))))
    ensures Clean(Then(log, Saved(r, Some((key, hash)), true, Create(key.request))), r)
  {
    LegalKeepsInv(w, log);
    hide OpsOk, SlotsOk, ReservedOk, CreditOk, IdemOk, BoundOk;
    CreateAdds(w, Replay(log), r, key, hash);
  }

  lemma DemoteStep(w: World, log: History, a: Record, depth: nat)
    requires Clean(log, a) && a.status == Settled && a.txid.Some? && Has(log, Confirmed(a.txid.value, depth))
    requires depth < a.terms.required
    requires MarkTarget(w, a).Some? ==> Has(log, MarkTried(a.key.account, MarkTarget(w, a).value))
    ensures Pending(w, log, Unretryable(Touch(a, depth).(status := NeedsReview, quarantine := true)), Demote(depth))
  {
  }

  lemma CleanFromLoad(w: World, log: History, k: OpKey)
    requires GoodWorld(w) && Legal(w, log) && k in Replay(log).ops
    ensures Loaded(Replay(log), k).key == k && Clean(log, Loaded(Replay(log), k))
  {
    hide Legal, RecordOk;
    StoredOk(w, log, k);
  }

  lemma RetryStep(w: World, log: History, r: Record, retry: Retry, why: Step)
    requires Pending(w, log, r, why)
    ensures Pending(w, log, r.(retry := retry), why)
  {
    hide Guard;
  }

  lemma TouchedStep(w: World, log: History, a: Record, b: Record)
    requires Clean(log, a) && Touched(a, b)
    ensures Pending(w, log, b, Rest)
  {
  }

  lemma NackStep(w: World, log: History, a: Record)
    requires Clean(log, a) && a.terms.direction == Send && a.status == Settled
    ensures Pending(w, log, a.(status := NeedsReview), Nack)
  {
  }

  lemma SendCreditReady(w: World, log: History, a: Record, r: Record, outpoint: OutText)
    requires Clean(log, a) && Touched(a, r) && a.terms.direction == Send && a.status == WaitingConfirmations &&
             a.txid.Some?
    requires CreditTarget(w, a).Some? && outpoint == w.show(CreditTarget(w, a).value)
    requires r.terms.required <= r.confirmations
    requires Has(log, Confirmed(a.txid.value, r.confirmations)) && LastAck(log, a.key) == Some(r.acknowledged)
    requires Has(log, Answered(FasciaPromoted(a.key, a.txid.value), true))
    ensures CreditAllowed(w, log, r, outpoint)
  {
  }

  lemma RestStep(w: World, log: History, a: Record)
    ensures StepOk(w, log, a, a, Rest)
  {
  }

  lemma FinalizeStep(w: World, log: History, a: Record, tx: Tx, now: nat)
    requires a.terms.direction == Send && a.status == AwaitingSignature && a.signed.None?
    requires a.anchor.Some? && tx.body == a.anchor.value.body && now < a.terms.expiresAt && Has(log, ClockRead(now))
    requires Has(log, Answered(Authorized(a.key, a.anchor.value), true))
    requires Has(log, Answered(WitnessesValid(a.key, tx), true))
    ensures StepOk(w, log, a, a.(signed := Some(tx), status := Delivering, retry := a.retry.(retryable := true)),
                   Finalize(tx, now))
  {
    hide Has;
  }

  lemma PrepareFailedStep(w: World, log: History, a: Record, fascia: Encoding, proof: Bytes)
    requires Clean(log, a) && a.terms.direction == Send && a.status == Preparing
    ensures Pending(w, log, a.(artifact := Artifact(fascia, proof)), PrepareFailed(fascia, proof))
  {
    hide Replay, Loaded;
  }

  lemma PrepareStep(w: World, log: History, a: Record, fascia: Encoding, proof: Bytes, psbt: Psbt)
    requires Clean(log, a) && a.terms.direction == Send && a.status == Preparing
    requires a.candidate.Some? && a.candidate.value.Draft?
    requires psbt.body.inputs == a.candidate.value.psbt.body.inputs && |proof| <= w.maxProof
    requires Has(log, Built(a.key, psbt.body.outputs)) && Has(log, FasciaEncoded(a.key, fascia))
    requires Has(log, ProofEncoded(a.key, proof))
    ensures var r := a.(artifact := Artifact(fascia, proof), txid := Some(w.txidOf(psbt.body)),
                        candidate := Some(Carrier(Tx(psbt.body, []))), anchor := Some(psbt),
                        status := AwaitingSignature);
            Pending(w, log, Unretryable(r), Prepare(fascia, proof, psbt))
  {
    hide Replay, Loaded, Has;
  }

  lemma ValidateStep(w: World, log: History, a: Record, carrier: Tx)
    requires Clean(log, a) && a.terms.direction == Receive && a.status == Validating && a.txid.Some?
    requires ReceivesAt(w, a).Some? && w.decode(a.artifact.proof).Some?
    requires Has(log, Validated(a.key, a.artifact.proof, a.txid.value, ReceivesAt(w, a).value, a.terms.asset,
                                a.terms.amount, carrier))
    ensures Pending(w, log, a.(candidate := Some(Carrier(carrier)), status := WaitingConfirmations,
                               delivery := DeliveryValidated), Validate(carrier))
  {
    hide Replay, Loaded, Has, ReceivesAt;
  }

  /** The candidate of a signed send is its transaction without witnesses. */
  lemma SignedCarrier(w: World, log: History, r: Record)
    requires GoodWorld(w) && Legal(w, log) && Clean(log, r) && r.terms.direction == Send && r.signed.Some?
    ensures r.candidate == Some(Carrier(Tx(r.signed.value.body, [])))
  {
    hide Legal, Clean;
    CleanIsOk(w, log, r);
    hide Has, Spends;
  }

  /** A send that is signed has an id; one that is broadcast and not at its end waits
      for confirmations. */
  lemma SignedHasId(w: World, log: History, r: Record)
    requires GoodWorld(w) && Legal(w, log) && Clean(log, r) && r.terms.direction == Send
    ensures r.signed.Some? ==> r.txid.Some? && r.status != Preparing
    ensures r.broadcast == BroadcastDone && r.status != NeedsReview && r.status != Settled ==>
            r.status == WaitingConfirmations && r.txid.Some?
  {
    hide Legal, Clean;
    CleanIsOk(w, log, r);
    hide Has, Spends;
  }

  lemma DeliverStep(w: World, log: History, a: Record)
    requires Clean(log, a) && a.terms.direction == Send && a.signed.Some? && a.txid.Some?
    requires Has(log, Uploaded(a.key, a.txid.value, a.artifact.proof))
    ensures Pending(w, log, a.(delivery := Delivered), Deliver)
  {
  }

  lemma AttemptStep(w: World, log: History, a: Record)
    requires Clean(log, a) && a.terms.direction == Send && a.signed.Some? && a.delivery == Delivered
    requires a.broadcast != BroadcastDone
    ensures Pending(w, log, a.(broadcast := BroadcastUnknown), Attempt)
  {
  }

  lemma AnnounceStep(w: World, log: History, a: Record)
    requires Clean(log, a) && a.terms.direction == Send && a.broadcast == BroadcastUnknown && Launched(log, a)
    ensures Pending(w, log, a.(broadcast := BroadcastDone, status := WaitingConfirmations), Announce)
  {
    hide Replay, Loaded, Launched;
  }

  lemma TouchStep(w: World, log: History, a: Record, depth: nat)
    requires Clean(log, a)
    ensures Pending(w, log, Touch(a, depth), Rest)
  {
  }

  lemma CloseStep(w: World, log: History, a: Record)
    requires Clean(log, a) && a.terms.direction == Receive && a.status == Settled
    ensures Pending(w, log, Unretryable(a.(broadcast := BroadcastConfirmed)), Close)
  {
  }

  /** A receive with a proof and an outpoint that is still open is being validated
      or waits for confirmations. */
  lemma OnTheWay(w: World, log: History, r: Record)
    requires GoodWorld(w) && Legal(w, log) && Clean(log, r) && r.terms.direction == Receive
    requires r.status != NeedsReview && r.status != Settled && r.receiveOutpoint.Some?
    requires r.artifact.proof != [] || r.status == Validating
    ensures r.status == Validating || r.status == WaitingConfirmations
  {
    hide Legal, Clean;
    CleanIsOk(w, log, r);
  }

  lemma MayValidate(w: World, log: History, r: Record, carrier: Tx)
    requires Clean(log, r) && r.txid.Some? && ReceivesAt(w, r).Some? && w.txidOf(carrier.body) == r.txid.value
    requires w.decode(r.artifact.proof).Some? && w.decode(r.artifact.proof).value.contract == r.terms.asset
    requires Targeted(log, r, ReceivesAt(w, r).value, carrier)
    requires AmountPreviewed(log, r.key, r.artifact.proof, ReceivesAt(w, r).value, carrier, r.terms.asset,
                             r.terms.amount)
    ensures Allowed(w, log, Validated(r.key, r.artifact.proof, r.txid.value, ReceivesAt(w, r).value, r.terms.asset,
                                      r.terms.amount, carrier))
  {
    hide Replay, Has, AmountPreviewed, PaysTo;
  }

  lemma NoticeStep(w: World, log: History, a: Record, why: Step)
    requires Clean(log, a) && why.Notice? && Guard(w, log, a, why)
    ensures Pending(w, log, Change(w, a, why), why) && Pending(w, log, Unretryable(Change(w, a, why)), why)
  {
    hide Replay, Loaded;
  }

  lemma CleanIsOk(w: World, log: History, r: Record)
    requires GoodWorld(w) && Legal(w, log) && Clean(log, r)
    ensures RecordOk(w, log, r)
  {
    hide Legal, RecordOk;
    StoredOk(w, log, r.key);
  }

  lemma CreditReady(w: World, log: History, a: Record, depth: nat, actual: Tx)
    requires Clean(log, a) && a.terms.direction == Receive && a.status == WaitingConfirmations
    requires a.txid.Some? && ReceivesAt(w, a).Some? && a.acknowledged == Some(true)
    requires a.candidate.Some? && a.candidate.value.Carrier? && actual.body == a.candidate.value.tx.body
    requires a.terms.required <= depth
    requires Has(log, Confirmed(a.txid.value, depth)) && Has(log, Seen(a.txid.value, actual))
    requires Has(log, Accepted(a.key, a.artifact.proof)) && (a.terms.blind ==> Has(log, SecretKept(a.key)))
    ensures CreditAllowed(w, log, Touch(a, depth), w.show(ReceivesAt(w, a).value))
  {
    SeenEvidence(log, a.txid.value, actual);
  }

  lemma {:induction false} SeenEvidence(log: History, txid: Txid, tx: Tx)
    requires Has(log, Seen(txid, tx))
    ensures SeenBody(log, txid, tx.body)
  {
    if log.event != Seen(txid, tx) {
      SeenEvidence(log.before, txid, tx);
    }
  }

  lemma CreditIsClean(w: World, log: History, r: Record, outpoint: OutText)
    requires GoodWorld(w) && Legal(w, Then(log, Credited(r, outpoint)))
    ensures Clean(Then(log, Credited(r, outpoint)), Settle(r))
  {
    hide CreditAllowed, SaveAllowed, PostAllowed;
    assert Legal(w, log) && CreditAllowed(w, log, r, outpoint);
    hide Legal, SlotsOk, IdemOk, BoundOk, ReservedOk, CreditOk, OpsOk, ArtifactsOk;
    LegalKeepsInv(w, log);
    CreditRewrites(w, log, r, outpoint);
    ReplayWrites(log);
    hide Replay, ApplyCredit, Loaded;
  }

  /** After a flush that failed, the record in memory reopens the stored one. */
  lemma ReopenStep(w: World, log: History, r: Record, outpoint: OutText)
    requires GoodWorld(w) && Legal(w, Then(log, Credited(r, outpoint))) && !w.flushes
    ensures Pending(w, Then(log, Credited(r, outpoint)), r, Reopen)
  {
    CreditIsClean(w, log, r, outpoint);
    CreditWaits(w, log, r, outpoint);
    hide Legal, Replay, Loaded, Allowed;
  }

  lemma CreditWaits(w: World, log: History, r: Record, outpoint: OutText)
    requires Legal(w, Then(log, Credited(r, outpoint)))
    ensures r.status == WaitingConfirmations
  {
    hide SaveAllowed, PostAllowed;
    assert CreditAllowed(w, log, r, outpoint);
    hide Legal, Replay;
  }

  lemma SavedIsClean(w: World, log: History, r: Record, why: Step)
    requires GoodWorld(w) && Legal(w, log) && SaveAllowed(w, log, r, None, false, why) && !why.Create?
    ensures Loaded(Replay(Then(log, Saved(r, None, false, why))), r.key) == r
  {
    hide Legal, SaveAllowed, OpsOk, SlotsOk, IdemOk, BoundOk, ReservedOk, CreditOk, ArtifactsOk;
    LegalKeepsInv(w, log);
    UpdateReadsBack(w, log, r, None, why);
  }

  lemma PlainAllowed(w: World, log: History, e: Event)
    requires Plain(e)
    ensures Allowed(w, log, e) && !e.Saved? && !e.Credited? && !e.Unconfirmed?
  {
  }

  lemma LegalThen(w: World, log: History, e: Event)
    requires Legal(w, log) && Allowed(w, log, e)
    ensures Legal(w, Then(log, e))
  {
    hide Allowed;
  }
}
