/** The queue of staged operations of one account: operations wait until their
    transaction is confirmed, are then replayed into the stored stock, and leave
    the queue. The process may crash between any two writes. */
module StagedQueue {
  import opened Basics

  datatype Status = PendingTransfer | Pending | Confirmed | Invalid

  /** A status that the scan leaves alone. */
  predicate Terminal(s: Status) {
    s == Confirmed || s == Invalid
  }

  /** Applying an operation leaves its effect, a second application changes
      nothing, and later operations keep the effect. */
  ghost predicate Replayable<Op(!new), Stock(!new)>(apply: (Op, Stock) -> Option<Stock>, present: (Op, Stock) -> bool) {
    && (forall o, s :: apply(o, s).Some? ==> present(o, apply(o, s).value))
    && (forall o, s :: present(o, s) ==> apply(o, s) == Some(s))
    && (forall o, p, s :: present(o, s) && apply(p, s).Some? ==> present(o, apply(p, s).value))
  }

  /** Every operation of the list applied once, in order. */
  ghost function ApplyAll<Op, Stock>(apply: (Op, Stock) -> Option<Stock>, ops: seq<Op>, s: Stock): Option<Stock> {
    if ops == [] then Some(s)
    else
      var r := ApplyAll(apply, ops[..|ops| - 1], s);
      if r.None? then None else apply(ops[|ops| - 1], r.value)
  }

  lemma ApplyOne<Op, Stock>(apply: (Op, Stock) -> Option<Stock>, ops: seq<Op>, o: Op, s: Stock)
    ensures ApplyAll(apply, ops + [o], s) ==
            var r := ApplyAll(apply, ops, s);
            if r.None? then None else apply(o, r.value)
  {
    assert (ops + [o])[..|ops|] == ops;
  }

  /** The durable state of a queue, with what has been staged and applied. */
  datatype Image<Op, Stock> = Image(
    ops: map<nat, Op>, statuses: map<nat, Status>, stock: Stock, staged: map<nat, Op>, applied: seq<nat>)

  ghost predicate Known<Op>(staged: map<nat, Op>, applied: seq<nat>) {
    forall i :: 0 <= i < |applied| ==> applied[i] in staged
  }

  ghost function OpsOf<Op>(staged: map<nat, Op>, applied: seq<nat>): (r: seq<Op>)
    requires Known(staged, applied)
    ensures |r| == |applied| && forall i :: 0 <= i < |r| ==> r[i] == staged[applied[i]]
  {
    seq(|applied|, i requires 0 <= i < |applied| => staged[applied[i]])
  }

  /** The stock is the applied operations, each once. */
  ghost predicate StockOk<Op, Stock>(apply: (Op, Stock) -> Option<Stock>, present: (Op, Stock) -> bool,
                                                initial: Stock, im: Image<Op, Stock>)
  {
    && Known(im.staged, im.applied)
    && (forall i :: 0 <= i < |im.applied| ==> present(im.staged[im.applied[i]], im.stock))
    && (forall i, j :: 0 <= i < j < |im.applied| ==> im.applied[i] != im.applied[j])
    && ApplyAll(apply, OpsOf(im.staged, im.applied), initial) == Some(im.stock)
  }

  ghost predicate QueueOk<Op, Stock>(im: Image<Op, Stock>) {
    && (forall t :: t in im.ops ==>
          t in im.staged && im.ops[t] == im.staged[t] && t in im.statuses && !Terminal(im.statuses[t]))
    && (forall t :: t in im.statuses ==> t in im.staged && (im.statuses[t] == Confirmed ==> t in im.applied))
    && (forall t :: t in im.staged && t !in im.ops ==> t in im.applied)
  }

  lemma StageKeeps<Op, Stock>(apply: (Op, Stock) -> Option<Stock>, present: (Op, Stock) -> bool,
                              initial: Stock, im: Image<Op, Stock>, txid: nat, op: Op)
    requires StockOk(apply, present, initial, im) && (txid in im.staged ==> im.staged[txid] == op)
    ensures StockOk(apply, present, initial,
            im.(ops := im.ops[txid := op], statuses := im.statuses[txid := PendingTransfer],
                                                 staged := im.staged[txid := op]))
  {
    assert OpsOf(im.staged[txid := op], im.applied) == OpsOf(im.staged, im.applied);
  }

  /** Storing the effect of an operation keeps the account of the stock, whether
      it is applied for the first time or replayed after a crash. */
  lemma StoreKeeps<Op(!new), Stock(!new)>(apply: (Op, Stock) -> Option<Stock>, present: (Op, Stock) -> bool,
                              initial: Stock, im: Image<Op, Stock>, txid: nat)
    requires Replayable(apply, present) && StockOk(apply, present, initial, im)
    requires txid in im.staged && apply(im.staged[txid], im.stock).Some?
    ensures StockOk(apply, present, initial,
                    im.(stock := apply(im.staged[txid], im.stock).value,
                        applied := if txid in im.applied then im.applied else im.applied + [txid]))
  {
    var op := im.staged[txid];
    var next := apply(op, im.stock).value;
    if txid in im.applied {
      var i :| 0 <= i < |im.applied| && im.applied[i] == txid;
      assert present(op, im.stock);
    } else {
      var applied := im.applied + [txid];
      assert OpsOf(im.staged, applied) == OpsOf(im.staged, im.applied) + [op];
      ApplyOne(apply, OpsOf(im.staged, im.applied), op, initial);
      assert present(op, next);
      forall i | 0 <= i < |applied|
        ensures present(im.staged[applied[i]], next)
      {
        if i < |im.applied| {
          assert present(im.staged[im.applied[i]], im.stock);
        }
      }
    }
  }

  lemma StockOkFrame<Op, Stock>(apply: (Op, Stock) -> Option<Stock>, present: (Op, Stock) -> bool,
                                initial: Stock, a: Image<Op, Stock>, b: Image<Op, Stock>)
    requires StockOk(apply, present, initial, a)
    requires a.stock == b.stock && a.staged == b.staged && a.applied == b.applied
    ensures StockOk(apply, present, initial, b)
  {
  }

  class Queue<Op(!new), Stock(!new)> {
    const apply: (Op, Stock) -> Option<Stock>
    ghost const present: (Op, Stock) -> bool
    ghost const initial: Stock
    /** Durable: the queue, the statuses and the stock. */
    var ops: map<nat, Op>
    var statuses: map<nat, Status>
    var stock: Stock
    /** Everything ever staged, and what was applied, in order. */
    ghost var staged: map<nat, Op>
    ghost var applied: seq<nat>
    /** What the chain has answered, in order. */
    ghost var answered: seq<(nat, Option<bool>)>

    ghost function Im(): Image<Op, Stock>
      reads this
    {
      Image(ops, statuses, stock, staged, applied)
    }

    /** What holds after every write, so also after a crash. */
    ghost predicate Valid()
      reads this
    {
      Replayable(apply, present) && QueueOk(Im()) && StockOk(apply, present, initial, Im())
    }

    constructor (apply: (Op, Stock) -> Option<Stock>, ghost present: (Op, Stock) -> bool, stock: Stock)
      requires Replayable(apply, present)
      ensures Valid() && ops == map[] && staged == map[]
      ensures this.apply == apply && this.present == present && this.initial == stock
    {
      this.apply, this.present, this.initial, this.stock := apply, present, stock, stock;
      ops, statuses, staged, applied, answered := map[], map[], map[], [], [];
    }

    /** One write: the operation together with its status. The same operation may
        be staged again, as the daemon does when it finds no confirmed status. */
    method Stage(txid: nat, op: Op)
      requires Valid() && (txid in staged ==> staged[txid] == op)
      modifies this
      ensures Valid() && ops == old(ops)[txid := op] && statuses == old(statuses)[txid := PendingTransfer]
      ensures staged == old(staged)[txid := op] && stock == old(stock) && applied == old(applied)
    {
      hide StockOk, Replayable, ApplyAll;
      StageKeeps(apply, present, initial, Im(), txid, op);
      ops, statuses, staged := ops[txid := op], statuses[txid := PendingTransfer], staged[txid := op];
    }

    method PutStatus(txid: nat, status: Status)
      requires Valid() && txid in staged &&
               (Terminal(status) ==> status == Confirmed && txid in applied && txid !in ops)
      modifies this`statuses
      ensures Valid() && statuses == old(statuses)[txid := status]
    {
      StockOkFrame(apply, present, initial, Im(), Im().(statuses := statuses[txid := status]));
      hide StockOk, Replayable;
      statuses := statuses[txid := status];
    }

    /** The stock with the effect of the operation is stored. */
    method StoreStock(txid: nat, next: Stock)
      requires Valid() && txid in ops && apply(ops[txid], stock) == Some(next)
      modifies this`stock, this`applied
      ensures Valid() && stock == next && txid in applied
      ensures applied == if txid in old(applied) then old(applied) else old(applied) + [txid]
    {
      hide StockOk, Replayable;
      StoreKeeps(apply, present, initial, Im(), txid);
      applied := if txid in applied then applied else applied + [txid];
      stock := next;
    }

    /** Removes the operation and its status. */
    method Remove(txid: nat)
      requires Valid() && txid in applied
      modifies this`ops, this`statuses
      ensures Valid() && ops == old(ops) - {txid} && statuses == old(statuses) - {txid}
    {
      StockOkFrame(apply, present, initial, Im(), Im().(ops := ops - {txid}, statuses := statuses - {txid}));
      hide StockOk, Replayable;
      ops, statuses := ops - {txid}, statuses - {txid};
    }

    /** Replays one confirmed operation: store the stock, then remove the
        operation. It may fail, and it may crash after each write. */
    method Replay(txid: nat) returns (o: Outcome)
      requires Valid()
      modifies this`ops, this`statuses, this`stock, this`applied
      ensures Valid()
      ensures o.Done? ==> txid in applied && ops == old(ops) - {txid} && statuses == old(statuses) - {txid}
      ensures OnlyEntry(old(ops), old(statuses), old(applied), ops, statuses, applied, txid)
      ensures o.Failed? ==> stock == old(stock) && ops == old(ops)
    {
      var crash1, crash2, crash3, refused := *, *, *, *;
      if txid !in ops || refused {
        return Failed;
      }
      if crash1 {
        return Crashed;
      }
      var next := apply(ops[txid], stock);
      if next.None? {
        return Failed;
      }
      StoreStock(txid, next.value);
      if crash2 {
        return Crashed;
      }
      Remove(txid);
      if crash3 {
        return Crashed;
      }
      return Done;
    }

    /** Whether the chain has confirmed the transaction; `None` if the services do not
        know it or disagree. It may also fail. */
    method FetchConfirmation(txid: nat) returns (a: Option<Option<bool>>)
      modifies this`answered
      ensures answered == old(answered) + if a.Some? then [(txid, a.value)] else []
    {
      a := *;
      if a.Some? {
        answered := answered + [(txid, a.value)];
      }
    }

    /** One entry of the scan, and what the chain said about it: a confirmed operation
        is applied, leaves the queue and is marked confirmed; an unconfirmed one is
        marked pending; an unknown one is left alone. */
    method ScanOne(txid: nat) returns (o: Outcome, confirmed: Option<bool>)
      requires Valid() && txid in ops
      modifies this`ops, this`statuses, this`stock, this`applied, this`answered
      ensures Valid()
      ensures o.Done? ==> answered == old(answered) + [(txid, confirmed)]
      ensures OnlyEntry(old(ops), old(statuses), old(applied), ops, statuses, applied, txid)
      ensures o.Done? ==> Scanned(old(statuses), ops, statuses, applied, txid, confirmed)
      ensures o.Done? && confirmed != Some(true) ==> ops == old(ops) && stock == old(stock) && applied == old(applied)
    {
      confirmed := None;
      if txid in statuses && Terminal(statuses[txid]) {
        return Done, None;
      }
      var answer := FetchConfirmation(txid);
      if answer.None? {
        return Failed, None;
      }
      confirmed := answer.value;
      if confirmed.None? {
        return Done, confirmed;
      }
      var crash: bool := *;
      if !confirmed.value {
        PutStatus(txid, Pending);
        return if crash then Crashed else Done, confirmed;
      }
      o := Replay(txid);
      if !o.Done? {
        return;
      }
      PutStatus(txid, Confirmed);
      return if crash then Crashed else Done, confirmed;
    }

    /** Scans the operations that were pending at its start, in any order. A scan that
        ends well has dealt with each of them, by what the chain said. */
    method Scan() returns (o: Outcome, answers: map<nat, Option<bool>>)
      requires Valid()
      modifies this`ops, this`statuses, this`stock, this`applied, this`answered
      ensures Valid()
      ensures o.Done? ==> answers.Keys == old(ops).Keys && Heard(old(answered), answered, answers)
      ensures o.Done? ==>
              forall t :: t in answers ==> Scanned(old(statuses), ops, statuses, applied, t, answers[t])
      ensures o.Done? ==> forall t :: t in ops <==> t in old(ops) && answers[t] != Some(true)
    {
      var todo := ops.Keys;
      answers := map[];
      SweptStart(ops, statuses, applied);
      hide QueueOk, StockOk, Replayable, Swept, Scanned, OnlyEntry;
      while todo != {}
        invariant Valid() && Swept(old(ops), old(statuses), ops, statuses, applied, todo, answers)
        invariant Heard(old(answered), answered, answers)
        decreases |todo|
      {
        var txid :| txid in todo;
        SweptOpen(old(ops), old(statuses), ops, statuses, applied, todo, answers, txid);
        var confirmed;
        o, confirmed := Visit(old(ops), old(statuses), todo, answers, txid);
        if !o.Done? {
          return;
        }
        HeardMore(old(answered), answered[..|answered| - 1], answers, txid, confirmed);
        todo, answers := todo - {txid}, answers[txid := confirmed];
      }
      SweptDone(old(ops), old(statuses), ops, statuses, applied, answers);
      o := Done;
    }

    /** The next entry of a scan. */
    method Visit(ghost ops0: map<nat, Op>, ghost before: map<nat, Status>, ghost todo: set<nat>,
                 ghost answers: map<nat, Option<bool>>, txid: nat)
      returns (o: Outcome, confirmed: Option<bool>)
      requires Valid() && txid in todo && txid in ops
      requires Swept(ops0, before, ops, statuses, applied, todo, answers)
      modifies this`ops, this`statuses, this`stock, this`applied, this`answered
      ensures Valid()
      ensures o.Done? ==> answered == old(answered) + [(txid, confirmed)]
      ensures o.Done? ==> Swept(ops0, before, ops, statuses, applied, todo - {txid}, answers[txid := confirmed])
    {
      hide QueueOk, StockOk, Replayable, Swept, Scanned, OnlyEntry;
      o, confirmed := ScanOne(txid);
      if o.Done? {
        SweptStep(ops0, before, old(ops), old(statuses), old(applied), ops, statuses, applied, todo, answers, txid,
                  confirmed);
      }
    }
  }

  /** What becomes of an entry, by what the chain said about it. */
  ghost predicate Scanned<Op>(before: map<nat, Status>, ops: map<nat, Op>, statuses: map<nat, Status>,
                              applied: seq<nat>, txid: nat, confirmed: Option<bool>)
  {
    match confirmed
    case Some(true) => txid in applied && txid !in ops && txid in statuses && statuses[txid] == Confirmed
    case Some(false) => txid in ops && txid in statuses && statuses[txid] == Pending
    case None =>
      txid in ops && (txid in statuses <==> txid in before) && (txid in statuses ==> statuses[txid] == before[txid])
  }

  /** Each of these was answered by the chain since. */
  ghost predicate Heard(before: seq<(nat, Option<bool>)>, answered: seq<(nat, Option<bool>)>,
                        answers: map<nat, Option<bool>>)
  {
    before <= answered && forall t :: t in answers ==> (t, answers[t]) in answered[|before|..]
  }

  lemma HeardMore(before: seq<(nat, Option<bool>)>, answered: seq<(nat, Option<bool>)>,
                  answers: map<nat, Option<bool>>, txid: nat, confirmed: Option<bool>)
    requires Heard(before, answered, answers)
    ensures Heard(before, answered + [(txid, confirmed)], answers[txid := confirmed])
  {
    assert (answered + [(txid, confirmed)])[|before|..] == answered[|before|..] + [(txid, confirmed)];
  }

  /** Nothing but the entry differs, except that effects may have been added. */
  ghost predicate OnlyEntry<Op>(ops0: map<nat, Op>, statuses0: map<nat, Status>, applied0: seq<nat>, ops: map<nat, Op>,
                                statuses: map<nat, Status>, applied: seq<nat>, txid: nat)
  {
    && (forall t :: t != txid ==> (t in ops <==> t in ops0)) && (txid in ops ==> txid in ops0)
    && (forall t :: t in ops ==> ops[t] == ops0[t])
    && (forall t :: t != txid ==> (t in statuses <==> t in statuses0))
    && (forall t :: t != txid && t in statuses ==> statuses[t] == statuses0[t])
    && (forall t :: t in applied0 ==> t in applied)
  }

  /** A scan has dealt with everything that was queued at its start, except what is
      still to do. */
  ghost predicate Swept<Op>(ops0: map<nat, Op>, before: map<nat, Status>, ops: map<nat, Op>,
                            statuses: map<nat, Status>, applied: seq<nat>, todo: set<nat>,
                            answers: map<nat, Option<bool>>)
  {
    && todo <= ops0.Keys && answers.Keys == ops0.Keys - todo
    && (forall t :: t in ops <==> t in todo || (t in answers && answers[t] != Some(true)))
    && (forall t :: t in todo ==> Untouched(before, statuses, t))
    && (forall t :: t in answers ==> Scanned(before, ops, statuses, applied, t, answers[t]))
  }

  ghost predicate Untouched(before: map<nat, Status>, statuses: map<nat, Status>, t: nat) {
    (t in statuses <==> t in before) && (t in statuses ==> statuses[t] == before[t])
  }

  lemma SweptStart<Op>(ops: map<nat, Op>, statuses: map<nat, Status>, applied: seq<nat>)
    ensures Swept(ops, statuses, ops, statuses, applied, ops.Keys, map[])
  {
  }

  lemma SweptOpen<Op>(ops0: map<nat, Op>, before: map<nat, Status>, ops: map<nat, Op>, statuses: map<nat, Status>,
                      applied: seq<nat>, todo: set<nat>, answers: map<nat, Option<bool>>, txid: nat)
    requires Swept(ops0, before, ops, statuses, applied, todo, answers) && txid in todo
    ensures txid in ops
  {
  }

  lemma SweptDone<Op>(ops0: map<nat, Op>, before: map<nat, Status>, ops: map<nat, Op>, statuses: map<nat, Status>,
                      applied: seq<nat>, answers: map<nat, Option<bool>>)
    requires Swept(ops0, before, ops, statuses, applied, {}, answers)
    ensures answers.Keys == ops0.Keys
    ensures forall t :: t in answers ==> Scanned(before, ops, statuses, applied, t, answers[t])
    ensures forall t :: t in ops <==> t in ops0 && answers[t] != Some(true)
  {
    hide Scanned;
  }

  lemma {:induction false} SweptStep<Op>(
      ops0: map<nat, Op>, before: map<nat, Status>, opsA: map<nat, Op>, statusesA: map<nat, Status>, appliedA: seq<nat>,
      ops: map<nat, Op>, statuses: map<nat, Status>, applied: seq<nat>, todo: set<nat>,
      answers: map<nat, Option<bool>>, txid: nat, confirmed: Option<bool>)
    requires Swept(ops0, before, opsA, statusesA, appliedA, todo, answers) && txid in todo
    requires OnlyEntry(opsA, statusesA, appliedA, ops, statuses, applied, txid)
    requires Scanned(statusesA, ops, statuses, applied, txid, confirmed)
    ensures Swept(ops0, before, ops, statuses, applied, todo - {txid}, answers[txid := confirmed])
  {
    var answers' := answers[txid := confirmed];
    assert txid !in answers && Untouched(before, statusesA, txid);
    assert answers'.Keys == answers.Keys + {txid} == ops0.Keys - (todo - {txid});
    forall t | t in answers'
      ensures Scanned(before, ops, statuses, applied, t, answers'[t])
    {
      if t != txid {
        assert Scanned(before, opsA, statusesA, appliedA, t, answers[t]);
      }
    }
    forall t | t in todo - {txid}
      ensures Untouched(before, statuses, t)
    {
      assert Untouched(before, statusesA, t);
    }
  }

  datatype Request<Op> = StageOp(txid: nat, op: Op) | ScanAll

  /** A transaction is always staged with the same operation. */
  predicate StagedAlike<Op(==)>(requests: seq<Request<Op>>) {
    forall i, j ::
      (0 <= i < j < |requests| && requests[i].StageOp? && requests[j].StageOp?
       && requests[i].txid == requests[j].txid) ==>
        requests[i].op == requests[j].op
  }

  /** The operation a transaction was staged with. */
  ghost predicate StagedWith<Op>(requests: seq<Request<Op>>, txid: nat, op: Op) {
    exists i :: 0 <= i < |requests| && requests[i] == StageOp(txid, op)
  }

  /** The state after a run, with the operations applied in their order: a queued
      operation is never in a terminal status, an operation leaves the queue only
      when its effect is in the stored stock, a confirmed status means that the
      effect is there, and the stock is what applying each of these operations
      once, in one order, makes of the initial stock. */
  ghost predicate RunOk<Op, Stock>(apply: (Op, Stock) -> Option<Stock>, present: (Op, Stock) -> bool, initial: Stock,
                                   requests: seq<Request<Op>>, ops: map<nat, Op>, statuses: map<nat, Status>,
                                       stock: Stock,
                                   applied: seq<nat>, appliedOps: seq<Op>)
  {
    && |applied| == |appliedOps|
    && (forall i :: 0 <= i < |applied| ==>
        StagedWith(requests, applied[i], appliedOps[i]) && present(appliedOps[i], stock))
    && (forall i, j :: 0 <= i < j < |applied| ==> applied[i] != applied[j])
    && ApplyAll(apply, appliedOps, initial) == Some(stock)
    && (forall t :: t in ops ==> StagedWith(requests, t, ops[t]) && t in statuses && !Terminal(statuses[t]))
    && (forall i :: 0 <= i < |requests| && requests[i].StageOp? && requests[i].txid !in ops ==>
        requests[i].txid in applied)
    && (forall t :: t in statuses && statuses[t] == Confirmed ==> t in applied)
  }

  /** Every run of stagings and scans, whatever fails or crashes. */
  method Run<Op(==,!new), Stock(!new)>(apply: (Op, Stock) -> Option<Stock>, ghost present: (Op, Stock) -> bool,
                initial: Stock,
                                       requests: seq<Request<Op>>)
    returns (ops: map<nat, Op>, statuses: map<nat, Status>, stock: Stock)
    requires Replayable(apply, present) && StagedAlike(requests)
    ensures exists applied,
            appliedOps :: RunOk(apply, present, initial, requests, ops, statuses, stock, applied, appliedOps)
  {
    var q := new Queue(apply, present, initial);
    for i := 0 to |requests|
      invariant fresh(q) && q.Valid() && q.apply == apply && q.present == present && q.initial == initial
      invariant StagedIs(requests, i, q.staged)
    {
      StageMore(requests, i, q.staged);
      match requests[i]
      case StageOp(txid, op) => q.Stage(txid, op);
      case ScanAll => var _, _ := q.Scan();
    }
    ops, statuses, stock := q.ops, q.statuses, q.stock;
    RunIsOk(apply, present, initial, requests, q.Im());
    assert RunOk(apply, present, initial, requests, ops, statuses, stock, q.applied, OpsOf(q.staged, q.applied));
  }

  /** What was staged by the first `n` requests. */
  ghost predicate StagedIs<Op>(requests: seq<Request<Op>>, n: nat, staged: map<nat, Op>)
    requires n <= |requests|
  {
    && (forall t :: t in staged ==> StagedWith(requests[..n], t, staged[t]))
    && (forall j :: 0 <= j < n && requests[j].StageOp? ==>
        requests[j].txid in staged && staged[requests[j].txid] == requests[j].op)
  }

  lemma StageMore<Op>(requests: seq<Request<Op>>, n: nat, staged: map<nat, Op>)
    requires n < |requests| && StagedIs(requests, n, staged) && StagedAlike(requests)
    ensures requests[n].ScanAll? ==> StagedIs(requests, n + 1, staged)
    ensures requests[n].StageOp? ==>
              && (requests[n].txid in staged ==> staged[requests[n].txid] == requests[n].op)
              && StagedIs(requests, n + 1, staged[requests[n].txid := requests[n].op])
  {
    forall t, o | StagedWith(requests[..n], t, o)
      ensures StagedWith(requests[..n + 1], t, o)
    {
      var i :| 0 <= i < n && requests[..n][i] == StageOp(t, o);
      assert requests[..n + 1][i] == StageOp(t, o);
    }
    assert requests[..n + 1][n] == requests[n];
    if requests[n].StageOp? && requests[n].txid in staged {
      var t := requests[n].txid;
      var i :| 0 <= i < n && requests[..n][i] == StageOp(t, staged[t]);
      assert requests[i].op == requests[n].op;
    }
  }

  lemma RunIsOk<Op(!new), Stock(!new)>(apply: (Op, Stock) -> Option<Stock>, present: (Op, Stock) -> bool,
                   initial: Stock,
                                       requests: seq<Request<Op>>, im: Image<Op, Stock>)
    requires QueueOk(im) && StockOk(apply, present, initial, im) && StagedIs(requests, |requests|, im.staged)
    ensures RunOk(apply, present, initial, requests, im.ops, im.statuses, im.stock, im.applied,
            OpsOf(im.staged, im.applied))
  {
    assert requests[..|requests|] == requests;
  }
}
