/** State transitions of contracts: what they consume and what they assign. */
module Transitions {
  import opened Basics

  datatype State = Void | Amount(value: u64) | Data(data: nat)

  /** An assignment of an earlier operation, named by operation, type and
      position. */
  datatype Opout = Opout(op: nat, ty: nat, no: nat)

  /** State that a contract keeps on a transaction output. */
  datatype Held = Held(opout: Opout, outpoint: nat, state: State)

  datatype Out<S> = Out(ty: nat, seal: S, state: State)

  datatype Transition<S> = Transition(contract: nat, inputs: seq<Held>, outs: seq<Out<S>>)

  /** The current state of each contract. */
  type Stock = map<nat, seq<Held>>

  predicate DistinctOpouts(held: seq<Held>) {
    forall i, j :: 0 <= i < j < |held| ==> held[i].opout != held[j].opout
  }

  ghost predicate StockOk(stock: Stock) {
    forall c :: c in stock ==> DistinctOpouts(stock[c])
  }

  /** What a contract keeps on the given outpoints. */
  function On(held: seq<Held>, outpoints: set<nat>): seq<Held> {
    if held == [] then []
    else On(held[..|held| - 1], outpoints) + if held[|held| - 1].outpoint in outpoints then [held[|held| - 1]] else []
  }

  lemma {:induction false} InOn(held: seq<Held>, outpoints: set<nat>, h: Held)
    ensures h in On(held, outpoints) <==> h in held && h.outpoint in outpoints
  {
    if held != [] {
      InOn(held[..|held| - 1], outpoints, h);
      assert held == held[..|held| - 1] + [held[|held| - 1]];
    }
  }

  /** It lists each piece as often as the contract does. */
  lemma {:induction false} OnCounts(held: seq<Held>, outpoints: set<nat>, h: Held)
    ensures multiset(On(held, outpoints))[h] == if h.outpoint in outpoints then multiset(held)[h] else 0
  {
    if held != [] {
      OnCounts(held[..|held| - 1], outpoints, h);
      assert held == held[..|held| - 1] + [held[|held| - 1]];
    }
  }

  lemma {:induction false} OnDistinct(held: seq<Held>, outpoints: set<nat>)
    requires DistinctOpouts(held)
    ensures DistinctOpouts(On(held, outpoints))
  {
    if held != [] {
      var rest, last := held[..|held| - 1], held[|held| - 1];
      OnDistinct(rest, outpoints);
      forall h | h in On(rest, outpoints)
        ensures h.opout != last.opout
      {
        InOn(rest, outpoints, h);
      }
    }
  }

  /** Assigning to a seal that already has state of the type replaces it. */
  function Put<S(==)>(outs: seq<Out<S>>, o: Out<S>): seq<Out<S>> {
    if Assigned(outs, o.ty, o.seal) then Replace(outs, o) else outs + [o]
  }

  function Replace<S(==)>(outs: seq<Out<S>>, o: Out<S>): seq<Out<S>> {
    seq(|outs|, i requires 0 <= i < |outs| => if outs[i].ty == o.ty && outs[i].seal == o.seal then o else outs[i])
  }

  predicate Assigned<S(==)>(outs: seq<Out<S>>, ty: nat, seal: S) {
    exists i :: 0 <= i < |outs| && outs[i].ty == ty && outs[i].seal == seal
  }

  function Value(s: State): nat {
    if s.Amount? then s.value else 0
  }

  /** The amounts of one type put in. */
  function SumIn(inputs: seq<Held>, ty: nat): nat {
    if inputs == [] then 0
    else SumIn(inputs[..|inputs| - 1], ty) +
         if inputs[|inputs| - 1].opout.ty == ty then Value(inputs[|inputs| - 1].state) else 0
  }

  /** The amounts of one type that a contract keeps on the outpoints. */
  function AmountOn(held: seq<Held>, outpoints: set<nat>, ty: nat): nat {
    if held == [] then 0
    else
      var last := held[|held| - 1];
      AmountOn(held[..|held| - 1], outpoints, ty) +
      if last.outpoint in outpoints && last.opout.ty == ty then Value(last.state) else 0
  }

  lemma {:induction false} OnSums(held: seq<Held>, outpoints: set<nat>, ty: nat)
    ensures SumIn(On(held, outpoints), ty) == AmountOn(held, outpoints, ty)
  {
    if held != [] {
      var rest, last := held[..|held| - 1], held[|held| - 1];
      OnSums(rest, outpoints, ty);
      if last.outpoint in outpoints {
        SumInSnoc(On(rest, outpoints), last, ty);
      } else {
        assert On(rest, outpoints) + [] == On(rest, outpoints);
      }
    }
  }

  /** The amounts of one type put out. */
  function SumOut<S>(outs: seq<Out<S>>, ty: nat): nat {
    if outs == [] then 0
    else SumOut(outs[..|outs| - 1], ty) + if outs[|outs| - 1].ty == ty then Value(outs[|outs| - 1].state) else 0
  }

  /** All amounts put in, whatever their type. */
  function SumAll(inputs: seq<Held>): nat {
    if inputs == [] then 0 else SumAll(inputs[..|inputs| - 1]) + Value(inputs[|inputs| - 1].state)
  }

  ghost predicate Conserves<S>(t: Transition<S>) {
    forall ty :: SumOut(t.outs, ty) == SumIn(t.inputs, ty)
  }

  lemma SumInSnoc(inputs: seq<Held>, h: Held, ty: nat)
    ensures SumIn(inputs + [h], ty) == SumIn(inputs, ty) + if h.opout.ty == ty then Value(h.state) else 0
    ensures SumAll(inputs + [h]) == SumAll(inputs) + Value(h.state)
  {
    assert (inputs + [h])[..|inputs|] == inputs;
  }

  lemma SumOutSnoc<S>(outs: seq<Out<S>>, o: Out<S>, ty: nat)
    ensures SumOut(outs + [o], ty) == SumOut(outs, ty) + if o.ty == ty then Value(o.state) else 0
  {
    assert (outs + [o])[..|outs|] == outs;
  }

  /** What a seal has been assigned of a type. */
  function SumAt<S(==)>(outs: seq<Out<S>>, ty: nat, seal: S): nat {
    if outs == [] then 0
    else SumAt(outs[..|outs| - 1], ty, seal) +
         if outs[|outs| - 1].ty == ty && outs[|outs| - 1].seal == seal then Value(outs[|outs| - 1].state) else 0
  }

  predicate DistinctSeals<S(==)>(outs: seq<Out<S>>) {
    forall i, j :: 0 <= i < j < |outs| ==> outs[i].ty != outs[j].ty || outs[i].seal != outs[j].seal
  }

  lemma {:induction false} SumAtNone<S>(outs: seq<Out<S>>, ty: nat, seal: S)
    requires !Assigned(outs, ty, seal)
    ensures SumAt(outs, ty, seal) == 0
  {
    if outs != [] {
      var rest := outs[..|outs| - 1];
      assert forall i :: 0 <= i < |rest| ==> rest[i] == outs[i];
      SumAtNone(rest, ty, seal);
    }
  }

  /** An assignment adds its amount, less what its seal had before. */
  lemma PutSum<S>(outs: seq<Out<S>>, o: Out<S>, ty: nat)
    requires DistinctSeals(outs)
    ensures SumOut(Put(outs, o), ty) ==
            if ty == o.ty then SumOut(outs, ty) - SumAt(outs, ty, o.seal) + Value(o.state) else SumOut(outs, ty)
  {
    if Assigned(outs, o.ty, o.seal) {
      ReplaceSum(outs, o, ty);
    } else {
      SumOutSnoc(outs, o, ty);
      SumAtNone(outs, o.ty, o.seal);
    }
  }

  /** Replacing in a longer list. */
  lemma ReplaceSnoc<S>(rest: seq<Out<S>>, last: Out<S>, o: Out<S>)
    requires DistinctSeals(rest + [last]) && Assigned(rest + [last], o.ty, o.seal)
    ensures DistinctSeals(rest)
    ensures if last.ty == o.ty && last.seal == o.seal
            then !Assigned(rest, o.ty, o.seal) && Replace(rest + [last], o) == rest + [o]
            else Assigned(rest, o.ty, o.seal) && Replace(rest + [last], o) == Replace(rest, o) + [last]
  {
    var outs := rest + [last];
    assert forall i :: 0 <= i < |rest| ==> outs[i] == rest[i];
    AssignedSnoc(rest, last, o.ty, o.seal);
    if last.ty == o.ty && last.seal == o.seal {
      assert outs[|rest|] == last;
      assert !Assigned(rest, o.ty, o.seal);
    }
  }

  lemma {:induction false} ReplaceSum<S>(outs: seq<Out<S>>, o: Out<S>, ty: nat)
    requires DistinctSeals(outs) && Assigned(outs, o.ty, o.seal)
    ensures SumOut(Replace(outs, o), ty) ==
            if ty == o.ty then SumOut(outs, ty) - SumAt(outs, ty, o.seal) + Value(o.state) else SumOut(outs, ty)
  {
    var rest, last := outs[..|outs| - 1], outs[|outs| - 1];
    assert outs == rest + [last];
    hide *;
    ReplaceSnoc(rest, last, o);
    SumOutSnoc(rest, last, ty);
    SumAtSnoc(rest, last, o.ty, o.seal);
    if last.ty == o.ty && last.seal == o.seal {
      SumAtNone(rest, o.ty, o.seal);
      SumOutSnoc(rest, o, ty);
    } else {
      ReplaceSum(rest, o, ty);
      SumOutSnoc(Replace(rest, o), last, ty);
    }
  }

  lemma AssignedSnoc<S>(outs: seq<Out<S>>, o: Out<S>, ty: nat, seal: S)
    ensures Assigned(outs + [o], ty, seal) <==> Assigned(outs, ty, seal) || (o.ty == ty && o.seal == seal)
  {
    if Assigned(outs, ty, seal) {
      var i :| 0 <= i < |outs| && outs[i].ty == ty && outs[i].seal == seal;
      assert (outs + [o])[i] == outs[i];
    }
    assert (outs + [o])[|outs|] == o;
  }

  lemma PutAssigned<S>(outs: seq<Out<S>>, o: Out<S>, ty: nat, seal: S)
    requires DistinctSeals(outs)
    ensures DistinctSeals(Put(outs, o))
    ensures Assigned(Put(outs, o), ty, seal) <==> Assigned(outs, ty, seal) || (ty == o.ty && seal == o.seal)
  {
    if Assigned(outs, o.ty, o.seal) {
      var r := Replace(outs, o);
      assert forall i :: 0 <= i < |r| ==> r[i].ty == outs[i].ty && r[i].seal == outs[i].seal;
      if Assigned(outs, ty, seal) {
        var i :| 0 <= i < |outs| && outs[i].ty == ty && outs[i].seal == seal;
        assert r[i].ty == ty;
      }
    } else {
      AssignedSnoc(outs, o, ty, seal);
      assert forall i :: 0 <= i < |outs| ==> outs[i].ty != o.ty || outs[i].seal != o.seal;
    }
  }

  /** What a seal has after an assignment. */
  lemma PutAt<S>(outs: seq<Out<S>>, o: Out<S>, ty: nat, seal: S)
    requires DistinctSeals(outs)
    ensures SumAt(Put(outs, o), ty, seal) ==
            if ty == o.ty && seal == o.seal then Value(o.state) else SumAt(outs, ty, seal)
  {
    if Assigned(outs, o.ty, o.seal) {
      ReplaceAt(outs, o, ty, seal);
    } else {
      assert (outs + [o])[..|outs|] == outs;
      SumAtNone(outs, o.ty, o.seal);
    }
  }

  lemma SumAtSnoc<S>(outs: seq<Out<S>>, o: Out<S>, ty: nat, seal: S)
    ensures SumAt(outs + [o], ty, seal) ==
            SumAt(outs, ty, seal) + if o.ty == ty && o.seal == seal then Value(o.state) else 0
  {
    assert (outs + [o])[..|outs|] == outs;
  }

  lemma {:induction false} ReplaceAt<S>(outs: seq<Out<S>>, o: Out<S>, ty: nat, seal: S)
    requires DistinctSeals(outs) && Assigned(outs, o.ty, o.seal)
    ensures SumAt(Replace(outs, o), ty, seal) ==
            if ty == o.ty && seal == o.seal then Value(o.state) else SumAt(outs, ty, seal)
  {
    var rest, last := outs[..|outs| - 1], outs[|outs| - 1];
    assert outs == rest + [last];
    hide *;
    ReplaceSnoc(rest, last, o);
    SumAtSnoc(rest, last, ty, seal);
    if last.ty == o.ty && last.seal == o.seal {
      SumAtNone(rest, o.ty, o.seal);
      SumAtSnoc(rest, o, ty, seal);
    } else {
      ReplaceAt(rest, o, ty, seal);
      SumAtSnoc(Replace(rest, o), last, ty, seal);
    }
  }

  // ------------------------------------------------------------------ payments

  /** The type of the "assetOwner" state. */
  const ASSET: nat := 4000

  /** An amount for a seal. */
  datatype Payment<S> = Payment(seal: S, amount: u64)

  predicate OneEachSeal<S(==)>(ps: seq<Payment<S>>) {
    forall i, j :: 0 <= i < j < |ps| ==> ps[i].seal != ps[j].seal
  }

  function PaidTo<S(==)>(ps: seq<Payment<S>>, seal: S): nat {
    if ps == [] then 0
    else PaidTo(ps[..|ps| - 1], seal) + if ps[|ps| - 1].seal == seal then ps[|ps| - 1].amount as int else 0
  }

  function Total<S>(ps: seq<Payment<S>>): nat {
    if ps == [] then 0 else Total(ps[..|ps| - 1]) + ps[|ps| - 1].amount as int
  }

  function PaymentOuts<S>(ps: seq<Payment<S>>): (r: seq<Out<S>>)
    ensures |r| == |ps| && forall i :: 0 <= i < |ps| ==> r[i] == Out(ASSET, ps[i].seal, Amount(ps[i].amount))
  {
    seq(|ps|, i requires 0 <= i < |ps| => Out(ASSET, ps[i].seal, Amount(ps[i].amount)))
  }

  lemma PaidToSnoc<S>(ps: seq<Payment<S>>, p: Payment<S>, s: S)
    ensures PaidTo(ps + [p], s) == PaidTo(ps, s) + if p.seal == s then p.amount as int else 0
  {
    assert (ps + [p])[..|ps|] == ps;
  }

  lemma PaidToNone<S>(ps: seq<Payment<S>>, s: S)
    requires forall i :: 0 <= i < |ps| ==> ps[i].seal != s
    ensures PaidTo(ps, s) == 0
  {
  }

  lemma TotalStep<S>(ps: seq<Payment<S>>, i: nat)
    requires i < |ps|
    ensures Total(ps[..i + 1]) == Total(ps[..i]) + ps[i].amount as int
  {
    assert ps[..i + 1][..i] == ps[..i];
  }

  lemma {:induction false} TotalGrows<S>(ps: seq<Payment<S>>, i: nat)
    requires i <= |ps|
    ensures Total(ps[..i]) <= Total(ps)
    decreases |ps| - i
  {
    if i < |ps| {
      TotalGrows(ps, i + 1);
      TotalStep(ps, i);
    } else {
      assert ps[..i] == ps;
    }
  }

  lemma {:induction false} PaymentSums<S>(ps: seq<Payment<S>>, ty: nat, seal: S)
    ensures SumOut(PaymentOuts(ps), ty) == if ty == ASSET then Total(ps) else 0
    ensures SumAt(PaymentOuts(ps), ASSET, seal) == PaidTo(ps, seal)
  {
    if ps != [] {
      PaymentSums(ps[..|ps| - 1], ty, seal);
      assert PaymentOuts(ps)[..|ps| - 1] == PaymentOuts(ps[..|ps| - 1]);
    }
  }

  // ------------------------------------------------------ lists of transitions

  predicate DistinctContracts<S>(ts: seq<Transition<S>>) {
    forall i, j :: 0 <= i < j < |ts| ==> ts[i].contract != ts[j].contract
  }

  function Contracts<S>(ts: seq<Transition<S>>): set<nat> {
    set i | 0 <= i < |ts| :: ts[i].contract
  }

  lemma ContractsSnoc<S>(ts: seq<Transition<S>>, t: Transition<S>)
    ensures Contracts(ts + [t]) == Contracts(ts) + {t.contract}
    ensures DistinctContracts(ts) && t.contract !in Contracts(ts) ==> DistinctContracts(ts + [t])
  {
    assert (ts + [t])[|ts|] == t;
    assert forall i :: 0 <= i < |ts| ==> (ts + [t])[i] == ts[i] && ts[i].contract in Contracts(ts);
  }
}
