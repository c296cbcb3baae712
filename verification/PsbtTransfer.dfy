/** Building the transitions of an RGB20 payment into a transaction: one transfer
    per paid contract, and a blank transition for every other piece of state on
    a spent input. */
module PsbtTransfer {
  import opened Basics
  import opened Transitions

  datatype Seal = Blind(secret: nat) | Vout(vout: nat) | FreshChange

  datatype Request = Request(contract: nat, amount: u64, seal: Seal)

  type Move = Transition<Seal>

  // ------------------------------------------------------------------ requests

  predicate DistinctPayments(ps: seq<Payment<Seal>>) {
    OneEachSeal(ps) && forall i :: 0 <= i < |ps| ==> ps[i].seal != FreshChange
  }

  /** What all requests ask for one seal of one contract. */
  function Asked(requests: seq<Request>, contract: nat, seal: Seal): nat {
    if requests == [] then 0
    else
      var r := requests[|requests| - 1];
      Asked(requests[..|requests| - 1], contract, seal) + if r.contract == contract && r.seal == seal
          then r.amount as int else 0
  }

  /** Adding to the payment of a seal, saturating. */
  function Pay(ps: seq<Payment<Seal>>, seal: Seal, amount: u64): seq<Payment<Seal>> {
    if ps == [] then [Payment(seal, amount)]
    else if ps[|ps| - 1].seal == seal
    then ps[..|ps| - 1] + [Payment(seal, Capped(ps[|ps| - 1].amount as int + amount as int))]
    else Pay(ps[..|ps| - 1], seal, amount) + [ps[|ps| - 1]]
  }

  lemma {:induction false} PaySeals(ps: seq<Payment<Seal>>, seal: Seal, amount: u64)
    requires DistinctPayments(ps) && seal != FreshChange
    ensures DistinctPayments(Pay(ps, seal, amount)) && Pay(ps, seal, amount) != []
    ensures forall i :: 0 <= i < |Pay(ps, seal, amount)| ==>
              || Pay(ps, seal, amount)[i].seal == seal
              || exists j :: 0 <= j < |ps| && ps[j].seal == Pay(ps, seal, amount)[i].seal
  {
    if ps != [] && ps[|ps| - 1].seal != seal {
      var rest := ps[..|ps| - 1];
      PaySeals(rest, seal, amount);
      assert forall j :: 0 <= j < |rest| ==> rest[j] == ps[j];
    }
  }

  lemma PayAdds(ps: seq<Payment<Seal>>, seal: Seal, amount: u64, s: Seal)
    requires DistinctPayments(ps)
    ensures PaidTo(Pay(ps, seal, amount), s) ==
            if s == seal then Capped(PaidTo(ps, seal) + amount) as int else PaidTo(ps, s)
    decreases |ps|, 1
  {
    if ps == [] {
      PaidToSnoc([], Payment(seal, amount), s);
      assert [] + [Payment(seal, amount)] == [Payment(seal, amount)];
    } else {
      var rest, last := ps[..|ps| - 1], ps[|ps| - 1];
      assert ps == rest + [last] && DistinctPayments(rest);
      assert last.seal == seal ==> forall i :: 0 <= i < |rest| ==> rest[i].seal != seal;
      PayRest(ps, rest, last, seal, amount, s);
    }
  }

  lemma PaySnoc(rest: seq<Payment<Seal>>, last: Payment<Seal>, seal: Seal, amount: u64)
    ensures Pay(rest + [last], seal, amount) ==
            if last.seal == seal then rest + [Payment(seal, Capped(last.amount as int + amount as int))]
            else Pay(rest, seal, amount) + [last]
  {
    assert (rest + [last])[..|rest|] == rest;
  }

  lemma PayRest(ps: seq<Payment<Seal>>, rest: seq<Payment<Seal>>, last: Payment<Seal>, seal: Seal, amount: u64, s: Seal)
    requires ps == rest + [last] && DistinctPayments(rest)
    requires last.seal == seal ==> forall i :: 0 <= i < |rest| ==> rest[i].seal != seal
    ensures PaidTo(Pay(ps, seal, amount), s) ==
            if s == seal then Capped(PaidTo(ps, seal) + amount) as int else PaidTo(ps, s)
    decreases |ps|, 0
  {
    hide PaidTo, Pay, DistinctPayments;
    PaySnoc(rest, last, seal, amount);
    PaidToSnoc(rest, last, s);
    PaidToSnoc(rest, last, seal);
    if last.seal == seal {
      PaidToNone(rest, seal);
      PaidToSnoc(rest, Payment(seal, Capped(last.amount as int + amount as int)), s);
    } else {
      PayAdds(rest, seal, amount, s);
      PaidToSnoc(Pay(rest, seal, amount), last, s);
    }
  }

  /** Payments per contract agree with the requests: one per seal, capped. */
  ghost predicate Merged(requests: seq<Request>, m: map<nat, seq<Payment<Seal>>>) {
    && (forall c :: c in m <==> Requested(requests, c))
    && (forall c :: c in m ==> DistinctPayments(m[c]) && m[c] != [])
    && (forall c, s :: c in m ==> PaidTo(m[c], s) == Capped(Asked(requests, c, s)))
  }

  ghost predicate Requested(requests: seq<Request>, c: nat) {
    exists i :: 0 <= i < |requests| && requests[i].contract == c
  }

  lemma AskedSnoc(requests: seq<Request>, r: Request, c: nat, s: Seal)
    ensures Asked(requests + [r], c, s) ==
            Asked(requests, c, s) + if r.contract == c && r.seal == s then r.amount as int else 0
  {
    assert (requests + [r])[..|requests|] == requests;
  }

  lemma RequestedSnoc(requests: seq<Request>, r: Request, c: nat)
    ensures Requested(requests + [r], c) <==> Requested(requests, c) || r.contract == c
  {
    if Requested(requests, c) {
      var i :| 0 <= i < |requests| && requests[i].contract == c;
      assert (requests + [r])[i].contract == c;
    }
    assert (requests + [r])[|requests|] == r;
  }

  lemma {:induction false} NotAsked(requests: seq<Request>, c: nat, s: Seal)
    requires !Requested(requests, c)
    ensures Asked(requests, c, s) == 0
  {
    if requests != [] {
      var rest := requests[..|requests| - 1];
      assert forall i :: 0 <= i < |rest| ==> rest[i] == requests[i];
      NotAsked(rest, c, s);
    }
  }

  lemma MergeOne(requests: seq<Request>, m: map<nat, seq<Payment<Seal>>>, r: Request)
    requires Merged(requests, m) && r.seal != FreshChange
    ensures Merged(requests + [r],
            m[r.contract := Pay(if r.contract in m then m[r.contract] else [], r.seal, r.amount)])
  {
    var prior := if r.contract in m then m[r.contract] else [];
    PaySeals(prior, r.seal, r.amount);
    var m' := m[r.contract := Pay(prior, r.seal, r.amount)];
    hide Pay, PaidTo, Asked, DistinctPayments;
    forall c
      ensures c in m' <==> Requested(requests + [r], c)
    {
      RequestedSnoc(requests, r, c);
    }
    forall c, s | c in m'
      ensures PaidTo(m'[c], s) == Capped(Asked(requests + [r], c, s))
    {
      if c == r.contract {
        MergeAt(requests, prior, r, s, c in m);
      } else {
        AskedSnoc(requests, r, c, s);
      }
    }
  }

  lemma MergeAt(requests: seq<Request>, prior: seq<Payment<Seal>>, r: Request, s: Seal, known: bool)
    requires DistinctPayments(prior)
    requires if known then PaidTo(prior, s) == Capped(Asked(requests, r.contract, s)) &&
             PaidTo(prior, r.seal) == Capped(Asked(requests, r.contract, r.seal))
             else prior == [] && !Requested(requests, r.contract)
    ensures PaidTo(Pay(prior, r.seal, r.amount), s) == Capped(Asked(requests + [r], r.contract, s))
  {
    AskedSnoc(requests, r, r.contract, s);
    PayAdds(prior, r.seal, r.amount, s);
    if !known {
      NotAsked(requests, r.contract, s);
    }
  }

  method Merge(requests: seq<Request>) returns (m: map<nat, seq<Payment<Seal>>>)
    requires forall i :: 0 <= i < |requests| ==> requests[i].seal != FreshChange
    ensures Merged(requests, m)
  {
    m := map[];
    for i := 0 to |requests|
      invariant Merged(requests[..i], m)
    {
      var r := requests[i];
      MergeOne(requests[..i], m, r);
      assert requests[..i + 1] == requests[..i] + [r];
      m := m[r.contract := Pay(if r.contract in m then m[r.contract] else [], r.seal, r.amount)];
    }
    assert requests[..|requests|] == requests;
  }

  // ------------------------------------------------------------------ transfer

  function Fungible(held: seq<Held>): seq<Held> {
    if held == [] then []
    else Fungible(held[..|held| - 1]) + if held[|held| - 1].state.Amount? then [held[|held| - 1]] else []
  }

  function Others(held: seq<Held>): seq<Held> {
    if held == [] then []
    else Others(held[..|held| - 1]) + if held[|held| - 1].state.Amount? then [] else [held[|held| - 1]]
  }

  /** The transfer of one contract: it spends all fungible state, pays the
      recipients and keeps the rest. The input sum wraps at 64 bits. */
  ghost predicate IsTransfer(t: Move, c: nat, held: seq<Held>, ps: seq<Payment<Seal>>) {
    var sum: nat := Wrap(SumAll(Fungible(held)));
    && t.contract == c && t.inputs == Fungible(held) && t.inputs != [] && Total(ps) <= sum
    && t.outs == PaymentOuts(ps) + if sum == Total(ps) then [] else [Out(ASSET, FreshChange, Amount(sum - Total(ps)))]
  }

  lemma FungibleStep(held: seq<Held>, i: nat)
    requires i < |held|
    ensures Fungible(held[..i + 1]) == Fungible(held[..i]) + if held[i].state.Amount? then [held[i]] else []
    ensures Others(held[..i + 1]) == Others(held[..i]) + if held[i].state.Amount? then [] else [held[i]]
  {
    assert held[..i + 1][..i] == held[..i];
  }

  /** Every piece of state is one or the other. */
  lemma {:induction false} FungibleOrOther(held: seq<Held>, h: Held)
    ensures h in Fungible(held) <==> h in held && h.state.Amount?
    ensures h in Others(held) <==> h in held && !h.state.Amount?
  {
    if held != [] {
      FungibleOrOther(held[..|held| - 1], h);
      assert held == held[..|held| - 1] + [held[|held| - 1]];
    }
  }

  /** Adds the fungible state to the inputs and sets aside the rest. */
  method Spend(held: seq<Held>) returns (inputs: seq<Held>, sum: u64, blanks: seq<Held>)
    ensures inputs == Fungible(held) && blanks == Others(held) && sum == Wrap(SumAll(inputs))
  {
    hide Wrap;
    inputs, blanks := [], [];
    sum := Wrap(0);
    for i := 0 to |held|
      invariant inputs == Fungible(held[..i]) && blanks == Others(held[..i])
      invariant sum == Wrap(SumAll(inputs))
    {
      FungibleStep(held, i);
      if held[i].state.Amount? {
        SumInSnoc(inputs, held[i], ASSET);
        WrapAdd(SumAll(inputs), held[i].state.value);
        sum := Wrap(sum as int + held[i].state.value as int);
        inputs := inputs + [held[i]];
      } else {
        blanks := blanks + [held[i]];
      }
    }
    assert held[..|held|] == held;
  }

  lemma NextSealIsNew(ps: seq<Payment<Seal>>, i: nat)
    requires DistinctPayments(ps) && i <= |ps|
    ensures !Assigned(PaymentOuts(ps[..i]), ASSET, FreshChange)
    ensures i < |ps| ==> !Assigned(PaymentOuts(ps[..i]), ASSET, ps[i].seal)
    ensures i < |ps| ==>
            PaymentOuts(ps[..i + 1]) == PaymentOuts(ps[..i]) + [Out(ASSET, ps[i].seal, Amount(ps[i].amount))]
  {
  }

  /** Pays out of the sum, one recipient after the other. */
  method PayOut(sum: u64, ps: seq<Payment<Seal>>) returns (r: Option<seq<Out<Seal>>>)
    requires DistinctPayments(ps)
    ensures r.Some? <==> Total(ps) <= sum
    ensures r.Some? ==>
              r.value == PaymentOuts(ps) + if sum == Total(ps) then []
                  else [Out(ASSET, FreshChange, Amount(sum as int - Total(ps)))]
  {
    var outs := [];
    var change: u64 := sum;
    for i := 0 to |ps|
      invariant outs == PaymentOuts(ps[..i])
      invariant change as int == sum as int - Total(ps[..i])
    {
      TotalStep(ps, i);
      NextSealIsNew(ps, i);
      if change < ps[i].amount {
        TotalGrows(ps, i + 1);
        return None;
      }
      change := change as int - ps[i].amount as int;
      outs := Put(outs, Out(ASSET, ps[i].seal, Amount(ps[i].amount)));
    }
    assert ps[..|ps|] == ps;
    assert change as int == sum as int - Total(ps);
    if change > 0 {
      NextSealIsNew(ps, |ps|);
      outs := Put(outs, Out(ASSET, FreshChange, Amount(change)));
    }
    r := Some(outs);
  }

  /** Spends the fungible state of one contract and sets aside the rest. It fails
      exactly when the payments exceed the sum or there is nothing to spend. */
  method BuildTransfer(c: nat, held: seq<Held>, ps: seq<Payment<Seal>>) returns (r: Option<Move>, blanks: seq<Held>)
    requires DistinctPayments(ps)
    ensures blanks == Others(held)
    ensures r.Some? <==> Total(ps) <= Wrap(SumAll(Fungible(held))) && Fungible(held) != []
    ensures r.Some? ==> IsTransfer(r.value, c, held, ps)
  {
    var inputs, sum;
    inputs, sum, blanks := Spend(held);
    var outs := PayOut(sum, ps);
    if outs.None? || inputs == [] {
      return None, blanks;
    }
    r := Some(Transition(c, inputs, outs.value));
  }

  // -------------------------------------------------------------------- blanks

  function BlankOf(c: nat, h: Held): Move {
    Transition(c, [h], [Out(h.opout.ty, FreshChange, h.state)])
  }

  function Spent(stock: Stock, inputs: seq<nat>, c: nat): seq<Held>
    requires c in stock
  {
    On(stock[c], set i | i in inputs)
  }

  /** What a contract keeps on each input, one input after the other. */
  function OnEach(held: seq<Held>, inputs: seq<nat>): seq<Held> {
    if inputs == [] then [] else OnEach(held, inputs[..|inputs| - 1]) + On(held, {inputs[|inputs| - 1]})
  }

  /** State that gets a blank transition, when the inputs in `seen` have been
      looked at: of paid contracts what is not fungible, of others everything. */
  function BlankState(stock: Stock, inputs: seq<nat>, seen: seq<nat>, paid: set<nat>, c: nat): seq<Held> {
    if c !in stock then []
    else if c in paid then Others(Spent(stock, inputs, c))
    else OnEach(stock[c], seen)
  }

  function Entry(blanks: map<nat, seq<Held>>, c: nat): seq<Held> {
    if c in blanks then blanks[c] else []
  }

  ghost predicate SetAside(stock: Stock, inputs: seq<nat>, seen: seq<nat>, paid: set<nat>,
                           blanks: map<nat, seq<Held>>)
  {
    forall c :: Entry(blanks, c) == BlankState(stock, inputs, seen, paid, c)
  }

  /** What an unpaid contract has on an input. */
  function FreeOn(stock: Stock, input: nat, paid: set<nat>, c: nat): seq<Held> {
    if c in stock && c !in paid then On(stock[c], {input}) else []
  }

  /** State on the input has been added for all contracts but those to do. */
  ghost predicate Added(stock: Stock, input: nat, paid: set<nat>, todo: set<nat>,
                        before: map<nat, seq<Held>>, after: map<nat, seq<Held>>)
  {
    forall c :: Entry(after, c) == if c in todo then Entry(before, c)
        else Entry(before, c) + FreeOn(stock, input, paid, c)
  }

  lemma AddOne(stock: Stock, input: nat, paid: set<nat>, todo: set<nat>, before: map<nat, seq<Held>>,
               after: map<nat, seq<Held>>, c: nat)
    requires Added(stock, input, paid, todo, before, after) && c in todo && c in stock
    ensures Added(stock, input, paid, todo - {c}, before,
                  if c in paid then after else after[c := Entry(after, c) + On(stock[c], {input})])
  {
    var next := if c in paid then after else after[c := Entry(after, c) + On(stock[c], {input})];
    assert Entry(before, c) + [] == Entry(before, c);
    hide On;
    forall d
      ensures Entry(next, d) == if d in todo - {c} then Entry(before, d)
              else Entry(before, d) + FreeOn(stock, input, paid, d)
    {
    }
  }

  lemma AddNone(stock: Stock, input: nat, paid: set<nat>, todo: set<nat>, before: map<nat, seq<Held>>)
    requires forall c :: c in stock && On(stock[c], {input}) != [] ==> c in todo
    ensures Added(stock, input, paid, todo, before, before)
  {
    hide On;
    forall c | c !in todo
      ensures Entry(before, c) == Entry(before, c) + FreeOn(stock, input, paid, c)
    {
      assert FreeOn(stock, input, paid, c) == [];
    }
  }

  /** Looks at one input: every unpaid contract with state there. */
  method AsideOne(stock: Stock, input: nat, paid: set<nat>, blanks0: map<nat, seq<Held>>)
    returns (blanks: map<nat, seq<Held>>)
    ensures Added(stock, input, paid, {}, blanks0, blanks)
  {
    blanks := blanks0;
    var todo: set<nat> := set c | c in stock && On(stock[c], {input}) != [];
    AddNone(stock, input, paid, todo, blanks0);
    hide Added, On, Entry;
    while todo != {}
      invariant todo <= stock.Keys && Added(stock, input, paid, todo, blanks0, blanks)
      decreases |todo|
    {
      var c :| c in todo;
      AddOne(stock, input, paid, todo, blanks0, blanks, c);
      if c !in paid {
        blanks := blanks[c := Entry(blanks, c) + On(stock[c], {input})];
      }
      todo := todo - {c};
    }
  }

  lemma AsideMore(stock: Stock, inputs: seq<nat>, n: nat, paid: set<nat>, before: map<nat, seq<Held>>,
                  after: map<nat, seq<Held>>)
    requires n < |inputs| && SetAside(stock, inputs, inputs[..n], paid, before) &&
             Added(stock, inputs[n], paid, {}, before, after)
    ensures SetAside(stock, inputs, inputs[..n + 1], paid, after)
  {
    assert inputs[..n + 1][..n] == inputs[..n];
    hide On, Others, Spent;
    forall c
      ensures Entry(after, c) == BlankState(stock, inputs, inputs[..n + 1], paid, c)
    {
      assert Entry(before, c) == BlankState(stock, inputs, inputs[..n], paid, c);
      assert Entry(before, c) + [] == Entry(before, c);
    }
  }

  method AsideAll(stock: Stock, inputs: seq<nat>, paid: set<nat>, blanks0: map<nat, seq<Held>>)
    returns (blanks: map<nat, seq<Held>>)
    requires SetAside(stock, inputs, [], paid, blanks0)
    ensures SetAside(stock, inputs, inputs, paid, blanks)
  {
    blanks := blanks0;
    hide SetAside, Added;
    for n := 0 to |inputs|
      invariant SetAside(stock, inputs, inputs[..n], paid, blanks)
    {
      var next := AsideOne(stock, inputs[n], paid, blanks);
      AsideMore(stock, inputs, n, paid, blanks, next);
      blanks := next;
    }
    assert inputs[..|inputs|] == inputs;
  }

  lemma {:induction false} InOnEach(held: seq<Held>, inputs: seq<nat>, h: Held)
    ensures h in OnEach(held, inputs) <==> h in held && h.outpoint in inputs
  {
    if inputs != [] {
      InOnEach(held, inputs[..|inputs| - 1], h);
      InOn(held, {inputs[|inputs| - 1]}, h);
      assert inputs == inputs[..|inputs| - 1] + [inputs[|inputs| - 1]];
    }
  }

  /** An input that occurs twice, with state of a contract on it. */
  ghost predicate Twice(held: seq<Held>, inputs: seq<nat>) {
    exists i, j :: 0 <= i < j < |inputs| && inputs[i] == inputs[j] && On(held, {inputs[i]}) != []
  }

  /** Pieces of state are listed once unless their input occurs twice. */
  lemma {:induction false} OnEachDistinct(held: seq<Held>, inputs: seq<nat>)
    requires DistinctOpouts(held)
    ensures DistinctOpouts(OnEach(held, inputs)) <==> !Twice(held, inputs)
  {
    if inputs != [] {
      var rest, last := inputs[..|inputs| - 1], inputs[|inputs| - 1];
      var a, b := OnEach(held, rest), On(held, {last});
      OnEachDistinct(held, rest);
      OnDistinct(held, {last});
      if Twice(held, rest) {
        var i, j :| 0 <= i < j < |rest| && rest[i] == rest[j] && On(held, {rest[i]}) != [];
        assert inputs[i] == inputs[j] && On(held, {inputs[i]}) != [];
        assert Twice(held, inputs);
        var x, y :| 0 <= x < y < |a| && a[x].opout == a[y].opout;
        assert (a + b)[x].opout == (a + b)[y].opout;
      } else if last in rest && b != [] {
        var i :| 0 <= i < |rest| && rest[i] == last;
        assert inputs[i] == inputs[|rest|] && On(held, {inputs[i]}) != [];
        InOn(held, {last}, b[0]);
        InOnEach(held, rest, b[0]);
        var x :| 0 <= x < |a| && a[x] == b[0];
        assert (a + b)[x].opout == (a + b)[|a|].opout;
      } else {
        NotTwice(held, inputs);
        forall x, y | 0 <= x < |a| && 0 <= y < |b|
          ensures a[x].opout != b[y].opout
        {
          Apart(held, rest, last, a[x], b[y]);
        }
        assert DistinctOpouts(a + b);
      }
    }
  }

  lemma NotTwice(held: seq<Held>, inputs: seq<nat>)
    requires inputs != [] && !Twice(held, inputs[..|inputs| - 1])
    requires inputs[|inputs| - 1] !in inputs[..|inputs| - 1] || On(held, {inputs[|inputs| - 1]}) == []
    ensures !Twice(held, inputs)
  {
    var rest := inputs[..|inputs| - 1];
    forall i, j | 0 <= i < j < |inputs| && inputs[i] == inputs[j]
      ensures On(held, {inputs[i]}) == []
    {
      if j < |rest| {
        assert rest[i] == rest[j];
      } else {
        assert rest[i] == inputs[|inputs| - 1];
      }
    }
  }

  lemma Apart(held: seq<Held>, rest: seq<nat>, last: nat, g: Held, h: Held)
    requires DistinctOpouts(held) && g in OnEach(held, rest) && h in On(held, {last})
    requires last !in rest || On(held, {last}) == []
    ensures g.opout != h.opout
  {
    InOnEach(held, rest, g);
    InOn(held, {last}, h);
    assert g != h && g in held && h in held;
  }

  // ------------------------------------------------------------------- carrier

  /** Some move of the contract consumes this state. */
  ghost predicate Consumed(moves: seq<Move>, c: nat, h: Held) {
    exists k :: 0 <= k < |moves| && moves[k].contract == c && h in moves[k].inputs
  }

  lemma ConsumedSnoc(moves: seq<Move>, t: Move, c: nat, h: Held)
    ensures Consumed(moves + [t], c, h) <==> Consumed(moves, c, h) || (t.contract == c && h in t.inputs)
  {
    if Consumed(moves, c, h) {
      var k :| 0 <= k < |moves| && moves[k].contract == c && h in moves[k].inputs;
      assert (moves + [t])[k] == moves[k];
    }
    assert (moves + [t])[|moves|] == t;
  }

  /** The consumer table lists every input of every move. */
  ghost predicate Tabled(moves: seq<Move>, consumers: map<(nat, Opout), nat>) {
    && (forall k, i :: 0 <= k < |moves| && 0 <= i < |moves[k].inputs| ==>
          ConsumedBy(consumers, moves[k].contract, moves[k].inputs[i].opout, k))
    && (forall key :: key in consumers ==> consumers[key] < |moves| && moves[consumers[key]].contract == key.0)
    && (forall key :: key in consumers ==> Consumes(moves[consumers[key]], key.1))
  }

  ghost predicate Consumes(t: Move, o: Opout) {
    exists i :: 0 <= i < |t.inputs| && t.inputs[i].opout == o
  }

  ghost predicate ConsumedBy(consumers: map<(nat, Opout), nat>, c: nat, o: Opout, k: nat) {
    (c, o) in consumers && consumers[(c, o)] == k
  }

  /** No input of the move has a consumer. */
  ghost predicate Unused(consumers: map<(nat, Opout), nat>, t: Move) {
    forall i :: 0 <= i < |t.inputs| ==> (t.contract, t.inputs[i].opout) !in consumers
  }

  lemma UnusedBlank(consumers: map<(nat, Opout), nat>, c: nat, h: Held)
    ensures Unused(consumers, BlankOf(c, h)) <==> (c, h.opout) !in consumers
  {
    assert BlankOf(c, h).inputs[0] == h;
  }

  ghost predicate Adds(before: map<(nat, Opout), nat>, after: map<(nat, Opout), nat>, t: Move) {
    forall c, o :: (c, o) in after <==> (c, o) in before || (c == t.contract && Consumes(t, o))
  }

  /** An assignment of a contract is consumed by one move only. */
  lemma OneConsumer(moves: seq<Move>, consumers: map<(nat, Opout), nat>, k: nat, k': nat, i: nat, i': nat)
    requires Tabled(moves, consumers) && k < |moves| && k' < |moves| && i < |moves[k].inputs| && i' < |moves[k'].inputs|
    requires moves[k].contract == moves[k'].contract && moves[k].inputs[i].opout == moves[k'].inputs[i'].opout
    ensures k == k'
  {
    assert ConsumedBy(consumers, moves[k].contract, moves[k].inputs[i].opout, k);
    assert ConsumedBy(consumers, moves[k'].contract, moves[k'].inputs[i'].opout, k');
  }

  /** The transaction under construction: the moves pushed into it and, for each
      assignment consumed, the move that consumes it. */
  class Carrier {
    var moves: seq<Move>
    var consumers: map<(nat, Opout), nat>

    ghost predicate Valid()
      reads this
    {
      Tabled(moves, consumers)
    }

    constructor ()
      ensures Valid() && moves == [] && consumers == map[]
    {
      moves, consumers := [], map[];
    }

    /** Adds a move, unless one of its inputs already has another consumer. */
    method Push(t: Move) returns (ok: bool)
      requires Valid()
      modifies this
      ensures ok ==> Valid() && moves == old(moves) + [t]
      ensures ok <==> Unused(old(consumers), t)
      ensures ok ==> Adds(old(consumers), consumers, t)
    {
      var id := |moves|;
      for i := 0 to |t.inputs|
        invariant moves == old(moves) && id == |moves|
        invariant forall key :: key in old(consumers) ==> key in consumers && consumers[key] == old(consumers)[key]
        invariant forall key :: key in consumers && key !in old(consumers) ==>
                    consumers[key] == id && key.0 == t.contract && Consumes(t, key.1)
        invariant forall j :: 0 <= j < i ==> ConsumedBy(consumers, t.contract, t.inputs[j].opout, id)
        invariant forall j :: 0 <= j < i ==> (t.contract, t.inputs[j].opout) !in old(consumers)
      {
        var key := (t.contract, t.inputs[i].opout);
        if key in consumers {
          if consumers[key] != id {
            return false;
          }
        } else {
          consumers := consumers[key := id];
        }
      }
      moves := moves + [t];
      return true;
    }
  }

  // ------------------------------------------------------------------- prepare

  /** The payments of a contract can be made from what is spent. */
  ghost predicate Payable(stock: Stock, inputs: seq<nat>, c: nat, ps: seq<Payment<Seal>>) {
    && c in stock && Fungible(Spent(stock, inputs, c)) != []
    && Total(ps) <= Wrap(SumAll(Fungible(Spent(stock, inputs, c))))
  }

  /** The moves are the transfers of the finished contracts, one each. */
  ghost predicate OneEach(stock: Stock, inputs: seq<nat>, m: map<nat, seq<Payment<Seal>>>, finished: set<nat>,
                          moves: seq<Move>)
  {
    && (forall k :: 0 <= k < |moves| ==> moves[k].contract in finished && TransferOf(stock, inputs, m, moves[k]))
    && (forall c :: c in finished ==> exists k :: 0 <= k < |moves| && moves[k].contract == c)
    && (forall k, k' :: 0 <= k < k' < |moves| ==> moves[k].contract != moves[k'].contract)
  }

  ghost predicate TransferOf(stock: Stock, inputs: seq<nat>, m: map<nat, seq<Payment<Seal>>>, t: Move) {
    t.contract in m && t.contract in stock && IsTransfer(t, t.contract, Spent(stock, inputs, t.contract), m[t.contract])
  }

  ghost predicate Holds(stock: Stock, c: nat, h: Held) {
    c in stock && h in stock[c]
  }

  ghost predicate BlankMove(stock: Stock, inputs: seq<nat>, paid: set<nat>, t: Move) {
    exists h :: Holds(stock, t.contract, h) && h.outpoint in inputs && (t.contract in paid ==> !h.state.Amount?)
                && t == BlankOf(t.contract, h)
  }

  /** One more contract is paid. */
  lemma OneMore(stock: Stock, inputs: seq<nat>, m: map<nat, seq<Payment<Seal>>>, finished: set<nat>, moves: seq<Move>,
                c: nat, t: Move)
    requires OneEach(stock, inputs, m, finished, moves) && c !in finished && t.contract == c &&
             TransferOf(stock, inputs, m, t)
    ensures OneEach(stock, inputs, m, finished + {c}, moves + [t])
  {
    hide TransferOf;
    var moves', finished' := moves + [t], finished + {c};
    assert forall k :: 0 <= k < |moves| ==> moves'[k] == moves[k];
    forall c' | c' in finished'
      ensures exists k :: 0 <= k < |moves'| && moves'[k].contract == c'
    {
      if c' == c {
        assert moves'[|moves|].contract == c;
      } else {
        var k :| 0 <= k < |moves| && moves[k].contract == c';
        assert moves'[k].contract == c';
      }
    }
  }

  /** What is not fungible of the finished contracts is set aside. */
  ghost predicate Filed(stock: Stock, inputs: seq<nat>, finished: set<nat>, blanks: map<nat, seq<Held>>) {
    forall c :: Entry(blanks, c) == if c in stock && c in finished then Others(Spent(stock, inputs, c)) else []
  }

  lemma FileMore(stock: Stock, inputs: seq<nat>, finished: set<nat>, blanks: map<nat, seq<Held>>, c: nat)
    requires Filed(stock, inputs, finished, blanks) && c in stock && c !in finished
    ensures Filed(stock, inputs, finished + {c}, blanks[c := Entry(blanks, c) + Others(Spent(stock, inputs, c))])
  {
    hide Others, Spent;
  }

  /** A contract without a transfer has no consumer yet. */
  lemma NoConsumerYet(stock: Stock, inputs: seq<nat>, m: map<nat, seq<Payment<Seal>>>, finished: set<nat>,
                      moves: seq<Move>,
                      consumers: map<(nat, Opout), nat>, c: nat, o: Opout)
    requires OneEach(stock, inputs, m, finished, moves) && Tabled(moves, consumers) && c !in finished
    ensures (c, o) !in consumers
  {
  }

  lemma NothingYet(stock: Stock, inputs: seq<nat>, m: map<nat, seq<Payment<Seal>>>)
    ensures OneEach(stock, inputs, m, {}, []) && Filed(stock, inputs, {}, map[])
  {
  }

  /** Pays one contract; fails exactly when it cannot be paid. */
  method PushTransfer(stock: Stock, inputs: seq<nat>, ghost m: map<nat, seq<Payment<Seal>>>, c: nat,
                      ps: seq<Payment<Seal>>,
                      ghost finished: set<nat>, blanks0: map<nat, seq<Held>>, carrier: Carrier)
    returns (ok: bool, blanks: map<nat, seq<Held>>)
    requires c in m && c !in finished && ps == m[c] && DistinctPayments(ps) && carrier.Valid()
    requires OneEach(stock, inputs, m, finished, carrier.moves) && Filed(stock, inputs, finished, blanks0)
    modifies carrier
    ensures ok <==> Payable(stock, inputs, c, ps)
    ensures ok ==> carrier.Valid() && OneEach(stock, inputs, m, finished + {c}, carrier.moves)
    ensures ok ==> Filed(stock, inputs, finished + {c}, blanks)
  {
    blanks := blanks0;
    if c !in stock {
      return false, blanks;
    }
    var t, aside := BuildTransfer(c, Spent(stock, inputs, c), ps);
    if t.None? {
      return false, blanks;
    }
    hide Spent, Fungible, Others, Total, SumAll, Wrap, OneEach, Filed, Tabled, DistinctPayments, Adds, Entry;
    forall o
      ensures (c, o) !in carrier.consumers
    {
      NoConsumerYet(stock, inputs, m, finished, carrier.moves, carrier.consumers, c, o);
    }
    OneMore(stock, inputs, m, finished, carrier.moves, c, t.value);
    FileMore(stock, inputs, finished, blanks, c);
    ok := carrier.Push(t.value);
    blanks := blanks[c := Entry(blanks, c) + aside];
  }

  /** Pays every contract, in any order; fails exactly when one cannot be paid. */
  method PushTransfers(stock: Stock, inputs: seq<nat>, m: map<nat, seq<Payment<Seal>>>, carrier: Carrier)
    returns (ok: bool, blanks: map<nat, seq<Held>>)
    requires forall c :: c in m ==> DistinctPayments(m[c])
    requires carrier.Valid() && carrier.moves == []
    modifies carrier
    ensures ok <==> forall c :: c in m ==> Payable(stock, inputs, c, m[c])
    ensures ok ==> carrier.Valid() && OneEach(stock, inputs, m, m.Keys, carrier.moves)
    ensures ok ==> Filed(stock, inputs, m.Keys, blanks)
  {
    blanks := map[];
    var todo := m.Keys;
    ghost var finished: set<nat> := {};
    hide OneEach, Filed, Tabled, DistinctPayments, Payable;
    NothingYet(stock, inputs, m);
    while todo != {}
      invariant carrier.Valid()
      invariant forall c :: c in m <==> c in todo || c in finished
      invariant forall c :: c in finished ==> c !in todo
      invariant forall c :: c in finished ==> Payable(stock, inputs, c, m[c])
      invariant OneEach(stock, inputs, m, finished, carrier.moves)
      invariant Filed(stock, inputs, finished, blanks)
      decreases |todo|
    {
      var c :| c in todo;
      ok, blanks := PushTransfer(stock, inputs, m, c, m[c], finished, blanks, carrier);
      if !ok {
        return;
      }
      todo, finished := todo - {c}, finished + {c};
    }
    assert finished == m.Keys;
    return true, blanks;
  }

  /** Every move is a transfer of a paid contract or a blank, and the transfers
      are those of the first `n` moves. */
  ghost predicate Completed(stock: Stock, inputs: seq<nat>, m: map<nat, seq<Payment<Seal>>>, n: nat, moves: seq<Move>) {
    && n <= |moves|
    && (forall k :: 0 <= k < n ==> TransferOf(stock, inputs, m, moves[k]))
    && (forall k, k' :: 0 <= k < k' < n ==> moves[k].contract != moves[k'].contract)
    && (forall c :: c in m ==> exists k :: 0 <= k < n && moves[k].contract == c)
    && (forall k :: n <= k < |moves| ==> BlankMove(stock, inputs, m.Keys, moves[k]))
  }

  lemma BlankStep(stock: Stock, inputs: seq<nat>, m: map<nat, seq<Payment<Seal>>>, n: nat, moves: seq<Move>, c: nat,
                  h: Held)
    requires Completed(stock, inputs, m, n, moves)
    requires Holds(stock, c, h) && h.outpoint in inputs && (c in m ==> !h.state.Amount?)
    ensures Completed(stock, inputs, m, n, moves + [BlankOf(c, h)])
    ensures Consumed(moves + [BlankOf(c, h)], c, h)
    ensures Keeps(moves, moves + [BlankOf(c, h)])
  {
    var t := BlankOf(c, h);
    assert t.contract == c && t.inputs == [h];
    assert BlankMove(stock, inputs, m.Keys, t) by {
      assert Holds(stock, t.contract, h) && t == BlankOf(t.contract, h);
    }
    hide *;
    CompletedSnoc(stock, inputs, m, n, moves, t);
    KeepsSnoc(moves, t);
    ConsumedSnoc(moves, t, c, h);
  }

  lemma KeepsSnoc(moves: seq<Move>, t: Move)
    ensures Keeps(moves, moves + [t])
  {
    hide Consumed;
    forall c, h | Consumed(moves, c, h)
      ensures Consumed(moves + [t], c, h)
    {
      ConsumedSnoc(moves, t, c, h);
    }
  }

  lemma CompletedSnoc(stock: Stock, inputs: seq<nat>, m: map<nat, seq<Payment<Seal>>>, n: nat, moves: seq<Move>,
                      t: Move)
    requires Completed(stock, inputs, m, n, moves) && BlankMove(stock, inputs, m.Keys, t)
    ensures Completed(stock, inputs, m, n, moves + [t])
  {
    hide TransferOf, BlankMove;
    var moves' := moves + [t];
    assert moves'[|moves|] == t;
    assert forall k :: 0 <= k < |moves| ==> moves'[k] == moves[k];
    forall c' | c' in m
      ensures exists k :: 0 <= k < n && moves'[k].contract == c'
    {
      var k :| 0 <= k < n && moves[k].contract == c';
      assert moves'[k].contract == c';
    }
  }

  /** None of these pieces has a consumer. */
  ghost predicate Free(consumers: map<(nat, Opout), nat>, c: nat, aside: seq<Held>) {
    forall i :: 0 <= i < |aside| ==> (c, aside[i].opout) !in consumers
  }

  ghost predicate Keeps(before: seq<Move>, after: seq<Move>) {
    forall c, h :: Consumed(before, c, h) ==> Consumed(after, c, h)
  }

  /** The table after the first `i` pieces of a contract. */
  ghost predicate Grown(consumers: map<(nat, Opout), nat>, consumers': map<(nat, Opout), nat>, c: nat,
                        aside: seq<Held>, i: nat)
    requires i <= |aside|
  {
    && (forall j :: 0 <= j < i ==> (c, aside[j].opout) in consumers')
    && (forall c', o :: (c', o) in consumers' && (c', o) !in consumers ==>
          c' == c && exists j :: 0 <= j < i && aside[j].opout == o)
  }

  lemma GrowMore(consumers: map<(nat, Opout), nat>, now: map<(nat, Opout), nat>, next: map<(nat, Opout), nat>,
                 c: nat, aside: seq<Held>, i: nat)
    requires i < |aside| && Grown(consumers, now, c, aside, i)
    requires Adds(now, next, BlankOf(c, aside[i]))
    ensures Grown(consumers, next, c, aside, i + 1)
  {
    assert BlankOf(c, aside[i]).inputs[0] == aside[i];
    assert Consumes(BlankOf(c, aside[i]), aside[i].opout);
    forall c', o | (c', o) in next && (c', o) !in consumers
      ensures c' == c && exists j :: 0 <= j < i + 1 && aside[j].opout == o
    {
      if (c', o) !in now {
        assert aside[i].opout == o;
      }
    }
  }

  lemma MovedNone(moves: seq<Move>, consumers: map<(nat, Opout), nat>, c: nat, aside: seq<Held>)
    requires Tabled(moves, consumers)
    ensures MovedUpTo(moves, consumers, moves, consumers, c, aside, 0)
  {
    hide Tabled, Consumed;
  }

  /** A piece has a consumer already exactly when it occurred before. */
  lemma RepeatFails(consumers: map<(nat, Opout), nat>, now: map<(nat, Opout), nat>, c: nat, aside: seq<Held>, i: nat)
    requires i < |aside| && Grown(consumers, now, c, aside, i) && Free(consumers, c, aside)
    ensures (c, aside[i].opout) in now <==> Repeated(aside, i)
  {
  }

  ghost predicate Repeated(aside: seq<Held>, i: nat)
    requires i < |aside|
  {
    exists j :: 0 <= j < i && aside[j].opout == aside[i].opout
  }

  lemma RepeatedIsNotDistinct(aside: seq<Held>, i: nat)
    requires i < |aside| && Repeated(aside, i)
    ensures !DistinctOpouts(aside)
  {
  }

  lemma NoneRepeated(aside: seq<Held>)
    requires forall i :: 0 <= i < |aside| ==> !Repeated(aside, i)
    ensures DistinctOpouts(aside)
  {
    forall i, j | 0 <= i < j < |aside|
      ensures aside[i].opout != aside[j].opout
    {
      assert !Repeated(aside, j);
    }
  }

  lemma GrownElsewhere(consumers: map<(nat, Opout), nat>, now: map<(nat, Opout), nat>, c: nat, aside: seq<Held>)
    requires Grown(consumers, now, c, aside, |aside|)
    ensures SameElsewhere(consumers, now, c)
  {
  }

  /** Other contracts get no new consumers. */
  ghost predicate SameElsewhere(before: map<(nat, Opout), nat>, after: map<(nat, Opout), nat>, c: nat) {
    forall c', o :: c' != c && (c', o) in after ==> (c', o) in before
  }

  /** The first `i` pieces of a contract have been moved. */
  ghost predicate MovedUpTo(moves0: seq<Move>, consumers0: map<(nat, Opout), nat>, moves: seq<Move>,
                            consumers: map<(nat, Opout), nat>, c: nat, aside: seq<Held>, i: nat)
    requires i <= |aside|
  {
    && Tabled(moves, consumers) && Keeps(moves0, moves)
    && (forall j :: 0 <= j < i ==> Consumed(moves, c, aside[j]) && !Repeated(aside, j))
    && Grown(consumers0, consumers, c, aside, i)
  }

  lemma BlankPossible(moves0: seq<Move>, consumers0: map<(nat, Opout), nat>, moves: seq<Move>,
                      consumers: map<(nat, Opout), nat>, c: nat, aside: seq<Held>, i: nat)
    requires i < |aside| && Free(consumers0, c, aside) && MovedUpTo(moves0, consumers0, moves, consumers, c, aside, i)
    ensures Unused(consumers, BlankOf(c, aside[i])) <==> !Repeated(aside, i)
    ensures Tabled(moves, consumers)
  {
    hide Unused, Repeated, Tabled, Keeps, Consumed;
    RepeatFails(consumers0, consumers, c, aside, i);
    UnusedBlank(consumers, c, aside[i]);
  }

  lemma MovedMore(moves0: seq<Move>, consumers0: map<(nat, Opout), nat>, moves: seq<Move>,
                  consumers: map<(nat, Opout), nat>,
                  moves': seq<Move>, consumers': map<(nat, Opout), nat>, c: nat, aside: seq<Held>, i: nat)
    requires i < |aside| && MovedUpTo(moves0, consumers0, moves, consumers, c, aside, i) && !Repeated(aside, i)
    requires moves' == moves + [BlankOf(c, aside[i])] && Adds(consumers, consumers', BlankOf(c, aside[i])) &&
             Tabled(moves', consumers')
    ensures MovedUpTo(moves0, consumers0, moves', consumers', c, aside, i + 1)
  {
    hide Repeated, Tabled, Grown, Adds;
    GrowMore(consumers0, consumers, consumers', c, aside, i);
    KeepsSnoc(moves, BlankOf(c, aside[i]));
    assert Consumed(moves', c, aside[i]) by {
      ConsumedSnoc(moves, BlankOf(c, aside[i]), c, aside[i]);
    }
    hide Consumed;
  }

  /** One blank transition; it is a double spend exactly when the piece occurred
      before. */
  method PushBlank(ghost moves0: seq<Move>, ghost consumers0: map<(nat, Opout), nat>, c: nat, aside: seq<Held>, i: nat,
                   carrier: Carrier)
    returns (ok: bool)
    requires i < |aside| && Free(consumers0, c, aside)
    requires MovedUpTo(moves0, consumers0, carrier.moves, carrier.consumers, c, aside, i)
    modifies carrier
    ensures ok <==> !Repeated(aside, i)
    ensures ok ==> carrier.moves == old(carrier.moves) + [BlankOf(c, aside[i])]
    ensures ok ==> MovedUpTo(moves0, consumers0, carrier.moves, carrier.consumers, c, aside, i + 1)
  {
    hide Tabled, Repeated, Unused, Free, Adds, MovedUpTo;
    BlankPossible(moves0, consumers0, carrier.moves, carrier.consumers, c, aside, i);
    ok := carrier.Push(BlankOf(c, aside[i]));
    if ok {
      MovedMore(moves0, consumers0, old(carrier.moves), old(carrier.consumers), carrier.moves, carrier.consumers, c,
          aside, i);
    }
  }

  /** These pieces may be moved to the change output. */
  ghost predicate AsideOk(stock: Stock, inputs: seq<nat>, paid: set<nat>, c: nat, aside: seq<Held>) {
    forall i :: 0 <= i < |aside| ==>
      Holds(stock, c, aside[i]) && aside[i].outpoint in inputs && (c in paid ==> !aside[i].state.Amount?)
  }

  /** A blank transition for each piece of one contract that was set aside; a
      piece listed twice is a double spend. */
  method PushBlanksOf(stock: Stock, inputs: seq<nat>, ghost m: map<nat, seq<Payment<Seal>>>, ghost n: nat, c: nat,
                      aside: seq<Held>, carrier: Carrier)
    returns (ok: bool)
    requires carrier.Valid() && Completed(stock, inputs, m, n, carrier.moves)
    requires AsideOk(stock, inputs, m.Keys, c, aside) && Free(carrier.consumers, c, aside)
    modifies carrier
    ensures ok <==> DistinctOpouts(aside)
    ensures ok ==> Completed(stock, inputs, m, n, carrier.moves)
    ensures ok ==> MovedUpTo(old(carrier.moves), old(carrier.consumers), carrier.moves, carrier.consumers, c, aside,
            |aside|)
  {
    ghost var moves0, consumers0 := carrier.moves, carrier.consumers;
    hide Completed, MovedUpTo, Free, Repeated, DistinctOpouts, Tabled, AsideOk, BlankOf;
    MovedNone(moves0, consumers0, c, aside);
    for i := 0 to |aside|
      invariant Completed(stock, inputs, m, n, carrier.moves)
      invariant MovedUpTo(moves0, consumers0, carrier.moves, carrier.consumers, c, aside, i)
    {
      StillCompleted(stock, inputs, m, n, carrier.moves, c, aside, i);
      ok := PushBlank(moves0, consumers0, c, aside, i, carrier);
      if !ok {
        RepeatedIsNotDistinct(aside, i);
        return;
      }
    }
    MovedAll(moves0, consumers0, carrier.moves, carrier.consumers, c, aside);
    return true;
  }

  lemma StillCompleted(stock: Stock, inputs: seq<nat>, m: map<nat, seq<Payment<Seal>>>, n: nat, moves: seq<Move>,
                       c: nat,
                       aside: seq<Held>, i: nat)
    requires Completed(stock, inputs, m, n, moves) && AsideOk(stock, inputs, m.Keys, c, aside) && i < |aside|
    ensures Completed(stock, inputs, m, n, moves + [BlankOf(c, aside[i])])
  {
    hide Completed;
    BlankStep(stock, inputs, m, n, moves, c, aside[i]);
  }

  /** What moving all pieces of a contract leaves. */
  lemma MovedAll(moves0: seq<Move>, consumers0: map<(nat, Opout), nat>, moves: seq<Move>,
                 consumers: map<(nat, Opout), nat>, c: nat, aside: seq<Held>)
    requires MovedUpTo(moves0, consumers0, moves, consumers, c, aside, |aside|)
    ensures Tabled(moves, consumers) && Keeps(moves0, moves) && SameElsewhere(consumers0, consumers, c)
    ensures forall h :: h in aside ==> Consumed(moves, c, h)
    ensures DistinctOpouts(aside)
  {
    hide Consumed, Tabled, Repeated, DistinctOpouts;
    GrownElsewhere(consumers0, consumers, c, aside);
    NoneRepeated(aside);
  }

  /** The state set aside is on the inputs, is not fungible state of a paid
      contract, and has no consumer yet. */
  ghost predicate Movable(stock: Stock, inputs: seq<nat>, paid: set<nat>, consumers: map<(nat, Opout), nat>,
                          blanks: map<nat, seq<Held>>)
  {
    && (forall c, h :: h in Entry(blanks, c) ==>
        Holds(stock, c, h) && h.outpoint in inputs && (c in paid ==> !h.state.Amount?))
    && (forall c: nat :: Free(consumers, c, Entry(blanks, c)))
  }

  ghost predicate EntriesDistinct(blanks: map<nat, seq<Held>>) {
    forall c :: c in blanks ==> DistinctOpouts(Entry(blanks, c))
  }

  ghost predicate EntriesConsumed(blanks: map<nat, seq<Held>>, moves: seq<Move>) {
    forall c, h :: h in Entry(blanks, c) ==> Consumed(moves, c, h)
  }

  method PushBlanks(stock: Stock, inputs: seq<nat>, ghost m: map<nat, seq<Payment<Seal>>>, ghost n: nat,
                    blanks: map<nat, seq<Held>>, carrier: Carrier)
    returns (ok: bool)
    requires carrier.Valid() && Completed(stock, inputs, m, n, carrier.moves)
    requires Movable(stock, inputs, m.Keys, carrier.consumers, blanks)
    modifies carrier
    ensures ok <==> EntriesDistinct(blanks)
    ensures ok ==> carrier.Valid() && Completed(stock, inputs, m, n, carrier.moves)
    ensures ok ==> EntriesConsumed(blanks, carrier.moves)
    ensures ok ==> Keeps(old(carrier.moves), carrier.moves)
  {
    hide Completed, BlankMove, DistinctOpouts, Consumed, Tabled, Holds, MovedUpTo;
    var todo := blanks.Keys;
    while todo != {}
      invariant todo <= blanks.Keys
      invariant carrier.Valid() && Completed(stock, inputs, m, n, carrier.moves)
      invariant forall c :: c in blanks && c !in todo ==> DistinctOpouts(Entry(blanks, c))
      invariant forall c, h :: c !in todo && h in Entry(blanks, c) ==> Consumed(carrier.moves, c, h)
      invariant forall c :: c in todo ==> Free(carrier.consumers, c, Entry(blanks, c))
      invariant Keeps(old(carrier.moves), carrier.moves)
      decreases |todo|
    {
      var c :| c in todo;
      ghost var moves0, consumers0 := carrier.moves, carrier.consumers;
      ok := PushBlanksOf(stock, inputs, m, n, c, Entry(blanks, c), carrier);
      if !ok {
        return;
      }
      MovedAll(moves0, consumers0, carrier.moves, carrier.consumers, c, Entry(blanks, c));
      todo := todo - {c};
    }
    return true;
  }

  /** Every piece of state of every contract on a spent input has a consumer. */
  ghost predicate NothingLost(stock: Stock, inputs: seq<nat>, moves: seq<Move>) {
    forall c, h :: Holds(stock, c, h) && h.outpoint in inputs ==> Consumed(moves, c, h)
  }

  /** What is set aside, piece by piece. */
  lemma InBlankState(stock: Stock, inputs: seq<nat>, paid: set<nat>, c: nat, h: Held)
    ensures h in BlankState(stock, inputs, inputs, paid, c) <==>
            Holds(stock, c, h) && h.outpoint in inputs && (c in paid ==> !h.state.Amount?)
  {
    if c in stock {
      InOnEach(stock[c], inputs, h);
      InOn(stock[c], (set i | i in inputs), h);
      FungibleOrOther(Spent(stock, inputs, c), h);
    }
  }

  /** A transfer consumes all fungible state of its contract. */
  lemma TransferConsumes(stock: Stock, inputs: seq<nat>, m: map<nat, seq<Payment<Seal>>>, moves: seq<Move>, c: nat,
                         h: Held)
    requires OneEach(stock, inputs, m, m.Keys, moves)
    requires c in m && Holds(stock, c, h) && h.outpoint in inputs && h.state.Amount?
    ensures Consumed(moves, c, h)
  {
    var k :| 0 <= k < |moves| && moves[k].contract == c;
    assert TransferOf(stock, inputs, m, moves[k]);
    InOn(stock[c], (set i | i in inputs), h);
    FungibleOrOther(Spent(stock, inputs, c), h);
  }

  /** No blank state is consumed by a transfer. */
  lemma BlanksAreFree(stock: Stock, inputs: seq<nat>, m: map<nat, seq<Payment<Seal>>>, moves: seq<Move>,
                      consumers: map<(nat, Opout), nat>, c: nat)
    requires StockOk(stock) && OneEach(stock, inputs, m, m.Keys, moves) && Tabled(moves, consumers)
    ensures Free(consumers, c, BlankState(stock, inputs, inputs, m.Keys, c))
  {
    var blank := BlankState(stock, inputs, inputs, m.Keys, c);
    forall i | 0 <= i < |blank|
      ensures (c, blank[i].opout) !in consumers
    {
      BlankIsFree(stock, inputs, m, moves, consumers, c, blank[i]);
    }
  }

  lemma BlankIsFree(stock: Stock, inputs: seq<nat>, m: map<nat, seq<Payment<Seal>>>, moves: seq<Move>,
                    consumers: map<(nat, Opout), nat>, c: nat, h: Held)
    requires StockOk(stock) && OneEach(stock, inputs, m, m.Keys, moves) && Tabled(moves, consumers)
    requires h in BlankState(stock, inputs, inputs, m.Keys, c)
    ensures (c, h.opout) !in consumers
  {
    InBlankState(stock, inputs, m.Keys, c, h);
    if (c, h.opout) in consumers {
      var k := consumers[(c, h.opout)];
      assert Consumes(moves[k], h.opout);
      var i :| 0 <= i < |moves[k].inputs| && moves[k].inputs[i].opout == h.opout;
      var g := moves[k].inputs[i];
      InOn(stock[c], (set i | i in inputs), g);
      FungibleOrOther(Spent(stock, inputs, c), g);
      assert false;
    }
  }

  lemma {:induction false} OthersDistinct(held: seq<Held>)
    requires DistinctOpouts(held)
    ensures DistinctOpouts(Others(held))
  {
    if held != [] {
      var rest := held[..|held| - 1];
      OthersDistinct(rest);
      forall h | h in Others(rest)
        ensures h.opout != held[|held| - 1].opout
      {
        FungibleOrOther(rest, h);
      }
    }
  }

  lemma BlankStateDistinct(stock: Stock, inputs: seq<nat>, paid: set<nat>, c: nat)
    requires StockOk(stock)
    ensures DistinctOpouts(BlankState(stock, inputs, inputs, paid, c)) <==>
            !(c in stock && c !in paid && Twice(stock[c], inputs))
  {
    if c in stock {
      OnDistinct(stock[c], set i | i in inputs);
      OthersDistinct(Spent(stock, inputs, c));
      OnEachDistinct(stock[c], inputs);
    }
  }

  /** What is known of the state set aside, before it is moved. */
  lemma BlanksReady(stock: Stock, inputs: seq<nat>, m: map<nat, seq<Payment<Seal>>>, moves: seq<Move>,
                    consumers: map<(nat, Opout), nat>, blanks: map<nat, seq<Held>>)
    requires StockOk(stock) && OneEach(stock, inputs, m, m.Keys, moves) && Tabled(moves, consumers)
    requires SetAside(stock, inputs, inputs, m.Keys, blanks)
    ensures Movable(stock, inputs, m.Keys, consumers, blanks)
  {
    hide BlankState, OneEach, Tabled, StockOk, Free, Holds;
    forall c, h | h in Entry(blanks, c)
      ensures Holds(stock, c, h) && h.outpoint in inputs && (c in m.Keys ==> !h.state.Amount?)
    {
      InBlankState(stock, inputs, m.Keys, c, h);
    }
    forall c: nat
      ensures Free(consumers, c, Entry(blanks, c))
    {
      BlanksAreFree(stock, inputs, m, moves, consumers, c);
    }
  }

  lemma BlanksDistinct(stock: Stock, inputs: seq<nat>, paid: set<nat>, blanks: map<nat, seq<Held>>)
    requires StockOk(stock) && SetAside(stock, inputs, inputs, paid, blanks)
    ensures EntriesDistinct(blanks) <==> NoneTwice(stock, inputs, paid)
  {
    hide BlankState, Twice, StockOk, DistinctOpouts;
    forall c: nat
      ensures DistinctOpouts(Entry(blanks, c)) <==> !(c in stock && c !in paid && Twice(stock[c], inputs))
    {
      BlankStateDistinct(stock, inputs, paid, c);
    }
    if c: nat :| c in stock && c !in paid && Twice(stock[c], inputs) {
      assert !DistinctOpouts(Entry(blanks, c));
      NoneDistinct(blanks, c);
    }
  }

  lemma NoneDistinct(blanks: map<nat, seq<Held>>, c: nat)
    requires !DistinctOpouts(Entry(blanks, c))
    ensures c in blanks
  {
  }

  /** No input with state of an unpaid contract occurs twice. */
  ghost predicate NoneTwice(stock: Stock, inputs: seq<nat>, paid: set<nat>) {
    forall c :: c in stock && c !in paid ==> !Twice(stock[c], inputs)
  }

  lemma AllConsumed(stock: Stock, inputs: seq<nat>, m: map<nat, seq<Payment<Seal>>>, transfers: seq<Move>,
                    moves: seq<Move>,
                    blanks: map<nat, seq<Held>>)
    requires OneEach(stock, inputs, m, m.Keys, transfers) && Keeps(transfers, moves)
    requires SetAside(stock, inputs, inputs, m.Keys, blanks)
    requires EntriesConsumed(blanks, moves)
    ensures NothingLost(stock, inputs, moves)
  {
    forall c, h | Holds(stock, c, h) && h.outpoint in inputs
      ensures Consumed(moves, c, h)
    {
      if c in m && h.state.Amount? {
        TransferConsumes(stock, inputs, m, transfers, c, h);
      } else {
        InBlankState(stock, inputs, m.Keys, c, h);
        assert h in Entry(blanks, c);
      }
    }
  }

  lemma TransfersComplete(stock: Stock, inputs: seq<nat>, m: map<nat, seq<Payment<Seal>>>, moves: seq<Move>,
                          blanks: map<nat, seq<Held>>)
    requires OneEach(stock, inputs, m, m.Keys, moves) && Filed(stock, inputs, m.Keys, blanks)
    ensures Completed(stock, inputs, m, |moves|, moves) && SetAside(stock, inputs, [], m.Keys, blanks)
  {
    hide TransferOf, BlankMove, Others, Spent;
    forall c
      ensures Entry(blanks, c) == BlankState(stock, inputs, [], m.Keys, c)
    {
    }
  }

  lemma AreDistinct(requests: seq<Request>, m: map<nat, seq<Payment<Seal>>>)
    requires Merged(requests, m)
    ensures forall c :: c in m ==> DistinctPayments(m[c])
  {
  }

  /** What a prepared payment is, for some merging `m` of the requests and with the
      first `n` moves as the transfers: it exists exactly when every contract can
      be paid and no input with state of an unpaid contract occurs twice; nothing
      on a spent input is lost, each assignment has one consumer, every paid
      contract has one transfer, and all other state is moved unchanged to the
      change output. */
  /** Every move consumes state that its contract keeps on an input, and lists no piece
      of it twice. */
  ghost predicate SpentOnce(stock: Stock, inputs: seq<nat>, moves: seq<Move>) {
    forall k :: 0 <= k < |moves| ==> SpendsOnce(stock, inputs, moves[k])
  }

  ghost predicate SpendsOnce(stock: Stock, inputs: seq<nat>, t: Move) {
    && DistinctOpouts(t.inputs)
    && forall i :: 0 <= i < |t.inputs| ==> Holds(stock, t.contract, t.inputs[i]) && t.inputs[i].outpoint in inputs
  }

  lemma {:induction false} FungibleDistinct(held: seq<Held>)
    requires DistinctOpouts(held)
    ensures DistinctOpouts(Fungible(held))
  {
    if held != [] {
      var rest := held[..|held| - 1];
      FungibleDistinct(rest);
      forall h | h in Fungible(rest)
        ensures h.opout != held[|held| - 1].opout
      {
        FungibleOrOther(rest, h);
      }
    }
  }

  lemma {:induction false} FungibleSums(held: seq<Held>, ty: nat)
    ensures SumIn(Fungible(held), ty) == SumIn(held, ty)
  {
    if held != [] {
      var rest, last := held[..|held| - 1], held[|held| - 1];
      FungibleSums(rest, ty);
      if last.state.Amount? {
        SumInSnoc(Fungible(rest), last, ty);
      } else {
        assert Fungible(rest) + [] == Fungible(rest);
      }
    }
  }

  /** A transfer spends each piece of fungible state on the inputs once, and so all the
      amounts that its contract keeps there. */
  lemma {:induction false} TransferSpendsOnce(stock: Stock, inputs: seq<nat>, m: map<nat, seq<Payment<Seal>>>, t: Move)
    requires StockOk(stock) && TransferOf(stock, inputs, m, t)
    ensures SpendsOnce(stock, inputs, t)
    ensures forall ty :: SumIn(t.inputs, ty) == AmountOn(stock[t.contract], (set i | i in inputs), ty)
  {
    var held, outpoints := stock[t.contract], (set i | i in inputs);
    OnDistinct(held, outpoints);
    FungibleDistinct(On(held, outpoints));
    forall i | 0 <= i < |t.inputs|
      ensures Holds(stock, t.contract, t.inputs[i]) && t.inputs[i].outpoint in inputs
    {
      FungibleOrOther(On(held, outpoints), t.inputs[i]);
      InOn(held, outpoints, t.inputs[i]);
    }
    forall ty
      ensures SumIn(t.inputs, ty) == AmountOn(held, outpoints, ty)
    {
      FungibleSums(On(held, outpoints), ty);
      OnSums(held, outpoints, ty);
    }
  }

  lemma {:induction false} CompletedSpendsOnce(stock: Stock, inputs: seq<nat>, m: map<nat, seq<Payment<Seal>>>, n: nat,
                                               moves: seq<Move>)
    requires StockOk(stock) && Completed(stock, inputs, m, n, moves)
    ensures SpentOnce(stock, inputs, moves)
  {
    forall k | 0 <= k < |moves|
      ensures SpendsOnce(stock, inputs, moves[k])
    {
      if k < n {
        TransferSpendsOnce(stock, inputs, m, moves[k]);
      } else {
        assert BlankMove(stock, inputs, m.Keys, moves[k]);
      }
    }
  }

  ghost predicate Prepared(stock: Stock, inputs: seq<nat>, requests: seq<Request>, m: map<nat, seq<Payment<Seal>>>,
                           n: nat,
                           r: Option<(seq<Move>, map<(nat, Opout), nat>)>)
  {
    && Merged(requests, m)
    && (r.Some? <==> (forall c :: c in m ==> Payable(stock, inputs, c, m[c])) && NoneTwice(stock, inputs, m.Keys))
    && (r.Some? ==> && NothingLost(stock, inputs, r.value.0) && SpentOnce(stock, inputs, r.value.0)
                    && Tabled(r.value.0, r.value.1) && Completed(stock, inputs, m, n, r.value.0))
  }

  /** Prepares the moves of a payment, with the consumer of each assignment. */
  method Prepare(stock: Stock, inputs: seq<nat>, requests: seq<Request>)
    returns (r: Option<(seq<Move>, map<(nat, Opout), nat>)>)
    requires StockOk(stock) && forall i :: 0 <= i < |requests| ==> requests[i].seal != FreshChange
    ensures exists m, n :: Prepared(stock, inputs, requests, m, n, r)
  {
    ghost var n;
    var m := Merge(requests);
    r, n := PrepareMerged(stock, inputs, requests, m);
    assert Prepared(stock, inputs, requests, m, n, r);
  }

  method PrepareMerged(stock: Stock, inputs: seq<nat>, ghost requests: seq<Request>, m: map<nat, seq<Payment<Seal>>>)
    returns (r: Option<(seq<Move>, map<(nat, Opout), nat>)>, ghost n: nat)
    requires StockOk(stock) && Merged(requests, m)
    ensures Prepared(stock, inputs, requests, m, n, r)
  {
    n := 0;
    hide Merged, Payable, OneEach, Filed, Tabled, SetAside, StockOk, NoneTwice, NothingLost, Completed,
        DistinctPayments, SpentOnce;
    assert forall c :: c in m ==> DistinctPayments(m[c]) by {
      AreDistinct(requests, m);
    }
    var carrier := new Carrier();
    var ok, blanks := PushTransfers(stock, inputs, m, carrier);
    if !ok {
      return None, n;
    }
    n := |carrier.moves|;
    r := PrepareBlanks(stock, inputs, m, blanks, carrier);
    if r.Some? {
      CompletedSpendsOnce(stock, inputs, m, n, r.value.0);
    }
  }

  /** The transfers are in place; everything else on the inputs is moved. */
  method PrepareBlanks(stock: Stock, inputs: seq<nat>, m: map<nat, seq<Payment<Seal>>>, blanks0: map<nat, seq<Held>>,
                       carrier: Carrier)
    returns (r: Option<(seq<Move>, map<(nat, Opout), nat>)>)
    requires StockOk(stock) && carrier.Valid()
    requires OneEach(stock, inputs, m, m.Keys, carrier.moves) && Filed(stock, inputs, m.Keys, blanks0)
    modifies carrier
    ensures r.Some? <==> NoneTwice(stock, inputs, m.Keys)
    ensures r.Some? ==> && NothingLost(stock, inputs, r.value.0) && Tabled(r.value.0, r.value.1)
                        && Completed(stock, inputs, m, |old(carrier.moves)|, r.value.0)
  {
    hide Payable, OneEach, Filed, Tabled, SetAside, StockOk, NoneTwice, Entry, DistinctOpouts, NothingLost, Completed,
      Movable, EntriesDistinct, EntriesConsumed, Keeps;
    ghost var n, transfers := |carrier.moves|, carrier.moves;
    TransfersComplete(stock, inputs, m, transfers, blanks0);
    var blanks := AsideAll(stock, inputs, m.Keys, blanks0);
    BlanksReady(stock, inputs, m, transfers, carrier.consumers, blanks);
    BlanksDistinct(stock, inputs, m.Keys, blanks);
    var ok := PushBlanks(stock, inputs, m, n, blanks, carrier);
    if !ok {
      return None;
    }
    AllConsumed(stock, inputs, m, transfers, carrier.moves, blanks);
    r := Some((carrier.moves, carrier.consumers));
  }

  // -------------------------------------------------------------- conservation

  /** A transfer pays each recipient what was asked for it and keeps the rest; it
      assigns nothing but asset state. */
  lemma TransferPays(stock: Stock, inputs: seq<nat>, requests: seq<Request>, m: map<nat, seq<Payment<Seal>>>, t: Move,
                     seal: Seal)
    requires Merged(requests, m) && TransferOf(stock, inputs, m, t)
    ensures seal != FreshChange ==> SumAt(t.outs, ASSET, seal) == Capped(Asked(requests, t.contract, seal))
    ensures SumAt(t.outs, ASSET, FreshChange) == Wrap(SumAll(t.inputs)) as int - Total(m[t.contract])
    ensures SumOut(t.outs, ASSET) == Wrap(SumAll(t.inputs))
    ensures forall ty :: ty != ASSET ==> SumOut(t.outs, ty) == 0
  {
    var ps := m[t.contract];
    var sum: nat := Wrap(SumAll(t.inputs));
    hide Wrap, Fungible, SumAll, Spent;
    PaidToNone(ps, FreshChange);
    forall ty
      ensures SumOut(t.outs, ty) == if ty == ASSET then sum else 0
    {
      OutsOf(ps, sum, ty, seal);
    }
    OutsOf(ps, sum, ASSET, seal);
    OutsOf(ps, sum, ASSET, FreshChange);
  }

  lemma OutsOf(ps: seq<Payment<Seal>>, sum: nat, ty: nat, seal: Seal)
    requires DistinctPayments(ps) && Total(ps) <= sum < U64_LIMIT
    ensures var outs := PaymentOuts(ps) + if sum == Total(ps) then []
            else [Out(ASSET, FreshChange, Amount(sum - Total(ps)))];
            && SumOut(outs, ty) == (if ty == ASSET then sum else 0)
            && SumAt(outs, ASSET, seal) == PaidTo(ps, seal) + if seal == FreshChange then sum - Total(ps) else 0
  {
    PaymentSums(ps, ty, seal);
    if sum == Total(ps) {
      assert PaymentOuts(ps) + [] == PaymentOuts(ps);
    } else {
      var o := Out(ASSET, FreshChange, Amount(sum - Total(ps)));
      SumOutSnoc(PaymentOuts(ps), o, ty);
      assert (PaymentOuts(ps) + [o])[..|ps|] == PaymentOuts(ps);
    }
  }

  /** The amounts of all other types. */
  function SumOther(inputs: seq<Held>): nat {
    if inputs == [] then 0
    else SumOther(inputs[..|inputs| - 1]) + if inputs[|inputs| - 1].opout.ty == ASSET then 0
        else Value(inputs[|inputs| - 1].state)
  }

  lemma AllIsAssetAndOther(inputs: seq<Held>)
    ensures SumAll(inputs) == SumIn(inputs, ASSET) + SumOther(inputs)
  {
  }

  lemma {:induction false} NoOther(inputs: seq<Held>, ty: nat)
    requires SumOther(inputs) == 0 && ty != ASSET
    ensures SumIn(inputs, ty) == 0
  {
    if inputs != [] {
      NoOther(inputs[..|inputs| - 1], ty);
    }
  }

  lemma {:induction false} SomeOther(inputs: seq<Held>) returns (ty: nat)
    requires SumOther(inputs) > 0
    ensures ty != ASSET && SumIn(inputs, ty) > 0
  {
    var rest, last := inputs[..|inputs| - 1], inputs[|inputs| - 1];
    if SumOther(rest) > 0 {
      ty := SomeOther(rest);
    } else {
      ty := last.opout.ty;
    }
  }

  lemma OtherIsNone(inputs: seq<Held>)
    ensures SumOther(inputs) == 0 <==> forall ty :: ty != ASSET ==> SumIn(inputs, ty) == 0
  {
    hide SumOther, SumIn;
    if SumOther(inputs) == 0 {
      forall ty | ty != ASSET
        ensures SumIn(inputs, ty) == 0
      {
        NoOther(inputs, ty);
      }
    } else {
      var ty := SomeOther(inputs);
      assert SumIn(inputs, ty) != 0;
    }
  }

  /** The sum over the inputs does not look at their types, so a transfer
      conserves every type exactly when nothing but assets is put in and their sum
      fits 64 bits. */
  lemma TransferConserves(stock: Stock, inputs: seq<nat>, requests: seq<Request>, m: map<nat, seq<Payment<Seal>>>,
                          t: Move)
    requires Merged(requests, m) && TransferOf(stock, inputs, m, t)
    ensures Conserves(t) <==>
            (forall ty :: ty != ASSET ==> SumIn(t.inputs, ty) == 0) && SumIn(t.inputs, ASSET) < U64_LIMIT
  {
    TransferPays(stock, inputs, requests, m, t, FreshChange);
    AllIsAssetAndOther(t.inputs);
    OtherIsNone(t.inputs);
    hide IsTransfer, TransferOf, SumIn, SumOut, SumAll, SumOther, Merged;
    if SumOther(t.inputs) > 0 {
      var ty :| ty != ASSET && SumIn(t.inputs, ty) != 0;
      assert SumOut(t.outs, ty) == 0;
    } else if SumIn(t.inputs, ASSET) >= U64_LIMIT {
      assert SumOut(t.outs, ASSET) < U64_LIMIT;
    } else {
      forall ty
        ensures SumOut(t.outs, ty) == SumIn(t.inputs, ty)
      {
        assert ty == ASSET ==> Wrap(SumAll(t.inputs)) == SumIn(t.inputs, ASSET);
      }
    }
  }

  /** A blank transition moves one piece of state, unchanged, to the change
      output. */
  lemma BlankConserves(stock: Stock, inputs: seq<nat>, paid: set<nat>, t: Move)
    requires BlankMove(stock, inputs, paid, t)
    ensures |t.inputs| == |t.outs| == 1 && t.outs[0].seal == FreshChange
    ensures t.outs[0].state == t.inputs[0].state && t.outs[0].ty == t.inputs[0].opout.ty
    ensures Conserves(t)
  {
    forall ty
      ensures SumOut(t.outs, ty) == SumIn(t.inputs, ty)
    {
      SumOutSnoc([], t.outs[0], ty);
      SumInSnoc([], t.inputs[0], ty);
      assert [] + [t.outs[0]] == t.outs && [] + [t.inputs[0]] == t.inputs;
    }
  }

  lemma OneHeld(a: Held, outpoints: set<nat>, ty: nat)
    requires a.state.Amount? && a.outpoint in outpoints
    ensures On([a], outpoints) == [a] && Fungible([a]) == [a] && SumAll([a]) == Value(a.state)
    ensures SumIn([a], ty) == if a.opout.ty == ty then Value(a.state) else 0
  {
    assert [a][..0] == [];
  }

  lemma TwoHeld(a: Held, b: Held, outpoints: set<nat>, ty: nat)
    requires a.state.Amount? && b.state.Amount? && a.outpoint in outpoints && b.outpoint in outpoints
    ensures On([a, b], outpoints) == [a, b] && Fungible([a, b]) == [a, b]
    ensures SumAll([a, b]) == Value(a.state) + Value(b.state)
    ensures SumIn([a, b], ty) ==
            (if a.opout.ty == ty then Value(a.state) else 0) + (if b.opout.ty == ty then Value(b.state) else 0)
  {
    OneHeld(a, outpoints, ty);
    assert [a, b][..1] == [a];
  }

  lemma MergedOne(r: Request)
    requires r.seal != FreshChange
    ensures Merged([r], map[r.contract := [Payment(r.seal, r.amount)]])
  {
    MergeOne([], map[], r);
    assert [] + [r] == [r];
  }

  /** The failure is real: an inflation right next to an asset is spent as if it
      were assets. */
  lemma RightsCanBecomeAssets(ty: nat)
    returns (stock: Stock, requests: seq<Request>, m: map<nat, seq<Payment<Seal>>>, t: Move)
    requires ty != ASSET
    ensures Merged(requests, m) && TransferOf(stock, [0], m, t)
    ensures SumIn(t.inputs, ASSET) == 10 && SumIn(t.inputs, ty) == 5
    ensures SumOut(t.outs, ASSET) == 15 && SumOut(t.outs, ty) == 0
  {
    var a, b := Held(Opout(0, ASSET, 0), 0, Amount(10)), Held(Opout(0, ty, 0), 0, Amount(5));
    stock := map[0 := [a, b]];
    requests := [Request(0, 3, Blind(0))];
    var ps := [Payment(Blind(0), 3)];
    m := map[0 := ps];
    MergedOne(requests[0]);
    var inputs := [0];
    assert 0 in inputs;
    TwoHeld(a, b, (set i | i in inputs), ASSET);
    TwoHeld(a, b, (set i | i in inputs), ty);
    assert Spent(stock, inputs, 0) == [a, b];
    assert Total(ps) == 3 by {
      TotalStep(ps, 0);
      assert ps[..1] == ps && ps[..0] == [];
    }
    t := Transition(0, [a, b], PaymentOuts(ps) + [Out(ASSET, FreshChange, Amount(12))]);
    hide Fungible, Spent, SumAll, Merged, SumIn, SumOut, Total, On;
    assert TransferOf(stock, [0], m, t);
    OutsOf(ps, 15, ASSET, FreshChange);
    OutsOf(ps, 15, ty, FreshChange);
  }
}
