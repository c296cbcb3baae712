/** The colouring library: composing the transitions of a payment and committing
    them into bundles. */
module Coloring {
  import opened Basics
  import opened Transitions

  type Move = Transition<nat>

  // ------------------------------------------------------------------ carrying

  /** Pieces of state moved to the change seal, one after the other. */
  function Carry(outs: seq<Out<nat>>, change: nat, held: seq<Held>): seq<Out<nat>> {
    if held == [] then outs
    else Put(Carry(outs, change, held[..|held| - 1]),
             Out(held[|held| - 1].opout.ty, change, held[|held| - 1].state))
  }

  /** The amount of the last piece of a type. */
  function LastOf(held: seq<Held>, ty: nat): nat {
    if held == [] then 0
    else if held[|held| - 1].opout.ty == ty then Value(held[|held| - 1].state)
    else LastOf(held[..|held| - 1], ty)
  }

  predicate OfType(held: seq<Held>, ty: nat) {
    exists i :: 0 <= i < |held| && held[i].opout.ty == ty
  }

  lemma OfTypeSnoc(held: seq<Held>, h: Held, ty: nat)
    ensures OfType(held + [h], ty) <==> OfType(held, ty) || h.opout.ty == ty
  {
    if OfType(held, ty) {
      var i :| 0 <= i < |held| && held[i].opout.ty == ty;
      assert (held + [h])[i].opout.ty == ty;
    }
    assert (held + [h])[|held|] == h;
  }

  /** Each type keeps only its last piece: an earlier one is replaced. */
  lemma {:induction false} CarrySums(change: nat, held: seq<Held>, ty: nat, seal: nat)
    ensures var outs := Carry([], change, held);
            && DistinctSeals(outs) && SumOut(outs, ty) == LastOf(held, ty)
            && SumAt(outs, ty, seal) == (if seal == change then LastOf(held, ty) else 0)
            && (Assigned(outs, ty, seal) <==> seal == change && OfType(held, ty))
  {
    if held != [] {
      var rest, last := held[..|held| - 1], held[|held| - 1];
      var outs, o := Carry([], change, rest), Out(last.opout.ty, change, last.state);
      CarrySums(change, rest, ty, seal);
      CarrySums(change, rest, ty, change);
      CarrySums(change, rest, last.opout.ty, change);
      PutSum(outs, o, ty);
      PutAt(outs, o, ty, seal);
      PutAssigned(outs, o, ty, seal);
      assert held == rest + [last];
      OfTypeSnoc(rest, last, ty);
    }
  }

  /** No amount is followed by another piece of its type. */
  predicate NoneReplaced(held: seq<Held>) {
    forall i, j :: 0 <= i < j < |held| && held[i].opout.ty == held[j].opout.ty ==> Value(held[i].state) == 0
  }

  lemma {:induction false} LastIsAll(held: seq<Held>, ty: nat)
    ensures LastOf(held, ty) <= SumIn(held, ty)
    ensures NoneReplaced(held) ==> LastOf(held, ty) == SumIn(held, ty)
  {
    if held != [] {
      var rest, last := held[..|held| - 1], held[|held| - 1];
      LastIsAll(rest, ty);
      assert forall i :: 0 <= i < |rest| ==> rest[i] == held[i];
      if NoneReplaced(held) && last.opout.ty == ty {
        AllZero(rest, ty);
      }
    }
  }

  lemma AllZero(held: seq<Held>, ty: nat)
    requires forall i :: 0 <= i < |held| && held[i].opout.ty == ty ==> Value(held[i].state) == 0
    ensures SumIn(held, ty) == 0
  {
  }

  /** If the last pieces are all there is of every type, nothing was replaced. */
  lemma {:induction false} AllIsLast(held: seq<Held>)
    requires forall ty :: LastOf(held, ty) == SumIn(held, ty)
    ensures NoneReplaced(held)
  {
    if held != [] {
      var rest, last := held[..|held| - 1], held[|held| - 1];
      assert LastOf(held, last.opout.ty) == SumIn(held, last.opout.ty);
      assert SumIn(rest, last.opout.ty) == 0;
      forall ty
        ensures LastOf(rest, ty) == SumIn(rest, ty)
      {
        LastIsAll(rest, ty);
        assert LastOf(held, ty) == SumIn(held, ty);
      }
      AllIsLast(rest);
      forall i | 0 <= i < |rest| && rest[i].opout.ty == last.opout.ty
        ensures Value(rest[i].state) == 0
      {
        PieceInSum(rest, i);
      }
      assert forall i :: 0 <= i < |rest| ==> rest[i] == held[i];
    }
  }

  lemma {:induction false} PieceInSum(held: seq<Held>, i: nat)
    requires i < |held|
    ensures Value(held[i].state) <= SumIn(held, held[i].opout.ty)
  {
    if i < |held| - 1 {
      PieceInSum(held[..|held| - 1], i);
      assert held[..|held| - 1][i] == held[i];
    }
  }

  /** Every piece, fungible or not, keeps an assignment of its own exactly when no
      two are of the same type. */
  lemma {:induction false} CarryKeepsPieces(change: nat, held: seq<Held>)
    ensures |Carry([], change, held)| <= |held|
    ensures |Carry([], change, held)| == |held| <==>
            forall i, j :: 0 <= i < j < |held| ==> held[i].opout.ty != held[j].opout.ty
  {
    if held != [] {
      var rest, last := held[..|held| - 1], held[|held| - 1];
      CarryKeepsPieces(change, rest);
      CarrySums(change, rest, last.opout.ty, change);
      assert forall i :: 0 <= i < |rest| ==> rest[i] == held[i];
      if OfType(rest, last.opout.ty) {
        var i :| 0 <= i < |rest| && rest[i].opout.ty == last.opout.ty;
        assert held[i].opout.ty == held[|held| - 1].opout.ty;
      }
    }
  }

  // ----------------------------------------------------------------- composing

  function NonAsset(held: seq<Held>): seq<Held> {
    if held == [] then []
    else NonAsset(held[..|held| - 1]) + if held[|held| - 1].opout.ty == ASSET then [] else [held[|held| - 1]]
  }

  /** Assignments to the recipients, one after the other. */
  function PayAll(outs: seq<Out<nat>>, ps: seq<Payment<nat>>): seq<Out<nat>> {
    if ps == [] then outs
    else Put(PayAll(outs, ps[..|ps| - 1]), Out(ASSET, ps[|ps| - 1].seal, Amount(ps[|ps| - 1].amount)))
  }

  function WithChange(outs: seq<Out<nat>>, seal: nat, amount: u64): seq<Out<nat>> {
    if amount == 0 then outs else Put(outs, Out(ASSET, seal, Amount(amount)))
  }

  function SealOf(change: Option<nat>): nat {
    if change.Some? then change.value else 0
  }

  function Sum(held: seq<Held>): u64 {
    Wrap(SumIn(held, ASSET))
  }

  function Needed(ps: seq<Payment<nat>>): u64 {
    Wrap(Total(ps))
  }

  /** The transition of a paid contract: all its state on the inputs goes in; what
      is not an asset goes to the change seal, then the recipients are paid, then
      the change seal gets the rest. */
  ghost predicate IsMain(t: Move, c: nat, held: seq<Held>, ps: seq<Payment<nat>>, change: Option<nat>) {
    && t.contract == c && t.inputs == held && held != [] && Needed(ps) <= Sum(held)
    && t.outs == WithChange(PayAll(Carry([], SealOf(change), NonAsset(held)), ps), SealOf(change),
                            Sum(held) as int - Needed(ps) as int)
  }

  predicate AssetsAreAmounts(held: seq<Held>) {
    forall i :: 0 <= i < |held| && held[i].opout.ty == ASSET ==> held[i].state.Amount?
  }

  /** The change seal is there whenever it is needed. */
  predicate ChangeGiven(held: seq<Held>, ps: seq<Payment<nat>>, change: Option<nat>) {
    change.Some? || (NonAsset(held) == [] && Sum(held) == Needed(ps))
  }

  lemma NonAssetStep(held: seq<Held>, i: nat)
    requires i < |held|
    ensures NonAsset(held[..i + 1]) == if held[i].opout.ty == ASSET then NonAsset(held[..i])
            else NonAsset(held[..i]) + [held[i]]
    ensures SumIn(held[..i + 1], ASSET) == SumIn(held[..i], ASSET) + if held[i].opout.ty == ASSET
            then Value(held[i].state) else 0
  {
    assert held[..i + 1][..i] == held[..i];
  }

  lemma {:induction false} NonAssetGrows(held: seq<Held>, i: nat)
    requires i <= |held| && NonAsset(held[..i]) != []
    ensures NonAsset(held) != []
    decreases |held| - i
  {
    if i < |held| {
      NonAssetStep(held, i);
      NonAssetGrows(held, i + 1);
    } else {
      assert held[..i] == held;
    }
  }

  lemma CarryStep(change: nat, held: seq<Held>, h: Held)
    ensures Carry([], change, held + [h]) == Put(Carry([], change, held), Out(h.opout.ty, change, h.state))
  {
    assert (held + [h])[..|held|] == held;
  }

  /** Puts in all state of a contract: adds up the assets and carries the rest. */
  method PutIn(held: seq<Held>, change: Option<nat>) returns (r: Result<(u64, seq<Out<nat>>)>)
    requires AssetsAreAmounts(held)
    ensures r == if NonAsset(held) != [] && change.None? then Crash
                 else Ok((Sum(held), Carry([], SealOf(change), NonAsset(held))))
  {
    var sum: u64 := Wrap(0);
    var outs := [];
    assert NonAsset(held[..0]) == [] && SumIn(held[..0], ASSET) == 0 && Carry([], SealOf(change), []) == [];
    assert held[..|held|] == held;
    hide Wrap, NonAsset, SumIn, Carry, Put;
    for i := 0 to |held|
      invariant sum == Wrap(SumIn(held[..i], ASSET))
      invariant outs == Carry([], SealOf(change), NonAsset(held[..i]))
      invariant NonAsset(held[..i]) != [] ==> change.Some?
    {
      NonAssetStep(held, i);
      if held[i].opout.ty != ASSET {
        if change.None? {
          NonAssetGrows(held, i + 1);
          return Crash;
        }
        CarryStep(change.value, NonAsset(held[..i]), held[i]);
        outs := Put(outs, Out(held[i].opout.ty, change.value, held[i].state));
      } else {
        WrapAdd(SumIn(held[..i], ASSET), held[i].state.value);
        sum := Wrap(sum as int + held[i].state.value as int);
      }
    }
    r := Ok((sum, outs));
  }

  /** Adds up the requests. */
  method AddUp(ps: seq<Payment<nat>>) returns (needed: u64)
    ensures needed == Needed(ps)
  {
    needed := Wrap(0);
    hide Wrap;
    for i := 0 to |ps|
      invariant needed == Wrap(Total(ps[..i]))
    {
      TotalStep(ps, i);
      WrapAdd(Total(ps[..i]), ps[i].amount);
      needed := Wrap(needed as int + ps[i].amount as int);
    }
    assert ps[..|ps|] == ps;
  }

  method PayEach(outs0: seq<Out<nat>>, ps: seq<Payment<nat>>) returns (outs: seq<Out<nat>>)
    ensures outs == PayAll(outs0, ps)
  {
    outs := outs0;
    for i := 0 to |ps|
      invariant outs == PayAll(outs0, ps[..i])
    {
      assert ps[..i + 1][..i] == ps[..i];
      outs := Put(outs, Out(ASSET, ps[i].seal, Amount(ps[i].amount)));
    }
    assert ps[..|ps|] == ps;
  }

  /** Builds the transition of a paid contract: refused when the assets do not
      cover the requests, and a panic without inputs or without a change seal
      where one is needed. */
  method BuildMain(c: nat, held: seq<Held>, ps: seq<Payment<nat>>, change: Option<nat>) returns (r: Result<Move>)
    requires AssetsAreAmounts(held)
    ensures r.Ok? <==> held != [] && Needed(ps) <= Sum(held) && ChangeGiven(held, ps, change)
    ensures r.Ok? ==> IsMain(r.value, c, held, ps, change)
    ensures r.Err? ==> Sum(held) < Needed(ps)
  {
    var made := PutIn(held, change);
    if !made.Ok? {
      return Crash;
    }
    var (sum, outs) := made.value;
    var needed := AddUp(ps);
    hide Sum, Needed;
    if sum < needed {
      return Err;
    }
    outs := PayEach(outs, ps);
    if sum > needed {
      if change.None? {
        return Crash;
      }
      outs := Put(outs, Out(ASSET, change.value, Amount(sum as int - needed as int)));
    }
    if held == [] {
      return Crash;
    }
    r := Ok(Transition(c, held, outs));
  }

  // -------------------------------------------------------------- conservation

  lemma {:induction false} NonAssetTypes(held: seq<Held>, ty: nat)
    ensures !OfType(NonAsset(held), ASSET)
    ensures LastOf(NonAsset(held), ASSET) == 0
    ensures ty != ASSET ==> SumIn(NonAsset(held), ty) == SumIn(held, ty)
  {
    if held != [] {
      var rest, last := held[..|held| - 1], held[|held| - 1];
      NonAssetTypes(rest, ty);
      OfTypeSnoc(NonAsset(rest), last, ASSET);
      SumInSnoc(NonAsset(rest), last, ty);
      assert (NonAsset(rest) + [last])[..|NonAsset(rest)|] == NonAsset(rest);
      assert NonAsset(rest) + [] == NonAsset(rest);
    }
  }

  /** Paying distinct seals that have no assets yet adds exactly the payments. */
  lemma {:induction false} PayAllSums(outs: seq<Out<nat>>, ps: seq<Payment<nat>>, ty: nat, seal: nat)
    requires DistinctSeals(outs) && OneEachSeal(ps) && forall x :: !Assigned(outs, ASSET, x)
    ensures var after := PayAll(outs, ps);
            && DistinctSeals(after) && SumAt(after, ASSET, seal) == PaidTo(ps, seal)
            && SumOut(after, ty) == SumOut(outs, ty) + if ty == ASSET then Total(ps) else 0
  {
    if ps == [] {
      SumAtNone(outs, ASSET, seal);
    } else {
      var rest, last := ps[..|ps| - 1], ps[|ps| - 1];
      var o := Out(ASSET, last.seal, Amount(last.amount));
      PayAllSums(outs, rest, ty, seal);
      PayAllSums(outs, rest, ty, last.seal);
      PaidToNone(rest, last.seal);
      PutSum(PayAll(outs, rest), o, ty);
      PutAt(PayAll(outs, rest), o, ASSET, seal);
      PutAssigned(PayAll(outs, rest), o, ASSET, seal);
    }
  }

  /** What a main transition puts out of each type. */
  lemma MainSums(t: Move, c: nat, held: seq<Held>, ps: seq<Payment<nat>>, change: Option<nat>, ty: nat)
    requires IsMain(t, c, held, ps, change) && OneEachSeal(ps)
    ensures ty != ASSET ==> SumOut(t.outs, ty) == LastOf(NonAsset(held), ty)
    ensures var rest := Sum(held) as int - Needed(ps) as int;
            SumOut(t.outs, ASSET) == Total(ps) + (if rest == 0 then 0 else rest - PaidTo(ps, SealOf(change)))
  {
    var seal, rest := SealOf(change), Sum(held) as int - Needed(ps) as int;
    var carried := Carry([], seal, NonAsset(held));
    assert t.outs == WithChange(PayAll(carried, ps), seal, rest);
    NonAssetTypes(held, ty);
    CarrySums(seal, NonAsset(held), ty, seal);
    CarrySums(seal, NonAsset(held), ASSET, seal);
    forall x
      ensures !Assigned(carried, ASSET, x)
    {
      CarrySums(seal, NonAsset(held), ASSET, x);
    }
    hide *;
    OutSums(carried, ps, seal, rest, ty);
    OutSums(carried, ps, seal, rest, ASSET);
  }

  lemma OutSums(carried: seq<Out<nat>>, ps: seq<Payment<nat>>, seal: nat, rest: u64, ty: nat)
    requires DistinctSeals(carried) && OneEachSeal(ps) && forall x :: !Assigned(carried, ASSET, x)
    ensures SumOut(WithChange(PayAll(carried, ps), seal, rest), ty) ==
            if ty == ASSET
                then SumOut(carried, ASSET) + Total(ps) + (if rest == 0 then 0 else rest as int - PaidTo(ps, seal))
            else SumOut(carried, ty)
  {
    PayAllSums(carried, ps, ty, seal);
    PutSum(PayAll(carried, ps), Out(ASSET, seal, Amount(rest)), ty);
  }

  /** The amounts asked for and those put in lie in the same range of 64 bits. */
  predicate SameRange(held: seq<Held>, ps: seq<Payment<nat>>) {
    Total(ps) / U64_LIMIT == SumIn(held, ASSET) / U64_LIMIT
  }

  /** The change seal takes the place of a payment. */
  predicate ChangeReplaces(held: seq<Held>, ps: seq<Payment<nat>>, change: Option<nat>) {
    Sum(held) != Needed(ps) && PaidTo(ps, SealOf(change)) > 0
  }

  lemma AssetsAddUp(n: nat, s: nat, paid: u64, replaced: bool)
    requires Wrap(n) <= Wrap(s)
    ensures var rest := Wrap(s) as int - Wrap(n) as int;
            n + rest - (if replaced then paid as int else 0) == s <==>
                n / U64_LIMIT == s / U64_LIMIT && !(replaced && paid > 0)
  {
    assert n == U64_LIMIT * (n / U64_LIMIT) + n % U64_LIMIT;
    assert s == U64_LIMIT * (s / U64_LIMIT) + s % U64_LIMIT;
    var d := n / U64_LIMIT - s / U64_LIMIT;
    assert n + (s % U64_LIMIT - n % U64_LIMIT) - s == U64_LIMIT * d;
    assert d != 0 ==> U64_LIMIT * d >= U64_LIMIT || U64_LIMIT * d <= -(U64_LIMIT as int);
  }

  /** A main transition conserves every type exactly when no carried amount is
      replaced by another piece of its type, the change seal does not replace a
      payment, and the payments and the inputs leave 64 bits equally often. */
  lemma MainConserves(t: Move, c: nat, held: seq<Held>, ps: seq<Payment<nat>>, change: Option<nat>)
    requires IsMain(t, c, held, ps, change) && OneEachSeal(ps)
    ensures Conserves(t) <==> NoneReplaced(NonAsset(held)) && !ChangeReplaces(held, ps, change) && SameRange(held, ps)
  {
    var carried, seal := NonAsset(held), SealOf(change);
    PaidFits(ps, seal);
    AssetsAddUp(Total(ps), SumIn(held, ASSET), PaidTo(ps, seal), Sum(held) != Needed(ps));
    forall ty
      ensures SumOut(t.outs, ty) == SumIn(held, ty) <==>
              if ty == ASSET then !ChangeReplaces(held, ps, change) && SameRange(held, ps)
                  else LastOf(carried, ty) == SumIn(carried, ty)
    {
      MainSums(t, c, held, ps, change, ty);
      NonAssetTypes(held, ty);
    }
    forall ty
      ensures NoneReplaced(carried) ==> LastOf(carried, ty) == SumIn(carried, ty)
    {
      LastIsAll(carried, ty);
    }
    NonAssetTypes(held, ASSET);
    NotOfType(carried, ASSET);
    hide Sum, Needed, SumIn, SumOut, LastOf, NoneReplaced, NonAsset, Wrap, Total, PaidTo, SameRange, IsMain;
    if Conserves(t) {
      forall ty
        ensures LastOf(carried, ty) == SumIn(carried, ty)
      {
        assert SumOut(t.outs, ty) == SumIn(held, ty);
      }
      AllIsLast(carried);
      assert SumOut(t.outs, ASSET) == SumIn(held, ASSET);
    }
  }

  lemma {:induction false} NotOfType(held: seq<Held>, ty: nat)
    requires !OfType(held, ty)
    ensures SumIn(held, ty) == 0
  {
    if held != [] {
      var rest := held[..|held| - 1];
      assert forall i :: 0 <= i < |rest| ==> rest[i] == held[i];
      NotOfType(rest, ty);
    }
  }

  lemma {:induction false} PaidFits(ps: seq<Payment<nat>>, seal: nat)
    requires OneEachSeal(ps)
    ensures PaidTo(ps, seal) < U64_LIMIT
  {
    if ps != [] {
      if ps[|ps| - 1].seal == seal {
        PaidToNone(ps[..|ps| - 1], seal);
      } else {
        PaidFits(ps[..|ps| - 1], seal);
      }
    }
  }

  // ---------------------------------------------------------- the whole payment

  predicate Touched(stock: Stock, spent: set<nat>, c: nat) {
    c in stock && On(stock[c], spent) != []
  }

  /** State of a contract on a spent outpoint. */
  ghost predicate Exposed(stock: Stock, spent: set<nat>, c: nat, h: Held) {
    c in stock && h in stock[c] && h.outpoint in spent
  }

  lemma TouchedMeans(stock: Stock, spent: set<nat>, c: nat)
    ensures Touched(stock, spent, c) <==> exists h :: Exposed(stock, spent, c, h)
  {
    if c in stock {
      var on := On(stock[c], spent);
      if on != [] {
        InOn(stock[c], spent, on[0]);
        assert Exposed(stock, spent, c, on[0]);
      }
      if h :| Exposed(stock, spent, c, h) {
        InOn(stock[c], spent, h);
      }
    }
  }

  ghost predicate Consumes(ts: seq<Move>, i: nat, c: nat, h: Held) {
    i < |ts| && ts[i].contract == c && h in ts[i].inputs
  }

  /** Nothing on a spent outpoint is lost, and nothing else is consumed: every piece of
      state there is an input of exactly one transition, which lists it as often as the
      contract does, and every input of a transition is such a piece. */
  ghost predicate MovedOnce(stock: Stock, spent: set<nat>, ts: seq<Move>) {
    && (forall c, h :: Exposed(stock, spent, c, h) ==> exists i :: Consumes(ts, i, c, h))
    && (forall i: nat, j: nat, c: nat, h :: Consumes(ts, i, c, h) && Consumes(ts, j, c, h) ==> i == j)
    && (forall i: nat, c: nat, h :: Consumes(ts, i, c, h) ==>
          Exposed(stock, spent, c, h) && multiset(ts[i].inputs)[h] == multiset(stock[c])[h])
  }

  lemma {:induction false} ComposedMovesOnce(stock: Stock, spent: set<nat>, requests: map<nat, seq<Payment<nat>>>,
                                             change: Option<nat>, ts: seq<Move>, cs: set<nat>)
    requires AllComposed(stock, spent, requests, change, ts, cs)
    requires forall c, h :: Exposed(stock, spent, c, h) ==> c in cs
    ensures MovedOnce(stock, spent, ts)
  {
    forall i | 0 <= i < |ts|
      ensures ts[i].contract in stock && ts[i].inputs == On(stock[ts[i].contract], spent)
    {
      assert Composed(stock, spent, requests, change, ts[i]);
    }
    hide AllComposed, Composed, On;
    forall c, h | Exposed(stock, spent, c, h)
      ensures exists i :: Consumes(ts, i, c, h)
    {
      assert c in Contracts(ts) by { AllComposedContracts(stock, spent, requests, change, ts, cs); }
      var i :| 0 <= i < |ts| && ts[i].contract == c;
      InOn(stock[c], spent, h);
      assert Consumes(ts, i, c, h);
    }
    forall i: nat, c: nat, h | Consumes(ts, i, c, h)
      ensures Exposed(stock, spent, c, h) && multiset(ts[i].inputs)[h] == multiset(stock[c])[h]
    {
      InOn(stock[c], spent, h);
      OnCounts(stock[c], spent, h);
    }
    AllComposedContracts(stock, spent, requests, change, ts, cs);
  }

  lemma AllComposedContracts(stock: Stock, spent: set<nat>, requests: map<nat, seq<Payment<nat>>>,
                             change: Option<nat>, ts: seq<Move>, cs: set<nat>)
    requires AllComposed(stock, spent, requests, change, ts, cs)
    ensures Contracts(ts) == cs && DistinctContracts(ts)
  {
  }

  ghost predicate AmountsOk(stock: Stock, spent: set<nat>) {
    forall c :: c in stock ==> AssetsAreAmounts(On(stock[c], spent))
  }

  /** A paid contract can be composed. */
  ghost predicate Payable(stock: Stock, spent: set<nat>, change: Option<nat>, c: nat, ps: seq<Payment<nat>>) {
    && c in stock && On(stock[c], spent) != []
    && Needed(ps) <= Sum(On(stock[c], spent)) && ChangeGiven(On(stock[c], spent), ps, change)
  }

  /** The transition of a contract that is spent but not paid: everything goes to
      the change seal. */
  ghost predicate IsBlank(t: Move, c: nat, held: seq<Held>, change: Option<nat>) {
    t.contract == c && t.inputs == held && held != [] && change.Some? && t.outs == Carry([], change.value, held)
  }

  ghost predicate Composed(stock: Stock, spent: set<nat>, requests: map<nat, seq<Payment<nat>>>, change: Option<nat>,
                           t: Move)
  {
    && t.contract in stock
    && if t.contract in requests then IsMain(t, t.contract, On(stock[t.contract], spent), requests[t.contract], change)
       else IsBlank(t, t.contract, On(stock[t.contract], spent), change)
  }

  ghost predicate AllComposed(stock: Stock, spent: set<nat>, requests: map<nat, seq<Payment<nat>>>, change: Option<nat>,
                              ts: seq<Move>, cs: set<nat>)
  {
    && DistinctContracts(ts) && Contracts(ts) == cs
    && forall i :: 0 <= i < |ts| ==> Composed(stock, spent, requests, change, ts[i])
  }

  lemma ComposeOne(stock: Stock, spent: set<nat>, requests: map<nat, seq<Payment<nat>>>, change: Option<nat>,
                   ts: seq<Move>, cs: set<nat>, t: Move)
    requires AllComposed(stock, spent, requests, change, ts, cs) && t.contract !in cs
    requires Composed(stock, spent, requests, change, t)
    ensures AllComposed(stock, spent, requests, change, ts + [t], cs + {t.contract})
  {
    hide Composed, Contracts;
    ContractsSnoc(ts, t);
  }

  /** One transition for each paid contract. */
  method ComposePaid(stock: Stock, spent: set<nat>, requests: map<nat, seq<Payment<nat>>>, change: Option<nat>)
    returns (r: Result<seq<Move>>)
    requires AmountsOk(stock, spent)
    ensures r.Ok? <==> forall c :: c in requests ==> Payable(stock, spent, change, c, requests[c])
    ensures r.Ok? ==> AllComposed(stock, spent, requests, change, r.value, requests.Keys)
  {
    var ts: seq<Move>, todo := [], requests.Keys;
    ghost var cs: set<nat> := {};
    hide Needed, Sum, ChangeGiven, IsMain, IsBlank, Contracts, DistinctContracts, AssetsAreAmounts;
    Empty(stock, spent, requests, change);
    while todo != {}
      invariant forall c :: c in requests <==> c in todo || c in cs
      invariant forall c :: c in cs ==> c !in todo && Payable(stock, spent, change, c, requests[c])
      invariant AllComposed(stock, spent, requests, change, ts, cs)
      decreases |todo|
    {
      var c :| c in todo;
      if c !in stock {
        return Err;
      }
      var t := BuildMain(c, On(stock[c], spent), requests[c], change);
      if !t.Ok? {
        return if t.Err? then Err else Crash;
      }
      assert t.value.contract == c by {
        MainContract(t.value, c, On(stock[c], spent), requests[c], change);
      }
      ComposeOne(stock, spent, requests, change, ts, cs, t.value);
      ts := ts + [t.value];
      todo, cs := todo - {c}, cs + {c};
    }
    assert cs == requests.Keys;
    r := Ok(ts);
  }

  lemma Empty(stock: Stock, spent: set<nat>, requests: map<nat, seq<Payment<nat>>>, change: Option<nat>)
    ensures AllComposed(stock, spent, requests, change, [], {})
  {
  }

  lemma MainContract(t: Move, c: nat, held: seq<Held>, ps: seq<Payment<nat>>, change: Option<nat>)
    requires IsMain(t, c, held, ps, change)
    ensures t.contract == c
  {
  }

  /** Moves everything a contract has on the inputs to the change seal. */
  method BuildBlank(c: nat, held: seq<Held>, change: nat) returns (t: Move)
    requires held != []
    ensures IsBlank(t, c, held, Some(change))
  {
    var outs := [];
    for i := 0 to |held|
      invariant outs == Carry([], change, held[..i])
    {
      CarryStep(change, held[..i], held[i]);
      assert held[..i + 1] == held[..i] + [held[i]];
      outs := Put(outs, Out(held[i].opout.ty, change, held[i].state));
    }
    assert held[..|held|] == held;
    t := Transition(c, held, outs);
  }

  /** Composes a payment: one transition for each paid contract and one for each
      other contract with state on a spent input. */
  method Compose(stock: Stock, spent: set<nat>, requests: map<nat, seq<Payment<nat>>>, change: Option<nat>)
    returns (r: Result<seq<Move>>)
    requires AmountsOk(stock, spent)
    ensures r.Ok? <==> && (forall c :: c in requests ==> Payable(stock, spent, change, c, requests[c]))
                       && (change.None? ==> forall c, h :: Exposed(stock, spent, c, h) ==> c in requests)
    ensures r.Ok? ==> MovedOnce(stock, spent, r.value)
    ensures r.Ok? ==> AllComposed(stock, spent, requests, change, r.value,
                                  requests.Keys + set c | c in stock && Touched(stock, spent, c))
  {
    forall c ensures Touched(stock, spent, c) <==> exists h :: Exposed(stock, spent, c, h) {
      TouchedMeans(stock, spent, c);
    }
    r := ComposePaid(stock, spent, requests, change);
    if !r.Ok? {
      return;
    }
    assert forall c :: c in requests ==> Payable(stock, spent, change, c, requests[c]);
    assert forall c :: Touched(stock, spent, c) ==> c in stock;
    hide Payable, Touched, AllComposed, On;
    r := ComposeBlanks(stock, spent, requests, change, r.value);
    if r.Ok? {
      ghost var cs := requests.Keys + set c | c in stock && Touched(stock, spent, c);
      ComposedMovesOnce(stock, spent, requests, change, r.value, cs);
    }
  }

  /** The contracts that are touched but not paid: still to do, or done. */
  ghost predicate Left(stock: Stock, spent: set<nat>, paid: set<nat>, todo: set<nat>, cs: set<nat>) {
    && (forall c :: c in todo ==> Touched(stock, spent, c) && c !in paid && c !in cs)
    && (forall c :: c in paid || Touched(stock, spent, c) <==> c in todo || c in cs)
  }

  lemma LeftStart(stock: Stock, spent: set<nat>, paid: set<nat>, todo: set<nat>)
    requires todo == set c | c in stock && Touched(stock, spent, c) && c !in paid
    ensures Left(stock, spent, paid, todo, paid)
  {
    assert forall c :: Touched(stock, spent, c) ==> c in stock;
    hide Touched;
  }

  lemma LeftStep(stock: Stock, spent: set<nat>, paid: set<nat>, todo: set<nat>, cs: set<nat>, c: nat)
    requires Left(stock, spent, paid, todo, cs) && c in todo
    ensures Left(stock, spent, paid, todo - {c}, cs + {c})
    ensures c in stock && On(stock[c], spent) != [] && c !in paid && c !in cs
  {
    assert Touched(stock, spent, c);
    hide Touched;
  }

  lemma LeftDone(stock: Stock, spent: set<nat>, paid: set<nat>, cs: set<nat>)
    requires Left(stock, spent, paid, {}, cs)
    ensures cs == paid + set c | c in stock && Touched(stock, spent, c)
  {
    assert forall c :: Touched(stock, spent, c) ==> c in stock;
    hide Touched;
  }

  /** One transition for each contract that is touched but not paid. */
  method ComposeBlanks(stock: Stock, spent: set<nat>, requests: map<nat, seq<Payment<nat>>>, change: Option<nat>,
                       main: seq<Move>)
    returns (r: Result<seq<Move>>)
    requires AllComposed(stock, spent, requests, change, main, requests.Keys)
    ensures r.Ok? <==> (change.None? ==> forall c :: Touched(stock, spent, c) ==> c in requests)
    ensures r.Ok? ==> AllComposed(stock, spent, requests, change, r.value,
                                  requests.Keys + set c | c in stock && Touched(stock, spent, c))
  {
    var ts := main;
    var todo: set<nat> := set c | c in stock && Touched(stock, spent, c) && c !in requests;
    ghost var cs := requests.Keys;
    LeftStart(stock, spent, requests.Keys, todo);
    assert todo == {} ==> forall c :: Touched(stock, spent, c) ==> c in requests;
    hide AllComposed, Touched, On, Left, Composed, IsBlank;
    while todo != {}
      invariant Left(stock, spent, requests.Keys, todo, cs) && AllComposed(stock, spent, requests, change, ts, cs)
      invariant change.None? ==> (todo == {} ==> forall c :: Touched(stock, spent, c) ==> c in requests)
      decreases |todo|
    {
      var c :| c in todo;
      LeftStep(stock, spent, requests.Keys, todo, cs, c);
      if change.None? {
        assert Touched(stock, spent, c) by {
          LeftTouched(stock, spent, requests.Keys, todo, cs, c);
        }
        return Crash;
      }
      var t := BuildBlank(c, On(stock[c], spent), change.value);
      BlankComposed(stock, spent, requests, change, c, t);
      ComposeOne(stock, spent, requests, change, ts, cs, t);
      ts := ts + [t];
      todo, cs := todo - {c}, cs + {c};
    }
    LeftDone(stock, spent, requests.Keys, cs);
    r := Ok(ts);
  }

  lemma LeftTouched(stock: Stock, spent: set<nat>, paid: set<nat>, todo: set<nat>, cs: set<nat>, c: nat)
    requires Left(stock, spent, paid, todo, cs) && c in todo
    ensures Touched(stock, spent, c)
  {
    hide Touched;
  }

  lemma BlankComposed(stock: Stock, spent: set<nat>, requests: map<nat, seq<Payment<nat>>>, change: Option<nat>,
                      c: nat, t: Move)
    requires c in stock && c !in requests && IsBlank(t, c, On(stock[c], spent), change)
    ensures t.contract == c && Composed(stock, spent, requests, change, t)
  {
    hide On, Carry;
  }

  /** A blank transition conserves every type exactly when no amount is replaced. */
  lemma BlankConserves(t: Move, c: nat, held: seq<Held>, change: Option<nat>)
    requires IsBlank(t, c, held, change)
    ensures Conserves(t) <==> NoneReplaced(held)
  {
    forall ty
      ensures SumOut(t.outs, ty) == LastOf(held, ty)
      ensures NoneReplaced(held) ==> LastOf(held, ty) == SumIn(held, ty)
    {
      CarrySums(change.value, held, ty, change.value);
      LastIsAll(held, ty);
    }
    if ty: nat :| LastOf(held, ty) != SumIn(held, ty) {
      assert SumOut(t.outs, ty) != SumIn(t.inputs, ty);
    } else {
      AllIsLast(held);
    }
  }

  /** The loss is real: of two allocations of an unpaid contract only one is
      assigned again. */
  lemma BlankCanLose(a: Held, b: Held, change: nat)
    requires a.opout.ty == b.opout.ty
    ensures var t := Transition(0, [a, b], Carry([], change, [a, b]));
            && IsBlank(t, 0, [a, b], Some(change))
            && SumIn(t.inputs, a.opout.ty) == Value(a.state) + Value(b.state)
            && SumOut(t.outs, a.opout.ty) == Value(b.state)
  {
    hide Carry, SumIn, SumOut;
    CarrySums(change, [a, b], a.opout.ty, change);
    SumInSnoc([], a, a.opout.ty);
    SumInSnoc([a], b, a.opout.ty);
    NotOfType([], a.opout.ty);
    assert [] + [a] == [a] && [a] + [b] == [a, b];
  }

  // ---------------------------------------------------------------- committing

  /** What is published for one contract: the consumer of each input, and the
      transitions, ordered by their ids. */
  datatype Bundle = Bundle(consumers: map<Opout, nat>, known: seq<Move>)

  function Lookup<T>(m: map<nat, T>, c: nat, none: T): T {
    if c in m then m[c] else none
  }

  /** The first consumer of an input stays. */
  function AddConsumers(m: map<Opout, nat>, inputs: seq<Held>, id: nat): map<Opout, nat> {
    if inputs == [] then m
    else
      var m' := AddConsumers(m, inputs[..|inputs| - 1], id);
      var o := inputs[|inputs| - 1].opout;
      if o in m' then m' else m'[o := id]
  }

  function Repeat(t: Move, n: nat): seq<Move> {
    if n == 0 then [] else Repeat(t, n - 1) + [t]
  }

  /** The consumer tables after all transitions. */
  function InputMaps(id: Move -> nat, ts: seq<Move>): map<nat, map<Opout, nat>> {
    if ts == [] then map[]
    else
      var m, t := InputMaps(id, ts[..|ts| - 1]), ts[|ts| - 1];
      if t.inputs == [] then m else m[t.contract := AddConsumers(Lookup(m, t.contract, map[]), t.inputs, id(t))]
  }

  /** The transitions of each contract, once for every input. */
  function KnownLists(ts: seq<Move>): map<nat, seq<Move>> {
    if ts == [] then map[]
    else
      var m, t := KnownLists(ts[..|ts| - 1]), ts[|ts| - 1];
      if t.inputs == [] then m else m[t.contract := Lookup(m, t.contract, []) + Repeat(t, |t.inputs|)]
  }

  /** Insertion by id that drops a repeated id. */
  function InsertOnce(id: Move -> nat, s: seq<Move>, t: Move): seq<Move> {
    if s == [] then [t]
    else if id(s[|s| - 1]) == id(t) then s
    else if id(s[|s| - 1]) < id(t) then s + [t]
    else InsertOnce(id, s[..|s| - 1], t) + [s[|s| - 1]]
  }

  /** Sorted by id, repeated ids dropped. */
  function SortDedup(id: Move -> nat, s: seq<Move>): seq<Move> {
    if s == [] then [] else InsertOnce(id, SortDedup(id, s[..|s| - 1]), s[|s| - 1])
  }

  lemma {:induction false} RepeatDedups(id: Move -> nat, t: Move, n: nat)
    requires n > 0
    ensures SortDedup(id, Repeat(t, n)) == [t]
  {
    assert Repeat(t, n)[..n - 1] == Repeat(t, n - 1) by {
      RepeatLength(t, n - 1);
    }
    RepeatLength(t, n);
    if n > 1 {
      RepeatDedups(id, t, n - 1);
    }
  }

  lemma RepeatLength(t: Move, n: nat)
    ensures |Repeat(t, n)| == n
  {
  }

  /** Goes through one transition, input by input. */
  method Gather(id: Move -> nat, t: Move, maps0: map<nat, map<Opout, nat>>, known0: map<nat, seq<Move>>)
    returns (maps: map<nat, map<Opout, nat>>, known: map<nat, seq<Move>>)
    ensures if t.inputs == [] then maps == maps0 && known == known0
            else && maps == maps0[t.contract := AddConsumers(Lookup(maps0, t.contract, map[]), t.inputs, id(t))]
                 && known == known0[t.contract := Lookup(known0, t.contract, []) + Repeat(t, |t.inputs|)]
  {
    maps, known := maps0, known0;
    for i := 0 to |t.inputs|
      invariant i == 0 ==> maps == maps0 && known == known0
      invariant i > 0 ==>
                maps == maps0[t.contract := AddConsumers(Lookup(maps0, t.contract, map[]), t.inputs[..i], id(t))]
      invariant i > 0 ==> known == known0[t.contract := Lookup(known0, t.contract, []) + Repeat(t, i)]
    {
      var o := t.inputs[i].opout;
      var m := Lookup(maps, t.contract, map[]);
      assert t.inputs[..i + 1][..i] == t.inputs[..i];
      ghost var before := Lookup(known0, t.contract, []);
      assert before + Repeat(t, i + 1) == before + Repeat(t, i) + [t] && before + Repeat(t, 0) == before;
      maps := maps[t.contract := if o in m then m else m[o := id(t)]];
      known := known[t.contract := Lookup(known, t.contract, []) + [t]];
    }
    assert t.inputs[..|t.inputs|] == t.inputs;
  }

  predicate HaveInputs(ts: seq<Move>) {
    forall i :: 0 <= i < |ts| ==> ts[i].inputs != []
  }

  /** The bundles are those of the transitions, one contract each. */
  ghost predicate Committed(id: Move -> nat, ts: seq<Move>, bundles: map<nat, Bundle>) {
    && bundles.Keys == Contracts(ts)
    && forall i :: 0 <= i < |ts| ==>
         ts[i].contract in bundles &&
             bundles[ts[i].contract] == Bundle(AddConsumers(map[], ts[i].inputs, id(ts[i])), [ts[i]])
  }

  lemma {:induction false} MapsKeys(id: Move -> nat, ts: seq<Move>)
    ensures InputMaps(id, ts).Keys == KnownLists(ts).Keys <= Contracts(ts)
    ensures HaveInputs(ts) ==> InputMaps(id, ts).Keys == Contracts(ts)
    ensures !HaveInputs(ts) && DistinctContracts(ts) ==> InputMaps(id, ts).Keys != Contracts(ts)
  {
    if ts != [] {
      var rest, t := ts[..|ts| - 1], ts[|ts| - 1];
      assert ts == rest + [t];
      assert HaveInputs(ts) <==> HaveInputs(rest) && t.inputs != [];
      assert DistinctContracts(ts) ==> DistinctContracts(rest) && t.contract !in Contracts(rest);
      assert InputMaps(id, ts).Keys == InputMaps(id, rest).Keys + (if t.inputs == [] then {} else {t.contract});
      assert KnownLists(ts).Keys == KnownLists(rest).Keys + (if t.inputs == [] then {} else {t.contract});
      hide *;
      MapsKeys(id, rest);
      ContractsSnoc(rest, t);
    }
  }

  /** With distinct contracts each table holds the inputs of one transition. */
  lemma {:induction false} MapsAt(id: Move -> nat, ts: seq<Move>, i: nat)
    requires DistinctContracts(ts) && i < |ts| && ts[i].inputs != []
    ensures var c := ts[i].contract;
            && c in InputMaps(id, ts) && InputMaps(id, ts)[c] == AddConsumers(map[], ts[i].inputs, id(ts[i]))
            && c in KnownLists(ts) && KnownLists(ts)[c] == Repeat(ts[i], |ts[i].inputs|)
  {
    var rest, t := ts[..|ts| - 1], ts[|ts| - 1];
    if i < |rest| {
      assert rest[i] == ts[i];
      MapsAt(id, rest, i);
    } else {
      MapsKeys(id, rest);
      assert t.contract !in Contracts(rest);
      assert [] + Repeat(t, |t.inputs|) == Repeat(t, |t.inputs|);
    }
  }

  /** Goes through all transitions. */
  method GatherAll(id: Move -> nat, ts: seq<Move>) returns (maps: map<nat, map<Opout, nat>>, known: map<nat, seq<Move>>)
    ensures maps == InputMaps(id, ts) && known == KnownLists(ts)
  {
    maps, known := map[], map[];
    for i := 0 to |ts|
      invariant maps == InputMaps(id, ts[..i]) && known == KnownLists(ts[..i])
    {
      assert ts[..i + 1][..i] == ts[..i];
      maps, known := Gather(id, ts[i], maps, known);
    }
    assert ts[..|ts|] == ts;
  }

  /** The tables of these contracts have become bundles. */
  ghost predicate Bundled(id: Move -> nat, ts: seq<Move>, taken: set<nat>,
                          maps: map<nat, map<Opout, nat>>, known: map<nat, seq<Move>>, bundles: map<nat, Bundle>)
  {
    && maps == InputMaps(id, ts) - taken && known == KnownLists(ts) - taken
    && bundles.Keys == taken && taken <= InputMaps(id, ts).Keys && taken <= KnownLists(ts).Keys
    && forall c :: c in taken ==> bundles[c] == Bundle(InputMaps(id, ts)[c], SortDedup(id, KnownLists(ts)[c]))
  }

  lemma TakeOne(id: Move -> nat, ts: seq<Move>, taken: set<nat>,
                maps: map<nat, map<Opout, nat>>, known: map<nat, seq<Move>>, bundles: map<nat, Bundle>, c: nat)
    requires Bundled(id, ts, taken, maps, known, bundles) && c in maps && c in known
    ensures Bundled(id, ts, taken + {c}, maps - {c}, known - {c},
            bundles[c := Bundle(maps[c], SortDedup(id, known[c]))])
  {
    hide InputMaps, KnownLists, SortDedup;
  }

  lemma StillThere(id: Move -> nat, ts: seq<Move>, taken: set<nat>,
                   maps: map<nat, map<Opout, nat>>, known: map<nat, seq<Move>>, bundles: map<nat, Bundle>, c: nat)
    requires Bundled(id, ts, taken, maps, known, bundles)
    ensures c in maps <==> c in InputMaps(id, ts).Keys - taken
    ensures c in maps <==> c in known
    ensures taken <= InputMaps(id, ts).Keys
  {
    MapsKeys(id, ts);
    hide InputMaps, KnownLists;
  }

  lemma TakenAll(id: Move -> nat, ts: seq<Move>,
                 maps: map<nat, map<Opout, nat>>, known: map<nat, seq<Move>>, bundles: map<nat, Bundle>)
    requires Bundled(id, ts, Contracts(ts), maps, known, bundles) && DistinctContracts(ts) && HaveInputs(ts)
    ensures Committed(id, ts, bundles)
  {
    hide InputMaps, KnownLists, SortDedup, AddConsumers;
    forall i | 0 <= i < |ts|
      ensures ts[i].contract in bundles
      ensures bundles[ts[i].contract] == Bundle(AddConsumers(map[], ts[i].inputs, id(ts[i])), [ts[i]])
    {
      assert ts[i].contract in Contracts(ts);
      MapsAt(id, ts, i);
      RepeatDedups(id, ts[i], |ts[i].inputs|);
    }
  }

  /** The bundles of a list. A contract is taken out of the tables once, so a
      second transition of the same contract, a transition without inputs and an
      empty list are panics; nothing else is. */
  method Commit(id: Move -> nat, ts: seq<Move>) returns (r: Option<map<nat, Bundle>>)
    ensures r.Some? <==> ts != [] && DistinctContracts(ts) && HaveInputs(ts)
    ensures r.Some? ==> Committed(id, ts, r.value)
  {
    if ts == [] {
      return None;
    }
    var maps, known := GatherAll(id, ts);
    var bundles: map<nat, Bundle> := map[];
    ghost var taken: set<nat> := {};
    NoneTaken(id, ts, maps, known);
    hide *;
    for i := 0 to |ts|
      invariant TakenUpTo(id, ts, i, taken, maps, known, bundles)
    {
      var c := ts[i].contract;
      TakeNext(id, ts, i, taken, maps, known, bundles);
      if c !in maps {
        return None;
      }
      bundles := bundles[c := Bundle(maps[c], SortDedup(id, known[c]))];
      maps, known, taken := maps - {c}, known - {c}, taken + {c};
    }
    TakenLast(id, ts, taken, maps, known, bundles);
    r := Some(bundles);
  }

  /** The contracts of the first `i` transitions have become bundles. */
  ghost predicate TakenUpTo(id: Move -> nat, ts: seq<Move>, i: nat, taken: set<nat>,
                            maps: map<nat, map<Opout, nat>>, known: map<nat, seq<Move>>, bundles: map<nat, Bundle>)
    requires i <= |ts|
  {
    && taken == Contracts(ts[..i]) && DistinctContracts(ts[..i])
    && Bundled(id, ts, taken, maps, known, bundles)
  }

  lemma NoneTaken(id: Move -> nat, ts: seq<Move>, maps: map<nat, map<Opout, nat>>, known: map<nat, seq<Move>>)
    requires maps == InputMaps(id, ts) && known == KnownLists(ts)
    ensures TakenUpTo(id, ts, 0, {}, maps, known, map[])
  {
    hide InputMaps, KnownLists;
    assert ts[..0] == [];
    assert maps - {} == maps && known - {} == known;
  }

  lemma TakeNext(id: Move -> nat, ts: seq<Move>, i: nat, taken: set<nat>,
                 maps: map<nat, map<Opout, nat>>, known: map<nat, seq<Move>>, bundles: map<nat, Bundle>)
    requires i < |ts| && TakenUpTo(id, ts, i, taken, maps, known, bundles)
    ensures var c := ts[i].contract;
            if c in maps
            then c in known && TakenUpTo(id, ts, i + 1, taken + {c}, maps - {c}, known - {c},
                                         bundles[c := Bundle(maps[c], SortDedup(id, known[c]))])
            else !(DistinctContracts(ts) && HaveInputs(ts))
  {
    var c := ts[i].contract;
    assert ts[..i + 1] == ts[..i] + [ts[i]];
    hide InputMaps, KnownLists, SortDedup, HaveInputs, Contracts, Bundled, DistinctContracts;
    StillThere(id, ts, taken, maps, known, bundles, c);
    if c in maps {
      ContractsSnoc(ts[..i], ts[i]);
      TakeOne(id, ts, taken, maps, known, bundles, c);
    } else {
      MissingContract(id, ts, i);
    }
  }

  lemma TakenLast(id: Move -> nat, ts: seq<Move>, taken: set<nat>,
                  maps: map<nat, map<Opout, nat>>, known: map<nat, seq<Move>>, bundles: map<nat, Bundle>)
    requires TakenUpTo(id, ts, |ts|, taken, maps, known, bundles)
    ensures DistinctContracts(ts) && HaveInputs(ts) && Committed(id, ts, bundles)
  {
    assert ts[..|ts|] == ts;
    hide InputMaps, KnownLists, Committed, HaveInputs, Contracts, Bundled, DistinctContracts;
    StillThere(id, ts, taken, maps, known, bundles, 0);
    AllHaveInputs(id, ts);
    TakenAll(id, ts, maps, known, bundles);
  }

  lemma MissingContract(id: Move -> nat, ts: seq<Move>, i: nat)
    requires i < |ts| && ts[i].contract !in InputMaps(id, ts).Keys - Contracts(ts[..i])
    ensures !(DistinctContracts(ts) && HaveInputs(ts))
  {
    MapsKeys(id, ts);
    assert ts[i].contract in Contracts(ts);
    if ts[i].contract in Contracts(ts[..i]) {
      var j :| 0 <= j < i && ts[..i][j].contract == ts[i].contract;
      assert ts[j].contract == ts[i].contract;
    }
  }

  lemma AllHaveInputs(id: Move -> nat, ts: seq<Move>)
    requires DistinctContracts(ts) && Contracts(ts) <= InputMaps(id, ts).Keys
    ensures HaveInputs(ts)
  {
    MapsKeys(id, ts);
  }

  // ------------------------------------------------------------------- theorems

  /** What was composed can be committed. */
  lemma ComposedCommits(stock: Stock, spent: set<nat>, requests: map<nat, seq<Payment<nat>>>, change: Option<nat>,
                        ts: seq<Move>, cs: set<nat>)
    requires AllComposed(stock, spent, requests, change, ts, cs)
    ensures DistinctContracts(ts) && HaveInputs(ts)
  {
    forall i | 0 <= i < |ts|
      ensures ts[i].inputs != []
    {
      assert Composed(stock, spent, requests, change, ts[i]);
    }
  }

  /** Bundles do not depend on the order of the list. */
  lemma OrderDoesNotMatter(id: Move -> nat, a: seq<Move>, b: seq<Move>, x: map<nat, Bundle>, y: map<nat, Bundle>)
    requires Committed(id, a, x) && Committed(id, b, y)
    requires forall t :: t in a <==> t in b
    ensures x == y
  {
    forall c
      ensures c in Contracts(a) <==> c in Contracts(b)
    {
      SameContracts(a, b, c);
      SameContracts(b, a, c);
    }
    forall c | c in x
      ensures x[c] == y[c]
    {
      assert c in Contracts(a);
      var i :| 0 <= i < |a| && a[i].contract == c;
      assert a[i] in b;
      var j :| 0 <= j < |b| && b[j] == a[i];
      assert x[a[i].contract] == y[b[j].contract];
    }
  }

  lemma SameContracts(a: seq<Move>, b: seq<Move>, c: nat)
    requires forall t :: t in a ==> t in b
    ensures c in Contracts(a) ==> c in Contracts(b)
  {
    if c in Contracts(a) {
      var i :| 0 <= i < |a| && a[i].contract == c;
      assert a[i] in b;
      var j :| 0 <= j < |b| && b[j] == a[i];
      assert b[j].contract == c;
    }
  }

  /** In a committed list every consumed assignment is mapped to the transition
      that consumes it, and nothing else is mapped. */
  lemma {:induction false} ConsumerIsUnique(id: Move -> nat, ts: seq<Move>, bundles: map<nat, Bundle>, i: nat, o: Opout)
    requires Committed(id, ts, bundles) && i < |ts|
    ensures var m := bundles[ts[i].contract].consumers;
            && (o in m <==> exists k :: 0 <= k < |ts[i].inputs| && ts[i].inputs[k].opout == o)
            && (o in m ==> m[o] == id(ts[i]))
  {
    ConsumersOf(ts[i].inputs, id(ts[i]), o);
  }

  lemma {:induction false} ConsumersOf(inputs: seq<Held>, id: nat, o: Opout)
    ensures var m := AddConsumers(map[], inputs, id);
            && (o in m <==> exists k :: 0 <= k < |inputs| && inputs[k].opout == o) && (o in m ==> m[o] == id)
  {
    if inputs != [] {
      var rest, last := inputs[..|inputs| - 1], inputs[|inputs| - 1];
      ConsumersOf(rest, id, o);
      if k :| 0 <= k < |rest| && rest[k].opout == o {
        assert inputs[k].opout == o;
      }
      if last.opout == o {
        assert inputs[|inputs| - 1].opout == o;
      }
    }
  }
}
