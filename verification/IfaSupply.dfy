/** Contracts of the inflatable fungible asset schema as histories of accepted
    operations over single-use cells, and what every history conserves. */
module IfaSupply {
  import opened Basics
  import opened ContractVm
  import opened IfaPrograms

  /** An assignment; a link right carries no amount. */
  datatype Cell = Cell(ty: OwnedType, amount: u64)

  datatype Kind = Transfer | Inflate | Burn | MakeLink

  /** A transition: the cells it closes, in ascending order, and its own state. */
  datatype Transition = Transition(
    kind: Kind, inputs: seq<nat>,
    outAsset: seq<u64>, outInflation: seq<u64>, outLinks: nat,
    meta: map<Meta, u64>, globals: map<Global, seq<u64>>)

  datatype History = Genesis(op: Operation) | Then(before: History, tr: Transition)

  // -------------------------------------------------------- cells of a history

  function CellsOf(ty: OwnedType, amounts: seq<u64>): (cs: seq<Cell>)
    ensures |cs| == |amounts|
    ensures forall i :: 0 <= i < |cs| ==> cs[i] == Cell(ty, amounts[i])
  {
    seq(|amounts|, i requires 0 <= i < |amounts| => Cell(ty, amounts[i]))
  }

  function Links(n: nat): (cs: seq<Cell>)
    ensures |cs| == n && forall i :: 0 <= i < n ==> cs[i] == Cell(Link, 0)
  {
    seq(n, _ => Cell(Link, 0))
  }

  function Outputs(outAsset: seq<u64>, outInflation: seq<u64>, outLinks: nat): seq<Cell> {
    CellsOf(Asset, outAsset) + CellsOf(Inflation, outInflation) + Links(outLinks)
  }

  /** All cells ever created, in order of creation. */
  function Cells(h: History): seq<Cell> {
    match h
    case Genesis(op) => Outputs(op.outAsset, op.outInflation, op.outLinks)
    case Then(before, tr) => Cells(before) + Outputs(tr.outAsset, tr.outInflation, tr.outLinks)
  }

  /** Which cells have been closed. */
  function Closed(h: History): set<nat> {
    match h
    case Genesis(_) => {}
    case Then(before, tr) => Closed(before) + (set i | i in tr.inputs)
  }

  predicate Ascending(s: seq<nat>) {
    forall i, j :: 0 <= i < j < |s| ==> s[i] < s[j]
  }

  /** A seal is closed once: inputs are distinct open cells. */
  predicate InputsOpen(h: History, inputs: seq<nat>) {
    Ascending(inputs) && forall j :: 0 <= j < |inputs| ==> inputs[j] < |Cells(h)| && inputs[j] !in Closed(h)
  }

  /** The input amounts of one type, as the validator collects them. */
  function Amounts(cells: seq<Cell>, inputs: seq<nat>, ty: OwnedType): seq<u64>
    requires forall j :: 0 <= j < |inputs| ==> inputs[j] < |cells|
  {
    if inputs == [] then []
    else
      var c := cells[inputs[|inputs| - 1]];
      Amounts(cells, inputs[..|inputs| - 1], ty) + (if c.ty == ty then [c.amount] else [])
  }

  function OperationOf(h: History, tr: Transition): Operation
    requires InputsOpen(h, tr.inputs)
  {
    Operation(Amounts(Cells(h), tr.inputs, Asset), Amounts(Cells(h), tr.inputs, Inflation),
              |Amounts(Cells(h), tr.inputs, Link)|,
              tr.outAsset, tr.outInflation, tr.outLinks, tr.meta, tr.globals)
  }

  // -------------------------------------------------------------- acceptance

  /** A list in the contract encoding is shorter than 2^16. */
  predicate Lists(op: Operation) {
    |op.inAsset| < 0x1_0000 && |op.inInflation| < 0x1_0000 && |op.outAsset| < 0x1_0000 && |op.outInflation| < 0x1_0000
  }

  predicate GenesisSchema(op: Operation) {
    && op.inAsset == [] && op.inInflation == [] && op.inLinks == 0 && op.meta == map[]
    && op.globals.Keys == {IssuedSupply, MaxSupply}
    && |op.globals[IssuedSupply]| == 1 && |op.globals[MaxSupply]| == 1 && op.outLinks <= 1
  }

  predicate TransitionSchema(kind: Kind, op: Operation) {
    match kind
    case Transfer => op.meta == map[] && op.globals == map[] && op.inLinks <= 1 && op.outLinks <= 1
    case Inflate =>
      && op.meta.Keys == {AllowedInflation} && op.globals.Keys == {IssuedSupply} && |op.globals[IssuedSupply]| == 1
      && op.inAsset == [] && op.inLinks == 0 && op.inInflation != [] && op.outAsset != [] && op.outLinks == 0
    case Burn =>
      && op.meta.Keys == {BurnedAsset, BurnedInflation} && op.globals == map[]
      && op.inLinks <= 1 && op.outLinks == 0
    case MakeLink =>
      && op.meta == map[] && op.globals == map[]
      && op.inAsset == [] && op.inInflation == [] && op.inLinks == 1
      && op.outAsset == [] && op.outInflation == [] && op.outLinks == 0
  }

  const TS_TRANSFER: nat := 10000
  const TS_INFLATION: nat := 8000
  const TS_BURN: nat := 8010

  ghost predicate ScriptAccepts(kind: Kind, op: Operation) {
    match kind
    case Transfer => Accepts(op, TransferCode, map[0 := TS_TRANSFER])
    case Inflate => Accepts(op, InflationCode, map[0 := TS_INFLATION])
    case Burn => Accepts(op, BurnCode, map[0 := TS_BURN])
    case MakeLink => true
  }

  /** A history in which every operation passes the schema and its program. */
  ghost predicate Valid(h: History) {
    match h
    case Genesis(op) => Lists(op) && GenesisSchema(op) && Accepts(op, GenesisCode, map[])
    case Then(before, tr) =>
      && Valid(before) && InputsOpen(before, tr.inputs) && tr.inputs != []
      && Lists(OperationOf(before, tr))
      && TransitionSchema(tr.kind, OperationOf(before, tr)) && ScriptAccepts(tr.kind, OperationOf(before, tr))
  }

  // ------------------------------------------------------------------ totals

  /** The amount in the open cells of one type, among the first `n`. */
  function OpenUpTo(cells: seq<Cell>, closed: set<nat>, ty: OwnedType, n: nat): nat
    requires n <= |cells|
  {
    if n == 0 then 0
    else OpenUpTo(cells, closed, ty, n - 1) + (if n - 1 !in closed && cells[n - 1].ty == ty
        then cells[n - 1].amount else 0)
  }

  function Open(h: History, ty: OwnedType): nat {
    OpenUpTo(Cells(h), Closed(h), ty, |Cells(h)|)
  }

  /** How many open link rights there are among the first `n` cells. */
  function LinksUpTo(cells: seq<Cell>, closed: set<nat>, n: nat): nat
    requires n <= |cells|
  {
    if n == 0 then 0
    else LinksUpTo(cells, closed, n - 1) + (if n - 1 !in closed && cells[n - 1].ty == Link then 1 else 0)
  }

  function OpenLinks(h: History): nat {
    LinksUpTo(Cells(h), Closed(h), |Cells(h)|)
  }

  function First(globals: map<Global, seq<u64>>, g: Global): nat {
    if g in globals && globals[g] != [] then globals[g][0] else 0
  }

  function MetaOf(meta: map<Meta, u64>, m: Meta): nat {
    if m in meta then meta[m] else 0
  }

  function Maximum(h: History): nat {
    match h
    case Genesis(op) => First(op.globals, MaxSupply)
    case Then(before, _) => Maximum(before)
  }

  /** The sum of the issued supply published so far. */
  function Issued(h: History): nat {
    match h
    case Genesis(op) => First(op.globals, IssuedSupply)
    case Then(before, tr) => Issued(before) + First(tr.globals, IssuedSupply)
  }

  /** The sum of the burned amounts published so far. */
  function Burned(h: History, m: Meta): nat {
    match h
    case Genesis(_) => 0
    case Then(before, tr) => Burned(before, m) + MetaOf(tr.meta, m)
  }

  function LinkCount(h: History): nat {
    match h
    case Genesis(_) => 0
    case Then(before, tr) => LinkCount(before) + (if tr.kind == MakeLink then 1 else 0)
  }

  // ------------------------------------------------- closing and adding cells

  /** Cells past the end of the closed ones are untouched by closing. */
  lemma {:induction false} CloseOne(cells: seq<Cell>, closed: set<nat>, k: nat, ty: OwnedType, n: nat)
    requires k < |cells| && k !in closed && n <= |cells|
    ensures OpenUpTo(cells, closed + {k}, ty, n) ==
            OpenUpTo(cells, closed, ty, n) - (if k < n && cells[k].ty == ty then cells[k].amount else 0)
    ensures LinksUpTo(cells, closed + {k}, n) ==
            LinksUpTo(cells, closed, n) - (if k < n && cells[k].ty == Link then 1 else 0)
  {
    if n > 0 {
      CloseOne(cells, closed, k, ty, n - 1);
    }
  }

  /** Closing the inputs takes exactly their amounts out. */
  lemma {:induction false} CloseAll(cells: seq<Cell>, closed: set<nat>, inputs: seq<nat>, ty: OwnedType)
    requires Ascending(inputs) && forall j :: 0 <= j < |inputs| ==> inputs[j] < |cells| && inputs[j] !in closed
    ensures var closed' := closed + set i | i in inputs;
            && OpenUpTo(cells, closed', ty, |cells|) + Sum(Amounts(cells, inputs, ty)) ==
                OpenUpTo(cells, closed, ty, |cells|)
            && LinksUpTo(cells, closed', |cells|) + |Amounts(cells, inputs, Link)| == LinksUpTo(cells, closed, |cells|)
  {
    if inputs == [] {
      assert closed + (set i | i in inputs) == closed;
    } else {
      var rest, k := inputs[..|inputs| - 1], inputs[|inputs| - 1];
      assert inputs == rest + [k] && Ascending(rest);
      assert k !in rest;
      hide OpenUpTo, LinksUpTo, Amounts, Sum, Ascending;
      CloseAll(cells, closed, rest, ty);
      CloseNext(cells, closed, rest, k, ty);
    }
  }

  lemma CloseNext(cells: seq<Cell>, closed: set<nat>, rest: seq<nat>, k: nat, ty: OwnedType)
    requires k !in rest && k < |cells| && k !in closed && forall j :: 0 <= j < |rest| ==> rest[j] < |cells|
    ensures var part, closed' := closed + (set i | i in rest), closed + set i | i in rest + [k];
            && OpenUpTo(cells, closed', ty, |cells|) ==
               OpenUpTo(cells, part, ty, |cells|) - (if cells[k].ty == ty then cells[k].amount else 0)
            && LinksUpTo(cells, closed', |cells|) ==
                LinksUpTo(cells, part, |cells|) - (if cells[k].ty == Link then 1 else 0)
            && Sum(Amounts(cells, rest + [k], ty)) ==
                Sum(Amounts(cells, rest, ty)) + (if cells[k].ty == ty then cells[k].amount else 0)
            && |Amounts(cells, rest + [k], Link)| ==
                |Amounts(cells, rest, Link)| + (if cells[k].ty == Link then 1 else 0)
  {
    var part, closed' := closed + (set i | i in rest), closed + set i | i in rest + [k];
    assert closed' == part + {k};
    assert (rest + [k])[..|rest|] == rest;
    SumSnoc(Amounts(cells, rest, ty), cells[k].amount);
    hide OpenUpTo, LinksUpTo, Sum;
    CloseOne(cells, part, k, ty, |cells|);
  }

  lemma SumSnoc(s: seq<u64>, x: u64)
    ensures Sum(s + [x]) == Sum(s) + x && s + [] == s
  {
    assert (s + [x])[..|s|] == s;
  }

  /** Cells after `n` do not matter to the first `n`. */
  lemma OpenPrefix(cells: seq<Cell>, more: seq<Cell>, closed: set<nat>, ty: OwnedType, n: nat)
    requires n <= |cells|
    ensures OpenUpTo(cells + more, closed, ty, n) == OpenUpTo(cells, closed, ty, n)
    ensures LinksUpTo(cells + more, closed, n) == LinksUpTo(cells, closed, n)
  {
  }

  /** New cells of one type add their sum to that type. */
  lemma {:induction false} AddAmounts(cells: seq<Cell>, closed: set<nat>, of: OwnedType, amounts: seq<u64>,
                                      ty: OwnedType)
    requires of != Link && forall i :: i in closed ==> i < |cells|
    ensures var cells' := cells + CellsOf(of, amounts);
            && OpenUpTo(cells', closed, ty, |cells'|) ==
               OpenUpTo(cells, closed, ty, |cells|) + (if of == ty then Sum(amounts) else 0)
            && LinksUpTo(cells', closed, |cells'|) == LinksUpTo(cells, closed, |cells|)
  {
    var cells' := cells + CellsOf(of, amounts);
    if amounts == [] {
      assert cells' == cells;
    } else {
      var rest := amounts[..|amounts| - 1];
      AddAmounts(cells, closed, of, rest, ty);
      assert cells' == cells + CellsOf(of, rest) + [Cell(of, amounts[|amounts| - 1])];
      OpenPrefix(cells + CellsOf(of, rest), [Cell(of, amounts[|amounts| - 1])], closed, ty, |cells'| - 1);
    }
  }

  lemma {:induction false} AddLinks(cells: seq<Cell>, closed: set<nat>, n: nat, ty: OwnedType)
    requires forall i :: i in closed ==> i < |cells|
    ensures var cells' := cells + Links(n);
            && OpenUpTo(cells', closed, ty, |cells'|) == OpenUpTo(cells, closed, ty, |cells|)
            && LinksUpTo(cells', closed, |cells'|) == LinksUpTo(cells, closed, |cells|) + n
  {
    var cells' := cells + Links(n);
    if n == 0 {
      assert cells' == cells;
    } else {
      AddLinks(cells, closed, n - 1, ty);
      assert cells' == cells + Links(n - 1) + [Cell(Link, 0)];
      OpenPrefix(cells + Links(n - 1), [Cell(Link, 0)], closed, ty, |cells'| - 1);
    }
  }

  lemma AddOutputs(cells: seq<Cell>, closed: set<nat>, a: seq<u64>, f: seq<u64>, n: nat, ty: OwnedType)
    requires forall i :: i in closed ==> i < |cells|
    ensures var cells' := cells + Outputs(a, f, n);
            && OpenUpTo(cells', closed, ty, |cells'|) == OpenUpTo(cells, closed, ty, |cells|) +
                 (match ty case Asset => Sum(a) case Inflation => Sum(f) case Link => 0)
            && LinksUpTo(cells', closed, |cells'|) == LinksUpTo(cells, closed, |cells|) + n
  {
    hide OpenUpTo, LinksUpTo, Sum;
    var c1 := cells + CellsOf(Asset, a);
    var c2 := c1 + CellsOf(Inflation, f);
    assert cells + Outputs(a, f, n) == c2 + Links(n);
    AddAmounts(cells, closed, Asset, a, ty);
    AddAmounts(c1, closed, Inflation, f, ty);
    AddLinks(c2, closed, n, ty);
  }

  lemma ClosedInRange(h: History)
    requires Valid(h)
    ensures forall i :: i in Closed(h) ==> i < |Cells(h)|
  {
  }

  /** What one transition does to the open amount of a type and to the open
      link rights. */
  lemma Moves(h: History, tr: Transition, ty: OwnedType)
    requires ty != Link && Valid(h) && InputsOpen(h, tr.inputs)
    ensures var op := OperationOf(h, tr);
            && Open(Then(h, tr), ty) + Sum(Ins(op, ty)) == Open(h, ty) + Sum(Outs(op, ty))
            && OpenLinks(Then(h, tr)) + op.inLinks == OpenLinks(h) + op.outLinks
  {
    ClosedInRange(h);
    var closed' := Closed(h) + set i | i in tr.inputs;
    assert Closed(Then(h, tr)) == closed';
    assert Cells(Then(h, tr)) == Cells(h) + Outputs(tr.outAsset, tr.outInflation, tr.outLinks);
    assert forall i :: i in closed' ==> i < |Cells(h)|;
    CloseAll(Cells(h), Closed(h), tr.inputs, ty);
    hide OpenUpTo, LinksUpTo, Sum, Amounts, Outputs, Cells, Closed, Valid, InputsOpen;
    AddOutputs(Cells(h), closed', tr.outAsset, tr.outInflation, tr.outLinks, ty);
  }

  lemma Starts(op: Operation, ty: OwnedType)
    requires ty != Link
    ensures Open(Genesis(op), ty) == Sum(Outs(op, ty)) && OpenLinks(Genesis(op)) == op.outLinks
  {
    AddOutputs([], {}, op.outAsset, op.outInflation, op.outLinks, ty);
    var outs := Outputs(op.outAsset, op.outInflation, op.outLinks);
    assert [] + outs == outs;
  }

  // ---------------------------------------------------------------- theorems

  /** Issued supply, open inflation rights and burned rights always make up the
      maximum supply; open assets and burned assets always make up the issued
      supply. */
  lemma {:induction false} SupplyIsConserved(h: History)
    requires Valid(h)
    ensures Issued(h) + Open(h, Inflation) + Burned(h, BurnedInflation) == Maximum(h)
    ensures Open(h, Asset) + Burned(h, BurnedAsset) == Issued(h)
  {
    match h
    case Genesis(op) =>
      GenesisDecides(op, map[]);
      Starts(op, Asset);
      Starts(op, Inflation);
    case Then(before, tr) =>
      SupplyIsConserved(before);
      Moves(before, tr, Asset);
      Moves(before, tr, Inflation);
      AcceptedMeans(before, tr);
  }

  /** What acceptance of one transition says about its sums. */
  lemma AcceptedMeans(h: History, tr: Transition)
    requires Valid(Then(h, tr))
    ensures var op := OperationOf(h, tr);
            && Sum(op.inAsset) + First(tr.globals, IssuedSupply) == Sum(op.outAsset) + MetaOf(tr.meta, BurnedAsset)
            && Sum(op.inInflation) ==
               Sum(op.outInflation) + MetaOf(tr.meta, BurnedInflation) + First(tr.globals, IssuedSupply)
            && op.outLinks + (if tr.kind == MakeLink then 1 else 0) <= op.inLinks
  {
    var op := OperationOf(h, tr);
    hide Amounts, Accepts;
    match tr.kind
    case Transfer => TransferDecides(op, map[0 := TS_TRANSFER]);
    case Inflate => InflationDecides(op, map[0 := TS_INFLATION]);
    case Burn => BurnDecides(op, map[0 := TS_BURN]);
    case MakeLink =>
  }

  /** The issued supply never exceeds the maximum, which fits 64 bits; so no sum
      over open cells can overflow. */
  lemma SupplyIsBounded(h: History)
    requires Valid(h)
    ensures Issued(h) <= Maximum(h) < U64_LIMIT
    ensures Open(h, Asset) <= Issued(h) && Open(h, Inflation) <= Maximum(h)
  {
    SupplyIsConserved(h);
    MaximumFits(h);
  }

  lemma MaximumFits(h: History)
    ensures Maximum(h) < U64_LIMIT
  {
  }

  /** A contract is linked at most once, and only if genesis gave a link right. */
  lemma {:induction false} LinkedAtMostOnce(h: History)
    requires Valid(h)
    ensures LinkCount(h) + OpenLinks(h) <= 1
  {
    match h
    case Genesis(op) =>
      Starts(op, Asset);
    case Then(before, tr) =>
      LinkedAtMostOnce(before);
      Moves(before, tr, Asset);
      AcceptedMeans(before, tr);
  }

  /** Issue `x` from the inflation right in cell `k`, keeping the rest. */
  function Issue(k: nat, right: u64, x: u64): Transition
    requires 0 < x <= right
  {
    var left: u64 := right as int - x as int;
    Transition(Inflate, [k], [x], if left == 0 then [] else [left], 0,
               map[AllowedInflation := left], map[IssuedSupply := [x]])
  }

  predicate OpenRight(h: History, k: nat, x: u64) {
    k < |Cells(h)| && k !in Closed(h) && Cells(h)[k].ty == Inflation && 0 < x <= Cells(h)[k].amount
  }

  /** Rights are not only an upper bound: any part of an open right can be issued
      by a valid transition. */
  lemma RightsCanBeIssued(h: History, k: nat, x: u64)
    requires Valid(h) && OpenRight(h, k, x)
    ensures var h' := Then(h, Issue(k, Cells(h)[k].amount, x));
            && Valid(h') && Issued(h') == Issued(h) + x
            && Open(h', Asset) == Open(h, Asset) + x && Open(h', Inflation) == Open(h, Inflation) - x
  {
    var tr := Issue(k, Cells(h)[k].amount, x);
    IssueValid(h, k, x);
    hide Sum, Open, Accepts, Valid, Issue, OperationOf, Cells;
    Moves(h, tr, Asset);
    Moves(h, tr, Inflation);
  }

  lemma IssueValid(h: History, k: nat, x: u64)
    requires Valid(h) && OpenRight(h, k, x)
    ensures var tr := Issue(k, Cells(h)[k].amount, x);
            && Valid(Then(h, tr)) && First(tr.globals, IssuedSupply) == x && InputsOpen(h, tr.inputs)
            && var op := OperationOf(h, tr);
            && Sum(Ins(op, Asset)) == 0 && Sum(Ins(op, Inflation)) == Cells(h)[k].amount
            && Sum(Outs(op, Asset)) == x && Sum(Outs(op, Inflation)) == Cells(h)[k].amount - x
  {
    hide Sum, Accepts, Amounts, OperationOf, Cells, Closed, InputsOpen, Valid;
    var tr := Issue(k, Cells(h)[k].amount, x);
    IssueIs(h, k, x);
    IssueAccepted(Cells(h)[k].amount, x, OperationOf(h, tr));
    ThenValid(h, tr);
  }

  lemma ThenValid(h: History, tr: Transition)
    requires Valid(h) && InputsOpen(h, tr.inputs) && tr.inputs != []
    requires Lists(OperationOf(h, tr)) && TransitionSchema(tr.kind, OperationOf(h, tr)) &&
             ScriptAccepts(tr.kind, OperationOf(h, tr))
    ensures Valid(Then(h, tr))
  {
  }

  lemma IssueIs(h: History, k: nat, x: u64)
    requires OpenRight(h, k, x)
    ensures var right := Cells(h)[k].amount; var left: u64 := right as int - x as int;
            var tr := Issue(k, right, x);
            && InputsOpen(h, tr.inputs)
            && OperationOf(h, tr) == Operation([], [right], 0, [x], if left == 0 then [] else [left], 0,
                                               map[AllowedInflation := left], map[IssuedSupply := [x]])
  {
    hide Amounts, Cells, Closed;
    OneInput(Cells(h), k);
  }

  lemma IssueAccepted(right: u64, x: u64, op: Operation)
    requires 0 < x <= right
    requires var left: u64 := right as int - x as int;
             op == Operation([], [right], 0, [x], if left == 0 then [] else [left], 0,
                             map[AllowedInflation := left], map[IssuedSupply := [x]])
    ensures Accepts(op, InflationCode, map[0 := TS_INFLATION])
    ensures Sum(op.inAsset) == 0 && Sum(op.inInflation) == right && Sum(op.outAsset) == x &&
            Sum(op.outInflation) == right - x
  {
    SumOne(x);
    SumOne(right);
    SumOne(right as int - x as int);
    InflationDecides(op, map[0 := TS_INFLATION]);
  }

  lemma SumOne(x: u64)
    ensures Sum([x]) == x && Sum([]) == 0
  {
    SumSnoc([], x);
  }

  lemma OneInput(cells: seq<Cell>, k: nat)
    requires k < |cells| && cells[k].ty == Inflation
    ensures Amounts(cells, [k], Asset) == [] && Amounts(cells, [k], Link) == []
    ensures Amounts(cells, [k], Inflation) == [cells[k].amount]
  {
    assert [k][..0] == [];
  }

  /** Distinct open cells that fit into the lists of one operation. */
  ghost predicate Spendable(h: History, inputs: seq<nat>, outAsset: seq<u64>, outInflation: seq<u64>) {
    && inputs != [] && InputsOpen(h, inputs)
    && |inputs| < 0x1_0000 && |outAsset| < 0x1_0000 && |outInflation| < 0x1_0000
  }

  lemma {:induction false} AmountsAreFew(cells: seq<Cell>, inputs: seq<nat>, ty: OwnedType)
    requires forall j :: 0 <= j < |inputs| ==> inputs[j] < |cells|
    ensures |Amounts(cells, inputs, ty)| <= |inputs|
  {
    if inputs != [] {
      AmountsAreFew(cells, inputs[..|inputs| - 1], ty);
    }
  }

  /** The amount in the listed cells of one type. */
  function Worth(h: History, inputs: seq<nat>, ty: OwnedType): nat
    requires InputsOpen(h, inputs)
  {
    Sum(Amounts(Cells(h), inputs, ty))
  }

  /** How many of the listed cells are link rights. */
  function LinksIn(h: History, inputs: seq<nat>): nat
    requires InputsOpen(h, inputs)
  {
    |Amounts(Cells(h), inputs, Link)|
  }

  lemma ListsFit(h: History, tr: Transition)
    requires Spendable(h, tr.inputs, tr.outAsset, tr.outInflation)
    ensures Lists(OperationOf(h, tr))
  {
    AmountsAreFew(Cells(h), tr.inputs, Asset);
    AmountsAreFew(Cells(h), tr.inputs, Inflation);
    hide Cells, Amounts, InputsOpen;
  }

  /** Any open cells can be transferred: every transition that assigns again what it
      closes, in positive amounts, and keeps a link right, is valid. */
  lemma {:induction false} TransferExtends(h: History, inputs: seq<nat>, outAsset: seq<u64>, outInflation: seq<u64>)
    requires Valid(h) && Spendable(h, inputs, outAsset, outInflation) && LinksIn(h, inputs) <= 1
    requires NoZero(outAsset) && Sum(outAsset) == Worth(h, inputs, Asset)
    requires NoZero(outInflation) && Sum(outInflation) == Worth(h, inputs, Inflation)
    ensures Valid(Then(h, Transition(Transfer, inputs, outAsset, outInflation, LinksIn(h, inputs), map[], map[])))
  {
    var tr := Transition(Transfer, inputs, outAsset, outInflation, LinksIn(h, inputs), map[], map[]);
    var op := OperationOf(h, tr);
    WorthFits(h, inputs, Asset);
    WorthFits(h, inputs, Inflation);
    ListsFit(h, tr);
    hide Amounts, Cells, Sum, Accepts, Valid, Lists;
    TransferDecides(op, map[0 := TS_TRANSFER]);
    ThenValid(h, tr);
  }

  /** What is open fits into 64 bits. */
  lemma {:induction false} WorthFits(h: History, inputs: seq<nat>, ty: OwnedType)
    requires Valid(h) && InputsOpen(h, inputs) && ty != Link
    ensures Worth(h, inputs, ty) < U64_LIMIT
  {
    SupplyIsBounded(h);
    CloseAll(Cells(h), Closed(h), inputs, ty);
  }

  /** Any part of the open assets and rights can be burned, as long as there are not
      too many assignments for the jump counter; what is burned of a type is not zero
      unless nothing of it is closed. */
  lemma {:induction false} BurnExtends(h: History, inputs: seq<nat>, outAsset: seq<u64>, outInflation: seq<u64>,
                                       asset: u64, inflation: u64)
    requires Valid(h) && Spendable(h, inputs, outAsset, outInflation) && LinksIn(h, inputs) <= 1
    requires Sum(outAsset) + asset == Worth(h, inputs, Asset) && (asset == 0 ==> Worth(h, inputs, Asset) == 0)
    requires Sum(outInflation) + inflation == Worth(h, inputs, Inflation)
    requires inflation == 0 ==> Worth(h, inputs, Inflation) == 0
    requires |outAsset| + |outInflation| + 2 <= JUMP_LIMIT
    ensures Valid(Then(h, Transition(Burn, inputs, outAsset, outInflation, 0,
                                     map[BurnedAsset := asset, BurnedInflation := inflation], map[])))
  {
    var tr := Transition(Burn, inputs, outAsset, outInflation, 0,
                         map[BurnedAsset := asset, BurnedInflation := inflation], map[]);
    var op := OperationOf(h, tr);
    WorthFits(h, inputs, Asset);
    WorthFits(h, inputs, Inflation);
    ListsFit(h, tr);
    BurnSchema(op, outAsset, outInflation, asset, inflation);
    hide *;
    ThenValid(h, tr);
  }

  lemma {:induction false} BurnSchema(op: Operation, outAsset: seq<u64>, outInflation: seq<u64>, asset: u64,
                                      inflation: u64)
    requires Sum(op.inAsset) < U64_LIMIT && Sum(op.inInflation) < U64_LIMIT && op.inLinks <= 1
    requires Sum(outAsset) + asset == Sum(op.inAsset) && (asset == 0 ==> Sum(op.inAsset) == 0)
    requires Sum(outInflation) + inflation == Sum(op.inInflation) && (inflation == 0 ==> Sum(op.inInflation) == 0)
    requires |outAsset| + |outInflation| + 2 <= JUMP_LIMIT && |outAsset| < 0x1_0000 && |outInflation| < 0x1_0000
    requires op == Operation(op.inAsset, op.inInflation, op.inLinks, outAsset, outInflation, 0,
                             map[BurnedAsset := asset, BurnedInflation := inflation], map[])
    ensures TransitionSchema(Burn, op) && ScriptAccepts(Burn, op)
  {
    hide Sum, Accepts;
    assert op.meta.Keys == {BurnedAsset, BurnedInflation};
    BurnDecides(op, map[0 := TS_BURN]);
  }

  /** Which genesis is accepted: one that publishes the issued and the maximum supply,
      assigns the former as assets and the rest up to the latter as inflation rights,
      in positive amounts, and gives at most one link right. */
  ghost predicate GenesisFits(op: Operation, issued: u64, maximum: u64) {
    && |op.outAsset| < 0x1_0000 && |op.outInflation| < 0x1_0000 && op.outLinks <= 1
    && op == Operation([], [], 0, op.outAsset, op.outInflation, op.outLinks, map[],
                       map[IssuedSupply := [issued], MaxSupply := [maximum]])
    && NoZero(op.outAsset) && Sum(op.outAsset) == issued
    && NoZero(op.outInflation) && issued + Sum(op.outInflation) == maximum
  }

  lemma {:induction false} GenesisExactly(op: Operation)
    ensures Valid(Genesis(op)) <==> exists issued, maximum :: GenesisFits(op, issued, maximum)
  {
    GenesisDecides(op, map[]);
    hide Accepts, Sum;
    if Valid(Genesis(op)) {
      var issued, maximum := op.globals[IssuedSupply][0], op.globals[MaxSupply][0];
      assert op.globals[IssuedSupply] == [issued] && op.globals[MaxSupply] == [maximum];
      assert op.globals == map[IssuedSupply := [issued], MaxSupply := [maximum]];
      assert GenesisFits(op, issued, maximum);
    }
  }

  /** Which transitions are accepted, by what they close, assign and publish. */
  ghost predicate TransitionFits(kind: Kind, op: Operation) {
    var asset, inflation := Sum(op.inAsset), Sum(op.inInflation);
    match kind
    case Transfer =>
      && op.meta == map[] && op.globals == map[] && op.outLinks == op.inLinks <= 1
      && NoZero(op.outAsset) && Sum(op.outAsset) == asset
      && NoZero(op.outInflation) && Sum(op.outInflation) == inflation
    case Inflate =>
      && op.inAsset == [] && op.inLinks == 0 && op.inInflation != [] && op.outAsset != [] && op.outLinks == 0
      && NoZero(op.outAsset) && NoZero(op.outInflation) && Sum(op.outAsset) + Sum(op.outInflation) == inflation
      && inflation < U64_LIMIT
      && op.meta == map[AllowedInflation := Sum(op.outInflation)]
      && op.globals == map[IssuedSupply := [Sum(op.outAsset)]]
    case Burn =>
      && op.globals == map[] && op.inLinks <= 1 && op.outLinks == 0
      && Sum(op.outAsset) <= asset < U64_LIMIT && Sum(op.outInflation) <= inflation < U64_LIMIT
      && op.meta == map[BurnedAsset := asset - Sum(op.outAsset), BurnedInflation := inflation - Sum(op.outInflation)]
      && (asset > 0 ==> Sum(op.outAsset) < asset) && (inflation > 0 ==> Sum(op.outInflation) < inflation)
      && |op.outAsset| + |op.outInflation| + 2 <= JUMP_LIMIT
    case MakeLink =>
      && op.meta == map[] && op.globals == map[] && op.inLinks == 1 && op.inAsset == [] && op.inInflation == []
      && op.outAsset == [] && op.outInflation == [] && op.outLinks == 0
  }

  /** The exact condition: a transition over open cells extends a valid history if and
      only if it fits its kind. */
  lemma {:induction false} TransitionExactly(h: History, tr: Transition)
    requires Valid(h) && Spendable(h, tr.inputs, tr.outAsset, tr.outInflation)
    ensures Valid(Then(h, tr)) <==> TransitionFits(tr.kind, OperationOf(h, tr))
  {
    var op := OperationOf(h, tr);
    ListsFit(h, tr);
    WorthFits(h, tr.inputs, Asset);
    WorthFits(h, tr.inputs, Inflation);
    assert Confined(op) && Sum(op.inAsset) < U64_LIMIT && Sum(op.inInflation) < U64_LIMIT;
    assert Valid(Then(h, tr)) <==> TransitionSchema(tr.kind, op) && ScriptAccepts(tr.kind, op) by {
      hide TransitionSchema, ScriptAccepts, Lists;
    }
    hide *;
    match tr.kind
    case Transfer => TransferExactly(op);
    case Inflate => InflateExactly(op);
    case Burn => BurnExactly(op);
    case MakeLink => LinkExactly(op);
  }

  lemma TransferExactly(op: Operation)
    requires Sum(op.inAsset) < U64_LIMIT && Sum(op.inInflation) < U64_LIMIT
    ensures TransitionSchema(Transfer, op) && ScriptAccepts(Transfer, op) <==> TransitionFits(Transfer, op)
  {
    hide Sum, Accepts, NoZero;
    TransferDecides(op, map[0 := TS_TRANSFER]);
  }

  lemma InflateExactly(op: Operation)
    ensures TransitionSchema(Inflate, op) && ScriptAccepts(Inflate, op) <==> TransitionFits(Inflate, op)
  {
    hide Sum, Accepts, NoZero;
    InflationDecides(op, map[0 := TS_INFLATION]);
    if TransitionSchema(Inflate, op) && ScriptAccepts(Inflate, op) {
      assert op.meta == map[AllowedInflation := op.meta[AllowedInflation]];
      assert op.globals[IssuedSupply] == [op.globals[IssuedSupply][0]];
      assert op.globals == map[IssuedSupply := op.globals[IssuedSupply]];
    }
  }

  lemma BurnExactly(op: Operation)
    requires Sum(op.inAsset) < U64_LIMIT && Sum(op.inInflation) < U64_LIMIT && Confined(op)
    ensures TransitionSchema(Burn, op) && ScriptAccepts(Burn, op) <==> TransitionFits(Burn, op)
  {
    hide Sum, Accepts;
    BurnDecides(op, map[0 := TS_BURN]);
    if TransitionSchema(Burn, op) {
      assert op.meta == map[BurnedAsset := op.meta[BurnedAsset], BurnedInflation := op.meta[BurnedInflation]];
    }
  }

  lemma LinkExactly(op: Operation)
    ensures TransitionSchema(MakeLink, op) && ScriptAccepts(MakeLink, op) <==> TransitionFits(MakeLink, op)
  {
  }

  /** An open link right can be used. */
  lemma {:induction false} LinkExtends(h: History, k: nat)
    requires Valid(h) && k < |Cells(h)| && k !in Closed(h) && Cells(h)[k].ty == Link
    ensures var h' := Then(h, Transition(MakeLink, [k], [], [], 0, map[], map[]));
            Valid(h') && LinkCount(h') == 1 && OpenLinks(h') == 0
  {
    var tr := Transition(MakeLink, [k], [], [], 0, map[], map[]);
    OneLink(Cells(h), k);
    hide Cells, Closed, Valid, Amounts;
    ThenValid(h, tr);
    LinkedAtMostOnce(Then(h, tr));
  }

  lemma OneLink(cells: seq<Cell>, k: nat)
    requires k < |cells| && cells[k].ty == Link
    ensures Amounts(cells, [k], Asset) == [] && Amounts(cells, [k], Inflation) == []
    ensures |Amounts(cells, [k], Link)| == 1
  {
    assert [k][..0] == [];
  }

  /** A balanced burn with too many assignments is refused: its loops use up the
      jump counter. */
  lemma BalancedBurnCanBeRefused(preset: map<nat, nat>)
    returns (op: Operation)
    ensures Confined(op) && BurnBalances(op, Asset, BurnedAsset) && BurnBalances(op, Inflation, BurnedInflation)
    ensures !Accepts(op, BurnCode, preset)
  {
    op := Operation([JUMP_LIMIT], [], 0, Ones(JUMP_LIMIT - 1), [], 0, map[BurnedAsset := 1, BurnedInflation := 0],
        map[]);
    SumOne(JUMP_LIMIT);
    SumOnes(JUMP_LIMIT - 1);
    BurnDecides(op, preset);
  }

  function Ones(n: nat): (s: seq<u64>)
    ensures |s| == n
  {
    seq(n, _ => 1)
  }

  lemma {:induction false} SumOnes(n: nat)
    ensures Sum(Ones(n)) == n
  {
    if n > 0 {
      assert Ones(n)[..n - 1] == Ones(n - 1);
      SumOnes(n - 1);
    }
  }
}
