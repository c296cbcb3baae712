/** The automatic burn of the second non-inflatable asset schema: a program
    splits a payment into what the beneficiary receives, the change and a burned
    share, and the payer turns its outputs into assignments. */
module AutoBurn {
  import opened Basics
  import opened ContractVm
  import opened IfaPrograms
  import opened ReturnsAbi
  import Transitions

  const BURN_OUTPOINT := "c5c3f8d1d75c39c1ff537f3f96286ab15fcd58ffdf2d66e9d869c52f55ddb35d:1"
  const DO_BURN := 6

  /** The interface program from its transfer entry on. */
  function SplitCode(pc: nat): Instr {
    match pc
    case 0 => PutA64(3, 100)
    case 1 => DivUc(1, 3)
    case 2 => IfZA64(3)
    case 3 => InvSt
    case 4 => Jif(DO_BURN)
    case 5 => PutA64(3, 1)
    case 6 => DupA64(3, 4)
    case 7 => SubUc(1, 3)
    case 8 => DupA64(3, 2)
    case 9 => SubUc(0, 1)
    case 10 => PutText(1, BURN_OUTPOINT)
    case 11 => OutrA64(2)
    case 12 => OutrA64(1)
    case 13 => OutrText(1)
    case 14 => OutrA64(4)
    case _ => Ret
  }

  /** The validator of a transfer. */
  function TransferCheck(pc: nat): Instr {
    match pc
    case 0 => PutA8(0, ERRNO_NON_EQUAL_IN_OUT)
    case 1 => Svs(Asset)
    case 2 => Test
    case _ => Ret
  }

  /** The share that is burned: one percent, at least one unit. */
  function Burn(amount: u64): (b: u64)
    ensures 0 < b && (amount > 0 ==> b <= amount)
    ensures amount < 100 ==> b == 1
    ensures amount >= 100 ==> 100 * b <= amount < 100 * (b + 1)
  {
    if amount / 100 == 0 then 1 else amount / 100
  }

  function StartRegs(total: u64, amount: u64): Regs {
    Regs(map[], map[], map[0 := total, 1 := amount], map[], true, 0, [])
  }

  /** The program ends well with these outputs. */
  ghost predicate Splits(op: Operation, total: u64, amount: u64, outs: seq<OutValue>) {
    exists r :: Reaches(op, SplitCode, Running(0, StartRegs(total, amount)), Stopped(r)) && r.st0 && r.out == outs
  }

  // ------------------------------------------------------ running the program

  /** Up to the burn label: a64[3] holds the burned share. */
  lemma ComputeBurn(op: Operation, total: u64, amount: u64) returns (m: Machine)
    ensures Reaches(op, SplitCode, Running(0, StartRegs(total, amount)), m)
    ensures m.Running? && m.pc == DO_BURN && m.regs.out == []
    ensures m.regs.a64 == map[0 := total, 1 := amount, 3 := Burn(amount)]
  {
    var start := Running(0, StartRegs(total, amount));
    ReachSelf(op, SplitCode, start);
    hide Reaches, Exec;
    var r := start.regs;
    m := Go(op, SplitCode, start, 0, PutA64(3, 100), r);
    DoPutA64(op, 3, 100, 0, r);
    r := m.regs;
    m := Go(op, SplitCode, start, 1, DivUc(1, 3), r);
    DoDivUc(op, 1, 3, 1, r);
    r := m.regs;
    assert r == StartRegs(total, amount).(a64 := map[0 := total, 1 := amount, 3 := amount / 100]);
    m := AtLeastOne(op, start, r, amount / 100);
  }

  lemma AtLeastOne(op: Operation, start: Machine, r: Regs, share: u64) returns (m: Machine)
    requires Reaches(op, SplitCode, start, Running(2, r)) && 3 in r.a64 && r.a64[3] == share && r.cy0 == 0
    ensures Reaches(op, SplitCode, start, m)
    ensures m.Running? && m.pc == DO_BURN && m.regs.out == r.out
    ensures m.regs.a64 == r.a64[3 := if share == 0 then 1 else share]
  {
    hide Reaches, Exec;
    m := Go(op, SplitCode, start, 2, IfZA64(3), r);
    DoIfZA64(op, 3, 2, r);
    var r1 := m.regs;
    m := Go(op, SplitCode, start, 3, InvSt, r1);
    DoInvSt(op, 3, r1);
    var r2 := m.regs;
    m := Go(op, SplitCode, start, 4, Jif(DO_BURN), r2);
    DoJif(op, DO_BURN, 4, r2);
    if m.pc == 5 {
      m := Go(op, SplitCode, start, 5, PutA64(3, 1), r2);
      DoPutA64(op, 3, 1, 5, r2);
    }
  }

  /** From the burn label to the outputs: what the beneficiary receives is absent
      when the share exceeds the amount. */
  lemma ComputeShares(op: Operation, start: Machine, r: Regs, total: u64, amount: u64) returns (m: Machine)
    requires amount <= total && r.a64 == map[0 := total, 1 := amount, 3 := Burn(amount)]
    requires Reaches(op, SplitCode, start, Running(DO_BURN, r))
    ensures Reaches(op, SplitCode, start, m) && m.Running? && m.pc == 10 && m.regs.st0 && m.regs.out == r.out
    ensures 1 in m.regs.a64 && m.regs.a64[1] == total - amount
    ensures 4 in m.regs.a64 && m.regs.a64[4] == Burn(amount)
    ensures if amount > 0 then 2 in m.regs.a64 && m.regs.a64[2] == amount - Burn(amount) else 2 !in m.regs.a64
  {
    hide Reaches, Exec, Burn;
    m := Go(op, SplitCode, start, 6, DupA64(3, 4), r);
    DoDupA64(op, 3, 4, 6, r);
    var r1 := m.regs;
    m := Go(op, SplitCode, start, 7, SubUc(1, 3), r1);
    DoSubUc(op, 1, 3, 7, r1);
    m := ComputeChange(op, start, m.regs, total, amount);
  }

  lemma ComputeChange(op: Operation, start: Machine, r: Regs, total: u64, amount: u64) returns (m: Machine)
    requires amount <= total && 0 in r.a64 && r.a64[0] == total && 1 in r.a64 && r.a64[1] == amount
    requires Reaches(op, SplitCode, start, Running(8, r))
    ensures Reaches(op, SplitCode, start, m) && m.Running? && m.pc == 10 && m.regs.st0 && m.regs.out == r.out
    ensures m.regs.a64 == (if 3 in r.a64 then r.a64[2 := r.a64[3]] else r.a64 - {2})[1 := total - amount]
  {
    hide Reaches, Exec;
    m := Go(op, SplitCode, start, 8, DupA64(3, 2), r);
    DoDupA64(op, 3, 2, 8, r);
    var r1 := m.regs;
    m := Go(op, SplitCode, start, 9, SubUc(0, 1), r1);
    DoSubUc(op, 0, 1, 9, r1);
  }

  lemma Emit(op: Operation, start: Machine, r: Regs) returns (m: Machine)
    requires r.st0 && r.out == [] && Reaches(op, SplitCode, start, Running(10, r))
    ensures Reaches(op, SplitCode, start, m) && m.Stopped? && m.regs.st0
    ensures m.regs.out == [AmountOut(r, 2), AmountOut(r, 1), BytesOut(BURN_OUTPOINT), AmountOut(r, 4)]
  {
    hide Reaches, Exec, AmountOut;
    m := Go(op, SplitCode, start, 10, PutText(1, BURN_OUTPOINT), r);
    DoPutText(op, 1, BURN_OUTPOINT, 10, r);
    var r1 := m.regs;
    m := EmitAmount(op, start, 11, 2, r1);
    var r2 := m.regs;
    m := EmitAmount(op, start, 12, 1, r2);
    SameOut(r, r1);
    SameOut(r, r2);
    var r3 := m.regs;
    SameOut(r, r3);
    m := EmitBurn(op, start, r3);
  }

  lemma EmitBurn(op: Operation, start: Machine, r: Regs) returns (m: Machine)
    requires r.st0 && 1 in r.s16 && r.s16[1] == TextBlob(BURN_OUTPOINT) && Reaches(op, SplitCode, start, Running(13, r))
    ensures Reaches(op, SplitCode, start, m) && m.Stopped? && m.regs.st0
    ensures m.regs.out == r.out + [BytesOut(BURN_OUTPOINT), AmountOut(r, 4)]
  {
    hide Reaches, Exec, AmountOut;
    m := Go(op, SplitCode, start, 13, OutrText(1), r);
    DoOutrText(op, 1, 13, r);
    var r1 := m.regs;
    SameOut(r, r1);
    m := EmitAmount(op, start, 14, 4, r1);
    var r2 := m.regs;
    m := Go(op, SplitCode, start, 15, Ret, r2);
    DoRet(op, 15, r2);
  }

  function AmountOut(r: Regs, src: nat): OutValue {
    IntOut(if src in r.a64 then Signed(r.a64[src]) else 0)
  }

  lemma SameOut(r: Regs, r': Regs)
    requires r.a64 == r'.a64
    ensures forall src :: AmountOut(r, src) == AmountOut(r', src)
  {
  }

  lemma EmitAmount(op: Operation, start: Machine, pc: nat, src: nat, r: Regs) returns (m: Machine)
    requires SplitCode(pc) == OutrA64(src) && Reaches(op, SplitCode, start, Running(pc, r))
    ensures Reaches(op, SplitCode, start, m)
    ensures m == Running(pc + 1, r.(out := r.out + [AmountOut(r, src)]))
  {
    hide Reaches, Exec, SplitCode;
    m := Go(op, SplitCode, start, pc, OutrA64(src), r);
    DoOutrA64(op, src, pc, r);
  }

  /** The outputs of the program, as 64-bit integers read as signed. */
  function SplitOuts(total: u64, amount: u64): seq<OutValue>
    requires amount <= total
  {
    [IntOut(if amount > 0 then Signed(amount as int - Burn(amount) as int) else 0),
     IntOut(Signed(total as int - amount as int)), BytesOut(BURN_OUTPOINT), IntOut(Signed(Burn(amount)))]
  }

  /** The program always ends well, with exactly these outputs. */
  lemma SplitDecides(op: Operation, total: u64, amount: u64, outs: seq<OutValue>)
    requires amount <= total
    ensures Splits(op, total, amount, outs) <==> outs == SplitOuts(total, amount)
  {
    var start := Running(0, StartRegs(total, amount));
    var m := ComputeBurn(op, total, amount);
    hide Reaches, Exec, Burn, Signed;
    m := ComputeShares(op, start, m.regs, total, amount);
    m := Emit(op, start, m.regs);
    assert m.regs.out == SplitOuts(total, amount);
    if Splits(op, total, amount, outs) {
      var r :| Reaches(op, SplitCode, start, Stopped(r)) && r.st0 && r.out == outs;
      StoppedIsFinal(op, SplitCode, start, m, Stopped(r));
    }
  }

  // ------------------------------------------------------- building the payment

  /** The returns that the schema declares for a transfer. */
  function Returns(): seq<Entry> {
    [Entry(Some("benifery"), Some("a64"), Some(Transitions.ASSET)),
     Entry(Some("change"), Some("a64"), Some(Transitions.ASSET)),
     Entry(Some("owner_state"), Some("a64"), Some(Transitions.ASSET))]
  }

  /** Payment of `amount` out of inputs worth `total`, when the program put `outs`
      on its output stack. */
  function Pay(codec: Codec, abi: seq<Entry>, total: u64, amount: u64, outs: seq<OutValue>): Result<seq<Assignment>> {
    if total < amount || |outs| < 2 then Err else AllStates(codec, abi, outs)
  }

  /** The burn outpoint parses, and assets may be assigned. */
  ghost predicate Usual(codec: Codec) {
    && codec.isOutpoint(BURN_OUTPOINT)
    && forall a: Assignment :: a.ty == Transitions.ASSET && a.content.Fungible? ==> codec.admits(a)
  }

  /** The asset amounts of a list of assignments, as the validator sees them. */
  function AmountsOf(s: seq<Assignment>): seq<u64> {
    if s == [] then []
    else
      var last := s[|s| - 1];
      AmountsOf(s[..|s| - 1]) +
      if last.ty == Transitions.ASSET && last.content.Fungible? then [last.content.amount] else []
  }

  /** What a holder is assigned. */
  function Share(s: seq<Assignment>, holder: Holder): nat {
    if s == [] then 0
    else
      var last := s[|s| - 1];
      Share(s[..|s| - 1], holder) +
      if last.holder == holder && last.content.Fungible? then last.content.amount as int else 0
  }

  function Coin(holder: Holder, amount: u64): Assignment {
    Assignment(Transitions.ASSET, holder, Fungible(amount))
  }

  function Positive(holder: Holder, amount: u64): seq<Assignment> {
    if amount > 0 then [Coin(holder, amount)] else []
  }

  // ---------------------------------------------------------------- theorems

  const SIGNED_LIMIT := 0x8000_0000_0000_0000

  lemma ShareSnoc(s: seq<Assignment>, a: Assignment, h: Holder)
    requires a.content.Fungible? && a.ty == Transitions.ASSET
    ensures Share(s + [a], h) == Share(s, h) + (if a.holder == h then a.content.amount as int else 0)
    ensures AmountsOf(s + [a]) == AmountsOf(s) + [a.content.amount]
    ensures Sum(AmountsOf(s + [a])) == Sum(AmountsOf(s)) + a.content.amount as int
    ensures NoZero(AmountsOf(s)) && a.content.amount > 0 ==> NoZero(AmountsOf(s + [a]))
  {
    assert (s + [a])[..|s|] == s;
    assert (AmountsOf(s) + [a.content.amount])[..|AmountsOf(s)|] == AmountsOf(s);
  }

  lemma PositiveSnoc(s: seq<Assignment>, holder: Holder, amount: u64, h: Holder)
    requires NoZero(AmountsOf(s))
    ensures var t := s + Positive(holder, amount);
            && Share(t, h) == Share(s, h) + (if holder == h then amount as int else 0)
            && Sum(AmountsOf(t)) == Sum(AmountsOf(s)) + amount as int
            && NoZero(AmountsOf(t))
  {
    if amount > 0 {
      ShareSnoc(s, Coin(holder, amount), h);
    } else {
      assert s + Positive(holder, amount) == s;
    }
  }

  /** The three parts of a payment, put together. */
  function Parts(received: u64, change: u64, burned: u64): seq<Assignment> {
    Positive(Beneficiary, received) + Positive(Change, change) + [Coin(Owner(BURN_OUTPOINT), burned)]
  }

  lemma {:induction false} PartsSum(received: u64, change: u64, burned: u64, h: Holder)
    requires burned > 0
    ensures var s := Parts(received, change, burned);
            && Sum(AmountsOf(s)) == received as int + change as int + burned as int && NoZero(AmountsOf(s))
            && Share(s, h) == (match h case Beneficiary => received as int case Change => change as int
                                       case Owner(o) => if o == BURN_OUTPOINT then burned as int else 0)
  {
    var a, b := Positive(Beneficiary, received), Positive(Change, change);
    PositiveSnoc([], Beneficiary, received, h);
    assert [] + a == a && Share([], h) == 0 && Sum(AmountsOf([])) == 0;
    var last := Coin(Owner(BURN_OUTPOINT), burned);
    assert Parts(received, change, burned) == a + b + [last];
    assert last.holder == Owner(BURN_OUTPOINT) && last.content == Fungible(burned);
    hide Share, AmountsOf, Sum, NoZero, Positive, Parts, Coin;
    PositiveSnoc(a, Change, change, h);
    ShareSnoc(a + b, last, h);
  }

  /** What the declared returns make of four outputs. */
  lemma {:induction false} ReturnsBuild(codec: Codec, outs: seq<OutValue>)
    requires Usual(codec) && |outs| == 4 && outs[2] == BytesOut(BURN_OUTPOINT)
    ensures var x, y, z := ParseAmount(outs[0]), ParseAmount(outs[1]), ParseAmount(outs[3]);
            AllStates(codec, Returns(), outs) ==
            if x.Some? && y.Some? && z.Some? then Ok(Parts(x.value, y.value, z.value)) else Err
  {
    var e0, e1, e2 := Returns()[0], Returns()[1], Returns()[2];
    ReturnsStep(codec, [], e0, outs);
    ReturnsStep(codec, [e0], e1, outs);
    ReturnsStep(codec, [e0, e1], e2, outs);
    assert [] + [e0] == [e0] && [e0] + [e1] == [e0, e1] && [e0, e1] + [e2] == Returns();
    ReturnsStates(codec, outs);
    assert IsOwner(e2) && !IsOwner(e0) && !IsOwner(e1);
    var x, y := ParseAmount(outs[0]), ParseAmount(outs[1]);
    assert x.Some? ==> [] + Positive(Beneficiary, x.value) == Positive(Beneficiary, x.value);
    hide AllStates, States, Usual, Positive, ParseAmount, Cursor, IsOwner, Coin;
  }

  lemma ReturnsStep(codec: Codec, abi: seq<Entry>, e: Entry, outs: seq<OutValue>)
    ensures Cursor(abi + [e]) == Cursor(abi) + if IsOwner(e) then 2 else 1
    ensures var s, t := AllStates(codec, abi, outs), States(codec, e, outs, Cursor(abi));
            AllStates(codec, abi + [e], outs) == if !s.Ok? then s else if !t.Ok? then t else Ok(s.value + t.value)
  {
    assert (abi + [e])[..|abi|] == abi;
  }

  lemma ReturnsStates(codec: Codec, outs: seq<OutValue>)
    requires Usual(codec) && |outs| == 4 && outs[2] == BytesOut(BURN_OUTPOINT)
    ensures Cursor([]) == 0 && AllStates(codec, [], outs) == Ok([])
    ensures var x, y, z := ParseAmount(outs[0]), ParseAmount(outs[1]), ParseAmount(outs[3]);
            && States(codec, Returns()[0], outs, 0) == (if x.Some? then Ok(Positive(Beneficiary, x.value)) else Err)
            && States(codec, Returns()[1], outs, 1) == (if y.Some? then Ok(Positive(Change, y.value)) else Err)
            && States(codec, Returns()[2], outs, 2) ==
               (if z.Some? then Ok([Coin(Owner(BURN_OUTPOINT), z.value)]) else Err)
  {
  }

  /** A payment is built exactly when the inputs suffice and its parts fit a
      signed 64-bit integer, and building it never runs past the outputs. */
  lemma {:induction false} PaySucceeds(
      codec: Codec, context: Operation, total: u64, amount: u64, outs: seq<OutValue>)
    requires Usual(codec) && (amount <= total ==> Splits(context, total, amount, outs))
    ensures Pay(codec, Returns(), total, amount, outs) != Crash
    ensures Pay(codec, Returns(), total, amount, outs).Ok? <==>
            && amount <= total && total - amount < SIGNED_LIMIT
            && (amount > 0 ==> amount as int - Burn(amount) as int < SIGNED_LIMIT)
  {
    if amount <= total {
      PayIs(codec, context, total, amount, outs);
    }
  }

  /** The assignments of a payment. */
  lemma {:induction false} PayIs(codec: Codec, context: Operation, total: u64, amount: u64, outs: seq<OutValue>)
    requires Usual(codec) && amount <= total && Splits(context, total, amount, outs)
    ensures var received: u64 := if amount > 0 then amount as int - Burn(amount) as int else 0;
            Pay(codec, Returns(), total, amount, outs) ==
            if received < SIGNED_LIMIT && total - amount < SIGNED_LIMIT
            then Ok(Parts(received, total - amount, Burn(amount))) else Err
  {
    SplitDecides(context, total, amount, outs);
    ReturnsBuild(codec, outs);
    hide AllStates, Parts, Splits;
  }

  /** A built payment gives the beneficiary the amount less the burned share, the
      payer the change and the burn outpoint the share. It conserves the inputs,
      and the transfer validator accepts it, exactly when the amount is not zero:
      a zero payment burns one unit that nobody supplies. */
  lemma {:induction false} PayConserves(
      codec: Codec, context: Operation, total: u64, amount: u64, outs: seq<OutValue>, op: Operation,
          preset: map<nat, nat>)
    requires Usual(codec) && (amount <= total ==> Splits(context, total, amount, outs))
    requires Pay(codec, Returns(), total, amount, outs).Ok?
    requires op.inAsset != [] && Sum(op.inAsset) == total
    requires op.outAsset == AmountsOf(Pay(codec, Returns(), total, amount, outs).value)
    ensures var s := Pay(codec, Returns(), total, amount, outs).value;
            && NoZero(AmountsOf(s)) && Share(s, Change) == total - amount
            && Share(s, Owner(BURN_OUTPOINT)) == Burn(amount)
            && Share(s, Beneficiary) == (if amount > 0 then amount - Burn(amount) else 0)
            && (Sum(AmountsOf(s)) == total <==> amount > 0)
    ensures Accepts(op, TransferCheck, preset) <==> amount > 0
  {
    hide *;
    PaySucceeds(codec, context, total, amount, outs);
    PayIs(codec, context, total, amount, outs);
    var received: u64 := if amount > 0 then amount as int - Burn(amount) as int else 0;
    SumIsSum(op.inAsset, op.outAsset, total);
    PartsSum(received, total - amount, Burn(amount), Beneficiary);
    PartsSum(received, total - amount, Burn(amount), Change);
    PartsSum(received, total - amount, Burn(amount), Owner(BURN_OUTPOINT));
    CheckDecides(op, preset);
  }

  lemma SumIsSum(a: seq<u64>, b: seq<u64>, total: u64)
    requires Sum(a) == total
    ensures SumIs(a, Sum(b)) <==> Sum(b) == total
  {
  }

  lemma CheckDecides(op: Operation, preset: map<nat, nat>)
    ensures Accepts(op, TransferCheck, preset) <==> NoZero(op.outAsset) && SumIs(op.inAsset, Sum(op.outAsset))
  {
    var start := Running(0, FreshRegs(preset));
    ReachSelf(op, TransferCheck, start);
    hide Reaches, Exec, Sum, NoZero, SumIs, Accepts;
    var m := Go(op, TransferCheck, start, 0, PutA8(0, ERRNO_NON_EQUAL_IN_OUT), FreshRegs(preset));
    DoPutA8(op, 0, ERRNO_NON_EQUAL_IN_OUT, 0, FreshRegs(preset));
    var r := m.regs;
    m := Go(op, TransferCheck, start, 1, Svs(Asset), r);
    DoSvs(op, Asset, 1, r);
    if m.Running? {
      m := Go(op, TransferCheck, start, 2, Test, r);
      DoTest(op, 2, r);
      m := Go(op, TransferCheck, start, 3, Ret, r);
      DoRet(op, 3, r);
    }
    VerdictUnique(op, TransferCheck, preset, m.regs);
  }
}
