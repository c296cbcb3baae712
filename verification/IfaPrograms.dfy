/** The validation programs of the inflatable fungible asset schema and what
    they decide. */
module IfaPrograms {
  import opened Basics
  import opened ContractVm

  const ERRNO_NON_EQUAL_IN_OUT := 0
  const ERRNO_ISSUED_MISMATCH := 1
  const ERRNO_INFLATION_MISMATCH := 30
  const ERRNO_INFLATION_EXCEEDS_ALLOWANCE := 31
  const ERRNO_BURN_MISMATCH := 40
  const ERRNO_BURN_ZERO := 41

  // ---------------------------------------------------------------- programs

  function GenesisCode(pc: nat): Instr {
    match pc
    case 0 => PutA8(1, 0)
    case 1 => PutA16(0, 0)
    case 2 => PutA8(0, ERRNO_ISSUED_MISMATCH)
    case 3 => LdG(IssuedSupply, 1, 0)
    case 4 => Extr(0, 0, 0)
    case 5 => Sas(Asset)
    case 6 => Test
    case 7 => PutA8(0, ERRNO_INFLATION_MISMATCH)
    case 8 => LdG(MaxSupply, 1, 1)
    case 9 => Extr(1, 1, 0)
    case 10 => SubUc(1, 0)
    case 11 => Test
    case 12 => Sas(Inflation)
    case 13 => Test
    case _ => Ret
  }

  function TransferCode(pc: nat): Instr {
    match pc
    case 0 => PutA8(0, ERRNO_NON_EQUAL_IN_OUT)
    case 1 => Svs(Asset)
    case 2 => Test
    case 3 => Svs(Inflation)
    case 4 => Test
    case 5 => PutA8(0, ERRNO_NON_EQUAL_IN_OUT)
    case 6 => CnP(Link, 0)
    case 7 => CnS(Link, 1)
    case 8 => EqA16(0, 1)
    case 9 => Test
    case _ => Ret
  }

  function InflationCode(pc: nat): Instr {
    match pc
    case 0 => PutA8(1, 0)
    case 1 => PutA16(0, 0)
    case 2 => PutA8(0, ERRNO_ISSUED_MISMATCH)
    case 3 => LdG(IssuedSupply, 1, 0)
    case 4 => Extr(0, 0, 0)
    case 5 => Sas(Asset)
    case 6 => Test
    case 7 => CpyA64(0, 1)
    case 8 => PutA8(0, ERRNO_INFLATION_MISMATCH)
    case 9 => LdM(AllowedInflation, 0)
    case 10 => Extr(0, 0, 0)
    case 11 => Sas(Inflation)
    case 12 => Test
    case 13 => PutA8(0, ERRNO_INFLATION_EXCEEDS_ALLOWANCE)
    case 14 => AddUc(1, 0)
    case 15 => Test
    case 16 => Sps(Inflation)
    case 17 => Test
    case _ => Ret
  }

  const BURN_HALF := 27
  const LOOP_START := 4
  const LOOP_EXIT := 11

  /** One half of the burn program, for one owned type, placed at `base`. */
  function BurnHalf(ty: OwnedType, meta: Meta, base: nat, k: nat): Instr {
    match k
    case 0 => PutA8(0, ERRNO_BURN_MISMATCH)
    case 1 => PutA16(0, 0)
    case 2 => PutA64(0, 0)
    case 3 => CnS(ty, 1)
    case 4 => EqA16(0, 1)
    case 5 => Jif(base + LOOP_EXIT)
    case 6 => LdF(ty, 0, 1)
    case 7 => AddUc(1, 0)
    case 8 => Test
    case 9 => IncA16(0)
    case 10 => Jmp(base + LOOP_START)
    case 11 => PutA16(0, 0)
    case 12 => LdM(meta, 0)
    case 13 => Extr(0, 1, 0)
    case 14 => Test
    case 15 => AddUc(1, 0)
    case 16 => Test
    case 17 => Sps(ty)
    case 18 => Test
    case 19 => PutA8(0, ERRNO_BURN_ZERO)
    case 20 => IfZA64(1)
    case 21 => StS(1)
    case 22 => IfZA64(0)
    case 23 => InvSt
    case 24 => StN(1)
    case 25 => IfZA8(1)
    case _ => Test
  }

  function BurnCode(pc: nat): Instr {
    if pc < BURN_HALF then BurnHalf(Asset, BurnedAsset, 0, pc)
    else if pc < 2 * BURN_HALF then BurnHalf(Inflation, BurnedInflation, BURN_HALF, pc - BURN_HALF)
    else Ret
  }

  // -------------------------------------------------------------- decisions

  /** Inputs equal what is burned plus what is put out, and burning nothing from
      actual inputs is refused. */
  predicate BurnBalances(op: Operation, ty: OwnedType, meta: Meta) {
    && meta in op.meta
    && op.meta[meta] + Sum(Outs(op, ty)) < U64_LIMIT
    && SumIs(Ins(op, ty), op.meta[meta] + Sum(Outs(op, ty)))
    && !(op.meta[meta] == 0 && Sum(Ins(op, ty)) > 0)
  }

  /** The jumps of both loops must not exhaust the jump counter. */
  predicate LoopsFit(op: Operation) {
    |op.outAsset| + |op.outInflation| + 2 <= JUMP_LIMIT
  }

  predicate BurnOk(op: Operation) {
    BurnBalances(op, Asset, BurnedAsset) && BurnBalances(op, Inflation, BurnedInflation) && LoopsFit(op)
  }

  /** The issued supply is what is assigned, the inflation rights are what is
      left up to the maximum, and no assignment is zero. */
  predicate GenesisOk(op: Operation) {
    && IssuedSupply in op.globals && |op.globals[IssuedSupply]| > 0
    && MaxSupply in op.globals && |op.globals[MaxSupply]| > 0
    && var issued, maximum := op.globals[IssuedSupply][0], op.globals[MaxSupply][0];
    && NoZero(op.outAsset) && Sum(op.outAsset) == issued <= maximum
    && NoZero(op.outInflation) && Sum(op.outInflation) == maximum - issued
  }

  /** Amounts and link rights in equal amounts and link rights out. */
  predicate TransferOk(op: Operation) {
    && NoZero(op.outAsset) && SumIs(op.inAsset, Sum(op.outAsset))
    && NoZero(op.outInflation) && SumIs(op.inInflation, Sum(op.outInflation))
    && op.inLinks == op.outLinks
  }

  /** Spent inflation rights become issued assets and remaining rights. */
  predicate InflationOk(op: Operation) {
    && IssuedSupply in op.globals && |op.globals[IssuedSupply]| > 0
    && AllowedInflation in op.meta
    && var issued: int, allowed: int := op.globals[IssuedSupply][0], op.meta[AllowedInflation];
    && NoZero(op.outAsset) && Sum(op.outAsset) == issued
    && NoZero(op.outInflation) && Sum(op.outInflation) == allowed
    && SumIs(op.inInflation, issued + allowed)
  }

  predicate Confined(op: Operation) {
    |op.outAsset| < 0x1_0000 && |op.outInflation| < 0x1_0000
  }

  lemma SumPrefix(s: seq<u64>, k: nat)
    requires k < |s|
    ensures Sum(s[..k + 1]) == Sum(s[..k]) + s[k]
  {
    assert s[..k + 1][..k] == s[..k];
  }

  lemma {:induction false} SumMonotone(s: seq<u64>, k: nat)
    requires k <= |s|
    ensures Sum(s[..k]) <= Sum(s)
  {
    if k < |s| {
      assert s[..|s| - 1][..k] == s[..k];
      SumMonotone(s[..|s| - 1], k);
    } else {
      assert s[..k] == s;
    }
  }

  ghost predicate HalfAt(code: Program, ty: OwnedType, meta: Meta, base: nat) {
    forall k: nat :: k < BURN_HALF ==> code(base + k) == BurnHalf(ty, meta, base, k)
  }

  /** The registers at the head of the summing loop after `k` assignments. */
  ghost predicate AtLoop(op: Operation, ty: OwnedType, r: Regs, k: nat) {
    && k <= |Outs(op, ty)| && CountOut(op, ty) == |Outs(op, ty)|
    && 0 in r.a16 && r.a16[0] == k && 1 in r.a16 && r.a16[1] == |Outs(op, ty)|
    && 0 in r.a64 && r.a64[0] == Sum(Outs(op, ty)[..k])
    && r.cy0 <= JUMP_LIMIT
  }

  lemma HalfCode(code: Program, ty: OwnedType, meta: Meta, base: nat, k: nat)
    requires HalfAt(code, ty, meta, base) && k < BURN_HALF
    ensures code(base + k) == BurnHalf(ty, meta, base, k)
  {
    hide BurnHalf;
  }

  /** Instruction `k` of a half, reached from `start`, is executed. */
  lemma HalfGo(op: Operation, code: Program, ty: OwnedType, meta: Meta, base: nat, start: Machine, k: nat, i: Instr,
               r: Regs)
    returns (m: Machine)
    requires HalfAt(code, ty, meta, base) && k < BURN_HALF && BurnHalf(ty, meta, base, k) == i
    requires Reaches(op, code, start, Running(base + k, r))
    ensures m == Exec(op, i, base + k, r) && Reaches(op, code, start, m)
  {
    HalfCode(code, ty, meta, base, k);
    hide *;
    m := Go(op, code, start, base + k, i, r);
  }

  /** First part of a round: not done yet, so the next assignment is loaded. */
  lemma LoopLoad(op: Operation, code: Program, ty: OwnedType, meta: Meta, base: nat, start: Machine, r: Regs, k: nat)
    requires HalfAt(code, ty, meta, base) && AtLoop(op, ty, r, k) && k < |Outs(op, ty)|
    requires Reaches(op, code, start, Running(base + 4, r))
    ensures Reaches(op, code, start, Running(base + 7, r.(st0 := false, a64 := r.a64[1 := Outs(op, ty)[k]])))
  {
    hide Reaches, HalfAt, Sum, Exec;
    var m := HalfGo(op, code, ty, meta, base, start, 4, EqA16(0, 1), r);
    DoEqA16(op, 0, 1, base + 4, r);
    m := HalfGo(op, code, ty, meta, base, start, 5, Jif(base + LOOP_EXIT), m.regs);
    DoJif(op, base + LOOP_EXIT, base + 5, r.(st0 := false));
    m := HalfGo(op, code, ty, meta, base, start, 6, LdF(ty, 0, 1), m.regs);
    DoLdF(op, ty, 0, 1, base + 6, r.(st0 := false));
  }

  /** An addition that is tested: the accumulator grows, or the program fails. */
  lemma AddTest(op: Operation, code: Program, start: Machine, pc: nat, r: Regs) returns (m: Machine)
    requires code(pc) == AddUc(1, 0) && code(pc + 1) == Test && 0 in r.a64 && 1 in r.a64
    requires Reaches(op, code, start, Running(pc, r))
    ensures Reaches(op, code, start, m)
    ensures var n := r.a64[0] as int + r.a64[1] as int;
            if n < U64_LIMIT then m == Running(pc + 2, r.(st0 := true, a64 := r.a64[0 := n]))
            else m.Stopped? && !m.regs.st0
  {
    hide Reaches, Exec;
    m := Go(op, code, start, pc, AddUc(1, 0), r);
    DoAddUc(op, 1, 0, pc, r);
    var r' := m.regs;
    m := Go(op, code, start, pc + 1, Test, r');
    DoTest(op, pc + 1, r');
  }

  lemma AddAndTest(op: Operation, code: Program, ty: OwnedType, meta: Meta, base: nat, start: Machine, k: nat, r: Regs)
    returns (m: Machine)
    requires HalfAt(code, ty, meta, base) && (k == 7 || k == 15) && 0 in r.a64 && 1 in r.a64
    requires Reaches(op, code, start, Running(base + k, r))
    ensures Reaches(op, code, start, m)
    ensures var n := r.a64[0] as int + r.a64[1] as int;
            if n < U64_LIMIT then m == Running(base + k + 2, r.(st0 := true, a64 := r.a64[0 := n]))
            else m.Stopped? && !m.regs.st0
  {
    hide Reaches, HalfAt;
    HalfCode(code, ty, meta, base, k);
    HalfCode(code, ty, meta, base, k + 1);
    m := AddTest(op, code, start, base + k, r);
  }

  /** Last part of a round: count and jump back. */
  lemma LoopBack(op: Operation, code: Program, ty: OwnedType, meta: Meta, base: nat, start: Machine, r: Regs)
    returns (m: Machine)
    requires HalfAt(code, ty, meta, base) && 0 in r.a16 && r.a16[0] + 1 < 0x1_0000 && r.cy0 <= JUMP_LIMIT
    requires Reaches(op, code, start, Running(base + 9, r))
    ensures Reaches(op, code, start, m)
    ensures if r.cy0 == JUMP_LIMIT then m.Stopped? && !m.regs.st0
            else m == Running(base + 4, r.(st0 := true, a16 := r.a16[0 := r.a16[0] + 1], cy0 := r.cy0 + 1))
  {
    hide Reaches, HalfAt, Exec;
    m := HalfGo(op, code, ty, meta, base, start, 9, IncA16(0), r);
    DoIncA16(op, 0, base + 9, r);
    var r' := m.regs;
    m := HalfGo(op, code, ty, meta, base, start, 10, Jmp(base + LOOP_START), r');
    DoJmp(op, base + LOOP_START, base + 10, r');
  }

  /** How the loop ends when its last jump brings the counter to `jumps`. */
  ghost predicate LoopEnds(op: Operation, ty: OwnedType, base: nat, jumps: nat, m: Machine) {
    if Sum(Outs(op, ty)) < U64_LIMIT && jumps <= JUMP_LIMIT then
      && m.Running? && m.pc == base + LOOP_EXIT && m.regs.st0 && m.regs.cy0 == jumps
      && 0 in m.regs.a64 && m.regs.a64[0] == Sum(Outs(op, ty))
    else
      m.Stopped? && !m.regs.st0
  }

  lemma LoopExit(op: Operation, code: Program, ty: OwnedType, meta: Meta, base: nat, start: Machine, r: Regs)
    returns (m: Machine)
    requires HalfAt(code, ty, meta, base) && AtLoop(op, ty, r, |Outs(op, ty)|)
    requires Reaches(op, code, start, Running(base + 4, r)) && Sum(Outs(op, ty)) < U64_LIMIT
    ensures Reaches(op, code, start, m) && LoopEnds(op, ty, base, r.cy0 + 1, m)
  {
    assert Outs(op, ty)[..|Outs(op, ty)|] == Outs(op, ty);
    hide Reaches, HalfAt, Sum, Exec;
    m := HalfGo(op, code, ty, meta, base, start, 4, EqA16(0, 1), r);
    DoEqA16(op, 0, 1, base + 4, r);
    var r' := m.regs;
    m := HalfGo(op, code, ty, meta, base, start, 5, Jif(base + LOOP_EXIT), r');
    DoJif(op, base + LOOP_EXIT, base + 5, r');
  }

  /** The loop ends with the sum of all assignments, or the program fails: on
      overflow, or because the rounds use up the jump counter. */
  lemma {:induction false} LoopRuns(op: Operation, code: Program, ty: OwnedType, meta: Meta, base: nat, start: Machine,
                                    r: Regs, k: nat)
    returns (m: Machine)
    requires HalfAt(code, ty, meta, base) && AtLoop(op, ty, r, k) && |Outs(op, ty)| < 0x1_0000
    requires Reaches(op, code, start, Running(base + 4, r)) && Sum(Outs(op, ty)[..k]) < U64_LIMIT
    ensures Reaches(op, code, start, m)
    ensures LoopEnds(op, ty, base, r.cy0 + (|Outs(op, ty)| - k) + 1, m)
    decreases |Outs(op, ty)| - k
  {
    var outs := Outs(op, ty);
    if k == |outs| {
      assert outs[..k] == outs;
      m := LoopExit(op, code, ty, meta, base, start, r);
    } else {
      SumPrefix(outs, k);
      SumMonotone(outs, k + 1);
      hide Reaches, HalfAt, Sum;
      LoopLoad(op, code, ty, meta, base, start, r, k);
      m := AddAndTest(op, code, ty, meta, base, start, 7, r.(st0 := false, a64 := r.a64[1 := outs[k]]));
      if m.Running? {
        m := LoopBack(op, code, ty, meta, base, start, m.regs);
        if m.Running? {
          m := LoopRuns(op, code, ty, meta, base, start, m.regs, k + 1);
        }
      }
    }
  }

  /** After the loop: the burned amount joins the accumulator, which must then
      equal the inputs. */
  lemma CheckSum(op: Operation, code: Program, ty: OwnedType, meta: Meta, base: nat, start: Machine, r: Regs)
    returns (m: Machine)
    requires HalfAt(code, ty, meta, base) && r.st0 && 0 in r.a64
    requires Reaches(op, code, start, Running(base + LOOP_EXIT, r))
    ensures Reaches(op, code, start, m)
    ensures if meta in op.meta && op.meta[meta] + r.a64[0] < U64_LIMIT &&
            SumIs(Ins(op, ty), op.meta[meta] + r.a64[0]) then
              && m.Running? && m.pc == base + 19 && m.regs.cy0 == r.cy0
              && 0 in m.regs.a64 && m.regs.a64[0] == op.meta[meta] + r.a64[0]
              && 1 in m.regs.a64 && m.regs.a64[1] == op.meta[meta]
            else m.Stopped? && !m.regs.st0
  {
    hide Reaches, HalfAt, Exec, Sum;
    m := HalfGo(op, code, ty, meta, base, start, 11, PutA16(0, 0), r);
    DoPutA16(op, 0, 0, base + 11, r);
    var r1 := m.regs;
    m := HalfGo(op, code, ty, meta, base, start, 12, LdM(meta, 0), r1);
    DoLdM(op, meta, 0, base + 12, r1);
    if m.Running? {
      m := CheckSumTail(op, code, ty, meta, base, start, m.regs);
    }
  }

  lemma CheckSumTail(op: Operation, code: Program, ty: OwnedType, meta: Meta, base: nat, start: Machine, r: Regs)
    returns (m: Machine)
    requires HalfAt(code, ty, meta, base) && r.st0 && 0 in r.a64 && 0 in r.a16 && r.a16[0] == 0
    requires 0 in r.s16 && r.s16[0].AmountBlob?
    requires Reaches(op, code, start, Running(base + 13, r))
    ensures Reaches(op, code, start, m)
    ensures var burned := r.s16[0].amount as int;
            if burned + r.a64[0] < U64_LIMIT && SumIs(Ins(op, ty), burned + r.a64[0]) then
              && m.Running? && m.pc == base + 19 && m.regs.cy0 == r.cy0
              && 0 in m.regs.a64 && m.regs.a64[0] == burned + r.a64[0] && 1 in m.regs.a64 && m.regs.a64[1] == burned
            else m.Stopped? && !m.regs.st0
  {
    hide Reaches, HalfAt, Exec, Sum, SumIs;
    m := HalfGo(op, code, ty, meta, base, start, 13, Extr(0, 1, 0), r);
    DoExtr(op, 0, 1, 0, base + 13, r);
    var r1 := m.regs;
    m := HalfGo(op, code, ty, meta, base, start, 14, Test, r1);
    DoTest(op, base + 14, r1);
    m := AddAndTest(op, code, ty, meta, base, start, 15, r1);
    if m.Running? {
      HalfCode(code, ty, meta, base, 17);
      HalfCode(code, ty, meta, base, 18);
      m := InsTest(op, code, start, base + 17, ty, m.regs);
    }
  }

  /** A tested comparison of the inputs with the accumulator. */
  lemma InsTest(op: Operation, code: Program, start: Machine, pc: nat, ty: OwnedType, r: Regs) returns (m: Machine)
    requires code(pc) == Sps(ty) && code(pc + 1) == Test && r.st0 && 0 in r.a64
    requires Reaches(op, code, start, Running(pc, r))
    ensures Reaches(op, code, start, m)
    ensures if SumIs(Ins(op, ty), r.a64[0]) then m == Running(pc + 2, r) else m.Stopped? && !m.regs.st0
  {
    hide Reaches, Exec, Sum, SumIs;
    m := Go(op, code, start, pc, Sps(ty), r);
    DoSps(op, ty, pc, r);
    if m.Running? {
      m := Go(op, code, start, pc + 1, Test, r);
      DoTest(op, pc + 1, r);
    }
  }

  /** A tested comparison of the outputs with the accumulator. */
  lemma OutsTest(op: Operation, code: Program, start: Machine, pc: nat, ty: OwnedType, r: Regs) returns (m: Machine)
    requires code(pc) == Sas(ty) && code(pc + 1) == Test && r.st0 && 0 in r.a64
    requires Reaches(op, code, start, Running(pc, r))
    ensures Reaches(op, code, start, m)
    ensures if NoZero(Outs(op, ty)) && SumIs(Outs(op, ty), r.a64[0]) then m == Running(pc + 2, r)
            else m.Stopped? && !m.regs.st0
  {
    hide Reaches, Exec, Sum, SumIs, NoZero;
    m := Go(op, code, start, pc, Sas(ty), r);
    DoSas(op, ty, pc, r);
    if m.Running? {
      m := Go(op, code, start, pc + 1, Test, r);
      DoTest(op, pc + 1, r);
    }
  }

  /** Burning nothing while there are inputs is refused. */
  lemma CheckZero(op: Operation, code: Program, ty: OwnedType, meta: Meta, base: nat, start: Machine, r: Regs)
    returns (m: Machine)
    requires HalfAt(code, ty, meta, base) && 0 in r.a64 && 1 in r.a64
    requires Reaches(op, code, start, Running(base + 19, r))
    ensures Reaches(op, code, start, m)
    ensures if r.a64[1] == 0 && r.a64[0] > 0 then m.Stopped? && !m.regs.st0
            else m.Running? && m.pc == base + BURN_HALF && m.regs.st0 && m.regs.cy0 == r.cy0
  {
    hide Reaches, HalfAt, Exec;
    m := HalfGo(op, code, ty, meta, base, start, 19, PutA8(0, ERRNO_BURN_ZERO), r);
    DoPutA8(op, 0, ERRNO_BURN_ZERO, base + 19, r);
    var r1 := m.regs;
    m := HalfGo(op, code, ty, meta, base, start, 20, IfZA64(1), r1);
    DoIfZA64(op, 1, base + 20, r1);
    var r2 := m.regs;
    m := HalfGo(op, code, ty, meta, base, start, 21, StS(1), r2);
    DoStS(op, 1, base + 21, r2);
    m := CheckZeroTail(op, code, ty, meta, base, start, m.regs);
  }

  lemma CheckZeroTail(op: Operation, code: Program, ty: OwnedType, meta: Meta, base: nat, start: Machine, r: Regs)
    returns (m: Machine)
    requires HalfAt(code, ty, meta, base) && 0 in r.a64 && 1 in r.a8 && r.a8[1] <= 1
    requires Reaches(op, code, start, Running(base + 22, r))
    ensures Reaches(op, code, start, m)
    ensures if r.a8[1] == 1 && r.a64[0] > 0 then m.Stopped? && !m.regs.st0
            else m.Running? && m.pc == base + BURN_HALF && m.regs.st0 && m.regs.cy0 == r.cy0
  {
    hide Reaches, HalfAt, Exec;
    m := HalfGo(op, code, ty, meta, base, start, 22, IfZA64(0), r);
    DoIfZA64(op, 0, base + 22, r);
    var r1 := m.regs;
    m := HalfGo(op, code, ty, meta, base, start, 23, InvSt, r1);
    DoInvSt(op, base + 23, r1);
    var r2 := m.regs;
    m := HalfGo(op, code, ty, meta, base, start, 24, StN(1), r2);
    DoStN(op, 1, base + 24, r2);
    m := CheckZeroEnd(op, code, ty, meta, base, start, m.regs);
  }

  lemma CheckZeroEnd(op: Operation, code: Program, ty: OwnedType, meta: Meta, base: nat, start: Machine, r: Regs)
    returns (m: Machine)
    requires HalfAt(code, ty, meta, base) && 1 in r.a8
    requires Reaches(op, code, start, Running(base + 25, r))
    ensures Reaches(op, code, start, m)
    ensures if r.a8[1] != 0 then m.Stopped? && !m.regs.st0
            else m.Running? && m.pc == base + BURN_HALF && m.regs.st0 && m.regs.cy0 == r.cy0
  {
    hide Reaches, HalfAt, Exec;
    m := HalfGo(op, code, ty, meta, base, start, 25, IfZA8(1), r);
    DoIfZA8(op, 1, base + 25, r);
    var r1 := m.regs;
    m := HalfGo(op, code, ty, meta, base, start, 26, Test, r1);
    DoTest(op, base + 26, r1);
  }

  /** The setup before the loop. */
  lemma HalfSetup(op: Operation, code: Program, ty: OwnedType, meta: Meta, base: nat, start: Machine, r: Regs)
    returns (m: Machine)
    requires HalfAt(code, ty, meta, base) && ty != Link && r.cy0 <= JUMP_LIMIT
    requires Reaches(op, code, start, Running(base, r))
    ensures Reaches(op, code, start, m) && m.Running? && m.pc == base + LOOP_START
    ensures AtLoop(op, ty, m.regs, 0) && m.regs.cy0 == r.cy0
  {
    hide Reaches, HalfAt, Exec;
    m := HalfGo(op, code, ty, meta, base, start, 0, PutA8(0, ERRNO_BURN_MISMATCH), r);
    DoPutA8(op, 0, ERRNO_BURN_MISMATCH, base, r);
    var r1 := m.regs;
    m := HalfGo(op, code, ty, meta, base, start, 1, PutA16(0, 0), r1);
    DoPutA16(op, 0, 0, base + 1, r1);
    var r2 := m.regs;
    m := HalfGo(op, code, ty, meta, base, start, 2, PutA64(0, 0), r2);
    DoPutA64(op, 0, 0, base + 2, r2);
    var r3 := m.regs;
    m := HalfGo(op, code, ty, meta, base, start, 3, CnS(ty, 1), r3);
    DoCnS(op, ty, 1, base + 3, r3);
  }

  /** A whole half: it passes control on exactly when its amounts balance and
      the jump counter lasts. */
  lemma HalfRuns(op: Operation, code: Program, ty: OwnedType, meta: Meta, base: nat, start: Machine, r: Regs)
    returns (m: Machine)
    requires HalfAt(code, ty, meta, base) && ty != Link && r.cy0 <= JUMP_LIMIT && |Outs(op, ty)| < 0x1_0000
    requires Reaches(op, code, start, Running(base, r))
    ensures Reaches(op, code, start, m)
    ensures var jumps := r.cy0 + |Outs(op, ty)| + 1;
            if BurnBalances(op, ty, meta) && jumps <= JUMP_LIMIT
            then m.Running? && m.pc == base + BURN_HALF && m.regs.st0 && m.regs.cy0 == jumps
            else m.Stopped? && !m.regs.st0
  {
    hide Reaches, HalfAt;
    m := HalfSetup(op, code, ty, meta, base, start, r);
    m := LoopRuns(op, code, ty, meta, base, start, m.regs, 0);
    if m.Running? {
      m := CheckSum(op, code, ty, meta, base, start, m.regs);
      if m.Running? {
        m := CheckZero(op, code, ty, meta, base, start, m.regs);
      }
    }
  }

  /** The machine has stopped with the given verdict. */
  predicate Verdict(m: Machine, ok: bool) {
    m.Stopped? && m.regs.st0 == ok
  }

  lemma VerdictUnique(op: Operation, code: Program, preset: map<nat, nat>, r: Regs)
    requires Reaches(op, code, Running(0, FreshRegs(preset)), Stopped(r))
    ensures Accepts(op, code, preset) <==> r.st0
  {
    if Accepts(op, code, preset) {
      var r' :| Reaches(op, code, Running(0, FreshRegs(preset)), Stopped(r')) && r'.st0;
      StoppedIsFinal(op, code, Running(0, FreshRegs(preset)), Stopped(r), Stopped(r'));
    }
  }

  /** The burn program always stops, and it accepts exactly the operations that
      balance for both types within the jump limit. */
  lemma BurnDecides(op: Operation, preset: map<nat, nat>)
    requires Confined(op)
    ensures exists r :: Reaches(op, BurnCode, Running(0, FreshRegs(preset)), Stopped(r))
    ensures Accepts(op, BurnCode, preset) <==> BurnOk(op)
  {
    var start := Running(0, FreshRegs(preset));
    ReachSelf(op, BurnCode, start);
    assert HalfAt(BurnCode, Asset, BurnedAsset, 0);
    assert HalfAt(BurnCode, Inflation, BurnedInflation, BURN_HALF);
    hide HalfAt, Reaches, BurnHalf;
    var m := HalfRuns(op, BurnCode, Asset, BurnedAsset, 0, start, FreshRegs(preset));
    if m.Running? {
      m := HalfRuns(op, BurnCode, Inflation, BurnedInflation, BURN_HALF, start, m.regs);
      if m.Running? {
        GoOn(op, BurnCode, start, m);
        m := Stopped(m.regs);
      }
    }
    VerdictUnique(op, BurnCode, preset, m.regs);
  }

  // ------------------------------------------------------- straight programs

  lemma GenesisDecides(op: Operation, preset: map<nat, nat>)
    ensures exists r :: Reaches(op, GenesisCode, Running(0, FreshRegs(preset)), Stopped(r))
    ensures Accepts(op, GenesisCode, preset) <==> GenesisOk(op)
  {
    var start := Running(0, FreshRegs(preset));
    ReachSelf(op, GenesisCode, start);
    hide Reaches, GenesisCode, Exec, Sum, Accepts;
    var m := SupplyCheck(op, GenesisCode, preset, start);
    if m.Running? {
      m := GenesisRights(op, start, m.regs);
    }
    VerdictUnique(op, GenesisCode, preset, m.regs);
  }

  /** The common first part of the genesis and inflation programs. */
  lemma SupplyCheck(op: Operation, code: Program, preset: map<nat, nat>, start: Machine) returns (m: Machine)
    requires start == Running(0, FreshRegs(preset)) && Reaches(op, code, start, start)
    requires forall k: nat :: k < 7 ==> code(k) == GenesisCode(k)
    ensures Reaches(op, code, start, m)
    ensures if IssuedSupply in op.globals && |op.globals[IssuedSupply]| > 0
               && NoZero(op.outAsset) && Sum(op.outAsset) == op.globals[IssuedSupply][0]
            then && m.Running? && m.pc == 7 && m.regs.st0
                 && 0 in m.regs.a64 && m.regs.a64[0] == op.globals[IssuedSupply][0]
                 && 0 in m.regs.a16 && m.regs.a16[0] == 0 && 1 in m.regs.a8 && m.regs.a8[1] == 0
            else Verdict(m, false)
  {
    hide Reaches, Exec, Sum;
    var r := FreshRegs(preset);
    m := Go(op, code, start, 0, PutA8(1, 0), r);
    DoPutA8(op, 1, 0, 0, r);
    r := m.regs;
    m := Go(op, code, start, 1, PutA16(0, 0), r);
    DoPutA16(op, 0, 0, 1, r);
    r := m.regs;
    m := Go(op, code, start, 2, PutA8(0, ERRNO_ISSUED_MISMATCH), r);
    DoPutA8(op, 0, ERRNO_ISSUED_MISMATCH, 2, r);
    m := SupplySum(op, code, start, m.regs);
  }

  lemma SupplySum(op: Operation, code: Program, start: Machine, r: Regs) returns (m: Machine)
    requires forall k: nat :: k < 7 ==> code(k) == GenesisCode(k)
    requires Reaches(op, code, start, Running(3, r))
    requires r.st0 && 0 in r.a16 && r.a16[0] == 0 && 1 in r.a8 && r.a8[1] == 0
    ensures Reaches(op, code, start, m)
    ensures if IssuedSupply in op.globals && |op.globals[IssuedSupply]| > 0
               && NoZero(op.outAsset) && Sum(op.outAsset) == op.globals[IssuedSupply][0]
            then m == Running(7, r.(s16 := r.s16[0 := AmountBlob(op.globals[IssuedSupply][0])],
                                    a64 := r.a64[0 := op.globals[IssuedSupply][0]]))
            else Verdict(m, false)
  {
    assert code(3) == LdG(IssuedSupply, 1, 0) && code(4) == Extr(0, 0, 0) && code(5) == Sas(Asset) && code(6) == Test;
    hide Reaches, Exec, Sum, NoZero, GenesisCode;
    m := Go(op, code, start, 3, LdG(IssuedSupply, 1, 0), r);
    DoLdG(op, IssuedSupply, 1, 0, 3, r);
    if m.Running? {
      var r1 := m.regs;
      m := Go(op, code, start, 4, Extr(0, 0, 0), r1);
      DoExtr(op, 0, 0, 0, 4, r1);
      var r2 := m.regs;
      m := OutsTest(op, code, start, 5, Asset, r2);
    }
  }

  lemma GenesisRights(op: Operation, start: Machine, r: Regs) returns (m: Machine)
    requires Reaches(op, GenesisCode, start, Running(7, r))
    requires r.st0 && 0 in r.a16 && r.a16[0] == 0 && 1 in r.a8 && r.a8[1] == 0 && 0 in r.a64
    ensures Reaches(op, GenesisCode, start, m)
    ensures Verdict(m, && MaxSupply in op.globals && |op.globals[MaxSupply]| > 0
                       && r.a64[0] <= op.globals[MaxSupply][0]
                       && NoZero(op.outInflation) && Sum(op.outInflation) == op.globals[MaxSupply][0] - r.a64[0])
  {
    assert GenesisCode(7) == PutA8(0, ERRNO_INFLATION_MISMATCH) && GenesisCode(8) == LdG(MaxSupply, 1, 1);
    assert GenesisCode(9) == Extr(1, 1, 0);
    hide Reaches, Exec, Sum, NoZero, GenesisCode;
    m := Go(op, GenesisCode, start, 7, PutA8(0, ERRNO_INFLATION_MISMATCH), r);
    DoPutA8(op, 0, ERRNO_INFLATION_MISMATCH, 7, r);
    var r1 := m.regs;
    m := Go(op, GenesisCode, start, 8, LdG(MaxSupply, 1, 1), r1);
    DoLdG(op, MaxSupply, 1, 1, 8, r1);
    if m.Running? {
      var r2 := m.regs;
      m := Go(op, GenesisCode, start, 9, Extr(1, 1, 0), r2);
      DoExtr(op, 1, 1, 0, 9, r2);
      m := GenesisRightsSum(op, start, m.regs);
    }
  }

  lemma GenesisRightsSum(op: Operation, start: Machine, r: Regs) returns (m: Machine)
    requires Reaches(op, GenesisCode, start, Running(10, r)) && 0 in r.a64 && 1 in r.a64
    ensures Reaches(op, GenesisCode, start, m)
    ensures Verdict(m, r.a64[0] <= r.a64[1] && NoZero(op.outInflation) && Sum(op.outInflation) == r.a64[1] - r.a64[0])
  {
    hide Reaches, Exec, Sum, NoZero;
    m := Go(op, GenesisCode, start, 10, SubUc(1, 0), r);
    DoSubUc(op, 1, 0, 10, r);
    var r1 := m.regs;
    m := Go(op, GenesisCode, start, 11, Test, r1);
    DoTest(op, 11, r1);
    if m.Running? {
      m := OutsTest(op, GenesisCode, start, 12, Inflation, r1);
      if m.Running? {
        m := Go(op, GenesisCode, start, 14, Ret, r1);
        DoRet(op, 14, r1);
      }
    }
  }

  lemma TransferDecides(op: Operation, preset: map<nat, nat>)
    ensures exists r :: Reaches(op, TransferCode, Running(0, FreshRegs(preset)), Stopped(r))
    ensures Accepts(op, TransferCode, preset) <==> TransferOk(op)
  {
    var start := Running(0, FreshRegs(preset));
    ReachSelf(op, TransferCode, start);
    hide Reaches, Exec, Sum, NoZero, SumIs, Accepts;
    var m := Go(op, TransferCode, start, 0, PutA8(0, ERRNO_NON_EQUAL_IN_OUT), FreshRegs(preset));
    DoPutA8(op, 0, ERRNO_NON_EQUAL_IN_OUT, 0, FreshRegs(preset));
    m := TransferSum(op, start, 1, Asset, m.regs);
    if m.Running? {
      m := TransferSum(op, start, 3, Inflation, m.regs);
      if m.Running? {
        m := TransferLinks(op, start, m.regs);
      }
    }
    VerdictUnique(op, TransferCode, preset, m.regs);
  }

  lemma TransferSum(op: Operation, start: Machine, pc: nat, ty: OwnedType, r: Regs) returns (m: Machine)
    requires (pc == 1 && ty == Asset) || (pc == 3 && ty == Inflation)
    requires Reaches(op, TransferCode, start, Running(pc, r)) && r.st0
    ensures Reaches(op, TransferCode, start, m)
    ensures if NoZero(Outs(op, ty)) && SumIs(Ins(op, ty), Sum(Outs(op, ty))) then m == Running(pc + 2, r)
            else Verdict(m, false)
  {
    hide Reaches, Exec, Sum, NoZero, SumIs;
    m := Go(op, TransferCode, start, pc, Svs(ty), r);
    DoSvs(op, ty, pc, r);
    if m.Running? {
      m := Go(op, TransferCode, start, pc + 1, Test, r);
      DoTest(op, pc + 1, r);
    }
  }

  lemma TransferLinks(op: Operation, start: Machine, r: Regs) returns (m: Machine)
    requires Reaches(op, TransferCode, start, Running(5, r))
    ensures Reaches(op, TransferCode, start, m)
    ensures Verdict(m, op.inLinks == op.outLinks)
  {
    hide Reaches, Exec;
    m := Go(op, TransferCode, start, 5, PutA8(0, ERRNO_NON_EQUAL_IN_OUT), r);
    DoPutA8(op, 0, ERRNO_NON_EQUAL_IN_OUT, 5, r);
    var r1 := m.regs;
    m := Go(op, TransferCode, start, 6, CnP(Link, 0), r1);
    DoCnP(op, Link, 0, 6, r1);
    var r2 := m.regs;
    m := Go(op, TransferCode, start, 7, CnS(Link, 1), r2);
    DoCnS(op, Link, 1, 7, r2);
    m := TransferLinksEnd(op, start, m.regs);
  }

  lemma TransferLinksEnd(op: Operation, start: Machine, r: Regs) returns (m: Machine)
    requires Reaches(op, TransferCode, start, Running(8, r)) && 0 in r.a16 && 1 in r.a16
    ensures Reaches(op, TransferCode, start, m)
    ensures Verdict(m, r.a16[0] == r.a16[1])
  {
    hide Reaches, Exec;
    m := Go(op, TransferCode, start, 8, EqA16(0, 1), r);
    DoEqA16(op, 0, 1, 8, r);
    var r1 := m.regs;
    m := Go(op, TransferCode, start, 9, Test, r1);
    DoTest(op, 9, r1);
    if m.Running? {
      m := Go(op, TransferCode, start, 10, Ret, r1);
      DoRet(op, 10, r1);
    }
  }

  lemma InflationDecides(op: Operation, preset: map<nat, nat>)
    ensures exists r :: Reaches(op, InflationCode, Running(0, FreshRegs(preset)), Stopped(r))
    ensures Accepts(op, InflationCode, preset) <==> InflationOk(op)
  {
    var start := Running(0, FreshRegs(preset));
    ReachSelf(op, InflationCode, start);
    assert forall k: nat :: k < 7 ==> InflationCode(k) == GenesisCode(k);
    hide Reaches, InflationCode, GenesisCode, Exec, Sum, NoZero, Accepts;
    var m := SupplyCheck(op, InflationCode, preset, start);
    if m.Running? {
      m := InflationRights(op, start, m.regs);
    }
    VerdictUnique(op, InflationCode, preset, m.regs);
  }

  lemma InflationRights(op: Operation, start: Machine, r: Regs) returns (m: Machine)
    requires Reaches(op, InflationCode, start, Running(7, r))
    requires 0 in r.a16 && r.a16[0] == 0 && 0 in r.a64
    ensures Reaches(op, InflationCode, start, m)
    ensures Verdict(m, && AllowedInflation in op.meta && NoZero(op.outInflation)
                       && Sum(op.outInflation) == op.meta[AllowedInflation]
                       && SumIs(op.inInflation, r.a64[0] as int + op.meta[AllowedInflation] as int))
  {
    hide Reaches, Exec, Sum, NoZero, SumIs;
    m := Go(op, InflationCode, start, 7, CpyA64(0, 1), r);
    DoCpyA64(op, 0, 1, 7, r);
    var r1 := m.regs;
    m := Go(op, InflationCode, start, 8, PutA8(0, ERRNO_INFLATION_MISMATCH), r1);
    DoPutA8(op, 0, ERRNO_INFLATION_MISMATCH, 8, r1);
    m := InflationAllowed(op, start, m.regs);
  }

  lemma InflationAllowed(op: Operation, start: Machine, r: Regs) returns (m: Machine)
    requires Reaches(op, InflationCode, start, Running(9, r)) && r.st0
    requires 0 in r.a16 && r.a16[0] == 0 && 1 in r.a64
    ensures Reaches(op, InflationCode, start, m)
    ensures Verdict(m, && AllowedInflation in op.meta && NoZero(op.outInflation)
                       && Sum(op.outInflation) == op.meta[AllowedInflation]
                       && SumIs(op.inInflation, r.a64[1] as int + op.meta[AllowedInflation] as int))
  {
    hide Reaches, Exec, Sum, NoZero, SumIs;
    m := Go(op, InflationCode, start, 9, LdM(AllowedInflation, 0), r);
    DoLdM(op, AllowedInflation, 0, 9, r);
    if m.Running? {
      var r1 := m.regs;
      m := Go(op, InflationCode, start, 10, Extr(0, 0, 0), r1);
      DoExtr(op, 0, 0, 0, 10, r1);
      m := InflationOuts(op, start, m.regs);
    }
  }

  lemma InflationOuts(op: Operation, start: Machine, r: Regs) returns (m: Machine)
    requires Reaches(op, InflationCode, start, Running(11, r)) && r.st0 && 0 in r.a64 && 1 in r.a64
    ensures Reaches(op, InflationCode, start, m)
    ensures Verdict(m, && NoZero(op.outInflation) && Sum(op.outInflation) == r.a64[0]
                       && SumIs(op.inInflation, r.a64[1] as int + r.a64[0] as int))
  {
    hide Reaches, Exec, Sum, NoZero;
    m := OutsTest(op, InflationCode, start, 11, Inflation, r);
    if m.Running? {
      m := Go(op, InflationCode, start, 13, PutA8(0, ERRNO_INFLATION_EXCEEDS_ALLOWANCE), r);
      DoPutA8(op, 0, ERRNO_INFLATION_EXCEEDS_ALLOWANCE, 13, r);
      m := InflationIns(op, start, m.regs);
    }
  }

  lemma InflationIns(op: Operation, start: Machine, r: Regs) returns (m: Machine)
    requires Reaches(op, InflationCode, start, Running(14, r)) && 0 in r.a64 && 1 in r.a64
    ensures Reaches(op, InflationCode, start, m)
    ensures Verdict(m, SumIs(op.inInflation, r.a64[1] as int + r.a64[0] as int))
  {
    hide Reaches, Exec, Sum;
    m := AddTest(op, InflationCode, start, 14, r);
    if m.Running? {
      var r1 := m.regs;
      m := InsTest(op, InflationCode, start, 16, Inflation, r1);
      if m.Running? {
        m := Go(op, InflationCode, start, 18, Ret, r1);
        DoRet(op, 18, r1);
      }
    }
  }
}
