/** The part of the contract virtual machine that the schema programs use:
    registers, instructions and the execution of a program, one instruction at a
    time, with the counter that bounds the number of jumps. */
module ContractVm {
  import opened Basics

  datatype OwnedType = Asset | Inflation | Link

  datatype Meta = AllowedInflation | BurnedAsset | BurnedInflation

  datatype Global = IssuedSupply | MaxSupply

  /** What a program can see of the operation it validates: the amounts of the
      fungible inputs and outputs, the number of link rights, metadata and global
      state. Lists are shorter than 2^16. */
  datatype Operation = Operation(
    inAsset: seq<u64>, inInflation: seq<u64>, inLinks: nat,
    outAsset: seq<u64>, outInflation: seq<u64>, outLinks: nat,
    meta: map<Meta, u64>, globals: map<Global, seq<u64>>)

  function Ins(op: Operation, ty: OwnedType): seq<u64> {
    match ty
    case Asset => op.inAsset
    case Inflation => op.inInflation
    case Link => []
  }

  function Outs(op: Operation, ty: OwnedType): seq<u64> {
    match ty
    case Asset => op.outAsset
    case Inflation => op.outInflation
    case Link => []
  }

  function CountIn(op: Operation, ty: OwnedType): nat {
    if ty == Link then op.inLinks else |Ins(op, ty)|
  }

  function CountOut(op: Operation, ty: OwnedType): nat {
    if ty == Link then op.outLinks else |Outs(op, ty)|
  }

  function Sum(s: seq<u64>): nat {
    if s == [] then 0 else Sum(s[..|s| - 1]) + s[|s| - 1]
  }

  datatype Blob = AmountBlob(amount: u64) | TextBlob(text: string)

  datatype OutValue = IntOut(value: int) | BytesOut(text: string)

  datatype Instr =
    | PutA8(dst: nat, value: nat) | PutA16(dst: nat, value: nat) | PutA64(dst: nat, amount: u64)
    | PutText(dst: nat, text: string)
    | CnP(ty: OwnedType, dst: nat) | CnS(ty: OwnedType, dst: nat)
    | LdF(ty: OwnedType, index: nat, dst: nat)
    | LdM(meta: Meta, dst: nat) | LdG(global: Global, index: nat, dst: nat)
    | Extr(src: nat, dst: nat, offset: nat)
    | Svs(ty: OwnedType) | Sas(ty: OwnedType) | Sps(ty: OwnedType)
    | AddUc(src: nat, dst: nat) | SubUc(src: nat, dst: nat) | DivUc(src: nat, dst: nat)
    | IncA16(dst: nat)
    | CpyA64(src: nat, dst: nat) | DupA64(src: nat, dst: nat)
    | EqA16(x: nat, y: nat) | IfZA8(src: nat) | IfZA64(src: nat)
    | StS(dst: nat) | StN(dst: nat) | InvSt
    | Jif(target: nat) | Jmp(target: nat) | Test | Ret
    | OutrA64(src: nat) | OutrText(src: nat)

  /** Registers without a value are absent from their file. */
  datatype Regs = Regs(
    a8: map<nat, nat>, a16: map<nat, nat>, a64: map<nat, u64>, s16: map<nat, Blob>,
    st0: bool, cy0: nat, out: seq<OutValue>)

  /** Registers at the start; only a16[0] may be set, to the transition type. */
  function FreshRegs(preset: map<nat, nat>): Regs {
    Regs(map[], preset, map[], map[], true, 0, [])
  }

  /** The machine at instruction `pc`, or stopped; the verdict is `st0`. */
  datatype Machine = Running(pc: nat, regs: Regs) | Stopped(regs: Regs)

  const JUMP_LIMIT := 65535

  function Fail(r: Regs): Machine {
    Stopped(r.(st0 := false))
  }

  /** A jump counts; one too many fails the program. */
  function Jump(r: Regs, target: nat): Machine {
    if r.cy0 == JUMP_LIMIT then Fail(r) else Running(target, r.(cy0 := r.cy0 + 1))
  }

  function SetA64(r: Regs, dst: nat, v: Option<u64>): Regs {
    r.(a64 := if v.Some? then r.a64[dst := v.value] else r.a64 - {dst}, st0 := v.Some?)
  }

  function Checked(n: int): Option<u64> {
    if 0 <= n < U64_LIMIT then Some(n) else None
  }

  /** The sum test of `svs`, `sas` and `sps`: no overflow, and for outputs no
      zero amount. */
  predicate SumIs(s: seq<u64>, total: nat) {
    Sum(s) < U64_LIMIT && Sum(s) == total
  }

  predicate NoZero(s: seq<u64>) {
    forall i :: 0 <= i < |s| ==> s[i] != 0
  }

  /** Reinterpret 64 bits as a signed integer, as `outr` does. */
  function Signed(n: u64): int {
    if n < 0x8000_0000_0000_0000 then n else n - U64_LIMIT
  }

  /** One instruction. */
  function Exec(op: Operation, i: Instr, pc: nat, r: Regs): Machine {
    match i
    case PutA8(dst, value) => Running(pc + 1, r.(a8 := r.a8[dst := value]))
    case PutA16(dst, value) => Running(pc + 1, r.(a16 := r.a16[dst := value]))
    case PutA64(dst, amount) => Running(pc + 1, r.(a64 := r.a64[dst := amount]))
    case PutText(dst, text) => Running(pc + 1, r.(s16 := r.s16[dst := TextBlob(text)]))
    case CnP(ty, dst) => Running(pc + 1, r.(a16 := r.a16[dst := CountIn(op, ty)]))
    case CnS(ty, dst) => Running(pc + 1, r.(a16 := r.a16[dst := CountOut(op, ty)]))
    case LdF(ty, index, dst) =>
      if index in r.a16 && r.a16[index] < |Outs(op, ty)|
      then Running(pc + 1, r.(a64 := r.a64[dst := Outs(op, ty)[r.a16[index]]]))
      else Fail(r)
    case LdM(meta, dst) =>
      if meta in op.meta then Running(pc + 1, r.(s16 := r.s16[dst := AmountBlob(op.meta[meta])])) else Fail(r)
    case LdG(global, index, dst) =>
      if index in r.a8 && global in op.globals && r.a8[index] < |op.globals[global]|
      then Running(pc + 1, r.(s16 := r.s16[dst := AmountBlob(op.globals[global][r.a8[index]])]))
      else Fail(r)
    case Extr(src, dst, offset) =>
      if src in r.s16 && r.s16[src].AmountBlob? && offset in r.a16 && r.a16[offset] == 0
      then Running(pc + 1, r.(a64 := r.a64[dst := r.s16[src].amount]))
      else Running(pc + 1, SetA64(r, dst, None))
    case Svs(ty) =>
      if NoZero(Outs(op, ty)) && SumIs(Ins(op, ty), Sum(Outs(op, ty))) && Sum(Outs(op, ty)) < U64_LIMIT
      then Running(pc + 1, r) else Fail(r)
    case Sas(ty) =>
      if 0 in r.a64 && NoZero(Outs(op, ty)) && SumIs(Outs(op, ty), r.a64[0]) then Running(pc + 1, r) else Fail(r)
    case Sps(ty) =>
      if 0 in r.a64 && SumIs(Ins(op, ty), r.a64[0]) then Running(pc + 1, r) else Fail(r)
    case AddUc(src, dst) =>
      Running(pc + 1,
          SetA64(r, dst, if src in r.a64 && dst in r.a64 then Checked(r.a64[src] as int + r.a64[dst] as int) else None))
    case SubUc(src, dst) =>
      Running(pc + 1,
          SetA64(r, dst, if src in r.a64 && dst in r.a64 then Checked(r.a64[src] as int - r.a64[dst] as int) else None))
    case DivUc(src, dst) =>
      Running(pc + 1, SetA64(r, dst, if src in r.a64 && dst in r.a64 && r.a64[dst] != 0
                                     then Checked(r.a64[src] as int / r.a64[dst] as int) else None))
    case IncA16(dst) =>
      if dst in r.a16 && r.a16[dst] + 1 < 0x1_0000
      then Running(pc + 1, r.(a16 := r.a16[dst := r.a16[dst] + 1], st0 := true))
      else Running(pc + 1, r.(a16 := r.a16 - {dst}, st0 := false))
    case CpyA64(src, dst) => Running(pc + 1, SetA64(r, dst, if src in r.a64 then Some(r.a64[src]) else None))
    case DupA64(src, dst) =>
      Running(pc + 1, r.(a64 := if src in r.a64 then r.a64[dst := r.a64[src]] else r.a64 - {dst}))
    case EqA16(x, y) => Running(pc + 1, r.(st0 := x in r.a16 && y in r.a16 && r.a16[x] == r.a16[y]))
    case IfZA8(src) => Running(pc + 1, r.(st0 := src in r.a8 && r.a8[src] == 0))
    case IfZA64(src) => Running(pc + 1, r.(st0 := src in r.a64 && r.a64[src] == 0))
    case StS(dst) => Running(pc + 1, r.(a8 := r.a8[dst := Bit(r.st0)]))
    case StN(dst) =>
      Running(pc + 1, r.(a8 := r.a8[dst := if dst in r.a8 then (if r.st0 then r.a8[dst] % 2 else 0) else Bit(r.st0)]))
    case InvSt => Running(pc + 1, r.(st0 := !r.st0))
    case Jif(target) => if r.st0 then Jump(r, target) else Running(pc + 1, r)
    case Jmp(target) => Jump(r, target)
    case Test => if r.st0 then Running(pc + 1, r) else Fail(r)
    case Ret => Stopped(r)
    case OutrA64(src) => Running(pc + 1, r.(out := r.out + [IntOut(if src in r.a64 then Signed(r.a64[src]) else 0)]))
    case OutrText(src) =>
      Running(pc + 1,
          r.(out := r.out + [BytesOut(if src in r.s16 && r.s16[src].TextBlob? then r.s16[src].text else "")]))
  }

  function Bit(b: bool): nat {
    if b then 1 else 0
  }

  type Program = nat -> Instr

  function Step(op: Operation, code: Program, m: Machine): Machine {
    if m.Stopped? then m else Exec(op, code(m.pc), m.pc, m.regs)
  }

  /** `n` steps of a program. */
  function Run(op: Operation, code: Program, m: Machine, n: nat): Machine
    decreases n
  {
    if n == 0 then m else Run(op, code, Step(op, code, m), n - 1)
  }

  /** The program stops from `m` in a machine with the given registers. */
  ghost predicate Reaches(op: Operation, code: Program, m: Machine, m': Machine) {
    exists n: nat :: Run(op, code, m, n) == m'
  }

  lemma {:induction false} RunSplit(op: Operation, code: Program, m: Machine, i: nat, j: nat)
    ensures Run(op, code, m, i + j) == Run(op, code, Run(op, code, m, i), j)
    decreases i
  {
    if i > 0 {
      RunSplit(op, code, Step(op, code, m), i - 1, j);
    }
  }

  lemma ReachSelf(op: Operation, code: Program, a: Machine)
    ensures Reaches(op, code, a, a)
  {
    assert Run(op, code, a, 0) == a;
  }

  lemma GoOn(op: Operation, code: Program, a: Machine, b: Machine)
    requires Reaches(op, code, a, b)
    ensures Reaches(op, code, a, Step(op, code, b))
  {
    var n: nat :| Run(op, code, a, n) == b;
    RunSplit(op, code, a, n, 1);
    assert Run(op, code, b, 1) == Step(op, code, b) by {
      assert Run(op, code, Step(op, code, b), 0) == Step(op, code, b);
    }
  }

  /** The instruction at `pc`, reached from `start`, is executed. */
  lemma Go(op: Operation, code: Program, start: Machine, pc: nat, i: Instr, r: Regs) returns (m: Machine)
    requires code(pc) == i && Reaches(op, code, start, Running(pc, r))
    ensures m == Exec(op, i, pc, r) && Reaches(op, code, start, m)
  {
    hide Exec;
    m := Step(op, code, Running(pc, r));
    GoOn(op, code, start, Running(pc, r));
  }

  /** A machine that has stopped stays as it is, so a verdict is unique. */
  lemma StoppedIsFinal(op: Operation, code: Program, a: Machine, b: Machine, c: Machine)
    requires Reaches(op, code, a, b) && Reaches(op, code, a, c) && b.Stopped? && c.Stopped?
    ensures b == c
  {
    var i: nat :| Run(op, code, a, i) == b;
    var j: nat :| Run(op, code, a, j) == c;
    if i <= j {
      RunSplit(op, code, a, i, j - i);
      StoppedStays(op, code, b, j - i);
    } else {
      RunSplit(op, code, a, j, i - j);
      StoppedStays(op, code, c, i - j);
    }
  }

  lemma {:induction false} StoppedStays(op: Operation, code: Program, m: Machine, n: nat)
    requires m.Stopped?
    ensures Run(op, code, m, n) == m
    decreases n
  {
    if n > 0 {
      StoppedStays(op, code, m, n - 1);
    }
  }

  /** The verdict of a program on an operation: it stops, with `st0` set. */
  ghost predicate Accepts(op: Operation, code: Program, preset: map<nat, nat>) {
    exists r :: Reaches(op, code, Running(0, FreshRegs(preset)), Stopped(r)) && r.st0
  }

  // --------------------------------------- single instructions, as equations

  lemma DoPutA8(op: Operation, dst: nat, value: nat, pc: nat, r: Regs)
    ensures Exec(op, PutA8(dst, value), pc, r) == Running(pc + 1, r.(a8 := r.a8[dst := value])) {}

  lemma DoPutA16(op: Operation, dst: nat, value: nat, pc: nat, r: Regs)
    ensures Exec(op, PutA16(dst, value), pc, r) == Running(pc + 1, r.(a16 := r.a16[dst := value])) {}

  lemma DoPutA64(op: Operation, dst: nat, amount: u64, pc: nat, r: Regs)
    ensures Exec(op, PutA64(dst, amount), pc, r) == Running(pc + 1, r.(a64 := r.a64[dst := amount])) {}

  lemma DoCnS(op: Operation, ty: OwnedType, dst: nat, pc: nat, r: Regs)
    ensures Exec(op, CnS(ty, dst), pc, r) == Running(pc + 1, r.(a16 := r.a16[dst := CountOut(op, ty)])) {}

  lemma DoLdF(op: Operation, ty: OwnedType, index: nat, dst: nat, pc: nat, r: Regs)
    requires index in r.a16 && r.a16[index] < |Outs(op, ty)|
    ensures Exec(op, LdF(ty, index, dst), pc, r) ==
            Running(pc + 1, r.(a64 := r.a64[dst := Outs(op, ty)[r.a16[index]]])) {}

  lemma DoLdM(op: Operation, meta: Meta, dst: nat, pc: nat, r: Regs)
    ensures Exec(op, LdM(meta, dst), pc, r) ==
            if meta in op.meta then Running(pc + 1, r.(s16 := r.s16[dst := AmountBlob(op.meta[meta])])) else Fail(r) {}

  lemma DoLdG(op: Operation, global: Global, index: nat, dst: nat, pc: nat, r: Regs)
    requires index in r.a8
    ensures Exec(op, LdG(global, index, dst), pc, r) ==
            if global in op.globals && r.a8[index] < |op.globals[global]|
            then Running(pc + 1, r.(s16 := r.s16[dst := AmountBlob(op.globals[global][r.a8[index]])])) else Fail(r) {}

  lemma DoExtr(op: Operation, src: nat, dst: nat, offset: nat, pc: nat, r: Regs)
    requires src in r.s16 && r.s16[src].AmountBlob? && offset in r.a16 && r.a16[offset] == 0
    ensures Exec(op, Extr(src, dst, offset), pc, r) == Running(pc + 1, r.(a64 := r.a64[dst := r.s16[src].amount])) {}

  lemma DoSps(op: Operation, ty: OwnedType, pc: nat, r: Regs)
    requires 0 in r.a64
    ensures Exec(op, Sps(ty), pc, r) == if SumIs(Ins(op, ty), r.a64[0]) then Running(pc + 1, r) else Fail(r) {}

  lemma DoSas(op: Operation, ty: OwnedType, pc: nat, r: Regs)
    requires 0 in r.a64
    ensures Exec(op, Sas(ty), pc, r) ==
            if NoZero(Outs(op, ty)) && SumIs(Outs(op, ty), r.a64[0]) then Running(pc + 1, r) else Fail(r) {}

  lemma DoAddUc(op: Operation, src: nat, dst: nat, pc: nat, r: Regs)
    requires src in r.a64 && dst in r.a64
    ensures Exec(op, AddUc(src, dst), pc, r) ==
            Running(pc + 1, SetA64(r, dst, Checked(r.a64[src] as int + r.a64[dst] as int))) {}

  lemma DoSubUc(op: Operation, src: nat, dst: nat, pc: nat, r: Regs)
    requires src in r.a64 && dst in r.a64
    ensures Exec(op, SubUc(src, dst), pc, r) ==
            Running(pc + 1, SetA64(r, dst, Checked(r.a64[src] as int - r.a64[dst] as int))) {}

  lemma DoIncA16(op: Operation, dst: nat, pc: nat, r: Regs)
    requires dst in r.a16 && r.a16[dst] + 1 < 0x1_0000
    ensures Exec(op, IncA16(dst), pc, r) == Running(pc + 1, r.(a16 := r.a16[dst := r.a16[dst] + 1], st0 := true)) {}

  lemma DoEqA16(op: Operation, x: nat, y: nat, pc: nat, r: Regs)
    requires x in r.a16 && y in r.a16
    ensures Exec(op, EqA16(x, y), pc, r) == Running(pc + 1, r.(st0 := r.a16[x] == r.a16[y])) {}

  lemma DoIfZA8(op: Operation, src: nat, pc: nat, r: Regs)
    requires src in r.a8
    ensures Exec(op, IfZA8(src), pc, r) == Running(pc + 1, r.(st0 := r.a8[src] == 0)) {}

  lemma DoIfZA64(op: Operation, src: nat, pc: nat, r: Regs)
    requires src in r.a64
    ensures Exec(op, IfZA64(src), pc, r) == Running(pc + 1, r.(st0 := r.a64[src] == 0)) {}

  lemma DoStS(op: Operation, dst: nat, pc: nat, r: Regs)
    ensures Exec(op, StS(dst), pc, r) == Running(pc + 1, r.(a8 := r.a8[dst := Bit(r.st0)])) {}

  lemma DoStN(op: Operation, dst: nat, pc: nat, r: Regs)
    requires dst in r.a8
    ensures Exec(op, StN(dst), pc, r) == Running(pc + 1, r.(a8 := r.a8[dst := if r.st0 then r.a8[dst] % 2 else 0])) {}

  lemma DoInvSt(op: Operation, pc: nat, r: Regs)
    ensures Exec(op, InvSt, pc, r) == Running(pc + 1, r.(st0 := !r.st0)) {}

  lemma DoJif(op: Operation, target: nat, pc: nat, r: Regs)
    ensures Exec(op, Jif(target), pc, r) == if r.st0 then Jump(r, target) else Running(pc + 1, r) {}

  lemma DoJmp(op: Operation, target: nat, pc: nat, r: Regs)
    ensures Exec(op, Jmp(target), pc, r) == Jump(r, target) {}

  lemma DoTest(op: Operation, pc: nat, r: Regs)
    ensures Exec(op, Test, pc, r) == if r.st0 then Running(pc + 1, r) else Fail(r) {}

  lemma DoSvs(op: Operation, ty: OwnedType, pc: nat, r: Regs)
    ensures Exec(op, Svs(ty), pc, r) ==
            if NoZero(Outs(op, ty)) && SumIs(Ins(op, ty), Sum(Outs(op, ty))) then Running(pc + 1, r) else Fail(r) {}

  lemma DoCnP(op: Operation, ty: OwnedType, dst: nat, pc: nat, r: Regs)
    ensures Exec(op, CnP(ty, dst), pc, r) == Running(pc + 1, r.(a16 := r.a16[dst := CountIn(op, ty)])) {}

  lemma DoCpyA64(op: Operation, src: nat, dst: nat, pc: nat, r: Regs)
    requires src in r.a64
    ensures Exec(op, CpyA64(src, dst), pc, r) == Running(pc + 1, r.(a64 := r.a64[dst := r.a64[src]], st0 := true)) {}

  lemma DoRet(op: Operation, pc: nat, r: Regs)
    ensures Exec(op, Ret, pc, r) == Stopped(r) {}

  lemma DoPutText(op: Operation, dst: nat, text: string, pc: nat, r: Regs)
    ensures Exec(op, PutText(dst, text), pc, r) == Running(pc + 1, r.(s16 := r.s16[dst := TextBlob(text)])) {}

  lemma DoDivUc(op: Operation, src: nat, dst: nat, pc: nat, r: Regs)
    requires src in r.a64 && dst in r.a64 && r.a64[dst] != 0
    ensures Exec(op, DivUc(src, dst), pc, r) ==
            Running(pc + 1, SetA64(r, dst, Checked(r.a64[src] as int / r.a64[dst] as int))) {}

  lemma DoDupA64(op: Operation, src: nat, dst: nat, pc: nat, r: Regs)
    ensures Exec(op, DupA64(src, dst), pc, r) ==
            Running(pc + 1, r.(a64 := if src in r.a64 then r.a64[dst := r.a64[src]] else r.a64 - {dst})) {}

  lemma DoOutrA64(op: Operation, src: nat, pc: nat, r: Regs)
    ensures Exec(op, OutrA64(src), pc, r) ==
            Running(pc + 1, r.(out := r.out + [IntOut(if src in r.a64 then Signed(r.a64[src]) else 0)])) {}

  lemma DoOutrText(op: Operation, src: nat, pc: nat, r: Regs)
    requires src in r.s16 && r.s16[src].TextBlob?
    ensures Exec(op, OutrText(src), pc, r) == Running(pc + 1, r.(out := r.out + [BytesOut(r.s16[src].text)])) {}
}
