/** From the outputs of an interface program to assignments: the entries of the
    declared returns are matched with the outputs one by one, except that an owner
    state consumes two, its outpoint and its value. */
module ReturnsAbi {
  import opened Basics
  import opened ContractVm

  /** One entry of the JSON list of returns; a field that is missing or of the
      wrong kind is absent. */
  datatype Entry = Entry(name: Option<string>, reg: Option<string>, ty: Option<nat>)

  datatype Holder = Beneficiary | Change | Owner(outpoint: string)

  datatype Content = Fungible(amount: u64) | Rights | Data(bytes: seq<Byte>)

  datatype Assignment = Assignment(ty: nat, holder: Holder, content: Content)

  /** Foreign parsers, and what the transition builder accepts. */
  datatype Codec = Codec(
    isOutpoint: string -> bool,
    outpointBytes: string -> seq<Byte>,
    hash: OutValue -> Option<seq<Byte>>,
    typed: (nat, OutValue) -> Option<seq<Byte>>,
    admits: Assignment -> bool)

  /** A signed output read back as an amount. */
  function ParseAmount(v: OutValue): Option<u64> {
    if v.IntOut? && 0 <= v.value < U64_LIMIT then Some(v.value) else None
  }

  function ParseOutpoint(codec: Codec, v: OutValue): Option<string> {
    if v.BytesOut? && codec.isOutpoint(v.text) then Some(v.text) else None
  }

  /** The data registers. */
  function ParseData(codec: Codec, ty: nat, reg: string, v: OutValue): Option<seq<Byte>> {
    if reg == "r256" then codec.hash(v)
    else if reg == "outpoint" then
      var text :- ParseOutpoint(codec, v);
      Some(codec.outpointBytes(text))
    else if reg == "s16" then codec.typed(ty, v)
    else None
  }

  function Add(codec: Codec, a: Assignment): Result<seq<Assignment>> {
    if codec.admits(a) then Ok([a]) else Err
  }

  /** Beneficiary and change receive an amount only when it is positive. */
  function AddPositive(codec: Codec, ty: nat, holder: Holder, v: OutValue): Result<seq<Assignment>> {
    match ParseAmount(v)
    case None => Err
    case Some(amount) => if amount == 0 then Ok([]) else Add(codec, Assignment(ty, holder, Fungible(amount)))
  }

  function AddData(codec: Codec, ty: nat, holder: Holder, reg: string, v: OutValue): Result<seq<Assignment>> {
    match ParseData(codec, ty, reg, v)
    case None => Err
    case Some(bytes) => Add(codec, Assignment(ty, holder, Data(bytes)))
  }

  /** An owner state: zero amounts are assigned too, and a right ignores its value. */
  function AddOwned(codec: Codec, ty: nat, holder: Holder, reg: string, v: OutValue): Result<seq<Assignment>> {
    if reg == "a64" then
      match ParseAmount(v)
      case None => Err
      case Some(amount) => Add(codec, Assignment(ty, holder, Fungible(amount)))
    else if reg == "a8" then Add(codec, Assignment(ty, holder, Rights))
    else AddData(codec, ty, holder, reg, v)
  }

  predicate Complete(e: Entry) {
    e.name.Some? && e.reg.Some? && e.ty.Some?
  }

  predicate IsOwner(e: Entry) {
    e.name == Some("owner_state")
  }

  /** The assignment type of an entry, cut to 16 bits. */
  function TypeOf(e: Entry): nat
    requires Complete(e)
  {
    e.ty.value % 0x1_0000
  }

  // ------------------------------------------------------------ specification

  /** How many outputs the entries consume. */
  function Cursor(abi: seq<Entry>): nat {
    if abi == [] then 0 else Cursor(abi[..|abi| - 1]) + if IsOwner(abi[|abi| - 1]) then 2 else 1
  }

  function Owners(abi: seq<Entry>): nat {
    if abi == [] then 0 else Owners(abi[..|abi| - 1]) + if IsOwner(abi[|abi| - 1]) then 1 else 0
  }

  /** What one entry adds when the outputs from `j` on are left. */
  function States(codec: Codec, e: Entry, outs: seq<OutValue>, j: nat): Result<seq<Assignment>> {
    if j >= |outs| then Crash
    else if !Complete(e) then Err
    else if e.name.value == "benifery" then
      if e.reg.value == "a64" then AddPositive(codec, TypeOf(e), Beneficiary, outs[j]) else Err
    else if e.name.value == "change" then
      if e.reg.value == "a64" then AddPositive(codec, TypeOf(e), Change, outs[j])
      else AddData(codec, TypeOf(e), Change, e.reg.value, outs[j])
    else if IsOwner(e) then
      match ParseOutpoint(codec, outs[j])
      case None => Err
      case Some(text) =>
        if j + 1 >= |outs| then Crash else AddOwned(codec, TypeOf(e), Owner(text), e.reg.value, outs[j + 1])
    else Err
  }

  /** All entries, each reading at its own cursor. The first failure decides. */
  function AllStates(codec: Codec, abi: seq<Entry>, outs: seq<OutValue>): Result<seq<Assignment>> {
    if abi == [] then Ok([])
    else
      var rest := abi[..|abi| - 1];
      match AllStates(codec, rest, outs)
      case Err => Err
      case Crash => Crash
      case Ok(s) =>
        match States(codec, abi[|abi| - 1], outs, Cursor(rest))
        case Err => Err
        case Crash => Crash
        case Ok(t) => Ok(s + t)
  }

  // ----------------------------------------------------- what an entry assigns

  /** Who an entry assigns to, by its name and the output it reads first. */
  ghost predicate GoesTo(codec: Codec, e: Entry, first: OutValue, holder: Holder) {
    || (e.name == Some("benifery") && holder == Beneficiary)
    || (e.name == Some("change") && holder == Change)
    || (&& e.name == Some("owner_state") && first.BytesOut? && codec.isOutpoint(first.text)
        && holder == Owner(first.text))
  }

  /** What an entry assigns, by its register and the output it reads last. */
  ghost predicate Brings(codec: Codec, e: Entry, ty: nat, last: OutValue, content: Content) {
    || (e.reg == Some("a64") && content.Fungible? && last == IntOut(content.amount))
    || (e.reg == Some("a8") && IsOwner(e) && content == Rights)
    || (e.reg == Some("r256") && content.Data? && codec.hash(last) == Some(content.bytes))
    || (&& e.reg == Some("outpoint") && content.Data? && last.BytesOut? && codec.isOutpoint(last.text)
        && content.bytes == codec.outpointBytes(last.text))
    || (e.reg == Some("s16") && content.Data? && codec.typed(ty, last) == Some(content.bytes))
  }

  /** An entry that reads the outputs from `j` on adds one assignment, of its declared
      type cut to 16 bits, to the holder that its name stands for; a zero amount for
      beneficiary or change adds nothing, and a beneficiary receives amounts only. */
  ghost predicate Assigns(codec: Codec, e: Entry, outs: seq<OutValue>, j: nat, s: seq<Assignment>) {
    var last := j + if IsOwner(e) then 1 else 0;
    && Complete(e) && last < |outs| && (e.name == Some("benifery") ==> e.reg == Some("a64"))
    && if s == [] then e.name in {Some("benifery"), Some("change")} && e.reg == Some("a64") && outs[last] == IntOut(0)
       else
         && |s| == 1 && codec.admits(s[0])
         && s[0].ty < 0x1_0000 && (e.ty.value - s[0].ty) % 0x1_0000 == 0
         && GoesTo(codec, e, outs[j], s[0].holder) && Brings(codec, e, s[0].ty, outs[last], s[0].content)
         && (s[0].content == Fungible(0) ==> IsOwner(e))
  }

  lemma StatesAssign(codec: Codec, e: Entry, outs: seq<OutValue>, j: nat)
    requires States(codec, e, outs, j).Ok?
    ensures Assigns(codec, e, outs, j, States(codec, e, outs, j).value)
  {
    var ty := e.ty.value;
    assert ty == 0x1_0000 * (ty / 0x1_0000) + TypeOf(e);
  }

  /** And an entry succeeds whenever there is something that it stands for. */
  lemma AssignsDecides(codec: Codec, e: Entry, outs: seq<OutValue>, j: nat, s: seq<Assignment>)
    requires Assigns(codec, e, outs, j, s)
    ensures States(codec, e, outs, j) == Ok(s)
  {
    if s != [] {
      CutDecides(e.ty.value, s[0].ty);
      assert s == [s[0]];
    }
  }

  lemma CutDecides(ty: nat, cut: nat)
    requires cut < 0x1_0000 && (ty - cut) % 0x1_0000 == 0
    ensures cut == ty % 0x1_0000
  {
    var k := (ty - cut) / 0x1_0000;
    assert ty == 0x1_0000 * k + cut;
  }

  function Flatten(parts: seq<seq<Assignment>>): seq<Assignment> {
    if parts == [] then [] else Flatten(parts[..|parts| - 1]) + parts[|parts| - 1]
  }

  /** The assignments are those of the entries, in their order. */
  ghost predicate Parts(codec: Codec, abi: seq<Entry>, outs: seq<OutValue>, parts: seq<seq<Assignment>>,
                        s: seq<Assignment>)
  {
    && |parts| == |abi| && Flatten(parts) == s
    && forall i :: 0 <= i < |abi| ==> Assigns(codec, abi[i], outs, Cursor(abi[..i]), parts[i])
  }

  /** Whatever succeeds is made up of what its entries stand for. */
  lemma {:induction false} AllStatesAssign(codec: Codec, abi: seq<Entry>, outs: seq<OutValue>)
      returns (parts: seq<seq<Assignment>>)
    requires AllStates(codec, abi, outs).Ok?
    ensures Parts(codec, abi, outs, parts, AllStates(codec, abi, outs).value)
  {
    parts := [];
    if abi != [] {
      var rest, last := abi[..|abi| - 1], abi[|abi| - 1];
      var before := AllStatesAssign(codec, rest, outs);
      var t := States(codec, last, outs, Cursor(rest));
      StatesAssign(codec, last, outs, Cursor(rest));
      parts := before + [t.value];
      assert parts[..|before|] == before;
      hide States, Assigns;
      forall i | 0 <= i < |abi|
        ensures Assigns(codec, abi[i], outs, Cursor(abi[..i]), parts[i])
      {
        if i < |rest| {
          assert rest[i] == abi[i] && rest[..i] == abi[..i] && parts[i] == before[i];
        }
      }
    }
  }

  // ----------------------------------------------------------------- the loop

  /** The loop over the entries, with its cursor into the outputs. An index past
      the last output is a panic. */
  method AddStates(codec: Codec, abi: seq<Entry>, outs: seq<OutValue>) returns (r: Result<seq<Assignment>>)
    ensures r == AllStates(codec, abi, outs)
    ensures r.Ok? ==> exists parts :: Parts(codec, abi, outs, parts, r.value)
  {
    var states, j := [], 0;
    for i := 0 to |abi|
      invariant j == Cursor(abi[..i]) && AllStates(codec, abi[..i], outs) == Ok(states)
    {
      AllStatesStep(codec, abi, outs, i);
      var e := abi[i];
      if j >= |outs| {
        return Crash;
      }
      var v := outs[j];
      j := j + 1;
      if !Complete(e) {
        return Err;
      }
      var added: Result<seq<Assignment>>;
      match e.name.value {
        case "benifery" =>
          if e.reg.value != "a64" {
            return Err;
          }
          added := AddPositive(codec, TypeOf(e), Beneficiary, v);
        case "change" =>
          if e.reg.value == "a64" {
            added := AddPositive(codec, TypeOf(e), Change, v);
          } else {
            added := AddData(codec, TypeOf(e), Change, e.reg.value, v);
          }
        case "owner_state" =>
          var text := ParseOutpoint(codec, v);
          if text.None? {
            return Err;
          }
          if j >= |outs| {
            return Crash;
          }
          v := outs[j];
          j := j + 1;
          added := AddOwned(codec, TypeOf(e), Owner(text.value), e.reg.value, v);
        case _ => return Err;
      }
      if !added.Ok? {
        return added;
      }
      states := states + added.value;
    }
    assert abi[..|abi|] == abi;
    r := Ok(states);
    ghost var parts := AllStatesAssign(codec, abi, outs);
  }

  /** One more entry, and a failure that lasts. */
  lemma {:induction false} AllStatesStep(codec: Codec, abi: seq<Entry>, outs: seq<OutValue>, i: nat)
    requires i < |abi| && AllStates(codec, abi[..i], outs).Ok?
    ensures Cursor(abi[..i + 1]) == Cursor(abi[..i]) + if IsOwner(abi[i]) then 2 else 1
    ensures var s, t := AllStates(codec, abi[..i], outs), States(codec, abi[i], outs, Cursor(abi[..i]));
            && (t.Ok? ==> AllStates(codec, abi[..i + 1], outs) == Ok(s.value + t.value))
            && (!t.Ok? ==> AllStates(codec, abi, outs) == t)
  {
    assert abi[..i + 1][..i] == abi[..i];
    var t := States(codec, abi[i], outs, Cursor(abi[..i]));
    if !t.Ok? {
      FailureLasts(codec, abi, outs, i + 1);
    }
  }

  lemma {:induction false} FailureLasts(codec: Codec, abi: seq<Entry>, outs: seq<OutValue>, i: nat)
    requires i <= |abi| && !AllStates(codec, abi[..i], outs).Ok?
    ensures AllStates(codec, abi, outs) == AllStates(codec, abi[..i], outs)
    decreases |abi|
  {
    if i < |abi| {
      assert abi[..|abi| - 1][..i] == abi[..i];
      FailureLasts(codec, abi[..|abi| - 1], outs, i);
    } else {
      assert abi[..i] == abi;
    }
  }

  // ---------------------------------------------------------------- theorems

  /** Every entry takes one output and every owner state a second one. */
  lemma {:induction false} CursorCounts(abi: seq<Entry>)
    ensures Cursor(abi) == |abi| + Owners(abi)
  {
    if abi != [] {
      CursorCounts(abi[..|abi| - 1]);
    }
  }

  /** No entry is rejected, wherever the outputs end. */
  ghost predicate NoneRejected(codec: Codec, abi: seq<Entry>, outs: seq<OutValue>) {
    forall i :: 0 <= i < |abi| ==> States(codec, abi[i], outs, Cursor(abi[..i])) != Err
  }

  /** The loop stays within the outputs if and only if there is one for every entry
      and another one for every owner state, unless an entry is rejected before. */
  lemma {:induction false} BoundsDecide(codec: Codec, abi: seq<Entry>, outs: seq<OutValue>)
    ensures |outs| >= |abi| + Owners(abi) ==> AllStates(codec, abi, outs) != Crash
    ensures |outs| < |abi| + Owners(abi) ==> !AllStates(codec, abi, outs).Ok?
    ensures NoneRejected(codec, abi, outs) ==> AllStates(codec, abi, outs) != Err
    ensures NoneRejected(codec, abi, outs) ==>
              (AllStates(codec, abi, outs) == Crash <==> |outs| < |abi| + Owners(abi))
  {
    CursorCounts(abi);
    if abi != [] {
      var rest, last := abi[..|abi| - 1], abi[|abi| - 1];
      CursorCounts(rest);
      BoundsDecide(codec, rest, outs);
      StepBounds(codec, last, outs, Cursor(rest));
      assert NoneRejected(codec, abi, outs) ==> NoneRejected(codec, rest, outs) by {
        assert forall i :: 0 <= i < |rest| ==> rest[i] == abi[i] && rest[..i] == abi[..i];
      }
      assert NoneRejected(codec, abi, outs) ==> States(codec, abi[|abi| - 1], outs, Cursor(abi[..|abi| - 1])) != Err;
      hide States, NoneRejected;
    }
  }

  lemma StepBounds(codec: Codec, e: Entry, outs: seq<OutValue>, j: nat)
    ensures var width := if IsOwner(e) then 2 else 1;
            && (|outs| >= j + width ==> States(codec, e, outs, j) != Crash)
            && (|outs| < j + width ==> !States(codec, e, outs, j).Ok?)
  {
  }

  /** The fungible amounts assigned. */
  function Paid(s: seq<Assignment>): nat {
    if s == [] then 0
    else
      var last := s[|s| - 1];
      Paid(s[..|s| - 1]) + if last.content.Fungible? then last.content.amount as int else 0
  }

  lemma {:induction false} PaidConcat(s: seq<Assignment>, t: seq<Assignment>)
    ensures Paid(s + t) == Paid(s) + Paid(t)
  {
    if t == [] {
      assert s + t == s;
    } else {
      assert (s + t)[..|s + t| - 1] == s + t[..|t| - 1];
      PaidConcat(s, t[..|t| - 1]);
    }
  }

  /** The amounts that the entries stand for, read off the outputs: the last output
      of every entry that is declared as a 64-bit integer. */
  function Declared(abi: seq<Entry>, outs: seq<OutValue>): nat {
    if abi == [] then 0
    else
      var n := Cursor(abi);
      Declared(abi[..|abi| - 1], outs) +
      if abi[|abi| - 1].reg == Some("a64") && 1 <= n <= |outs| && ParseAmount(outs[n - 1]).Some?
      then ParseAmount(outs[n - 1]).value as int else 0
  }

  /** Whatever the interface declares, the assignments carry all declared amounts
      and nothing else. */
  lemma {:induction false} NothingIsLost(codec: Codec, abi: seq<Entry>, outs: seq<OutValue>)
    requires AllStates(codec, abi, outs).Ok?
    ensures Paid(AllStates(codec, abi, outs).value) == Declared(abi, outs)
  {
    if abi != [] {
      var rest, last := abi[..|abi| - 1], abi[|abi| - 1];
      NothingIsLost(codec, rest, outs);
      var t := States(codec, last, outs, Cursor(rest));
      StepPays(codec, last, outs, Cursor(rest));
      PaidConcat(AllStates(codec, rest, outs).value, t.value);
      hide States;
    }
  }

  lemma StepPays(codec: Codec, e: Entry, outs: seq<OutValue>, j: nat)
    requires States(codec, e, outs, j).Ok?
    ensures var n := j + if IsOwner(e) then 2 else 1;
            && n <= |outs|
            && Paid(States(codec, e, outs, j).value) ==
               if e.reg == Some("a64") && ParseAmount(outs[n - 1]).Some? then ParseAmount(outs[n - 1]).value as int
                   else 0
  {
    var t := States(codec, e, outs, j).value;
    assert |t| <= 1;
    assert |t| == 1 ==> t[..0] == [];
  }
}
