/** Matching the recipients of a payment with the outputs of the transaction that
    was built for them. */
module RecipientOutputs {
  import opened Basics

  datatype Output = Output(script: nat, value: u64)

  /** How many of the outputs are the given one. */
  function Count(outputs: seq<Output>, o: Output): nat {
    if outputs == [] then 0
    else Count(outputs[..|outputs| - 1], o) + if outputs[|outputs| - 1] == o then 1 else 0
  }

  /** How many of the first `n` outputs are the given one and in use. */
  function CountUsed(outputs: seq<Output>, used: set<nat>, o: Output, n: nat): nat
    requires n <= |outputs|
  {
    if n == 0 then 0
    else CountUsed(outputs, used, o, n - 1) + if outputs[n - 1] == o && n - 1 in used then 1 else 0
  }

  lemma CountStep(outputs: seq<Output>, o: Output, i: nat)
    requires i < |outputs|
    ensures Count(outputs[..i + 1], o) == Count(outputs[..i], o) + if outputs[i] == o then 1 else 0
  {
    assert outputs[..i + 1][..i] == outputs[..i];
  }

  lemma {:induction false} CountGrows(outputs: seq<Output>, o: Output, i: nat)
    requires i <= |outputs|
    ensures Count(outputs[..i], o) <= Count(outputs, o)
    decreases |outputs| - i
  {
    if i < |outputs| {
      CountStep(outputs, o, i);
      CountGrows(outputs, o, i + 1);
    } else {
      assert outputs[..i] == outputs;
    }
  }

  /** Using one more output raises its count by one. */
  lemma {:induction false} UseOne(outputs: seq<Output>, used: set<nat>, v: nat, o: Output, n: nat)
    requires n <= |outputs| && v < |outputs| && v !in used
    ensures CountUsed(outputs, used + {v}, o, n) == CountUsed(outputs, used, o, n) + if v < n && outputs[v] == o
            then 1 else 0
  {
    if n > 0 {
      UseOne(outputs, used, v, o, n - 1);
    }
  }

  /** Not more are in use than there are, and all of them exactly when none is
      free. */
  lemma {:induction false} UsedAreSome(outputs: seq<Output>, used: set<nat>, o: Output, n: nat)
    requires n <= |outputs|
    ensures CountUsed(outputs, used, o, n) <= Count(outputs[..n], o)
    ensures (forall v :: 0 <= v < n && outputs[v] == o ==> v in used) ==>
            CountUsed(outputs, used, o, n) == Count(outputs[..n], o)
  {
    if n > 0 {
      UsedAreSome(outputs, used, o, n - 1);
      CountStep(outputs, o, n - 1);
    }
  }

  lemma NoneUsed(outputs: seq<Output>, o: Output, n: nat)
    requires n <= |outputs|
    ensures CountUsed(outputs, {}, o, n) == 0
  {
  }

  /** The first free output that matches. */
  method FindFree(outputs: seq<Output>, used: set<nat>, o: Output) returns (r: Option<nat>)
    ensures r.Some? ==> r.value < |outputs| && outputs[r.value] == o && r.value !in used
    ensures forall v :: 0 <= v < (if r.Some? then r.value else |outputs|) && outputs[v] == o ==> v in used
  {
    for v := 0 to |outputs|
      invariant forall u :: 0 <= u < v && outputs[u] == o ==> u in used
    {
      if v !in used && outputs[v] == o {
        return Some(v);
      }
    }
    return None;
  }

  /** The outputs found for the first `i` recipients: none for an amount of zero,
      otherwise the first matching output that no earlier recipient has. */
  ghost predicate FirstFit(outputs: seq<Output>, recipients: seq<Output>, vouts: seq<Option<nat>>) {
    && |vouts| <= |recipients|
    && (forall i :: 0 <= i < |vouts| ==> (vouts[i].None? <==> recipients[i].value == 0))
    && (forall i :: 0 <= i < |vouts| && vouts[i].Some? ==>
        vouts[i].value < |outputs| && outputs[vouts[i].value] == recipients[i])
    && (forall i, j :: 0 <= i < j < |vouts| && vouts[i].Some? ==> vouts[i] != vouts[j])
    && (forall i, v :: 0 <= i < |vouts| && vouts[i].Some? && 0 <= v < vouts[i].value && outputs[v] == recipients[i] ==>
          Some(v) in vouts[..i])
  }

  /** Every output asked for is there often enough. */
  ghost predicate Enough(outputs: seq<Output>, recipients: seq<Output>) {
    forall o: Output :: o.value > 0 ==> Count(recipients, o) <= Count(outputs, o)
  }

  /** The used outputs are those found so far, and they are used once for every
      recipient. */
  ghost predicate UsedOk(outputs: seq<Output>, recipients: seq<Output>, vouts: seq<Option<nat>>, used: set<nat>) {
    && |vouts| <= |recipients|
    && (forall v :: v in used <==> Some(v) in vouts)
    && (forall o: Output :: o.value > 0 ==>
          CountUsed(outputs, used, o, |outputs|) == Count(recipients[..|vouts|], o))
  }

  lemma FitMore(outputs: seq<Output>, recipients: seq<Output>, vouts: seq<Option<nat>>, next: Option<nat>)
    requires FirstFit(outputs, recipients, vouts) && |vouts| < |recipients| && (next.Some? ==> next !in vouts)
    requires next.None? <==> recipients[|vouts|].value == 0
    requires next.Some? ==> next.value < |outputs| && outputs[next.value] == recipients[|vouts|]
    requires next.Some? ==> forall v :: 0 <= v < next.value && outputs[v] == outputs[next.value] ==> Some(v) in vouts
    ensures FirstFit(outputs, recipients, vouts + [next])
  {
    var vouts' := vouts + [next];
    forall i, v | 0 <= i < |vouts'| && vouts'[i].Some? && 0 <= v < vouts'[i].value && outputs[v] == recipients[i]
      ensures Some(v) in vouts'[..i]
    {
      if i < |vouts| {
        assert vouts'[..i] == vouts[..i] && vouts'[i] == vouts[i];
      } else {
        assert vouts'[..i] == vouts;
      }
    }
  }

  lemma CountMore(outputs: seq<Output>, recipients: seq<Output>, vouts: seq<Option<nat>>, used: set<nat>,
                  next: Option<nat>)
    requires UsedOk(outputs, recipients, vouts, used) && |vouts| < |recipients|
    requires next.None? <==> recipients[|vouts|].value == 0
    requires next.Some? ==> next.value < |outputs| && next.value !in used && outputs[next.value] == recipients[|vouts|]
    ensures UsedOk(outputs, recipients, vouts + [next], used + if next.Some? then {next.value} else {})
  {
    var vouts', used' := vouts + [next], used + if next.Some? then {next.value} else {};
    forall o: Output | o.value > 0
      ensures CountUsed(outputs, used', o, |outputs|) == Count(recipients[..|vouts'|], o)
    {
      hide Count, CountUsed;
      CountStep(recipients, o, |vouts|);
      if next.Some? {
        UseOne(outputs, used, next.value, o, |outputs|);
      } else {
        assert used' == used;
      }
    }
    assert forall v :: Some(v) in vouts' <==> Some(v) in vouts || next == Some(v);
  }

  /** Finds an output for each recipient, first fit. Although it never looks back,
      it succeeds exactly when for every script and value the recipients with a
      non-zero amount do not outnumber the outputs. */
  method FindRecipientVouts(outputs: seq<Output>, recipients: seq<Output>) returns (r: Option<seq<Option<nat>>>)
    ensures r.Some? <==> Enough(outputs, recipients)
    ensures r.Some? ==> |r.value| == |recipients| && FirstFit(outputs, recipients, r.value)
  {
    var used := {};
    var vouts := [];
    hide FirstFit, UsedOk, Enough;
    Begin(outputs, recipients);
    for i := 0 to |recipients|
      invariant |vouts| == i && FirstFit(outputs, recipients, vouts) && UsedOk(outputs, recipients, vouts, used)
    {
      if recipients[i].value == 0 {
        FitMore(outputs, recipients, vouts, None);
        CountMore(outputs, recipients, vouts, used, None);
        assert used + {} == used;
        vouts := vouts + [None];
      } else {
        var found := FindFree(outputs, used, recipients[i]);
        if found.None? {
          NoneFree(outputs, recipients, vouts, used);
          return None;
        }
        UsedAreFound(outputs, recipients, vouts, used);
        FitMore(outputs, recipients, vouts, found);
        CountMore(outputs, recipients, vouts, used, found);
        vouts := vouts + [Some(found.value)];
        used := used + {found.value};
      }
    }
    AllFound(outputs, recipients, vouts, used);
    r := Some(vouts);
  }

  lemma UsedAreFound(outputs: seq<Output>, recipients: seq<Output>, vouts: seq<Option<nat>>, used: set<nat>)
    requires UsedOk(outputs, recipients, vouts, used)
    ensures forall v :: v in used <==> Some(v) in vouts
  {
  }

  lemma Begin(outputs: seq<Output>, recipients: seq<Output>)
    ensures FirstFit(outputs, recipients, []) && UsedOk(outputs, recipients, [], {})
  {
    forall o: Output
      ensures CountUsed(outputs, {}, o, |outputs|) == 0
    {
      NoneUsed(outputs, o, |outputs|);
    }
  }

  lemma NoneFree(outputs: seq<Output>, recipients: seq<Output>, vouts: seq<Option<nat>>, used: set<nat>)
    requires UsedOk(outputs, recipients, vouts, used) && |vouts| < |recipients| && recipients[|vouts|].value > 0
    requires forall v :: 0 <= v < |outputs| && outputs[v] == recipients[|vouts|] ==> v in used
    ensures !Enough(outputs, recipients)
  {
    var o := recipients[|vouts|];
    UsedAreSome(outputs, used, o, |outputs|);
    assert outputs[..|outputs|] == outputs;
    CountStep(recipients, o, |vouts|);
    CountGrows(recipients, o, |vouts| + 1);
  }

  lemma AllFound(outputs: seq<Output>, recipients: seq<Output>, vouts: seq<Option<nat>>, used: set<nat>)
    requires UsedOk(outputs, recipients, vouts, used) && |vouts| == |recipients|
    ensures Enough(outputs, recipients)
  {
    assert outputs[..|outputs|] == outputs && recipients[..|recipients|] == recipients;
    forall o: Output | o.value > 0
      ensures Count(recipients, o) <= Count(outputs, o)
    {
      UsedAreSome(outputs, used, o, |outputs|);
    }
  }

  /** The first output with the change script and a value that is not one of the
      recipients' outputs; there is one exactly when it is found. */
  method FindChangeVout(outputs: seq<Output>, script: nat, recipientVouts: seq<nat>) returns (r: Option<nat>)
    ensures r.Some? <==> exists v :: 0 <= v < |outputs| && IsChange(outputs, script, recipientVouts, v)
    ensures r.Some? ==> IsChange(outputs, script, recipientVouts, r.value) &&
                        forall v :: 0 <= v < r.value ==> !IsChange(outputs, script, recipientVouts, v)
  {
    for v := 0 to |outputs|
      invariant forall u :: 0 <= u < v ==> !IsChange(outputs, script, recipientVouts, u)
    {
      if v !in recipientVouts && outputs[v].script == script && outputs[v].value > 0 {
        assert IsChange(outputs, script, recipientVouts, v);
        return Some(v);
      }
    }
    return None;
  }

  predicate IsChange(outputs: seq<Output>, script: nat, recipientVouts: seq<nat>, v: nat) {
    v < |outputs| && v !in recipientVouts && outputs[v].script == script && outputs[v].value > 0
  }
}
