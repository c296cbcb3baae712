/** Which operations the recovery scan takes up, and in which order. */
module ExternalSchedule {
  import opened Basics
  import opened ExternalModel

  const SCAN_LIMIT: nat := 32

  /** A scan that reads the time `now` takes up the operation. */
  predicate DueAt(r: Record, now: nat) {
    && r.retry.nextRetryAt <= now && r.status != AwaitingSignature && r.status != NeedsReview
    && !(r.terms.direction == Send && r.status == Cancelled)
  }

  /** The retry delay after the given number of failed attempts. */
  function Backoff(attempts: nat): nat {
    match (if attempts < 6 then attempts else 6)
    case 0 => 30
    case 1 => 60
    case 2 => 120
    case 3 => 240
    case 4 => 480
    case 5 => 960
    case _ => 1920
  }

  function Power(n: nat): nat {
    if n == 0 then 1 else 2 * Power(n - 1)
  }

  /** Half a minute, doubled with every failed attempt up to the sixth. */
  lemma BackoffDoubles(attempts: nat)
    ensures Backoff(attempts) == 30 * Power(if attempts < 6 then attempts else 6)
  {
    assert Power(0) == 1 && Power(1) == 2 && Power(2) == 4 && Power(3) == 8;
    assert Power(4) == 16 && Power(5) == 32 && Power(6) == 64;
  }

  /** The order in which the keyspace is walked through is not known. */
  ghost predicate Enumerates(order: seq<OpKey>, m: map<OpKey, Record>) {
    NoRepeats(order) && forall k :: k in order <==> k in m
  }

  ghost predicate NoRepeats(s: seq<OpKey>) {
    forall i, j :: 0 <= i < j < |s| ==> s[i] != s[j]
  }

  lemma NoRepeatsSnoc(s: seq<OpKey>, k: OpKey)
    requires NoRepeats(s) && k !in s
    ensures NoRepeats(s + [k])
  {
  }

  function TimeOf(ops: map<OpKey, Record>, k: OpKey): nat
    requires k in ops
  {
    ops[k].retry.nextRetryAt
  }

  ghost predicate Known(ops: map<OpKey, Record>, s: seq<OpKey>) {
    forall i :: 0 <= i < |s| ==> s[i] in ops
  }

  /** Longest waiting first. */
  ghost predicate ByTime(ops: map<OpKey, Record>, s: seq<OpKey>) {
    && Known(ops, s)
    && forall i, j :: 0 <= i < j < |s| ==> TimeOf(ops, s[i]) <= TimeOf(ops, s[j])
  }

  /** Insertion behind the entries of the same time. */
  function Insert(ops: map<OpKey, Record>, k: OpKey, s: seq<OpKey>): seq<OpKey>
    requires k in ops && Known(ops, s)
  {
    if s == [] || TimeOf(ops, s[|s| - 1]) <= TimeOf(ops, k) then s + [k]
    else Insert(ops, k, s[..|s| - 1]) + [s[|s| - 1]]
  }

  lemma {:induction false} InsertSame(ops: map<OpKey, Record>, k: OpKey, s: seq<OpKey>)
    requires k in ops && Known(ops, s)
    ensures multiset(Insert(ops, k, s)) == multiset(s) + multiset{k}
    ensures |Insert(ops, k, s)| == |s| + 1 && Known(ops, Insert(ops, k, s))
  {
    if !(s == [] || TimeOf(ops, s[|s| - 1]) <= TimeOf(ops, k)) {
      InsertSame(ops, k, s[..|s| - 1]);
      assert s == s[..|s| - 1] + [s[|s| - 1]];
    }
  }

  lemma {:induction false} InsertSorts(ops: map<OpKey, Record>, k: OpKey, s: seq<OpKey>)
    requires k in ops && ByTime(ops, s)
    ensures ByTime(ops, Insert(ops, k, s))
    ensures var t := Insert(ops, k, s); TimeOf(ops, t[|t| - 1]) >= TimeOf(ops, k)
    ensures var t := Insert(ops, k, s);
            s != [] ==> TimeOf(ops, t[|t| - 1]) == TimeOf(ops, s[|s| - 1]) || t[|t| - 1] == k
  {
    InsertSame(ops, k, s);
    if !(s == [] || TimeOf(ops, s[|s| - 1]) <= TimeOf(ops, k)) {
      InsertSorts(ops, k, s[..|s| - 1]);
      var t := Insert(ops, k, s[..|s| - 1]);
      InsertSame(ops, k, s[..|s| - 1]);
    }
  }

  function Sorted(ops: map<OpKey, Record>, s: seq<OpKey>): (t: seq<OpKey>)
    requires Known(ops, s)
    ensures multiset(t) == multiset(s) && Known(ops, t)
  {
    if s == [] then []
    else
      var t := Sorted(ops, s[..|s| - 1]);
      InsertSame(ops, s[|s| - 1], t);
      assert s == s[..|s| - 1] + [s[|s| - 1]];
      Insert(ops, s[|s| - 1], t)
  }

  lemma {:induction false} SortedIsByTime(ops: map<OpKey, Record>, s: seq<OpKey>)
    requires Known(ops, s)
    ensures ByTime(ops, Sorted(ops, s))
  {
    if s != [] {
      SortedIsByTime(ops, s[..|s| - 1]);
      InsertSorts(ops, s[|s| - 1], Sorted(ops, s[..|s| - 1]));
    }
  }

  /** A permutation of a list without repeats has none either, and the same
      elements. */
  lemma SameElements(s: seq<OpKey>, t: seq<OpKey>)
    requires multiset(s) == multiset(t) && NoRepeats(s)
    ensures NoRepeats(t) && forall k :: k in s <==> k in t
  {
    forall k
      ensures k in s <==> k in t
    {
      assert k in s <==> k in multiset(s);
      assert k in t <==> k in multiset(t);
    }
    forall i, j | 0 <= i < j < |t|
      ensures t[i] != t[j]
    {
      AtMostOnce(s, t[i]);
      if t[i] == t[j] {
        Twice(t, i, j);
      }
    }
  }

  lemma {:induction false} AtMostOnce(s: seq<OpKey>, k: OpKey)
    requires NoRepeats(s)
    ensures multiset(s)[k] <= 1
  {
    if s != [] {
      var rest := s[..|s| - 1];
      assert s == rest + [s[|s| - 1]];
      AtMostOnce(rest, k);
      if s[|s| - 1] == k {
        assert k !in rest;
        assert k !in multiset(rest);
      }
    }
  }

  lemma Twice(t: seq<OpKey>, i: nat, j: nat)
    requires i < j < |t| && t[i] == t[j]
    ensures multiset(t)[t[i]] >= 2
  {
    assert t == t[..j] + [t[j]] + t[j + 1..];
    assert t[..j][i] == t[i];
    assert t[i] in multiset(t[..j]);
  }

  /** What the scan takes up: the operations found due, longest waiting first. */
  ghost predicate Agenda(ops: map<OpKey, Record>, order: seq<OpKey>, clock: seq<nat>, due: seq<OpKey>) {
    && |clock| == |order| && Enumerates(order, ops)
    && NoRepeats(due) && ByTime(ops, due)
    && (forall i :: 0 <= i < |order| ==> (order[i] in due <==> DueAt(ops[order[i]], clock[i])))
  }

  /** No due operation is passed over for one that has waited less: if it is not
      among the first ones, there are that many that have waited at least as long. */
  lemma {:induction false} LongestWaitingFirst(
      ops: map<OpKey, Record>, order: seq<OpKey>, clock: seq<nat>, due: seq<OpKey>, i: nat)
    requires Agenda(ops, order, clock, due) && i < |order| && DueAt(ops[order[i]], clock[i])
    ensures order[i] in due[..if |due| < SCAN_LIMIT then |due| else SCAN_LIMIT]
            || (|due| > SCAN_LIMIT && forall j :: 0 <= j < SCAN_LIMIT ==> TimeOf(ops, due[j]) <= TimeOf(ops, order[i]))
  {
    assert order[i] in due;
    var n :| 0 <= n < |due| && due[n] == order[i];
    if n < SCAN_LIMIT {
      assert due[..if |due| < SCAN_LIMIT then |due| else SCAN_LIMIT][n] == due[n];
    }
  }
}
