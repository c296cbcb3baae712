/** Coin selection: the three greedy selectors of the wallet, the payer and the
    colouring library. */
module Selection {
  import opened Basics

  /** One fungible allocation of a contract; an outpoint may hold several. */
  datatype Allocation = Allocation(seal: nat, amount: u64)

  /** An outpoint with what it holds in all. */
  datatype Coin = Coin(seal: nat, sum: u64)

  // ----------------------------------------------------------------- grouping

  /** What the available allocations on a seal add up to. */
  function Held(allocs: seq<Allocation>, seal: nat): nat {
    if allocs == [] then 0
    else
      var last := allocs[|allocs| - 1];
      Held(allocs[..|allocs| - 1], seal) + if last.seal == seal then last.amount as int else 0
  }

  predicate Ascending(coins: seq<Coin>) {
    forall i, j :: 0 <= i < j < |coins| ==> coins[i].seal < coins[j].seal
  }

  /** One coin for each seal that has an allocation, with its capped holding. */
  ghost predicate CoinsOf(allocs: seq<Allocation>, coins: seq<Coin>) {
    && Ascending(coins)
    && (forall i :: 0 <= i < |coins| ==> coins[i].sum == Capped(Held(allocs, coins[i].seal)))
    && (forall i :: 0 <= i < |coins| ==> HasSeal(allocs, coins[i].seal))
    && (forall i :: 0 <= i < |allocs| ==> HasCoin(coins, allocs[i].seal))
  }

  ghost predicate HasSeal(allocs: seq<Allocation>, seal: nat) {
    exists i :: 0 <= i < |allocs| && allocs[i].seal == seal
  }

  ghost predicate HasCoin(coins: seq<Coin>, seal: nat) {
    exists i :: 0 <= i < |coins| && coins[i].seal == seal
  }

  lemma HeldSnoc(allocs: seq<Allocation>, a: Allocation, seal: nat)
    ensures Held(allocs + [a], seal) == Held(allocs, seal) + if a.seal == seal then a.amount as int else 0
  {
    assert (allocs + [a])[..|allocs|] == allocs;
  }

  lemma CappedAdd(held: nat, amount: u64)
    ensures Capped(Capped(held) as int + amount as int) == Capped(held + amount)
  {
  }

  lemma LeastKey(keys: set<nat>) returns (k: nat)
    requires keys != {}
    ensures k in keys && forall j :: j in keys ==> k <= j
  {
    k :| k in keys;
    var rest := keys - {k};
    assert keys == rest + {k};
    if rest != {} {
      var m := LeastKey(rest);
      if m < k {
        k := m;
      }
    }
  }

  /** The allocations added up per seal. */
  method Group(allocs: seq<Allocation>) returns (held: map<nat, u64>)
    ensures forall s :: s in held <==> HasSeal(allocs, s)
    ensures forall s :: s in held ==> held[s] == Capped(Held(allocs, s))
  {
    held := map[];
    for i := 0 to |allocs|
      invariant forall s :: s in held <==> HasSeal(allocs[..i], s)
      invariant forall s :: s in held ==> held[s] == Capped(Held(allocs[..i], s))
      invariant forall s :: s !in held ==> Held(allocs[..i], s) == 0
    {
      var a := allocs[i];
      ghost var next := allocs[..i] + [a];
      assert allocs[..i + 1] == next;
      forall s
        ensures Held(next, s) == Held(allocs[..i], s) + if a.seal == s then a.amount as int else 0
        ensures HasSeal(next, s) <==> s == a.seal || HasSeal(allocs[..i], s)
      {
        HeldSnoc(allocs[..i], a, s);
        SealSnoc(allocs[..i], a, s);
      }
      if a.seal in held {
        CappedAdd(Held(allocs[..i], a.seal), a.amount);
        held := held[a.seal := Capped(held[a.seal] as int + a.amount as int)];
      } else {
        held := held[a.seal := a.amount];
      }
    }
    assert allocs[..|allocs|] == allocs;
  }

  lemma SealSnoc(allocs: seq<Allocation>, a: Allocation, s: nat)
    ensures HasSeal(allocs + [a], s) <==> s == a.seal || HasSeal(allocs, s)
  {
    if HasSeal(allocs, s) {
      var i :| 0 <= i < |allocs| && allocs[i].seal == s;
      assert (allocs + [a])[i].seal == s;
    }
    assert (allocs + [a])[|allocs|] == a;
  }

  /** The coins listed so far, when `keys` are still to come. */
  ghost predicate Listed(held: map<nat, u64>, keys: set<nat>, coins: seq<Coin>) {
    && keys <= held.Keys && Ascending(coins)
    && (forall i :: 0 <= i < |coins| ==> coins[i].seal in held && coins[i].sum == held[coins[i].seal])
    && (forall i, k :: 0 <= i < |coins| && k in keys ==> coins[i].seal < k)
    && (forall k :: k in held && k !in keys ==> HasCoin(coins, k))
  }

  lemma ListOne(held: map<nat, u64>, keys: set<nat>, coins: seq<Coin>, k: nat)
    requires Listed(held, keys, coins) && k in keys && forall j :: j in keys ==> k <= j
    ensures Listed(held, keys - {k}, coins + [Coin(k, held[k])])
  {
    var coins' := coins + [Coin(k, held[k])];
    forall j | j in held && j !in keys - {k}
      ensures HasCoin(coins', j)
    {
      CoinSnoc(coins, Coin(k, held[k]), j);
    }
  }

  /** The entries of an ordered map, in the order of its keys. */
  method Coins(allocs: seq<Allocation>) returns (coins: seq<Coin>)
    ensures CoinsOf(allocs, coins)
  {
    var held := Group(allocs);
    coins := [];
    var keys := held.Keys;
    while keys != {}
      invariant Listed(held, keys, coins)
      decreases |keys|
    {
      ghost var least := LeastKey(keys);
      var k :| k in keys && forall j :: j in keys ==> k <= j;
      ListOne(held, keys, coins, k);
      coins := coins + [Coin(k, held[k])];
      keys := keys - {k};
    }
    forall i | 0 <= i < |allocs|
      ensures HasCoin(coins, allocs[i].seal)
    {
      assert HasSeal(allocs, allocs[i].seal);
    }
  }

  lemma CoinSnoc(coins: seq<Coin>, c: Coin, s: nat)
    ensures HasCoin(coins + [c], s) <==> s == c.seal || HasCoin(coins, s)
  {
    if HasCoin(coins, s) {
      var i :| 0 <= i < |coins| && coins[i].seal == s;
      assert (coins + [c])[i].seal == s;
    }
    assert (coins + [c])[|coins|] == c;
  }

  // ------------------------------------------------------------------ ranking

  predicate Descending(coins: seq<Coin>) {
    forall i, j :: 0 <= i < j < |coins| ==> coins[i].sum >= coins[j].sum
  }

  /** Insertion into a ranking: after the coins of equal sum, or before them. */
  function Insert(c: Coin, s: seq<Coin>, front: bool): seq<Coin> {
    if s == [] then [c]
    else if s[|s| - 1].sum < c.sum || (front && s[|s| - 1].sum == c.sum)
    then Insert(c, s[..|s| - 1], front) + [s[|s| - 1]]
    else s + [c]
  }

  /** Largest first. A stable descending sort keeps equal sums in the order of
      their outpoints; a stable ascending sort read backwards reverses them. */
  function Ranked(coins: seq<Coin>, reversed: bool): seq<Coin> {
    if coins == [] then [] else Insert(coins[|coins| - 1], Ranked(coins[..|coins| - 1], reversed), reversed)
  }

  lemma {:induction false} InsertSorts(c: Coin, s: seq<Coin>, front: bool)
    requires Descending(s)
    ensures Descending(Insert(c, s, front))
  {
    if s != [] && (s[|s| - 1].sum < c.sum || (front && s[|s| - 1].sum == c.sum)) {
      var t, last := Insert(c, s[..|s| - 1], front), s[|s| - 1];
      InsertSorts(c, s[..|s| - 1], front);
      InsertAbove(c, s[..|s| - 1], front, last.sum);
    }
  }

  lemma InsertAbove(c: Coin, s: seq<Coin>, front: bool, x: u64)
    requires c.sum >= x && forall i :: 0 <= i < |s| ==> s[i].sum >= x
    ensures forall i :: 0 <= i < |Insert(c, s, front)| ==> Insert(c, s, front)[i].sum >= x
  {
  }

  lemma {:induction false} RankedSorts(coins: seq<Coin>, reversed: bool)
    ensures Descending(Ranked(coins, reversed))
  {
    if coins != [] {
      RankedSorts(coins[..|coins| - 1], reversed);
      InsertSorts(coins[|coins| - 1], Ranked(coins[..|coins| - 1], reversed), reversed);
    }
  }

  // -------------------------------------------------------------- sufficiency

  function Worth(coins: seq<Coin>): nat {
    if coins == [] then 0 else Worth(coins[..|coins| - 1]) + coins[|coins| - 1].sum as int
  }

  function Seals(coins: seq<Coin>): set<nat> {
    set i | 0 <= i < |coins| :: coins[i].seal
  }

  /** How many coins of a ranking it takes to cover the amount, or all of them. */
  function Least(coins: seq<Coin>, amount: nat): (n: nat)
    ensures n <= |coins|
  {
    if coins == [] || Worth(coins[..|coins| - 1]) < amount then |coins| else Least(coins[..|coins| - 1], amount)
  }

  lemma {:induction false} WorthGrows(coins: seq<Coin>, i: nat, j: nat)
    requires i <= j <= |coins|
    ensures Worth(coins[..i]) <= Worth(coins[..j])
    ensures i < j ==> Worth(coins[..i + 1]) == Worth(coins[..i]) + coins[i].sum as int
    decreases j
  {
    if i < j {
      assert coins[..j][..j - 1] == coins[..j - 1];
      assert coins[..i + 1][..i] == coins[..i];
      WorthGrows(coins, i, j - 1);
    }
  }

  /** What the least number means. */
  lemma {:induction false} LeastMeans(coins: seq<Coin>, amount: nat)
    ensures var n := Least(coins, amount);
            && (Worth(coins) >= amount <==> Worth(coins[..n]) >= amount)
            && (forall i :: 0 <= i < n ==> Worth(coins[..i]) < amount)
            && (Worth(coins) < amount ==> n == |coins|)
  {
    var n := Least(coins, amount);
    assert coins[..|coins|] == coins;
    if coins == [] {
    } else if Worth(coins[..|coins| - 1]) < amount {
      forall i | 0 <= i < n
        ensures Worth(coins[..i]) < amount
      {
        WorthGrows(coins, i, |coins| - 1);
      }
    } else {
      var rest := coins[..|coins| - 1];
      LeastMeans(rest, amount);
      forall i | 0 <= i <= n
        ensures rest[..i] == coins[..i]
      {
      }
    }
  }

  // ----------------------------------------------------------------- selecting

  /** What the loop has collected after `k` coins, in 64 bits. */
  function Collected(ranked: seq<Coin>, k: nat): u64
    requires k <= |ranked|
  {
    Wrap(Worth(ranked[..k]))
  }

  /** The first number of coins, from `k` on, at which the loop has collected
      the amount. */
  function ReachedFrom(ranked: seq<Coin>, amount: u64, k: nat): Option<nat>
    requires k <= |ranked|
    decreases |ranked| - k
  {
    if Collected(ranked, k) >= amount then Some(k)
    else if k == |ranked| then None
    else ReachedFrom(ranked, amount, k + 1)
  }

  function Reached(ranked: seq<Coin>, amount: u64): Option<nat> {
    ReachedFrom(ranked, amount, 0)
  }

  lemma {:induction false} ReachedFromMeans(ranked: seq<Coin>, amount: u64, k: nat, n: nat)
    requires k <= n <= |ranked| && forall i :: k <= i < n ==> Collected(ranked, i) < amount
    requires n == |ranked| || Collected(ranked, n) >= amount
    ensures ReachedFrom(ranked, amount, k) == if Collected(ranked, n) >= amount then Some(n) else None
    decreases n - k
  {
    if k < n {
      ReachedFromMeans(ranked, amount, k + 1, n);
    }
  }

  /** The first number is the only one at which the amount is reached for the
      first time, and there is none if it is never reached. */
  lemma ReachedMeans(ranked: seq<Coin>, amount: u64, n: nat)
    requires n <= |ranked| && forall i :: 0 <= i < n ==> Collected(ranked, i) < amount
    requires n == |ranked| || Collected(ranked, n) >= amount
    ensures Reached(ranked, amount) == if Collected(ranked, n) >= amount then Some(n) else None
  {
    ReachedFromMeans(ranked, amount, 0, n);
  }

  /** The greedy loop over a ranking. It adds in 64 bits, stops as soon as the sum
      reaches the amount, and otherwise goes through all coins. */
  method Greedy(ranked: seq<Coin>, amount: u64) returns (taken: nat, collected: u64)
    ensures taken <= |ranked| && collected == Wrap(Worth(ranked[..taken]))
    ensures forall i :: 0 <= i < taken ==> Wrap(Worth(ranked[..i])) < amount
    ensures collected >= amount || taken == |ranked|
    ensures Reached(ranked, amount) == if collected >= amount then Some(taken) else None
  {
    taken, collected := 0, 0;
    assert ranked[..0] == [];
    while taken < |ranked| && collected < amount
      invariant taken <= |ranked| && collected == Wrap(Worth(ranked[..taken]))
      invariant forall i :: 0 <= i < taken ==> Wrap(Worth(ranked[..i])) < amount
    {
      WorthGrows(ranked, taken, taken + 1);
      WrapAdd(Worth(ranked[..taken]), ranked[taken].sum);
      collected := Wrap(collected as int + ranked[taken].sum as int);
      taken := taken + 1;
    }
    ReachedMeans(ranked, amount, taken);
  }

  /** The first coins of a ranking, up to the one at which the 64-bit sum reaches the
      amount; nothing if it never does. */
  function Picked(coins: seq<Coin>, amount: u64, reversed: bool): Option<set<nat>> {
    match Reached(Ranked(coins, reversed), amount)
    case Some(k) =>
      ReachedBounded(Ranked(coins, reversed), amount, 0);
      Some(Seals(Ranked(coins, reversed)[..k]))
    case None => None
  }

  /** What the wallet selects from the coins; an error if the amount is never reached. */
  function WalletSelection(coins: seq<Coin>, amount: u64): Option<set<nat>> {
    Picked(coins, amount, false)
  }

  /** What the other two selectors pick: `none` if the amount is never reached. */
  function Selected(coins: seq<Coin>, amount: u64, none: set<nat>): set<nat> {
    match Picked(coins, amount, true)
    case Some(r) => r
    case None => none
  }

  lemma {:induction false} ReachedBounded(ranked: seq<Coin>, amount: u64, k: nat)
    requires k <= |ranked|
    ensures ReachedFrom(ranked, amount, k).Some? ==> k <= ReachedFrom(ranked, amount, k).value <= |ranked|
    decreases |ranked| - k
  {
    if Collected(ranked, k) < amount && k < |ranked| {
      ReachedBounded(ranked, amount, k + 1);
    }
  }

  /** The wallet's selector. */
  method SelectInputs(allocs: seq<Allocation>, amount: u64) returns (r: Option<set<nat>>)
    ensures forall coins :: CoinsOf(allocs, coins) ==> r == WalletSelection(coins, amount)
    ensures forall coins :: CoinsOf(allocs, coins) ==> Picks(coins, amount, false, r)
  {
    var state := Coins(allocs);
    var ranked := Ranked(state, false);
    var taken, collected := Greedy(ranked, amount);
    r := if collected < amount then None else Some(Seals(ranked[..taken]));
    forall coins | CoinsOf(allocs, coins)
      ensures r == WalletSelection(coins, amount) && Picks(coins, amount, false, r)
    {
      CoinsAreUnique(allocs, coins, state);
      PickedMeans(coins, amount, false);
    }
  }

  /** The payer's selector for an invoice: no outpoint at all when the amount is
      not reached. */
  method SelectForInvoice(allocs: seq<Allocation>, amount: u64) returns (r: set<nat>)
    ensures forall coins :: CoinsOf(allocs, coins) ==> r == Selected(coins, amount, {})
    ensures forall coins :: CoinsOf(allocs, coins) ==> PicksOr(coins, amount, {}, r)
  {
    var state := Coins(allocs);
    var ranked := Ranked(state, true);
    var taken, collected := Greedy(ranked, amount);
    r := if collected < amount then {} else Seals(ranked[..taken]);
    forall coins | CoinsOf(allocs, coins)
      ensures r == Selected(coins, amount, {}) && PicksOr(coins, amount, {}, r)
    {
      CoinsAreUnique(allocs, coins, state);
      PickedMeans(coins, amount, true);
    }
  }

  /** The colouring library's selector for one contract: when the amount is not
      reached it takes everything and leaves the error to the caller. */
  method SelectForContract(allocs: seq<Allocation>, amount: u64) returns (r: set<nat>)
    ensures forall coins :: CoinsOf(allocs, coins) ==> r == Selected(coins, amount, Seals(coins))
    ensures forall coins :: CoinsOf(allocs, coins) ==> PicksOr(coins, amount, Seals(coins), r)
  {
    var state := Coins(allocs);
    var ranked := Ranked(state, true);
    RankedDistinct(state, true);
    var taken, _ := Greedy(ranked, amount);
    assert ranked[..|ranked|] == ranked;
    r := Seals(ranked[..taken]);
    forall coins | CoinsOf(allocs, coins)
      ensures r == Selected(coins, amount, Seals(coins)) && PicksOr(coins, amount, Seals(coins), r)
    {
      CoinsAreUnique(allocs, coins, state);
      PickedMeans(coins, amount, true);
    }
  }

  /** The coins of a list of allocations are unique. */
  lemma CoinsAreUnique(allocs: seq<Allocation>, a: seq<Coin>, b: seq<Coin>)
    requires CoinsOf(allocs, a) && CoinsOf(allocs, b)
    ensures a == b
  {
    SameSeals(allocs, a, b);
    SameSeals(allocs, b, a);
    hide CoinsOf, Held, Capped;
    AscendingSame(a, b);
  }

  predicate Within(a: seq<Coin>, b: seq<Coin>) {
    forall i :: 0 <= i < |a| ==> a[i] in b
  }

  /** Every coin of one listing is in the other. */
  lemma SameSeals(allocs: seq<Allocation>, a: seq<Coin>, b: seq<Coin>)
    requires CoinsOf(allocs, a) && CoinsOf(allocs, b)
    ensures Ascending(a) && Ascending(b) && Within(a, b)
  {
    forall i | 0 <= i < |a|
      ensures a[i] in b
    {
      assert HasSeal(allocs, a[i].seal);
      var k :| 0 <= k < |allocs| && allocs[k].seal == a[i].seal;
      assert HasCoin(b, allocs[k].seal);
      var j :| 0 <= j < |b| && b[j].seal == a[i].seal;
      assert b[j] == a[i];
    }
  }

  /** An ascending list is determined by its elements. */
  lemma {:induction false} AscendingSame(a: seq<Coin>, b: seq<Coin>)
    requires Ascending(a) && Ascending(b) && Within(a, b) && Within(b, a)
    ensures a == b
    decreases |a|
  {
    assert |a| > 0 ==> a[0] in b;
    assert |b| > 0 ==> b[0] in a;
    if a != [] {
      var x, y := a[|a| - 1], b[|b| - 1];
      LastIsLargest(a, b);
      LastIsLargest(b, a);
      var a', b' := a[..|a| - 1], b[..|b| - 1];
      DropLast(a, b);
      DropLast(b, a);
      AscendingSame(a', b');
      assert a == a' + [x] && b == b' + [y];
    }
  }

  lemma LastIsLargest(a: seq<Coin>, b: seq<Coin>)
    requires Ascending(a) && Ascending(b) && a != [] && b != [] && Within(a, b)
    ensures a[|a| - 1].seal <= b[|b| - 1].seal
    ensures a[|a| - 1].seal == b[|b| - 1].seal ==> a[|a| - 1] == b[|b| - 1]
  {
    var j :| 0 <= j < |b| && b[j] == a[|a| - 1];
  }

  lemma DropLast(a: seq<Coin>, b: seq<Coin>)
    requires Ascending(a) && a != [] && b != [] && a[|a| - 1] == b[|b| - 1] && Within(a, b)
    ensures Within(a[..|a| - 1], b[..|b| - 1]) && Ascending(a[..|a| - 1])
  {
    var a', b' := a[..|a| - 1], b[..|b| - 1];
    forall i | 0 <= i < |a'|
      ensures a'[i] in b'
    {
      assert a'[i] == a[i] && a[i] in b;
      var j :| 0 <= j < |b| && b[j] == a[i];
      assert a[i].seal < a[|a| - 1].seal;
      assert b'[j] == a[i];
    }
  }

  // ------------------------------------------------------------ what they mean

  predicate Distinct(coins: seq<Coin>) {
    forall i, j :: 0 <= i < j < |coins| ==> coins[i].seal != coins[j].seal
  }

  /** Ranking changes no total: for every choice of outpoints it leaves the worth
      and the number of the chosen coins as they were. */
  lemma {:induction false} InsertSame(c: Coin, s: seq<Coin>, front: bool, chosen: set<nat>)
    ensures var t := Insert(c, s, front);
            && Worth(t) == Worth(s) + c.sum as int
            && HeldBy(t, chosen) == HeldBy(s, chosen) + (if c.seal in chosen then c.sum as int else 0)
            && Chosen(t, chosen) == Chosen(s, chosen) + (if c.seal in chosen then 1 else 0)
  {
    if s == [] {
      Snoc([], c, chosen);
      assert [] + [c] == [c];
    } else {
      InsertSame(c, s[..|s| - 1], front, chosen);
      Snoc(Insert(c, s[..|s| - 1], front), s[|s| - 1], chosen);
      Snoc(s, c, chosen);
    }
  }

  lemma Snoc(coins: seq<Coin>, c: Coin, chosen: set<nat>)
    ensures Worth(coins + [c]) == Worth(coins) + c.sum as int
    ensures HeldBy(coins + [c], chosen) == HeldBy(coins, chosen) + if c.seal in chosen then c.sum as int else 0
    ensures Chosen(coins + [c], chosen) == Chosen(coins, chosen) + if c.seal in chosen then 1 else 0
  {
    assert (coins + [c])[..|coins|] == coins;
  }

  lemma {:induction false} RankedSame(coins: seq<Coin>, reversed: bool, chosen: set<nat>)
    ensures var ranked := Ranked(coins, reversed);
            Worth(ranked) == Worth(coins) && HeldBy(ranked, chosen) == HeldBy(coins, chosen)
            && Chosen(ranked, chosen) == Chosen(coins, chosen)
  {
    if coins != [] {
      RankedSame(coins[..|coins| - 1], reversed, chosen);
      InsertSame(coins[|coins| - 1], Ranked(coins[..|coins| - 1], reversed), reversed, chosen);
    }
  }

  lemma {:induction false} InsertDistinct(c: Coin, s: seq<Coin>, front: bool)
    requires Distinct(s) && c.seal !in Seals(s)
    ensures Distinct(Insert(c, s, front)) && Seals(Insert(c, s, front)) == Seals(s) + {c.seal}
  {
    if s == [] {
      SealsSnoc([], c);
      assert [] + [c] == [c];
    } else {
      var rest, last := s[..|s| - 1], s[|s| - 1];
      assert s == rest + [last];
      SealsSnoc(rest, last);
      SealsSnoc(s, c);
      if last.sum < c.sum || (front && last.sum == c.sum) {
        InsertDistinct(c, rest, front);
        var t := Insert(c, rest, front);
        assert last.seal !in Seals(rest) by {
          forall i | 0 <= i < |rest|
            ensures rest[i].seal != last.seal
          {
            assert s[i].seal != s[|s| - 1].seal;
          }
        }
        SealsSnoc(t, last);
        DistinctSnoc(t, last);
      } else {
        DistinctSnoc(s, c);
      }
    }
  }

  lemma SealsSnoc(s: seq<Coin>, c: Coin)
    ensures Seals(s + [c]) == Seals(s) + {c.seal}
  {
    assert (s + [c])[|s|] == c;
    assert forall i :: 0 <= i < |s| ==> (s + [c])[i] == s[i];
  }

  lemma DistinctSnoc(s: seq<Coin>, c: Coin)
    requires Distinct(s) && c.seal !in Seals(s)
    ensures Distinct(s + [c])
  {
    assert forall i :: 0 <= i < |s| ==> s[i].seal in Seals(s);
  }

  lemma {:induction false} RankedDistinct(coins: seq<Coin>, reversed: bool)
    requires Ascending(coins)
    ensures Distinct(Ranked(coins, reversed)) && Seals(Ranked(coins, reversed)) == Seals(coins)
  {
    if coins != [] {
      var rest, last := coins[..|coins| - 1], coins[|coins| - 1];
      RankedDistinct(rest, reversed);
      assert coins == rest + [last];
      SealsSnoc(rest, last);
      InsertDistinct(last, Ranked(rest, reversed), reversed);
    }
  }

  lemma {:induction false} CountSeals(ranked: seq<Coin>, n: nat)
    requires n <= |ranked| && Distinct(ranked)
    ensures |Seals(ranked[..n])| == n
  {
    if n > 0 {
      CountSeals(ranked, n - 1);
      assert ranked[..n] == ranked[..n - 1] + [ranked[n - 1]];
      assert ranked[n - 1].seal !in Seals(ranked[..n - 1]);
      hide Seals, Distinct;
      SealsSnoc(ranked[..n - 1], ranked[n - 1]);
    }
  }

  /** What the chosen seals hold, among the coins. */
  function HeldBy(coins: seq<Coin>, chosen: set<nat>): nat {
    if coins == [] then 0
    else HeldBy(coins[..|coins| - 1], chosen) + if coins[|coins| - 1].seal in chosen
        then coins[|coins| - 1].sum as int else 0
  }

  /** How many of the coins are chosen. */
  function Chosen(coins: seq<Coin>, chosen: set<nat>): (n: nat)
    ensures n <= |coins|
  {
    if coins == [] then 0
    else Chosen(coins[..|coins| - 1], chosen) + if coins[|coins| - 1].seal in chosen then 1 else 0
  }

  /** No choice of so many coins is worth more than the same number of largest
      ones. */
  lemma {:induction false} LargestAreBest(ranked: seq<Coin>, chosen: set<nat>, n: nat)
    requires Descending(ranked) && n <= |ranked|
    ensures Chosen(ranked[..n], chosen) <= n
    ensures HeldBy(ranked[..n], chosen) <= Worth(ranked[..Chosen(ranked[..n], chosen)])
  {
    if n > 0 {
      LargestAreBest(ranked, chosen, n - 1);
      assert ranked[..n][..n - 1] == ranked[..n - 1];
      var c := Chosen(ranked[..n - 1], chosen);
      WorthGrows(ranked, c, n);
    }
  }

  lemma {:induction false} ChosenCounts(coins: seq<Coin>, chosen: set<nat>)
    requires Ascending(coins) && chosen <= Seals(coins)
    ensures Chosen(coins, chosen) == |chosen|
  {
    if coins != [] {
      var rest, last := coins[..|coins| - 1], coins[|coins| - 1];
      assert coins == rest + [last];
      SealsSnoc(rest, last);
      assert last.seal !in Seals(rest);
      ChosenCounts(rest, chosen - {last.seal});
      ChosenWithout(rest, chosen, last.seal);
    } else {
      assert chosen == {};
    }
  }

  lemma {:induction false} ChosenWithout(coins: seq<Coin>, chosen: set<nat>, seal: nat)
    requires seal !in Seals(coins)
    ensures Chosen(coins, chosen) == Chosen(coins, chosen - {seal})
  {
    if coins != [] {
      var rest, last := coins[..|coins| - 1], coins[|coins| - 1];
      assert coins == rest + [last];
      SealsSnoc(rest, last);
      ChosenWithout(rest, chosen, seal);
    }
  }

  /** Any sufficient choice of outpoints has at least as many as the largest coins
      that cover the amount, whichever way ties are broken. */
  lemma FewestCover(coins: seq<Coin>, reversed: bool, amount: nat, chosen: set<nat>)
    requires Ascending(coins) && chosen <= Seals(coins) && HeldBy(coins, chosen) >= amount
    ensures var ranked := Ranked(coins, reversed);
            |Seals(ranked[..Least(ranked, amount)])| <= |chosen|
  {
    var ranked := Ranked(coins, reversed);
    RankedSorts(coins, reversed);
    RankedSame(coins, reversed, chosen);
    LargestAreBest(ranked, chosen, |ranked|);
    assert ranked[..|ranked|] == ranked;
    LeastMeans(ranked, amount);
    ChosenCounts(coins, chosen);
    RankedDistinct(coins, reversed);
    CountSeals(ranked, Least(ranked, amount));
  }

  // ------------------------------------------------- selections, without a ranking

  /** Which of two coins is taken first: the larger one, and of two equal ones the one
      with the smaller outpoint or, if reversed, with the larger. */
  predicate Before(x: Coin, y: Coin, reversed: bool) {
    x.sum > y.sum || (x.sum == y.sum && if reversed then x.seal > y.seal else x.seal < y.seal)
  }

  /** The chosen outpoints come before all others. */
  ghost predicate Leading(coins: seq<Coin>, chosen: set<nat>, reversed: bool) {
    && chosen <= Seals(coins)
    && forall x, y :: x in coins && y in coins && x.seal in chosen && y.seal !in chosen ==> Before(x, y, reversed)
  }

  /** What a selector may return: outpoints that come before all others and whose
      64-bit sum reaches the amount, and no fewer such outpoints would do; nothing if
      there are none. */
  ghost predicate Picks(coins: seq<Coin>, amount: u64, reversed: bool, r: Option<set<nat>>) {
    && (r.Some? ==> Leading(coins, r.value, reversed) && Wrap(HeldBy(coins, r.value)) >= amount)
    && forall chosen :: Leading(coins, chosen, reversed) && (r.Some? ==> |chosen| < |r.value|) ==>
         Wrap(HeldBy(coins, chosen)) < amount
  }

  /** The same with `none` for nothing. */
  ghost predicate PicksOr(coins: seq<Coin>, amount: u64, none: set<nat>, r: set<nat>) {
    Picks(coins, amount, true, Some(r)) || (r == none && Picks(coins, amount, true, None))
  }

  ghost predicate Ordered(s: seq<Coin>, reversed: bool) {
    forall i, j :: 0 <= i < j < |s| ==> Before(s[i], s[j], reversed)
  }

  lemma {:induction false} InsertElements(c: Coin, s: seq<Coin>, front: bool)
    ensures multiset(Insert(c, s, front)) == multiset(s) + multiset{c}
  {
    if s != [] && (s[|s| - 1].sum < c.sum || (front && s[|s| - 1].sum == c.sum)) {
      InsertElements(c, s[..|s| - 1], front);
      assert s == s[..|s| - 1] + [s[|s| - 1]];
    }
  }

  lemma {:induction false} RankedElements(coins: seq<Coin>, reversed: bool)
    ensures multiset(Ranked(coins, reversed)) == multiset(coins)
  {
    if coins != [] {
      RankedElements(coins[..|coins| - 1], reversed);
      InsertElements(coins[|coins| - 1], Ranked(coins[..|coins| - 1], reversed), reversed);
      assert coins == coins[..|coins| - 1] + [coins[|coins| - 1]];
    }
  }

  lemma {:induction false} InsertOrders(c: Coin, s: seq<Coin>, front: bool)
    requires Ordered(s, front) && forall x :: x in s ==> x.seal < c.seal
    ensures Ordered(Insert(c, s, front), front)
  {
    if s != [] && (s[|s| - 1].sum < c.sum || (front && s[|s| - 1].sum == c.sum)) {
      var rest, last := s[..|s| - 1], s[|s| - 1];
      InsertOrders(c, rest, front);
      InsertElements(c, rest, front);
      var t := Insert(c, rest, front);
      forall i | 0 <= i < |t|
        ensures Before(t[i], last, front)
      {
        assert t[i] in multiset(t);
        assert t[i] in rest || t[i] == c;
      }
    }
  }

  lemma {:induction false} RankedOrders(coins: seq<Coin>, reversed: bool)
    requires Ascending(coins)
    ensures Ordered(Ranked(coins, reversed), reversed)
  {
    if coins != [] {
      var rest, last := coins[..|coins| - 1], coins[|coins| - 1];
      RankedOrders(rest, reversed);
      RankedElements(rest, reversed);
      forall x | x in Ranked(rest, reversed)
        ensures x.seal < last.seal
      {
        assert x in multiset(Ranked(rest, reversed));
        assert x in rest;
      }
      InsertOrders(last, Ranked(rest, reversed), reversed);
    }
  }

  /** Choices that come before all others are the same for a list and its ranking. */
  lemma LeadingRanked(coins: seq<Coin>, chosen: set<nat>, reversed: bool)
    requires Ascending(coins)
    ensures Leading(coins, chosen, reversed) <==> Leading(Ranked(coins, reversed), chosen, reversed)
  {
    var ranked := Ranked(coins, reversed);
    RankedDistinct(coins, reversed);
    RankedElements(coins, reversed);
    forall x
      ensures x in coins <==> x in ranked
    {
      assert x in coins <==> x in multiset(coins);
      assert x in ranked <==> x in multiset(ranked);
    }
  }

  /** In a ranking, what comes before all others is the beginning. */
  lemma {:induction false} LeadingIsPrefix(ranked: seq<Coin>, chosen: set<nat>, reversed: bool, n: nat)
    requires Ordered(ranked, reversed) && Distinct(ranked) && Leading(ranked, chosen, reversed) && n <= |ranked|
    requires forall i :: n <= i < |ranked| ==> ranked[i].seal !in chosen
    ensures |chosen| <= n && chosen == Seals(ranked[..|chosen|])
  {
    if n > 0 && ranked[n - 1].seal !in chosen {
      LeadingIsPrefix(ranked, chosen, reversed, n - 1);
    } else {
      assert chosen == Seals(ranked[..n]) by {
        forall i | 0 <= i < n
          ensures ranked[i].seal in chosen
        {
          assert i < n - 1 ==> Before(ranked[i], ranked[n - 1], reversed);
        }
        forall s | s in chosen
          ensures s in Seals(ranked[..n])
        {
          var i :| 0 <= i < |ranked| && ranked[i].seal == s;
          assert ranked[..n][i] == ranked[i];
        }
        forall s | s in Seals(ranked[..n])
          ensures s in chosen
        {
          var i :| 0 <= i < n && ranked[..n][i].seal == s;
        }
      }
      CountSeals(ranked, n);
    }
  }

  lemma {:induction false} PrefixIsLeading(ranked: seq<Coin>, reversed: bool, n: nat)
    requires Ordered(ranked, reversed) && Distinct(ranked) && n <= |ranked|
    ensures Leading(ranked, Seals(ranked[..n]), reversed)
  {
    var chosen := Seals(ranked[..n]);
    forall x, y | x in ranked && y in ranked && x.seal in chosen && y.seal !in chosen
      ensures Before(x, y, reversed)
    {
      var i :| 0 <= i < n && ranked[..n][i].seal == x.seal;
      var j :| 0 <= j < |ranked| && ranked[j] == y;
      assert ranked[i] == x by {
        var k :| 0 <= k < |ranked| && ranked[k] == x;
      }
      assert j >= n;
    }
    assert forall i :: 0 <= i < n ==> ranked[..n][i] == ranked[i];
  }

  /** What the first coins of a ranking hold, among all coins. */
  lemma PrefixHeld(coins: seq<Coin>, reversed: bool, n: nat)
    requires Ascending(coins) && n <= |Ranked(coins, reversed)|
    ensures HeldBy(coins, Seals(Ranked(coins, reversed)[..n])) == Worth(Ranked(coins, reversed)[..n])
  {
    var ranked := Ranked(coins, reversed);
    RankedSame(coins, reversed, Seals(ranked[..n]));
    RankedDistinct(coins, reversed);
    PrefixHolds(ranked, n, |ranked|);
    assert ranked[..|ranked|] == ranked;
  }

  lemma {:induction false} ReachedIsFirst(ranked: seq<Coin>, amount: u64, k: nat)
    requires k <= |ranked|
    ensures var r := ReachedFrom(ranked, amount, k);
            && (r.Some? ==> k <= r.value <= |ranked| && Collected(ranked, r.value) >= amount)
            && forall i :: k <= i <= |ranked| && (r.Some? ==> i < r.value) ==> Collected(ranked, i) < amount
    decreases |ranked| - k
  {
    if Collected(ranked, k) < amount && k < |ranked| {
      ReachedIsFirst(ranked, amount, k + 1);
    }
  }

  /** A leading choice is the beginning of the ranking. */
  lemma {:induction false} LeadingHolds(coins: seq<Coin>, chosen: set<nat>, reversed: bool)
    requires Ascending(coins) && Leading(coins, chosen, reversed)
    ensures |chosen| <= |Ranked(coins, reversed)| && chosen == Seals(Ranked(coins, reversed)[..|chosen|])
    ensures HeldBy(coins, chosen) == Worth(Ranked(coins, reversed)[..|chosen|])
  {
    var ranked := Ranked(coins, reversed);
    RankedOrders(coins, reversed);
    RankedDistinct(coins, reversed);
    LeadingRanked(coins, chosen, reversed);
    LeadingIsPrefix(ranked, chosen, reversed, |ranked|);
    PrefixHeld(coins, reversed, |chosen|);
  }

  /** What the selectors return, said without the ranking. */
  lemma {:induction false} PickedMeans(coins: seq<Coin>, amount: u64, reversed: bool)
    requires Ascending(coins)
    ensures Picks(coins, amount, reversed, Picked(coins, amount, reversed))
  {
    var ranked, r := Ranked(coins, reversed), Picked(coins, amount, reversed);
    ReachedIsFirst(ranked, amount, 0);
    RankedOrders(coins, reversed);
    RankedDistinct(coins, reversed);
    hide Ranked, Distinct, Leading, HeldBy, Worth, ReachedFrom;
    if r.Some? {
      var k := Reached(ranked, amount).value;
      PrefixIsLeading(ranked, reversed, k);
      LeadingRanked(coins, r.value, reversed);
      PrefixHeld(coins, reversed, k);
      CountSeals(ranked, k);
    }
    forall chosen | Leading(coins, chosen, reversed) && (r.Some? ==> |chosen| < |r.value|)
      ensures Wrap(HeldBy(coins, chosen)) < amount
    {
      LeadingHolds(coins, chosen, reversed);
      assert Collected(ranked, |chosen|) < amount;
    }
  }

  /** And nothing else may be returned. */
  lemma {:induction false} PicksDecide(coins: seq<Coin>, amount: u64, reversed: bool, r: Option<set<nat>>)
    requires Ascending(coins) && Picks(coins, amount, reversed, r)
    ensures r == Picked(coins, amount, reversed)
  {
    var s := Picked(coins, amount, reversed);
    PickedMeans(coins, amount, reversed);
    hide Leading, HeldBy, Picked;
    if r.Some? {
      LeadingHolds(coins, r.value, reversed);
    }
    if s.Some? {
      LeadingHolds(coins, s.value, reversed);
    }
  }

  /** Whatever is selected holds the amount. */
  lemma {:induction false} PickedSuffices(coins: seq<Coin>, amount: u64, reversed: bool)
    requires Ascending(coins) && Picked(coins, amount, reversed).Some?
    ensures var r := Picked(coins, amount, reversed).value; r <= Seals(coins) && HeldBy(coins, r) >= amount
  {
    PickedMeans(coins, amount, reversed);
  }

  // --------------------------------------------------------- total of the funds

  function Total(allocs: seq<Allocation>): nat {
    if allocs == [] then 0 else Total(allocs[..|allocs| - 1]) + allocs[|allocs| - 1].amount as int
  }

  /** What the seals of the coins hold, not capped. */
  function HeldAt(allocs: seq<Allocation>, coins: seq<Coin>): nat {
    if coins == [] then 0 else HeldAt(allocs, coins[..|coins| - 1]) + Held(allocs, coins[|coins| - 1].seal)
  }

  lemma {:induction false} HeldAtSnoc(allocs: seq<Allocation>, a: Allocation, coins: seq<Coin>)
    requires Ascending(coins)
    ensures HeldAt(allocs + [a], coins) == HeldAt(allocs, coins) + if a.seal in Seals(coins) then a.amount as int else 0
  {
    if coins != [] {
      var rest, last := coins[..|coins| - 1], coins[|coins| - 1];
      assert coins == rest + [last];
      SealsSnoc(rest, last);
      assert last.seal !in Seals(rest);
      HeldAtSnoc(allocs, a, rest);
      HeldSnoc(allocs, a, last.seal);
    }
  }

  lemma NothingHeld(coins: seq<Coin>)
    ensures HeldAt([], coins) == 0
  {
  }

  lemma {:induction false} SealsHoldAll(allocs: seq<Allocation>, coins: seq<Coin>)
    requires Ascending(coins) && forall i :: 0 <= i < |allocs| ==> allocs[i].seal in Seals(coins)
    ensures HeldAt(allocs, coins) == Total(allocs)
  {
    if allocs == [] {
      NothingHeld(coins);
    } else {
      SealsHoldAll(allocs[..|allocs| - 1], coins);
      assert allocs == allocs[..|allocs| - 1] + [allocs[|allocs| - 1]];
      HeldAtSnoc(allocs[..|allocs| - 1], allocs[|allocs| - 1], coins);
    }
  }

  /** The coins are worth all allocations together, unless one outpoint alone
      holds more than 64 bits. */
  lemma CoinsAreWorthAll(allocs: seq<Allocation>, coins: seq<Coin>)
    requires CoinsOf(allocs, coins)
    ensures Worth(coins) <= Total(allocs)
    ensures (forall i :: 0 <= i < |coins| ==> Held(allocs, coins[i].seal) < U64_LIMIT) ==> Worth(coins) == Total(allocs)
  {
    assert forall i :: 0 <= i < |allocs| ==> allocs[i].seal in Seals(coins) by {
      forall i | 0 <= i < |allocs|
        ensures allocs[i].seal in Seals(coins)
      {
        assert HasCoin(coins, allocs[i].seal);
      }
    }
    SealsHoldAll(allocs, coins);
    CappedWorth(allocs, coins, |coins|);
    assert coins[..|coins|] == coins;
  }

  lemma {:induction false} CappedWorth(allocs: seq<Allocation>, coins: seq<Coin>, n: nat)
    requires n <= |coins| && forall i :: 0 <= i < |coins| ==> coins[i].sum == Capped(Held(allocs, coins[i].seal))
    ensures Worth(coins[..n]) <= HeldAt(allocs, coins[..n])
    ensures (forall i :: 0 <= i < |coins| ==> Held(allocs, coins[i].seal) < U64_LIMIT) ==>
              Worth(coins[..n]) == HeldAt(allocs, coins[..n])
  {
    if n > 0 {
      CappedWorth(allocs, coins, n - 1);
      assert coins[..n][..n - 1] == coins[..n - 1];
    }
  }

  function Sums(coins: seq<Coin>): (s: seq<u64>)
    ensures |s| == |coins| && forall i :: 0 <= i < |s| ==> s[i] == coins[i].sum
  {
    seq(|coins|, i requires 0 <= i < |coins| => coins[i].sum)
  }

  /** In front of its equals or behind them, a coin leaves the same sums. */
  lemma {:induction false} InsertSums(c: Coin, s: seq<Coin>, t: seq<Coin>)
    requires Sums(s) == Sums(t) && Descending(s) && Descending(t)
    ensures Sums(Insert(c, s, false)) == Sums(Insert(c, t, true))
  {
    assert |s| == |Sums(s)| == |t|;
    if s != [] {
      var x, y := s[|s| - 1], t[|t| - 1];
      assert x.sum == Sums(s)[|s| - 1] == Sums(t)[|t| - 1] == y.sum;
      assert Sums(s[..|s| - 1]) == Sums(s)[..|s| - 1] == Sums(t[..|t| - 1]);
      if x.sum < c.sum {
        InsertSums(c, s[..|s| - 1], t[..|t| - 1]);
        SumsSnoc(Insert(c, s[..|s| - 1], false), x);
        SumsSnoc(Insert(c, t[..|t| - 1], true), y);
      } else {
        SumsSnoc(s, c);
        InsertLast(c, t);
      }
    }
  }

  lemma {:induction false} InsertLast(c: Coin, t: seq<Coin>)
    requires Descending(t) && (t != [] ==> t[|t| - 1].sum >= c.sum)
    ensures Sums(Insert(c, t, true)) == Sums(t) + [c.sum]
  {
    if t != [] {
      var rest, last := t[..|t| - 1], t[|t| - 1];
      assert t == rest + [last];
      assert Descending(rest) && (rest != [] ==> rest[|rest| - 1].sum >= last.sum);
      hide *;
      InsertSnoc(c, rest, last);
      InsertLast(c, rest);
      SumsSnoc(rest, last);
      SumsSnoc(Insert(c, rest, true), last);
      SumsSnoc(t, c);
    }
  }

  lemma InsertSnoc(c: Coin, rest: seq<Coin>, last: Coin)
    ensures Insert(c, rest + [last], true) ==
            if last.sum <= c.sum then Insert(c, rest, true) + [last] else rest + [last] + [c]
  {
    assert (rest + [last])[..|rest|] == rest;
  }

  lemma SumsSnoc(s: seq<Coin>, c: Coin)
    ensures Sums(s + [c]) == Sums(s) + [c.sum]
  {
  }

  lemma {:induction false} RankingsAgree(coins: seq<Coin>)
    ensures Sums(Ranked(coins, false)) == Sums(Ranked(coins, true))
  {
    if coins != [] {
      var rest := coins[..|coins| - 1];
      RankingsAgree(rest);
      RankedSorts(rest, false);
      RankedSorts(rest, true);
      InsertSums(coins[|coins| - 1], Ranked(rest, false), Ranked(rest, true));
    }
  }

  lemma {:induction false} WorthOfSums(a: seq<Coin>, b: seq<Coin>, n: nat)
    requires Sums(a) == Sums(b) && n <= |a|
    ensures Worth(a[..n]) == Worth(b[..n])
  {
    assert |a| == |Sums(a)| == |b|;
    if n > 0 {
      WorthOfSums(a, b, n - 1);
      WorthGrows(a, n - 1, n);
      WorthGrows(b, n - 1, n);
      assert a[n - 1].sum == Sums(a)[n - 1] == Sums(b)[n - 1] == b[n - 1].sum;
    }
  }

  /** The sums of the chosen coins. */
  function SumsOf(coins: seq<Coin>, chosen: set<nat>): multiset<u64> {
    if coins == [] then multiset{}
    else
      var last := coins[|coins| - 1];
      SumsOf(coins[..|coins| - 1], chosen) + if last.seal in chosen then multiset{last.sum} else multiset{}
  }

  lemma SumsOfSnoc(coins: seq<Coin>, c: Coin, chosen: set<nat>)
    ensures SumsOf(coins + [c], chosen) ==
            SumsOf(coins, chosen) + if c.seal in chosen then multiset{c.sum} else multiset{}
  {
    assert (coins + [c])[..|coins|] == coins;
  }

  lemma SumsOfOther(coins: seq<Coin>, c: Coin, chosen: set<nat>)
    requires c.seal !in chosen
    ensures SumsOf(coins + [c], chosen) == SumsOf(coins, chosen)
  {
    SumsOfSnoc(coins, c, chosen);
    hide SumsOf;
  }

  lemma {:induction false} InsertSumsOf(c: Coin, s: seq<Coin>, front: bool, chosen: set<nat>)
    ensures SumsOf(Insert(c, s, front), chosen) ==
            SumsOf(s, chosen) + if c.seal in chosen then multiset{c.sum} else multiset{}
  {
    if s == [] {
      SumsOfSnoc([], c, chosen);
      assert [] + [c] == [c];
    } else {
      InsertSumsOf(c, s[..|s| - 1], front, chosen);
      SumsOfSnoc(Insert(c, s[..|s| - 1], front), s[|s| - 1], chosen);
      SumsOfSnoc(s, c, chosen);
    }
  }

  lemma {:induction false} RankedSumsOf(coins: seq<Coin>, reversed: bool, chosen: set<nat>)
    ensures SumsOf(Ranked(coins, reversed), chosen) == SumsOf(coins, chosen)
  {
    if coins != [] {
      RankedSumsOf(coins[..|coins| - 1], reversed, chosen);
      InsertSumsOf(coins[|coins| - 1], Ranked(coins[..|coins| - 1], reversed), reversed, chosen);
    }
  }

  lemma SealAmong(ranked: seq<Coin>, n: nat, k: nat)
    requires Distinct(ranked) && n <= |ranked| && k < |ranked|
    ensures ranked[k].seal in Seals(ranked[..n]) <==> k < n
  {
    if k < n {
      assert ranked[..n][k] == ranked[k];
    }
  }

  /** All sums of a list of coins. */
  function AllSums(coins: seq<Coin>): multiset<u64> {
    if coins == [] then multiset{} else AllSums(coins[..|coins| - 1]) + multiset{coins[|coins| - 1].sum}
  }

  /** The coins that are chosen count with their sums, */
  lemma {:induction false} PrefixSums(ranked: seq<Coin>, n: nat, m: nat)
    requires Distinct(ranked) && m <= n <= |ranked|
    ensures SumsOf(ranked[..m], Seals(ranked[..n])) == AllSums(ranked[..m])
  {
    if m > 0 {
      PrefixSums(ranked, n, m - 1);
      SealAmong(ranked, n, m - 1);
      assert ranked[..m][..m - 1] == ranked[..m - 1];
    }
  }

  /** the others not. */
  lemma {:induction false} OthersDoNotCount(s: seq<Coin>, t: seq<Coin>, chosen: set<nat>)
    requires forall i :: 0 <= i < |t| ==> t[i].seal !in chosen
    ensures SumsOf(s + t, chosen) == SumsOf(s, chosen)
  {
    if t == [] {
      assert s + t == s;
    } else {
      var rest, last := t[..|t| - 1], t[|t| - 1];
      assert s + t == (s + rest) + [last];
      OthersDoNotCount(s, rest, chosen);
      SumsOfOther(s + rest, last, chosen);
    }
  }

  lemma {:induction false} PickedSums(coins: seq<Coin>, reversed: bool, n: nat)
    requires Ascending(coins) && n <= |Ranked(coins, reversed)|
    ensures SumsOf(coins, Seals(Ranked(coins, reversed)[..n])) == AllSums(Ranked(coins, reversed)[..n])
  {
    var ranked := Ranked(coins, reversed);
    RankedDistinct(coins, reversed);
    RankedSumsOf(coins, reversed, Seals(ranked[..n]));
    assert ranked == ranked[..n] + ranked[n..];
    forall i | 0 <= i < |ranked[n..]|
      ensures ranked[n..][i].seal !in Seals(ranked[..n])
    {
      SealAmong(ranked, n, n + i);
    }
    hide SumsOf, AllSums, Ranked, Seals;
    PrefixSums(ranked, n, n);
    OthersDoNotCount(ranked[..n], ranked[n..], Seals(ranked[..n]));
  }

  lemma {:induction false} SameAllSums(a: seq<Coin>, b: seq<Coin>, n: nat)
    requires Sums(a) == Sums(b) && n <= |a| == |b|
    ensures AllSums(a[..n]) == AllSums(b[..n])
  {
    if n > 0 {
      SameAllSums(a, b, n - 1);
      hide Sums;
      assert a[..n][..n - 1] == a[..n - 1] && b[..n][..n - 1] == b[..n - 1];
      assert a[n - 1].sum == Sums(a)[n - 1] == Sums(b)[n - 1] == b[n - 1].sum;
    }
  }

  /** The three selectors differ only in how they break ties: on the same coins they
      succeed together, with as many outpoints, that hold the very same sums. */
  lemma {:induction false} SelectorsAgree(coins: seq<Coin>, amount: u64, none: set<nat>)
    requires Ascending(coins)
    ensures var r, s := WalletSelection(coins, amount), Selected(coins, amount, none);
            if r.None? then s == none
            else |r.value| == |s| && SumsOf(coins, r.value) == SumsOf(coins, s)
  {
    var a, b := Ranked(coins, false), Ranked(coins, true);
    SelectorsStopTogether(coins, amount);
    RankingsAgree(coins);
    RankedDistinct(coins, false);
    RankedDistinct(coins, true);
    ReachedBounded(a, amount, 0);
    ReachedBounded(b, amount, 0);
    hide Ranked, Distinct, SumsOf, AllSums;
    if Reached(a, amount).Some? {
      var k := Reached(a, amount).value;
      CountSeals(a, k);
      CountSeals(b, k);
      PickedSums(coins, false, k);
      PickedSums(coins, true, k);
      assert |a| == |Sums(a)| == |b|;
      SameAllSums(a, b, k);
    }
  }

  /** The same with the sums in 64 bits: the selectors stop at the same number. */
  lemma {:induction false} ReachedOfSums(a: seq<Coin>, b: seq<Coin>, amount: u64, k: nat)
    requires Sums(a) == Sums(b) && k <= |a| == |b|
    ensures ReachedFrom(a, amount, k) == ReachedFrom(b, amount, k)
    decreases |a| - k
  {
    WorthOfSums(a, b, k);
    if k < |a| {
      ReachedOfSums(a, b, amount, k + 1);
    }
  }

  lemma SelectorsStopTogether(coins: seq<Coin>, amount: u64)
    ensures Reached(Ranked(coins, false), amount) == Reached(Ranked(coins, true), amount)
  {
    var a, b := Ranked(coins, false), Ranked(coins, true);
    RankingsAgree(coins);
    assert |a| == |Sums(a)| == |b|;
    ReachedOfSums(a, b, amount, 0);
  }

  /** When the selection is the right one. Without enough funds there is none; with
      enough it takes the least sufficient number of coins if and only if the sum
      that covers the amount fits into 64 bits. Otherwise it takes more, or none. */
  lemma {:induction false} ReachedExactly(ranked: seq<Coin>, amount: u64)
    ensures var n := Least(ranked, amount);
            if Worth(ranked) < amount then Reached(ranked, amount) == None
            else
              && (Reached(ranked, amount) == Some(n) <==> Worth(ranked[..n]) < U64_LIMIT)
              && (Reached(ranked, amount).Some? ==> n <= Reached(ranked, amount).value)
  {
    var n := Least(ranked, amount);
    LeastMeans(ranked, amount);
    assert ranked[..|ranked|] == ranked;
    hide Least, Worth;
    forall i | 0 <= i < n
      ensures Collected(ranked, i) < amount
    {
      assert Worth(ranked[..i]) < amount;
    }
    if Worth(ranked[..n]) < U64_LIMIT {
      ReachedMeans(ranked, amount, n);
    } else {
      ReachedLater(ranked, amount, n);
    }
  }

  lemma {:induction false} ReachedLater(ranked: seq<Coin>, amount: u64, n: nat)
    requires 0 < n <= |ranked| && forall i :: 0 <= i < n ==> Collected(ranked, i) < amount
    requires Worth(ranked[..n - 1]) < amount && Worth(ranked[..n]) >= U64_LIMIT
    ensures Reached(ranked, amount) != Some(n)
    ensures Reached(ranked, amount).Some? ==> n < Reached(ranked, amount).value
  {
    WorthGrows(ranked, n - 1, n);
    assert Collected(ranked, n) == Worth(ranked[..n]) - U64_LIMIT < amount;
    ReachedSkips(ranked, amount, 0, n);
    if n < |ranked| {
      ReachedBounded(ranked, amount, n + 1);
    }
  }

  /** Numbers at which the amount is not reached are passed over. */
  lemma {:induction false} ReachedSkips(ranked: seq<Coin>, amount: u64, k: nat, n: nat)
    requires k <= n <= |ranked| && forall i :: k <= i <= n ==> Collected(ranked, i) < amount
    ensures ReachedFrom(ranked, amount, k) == if n == |ranked| then None else ReachedFrom(ranked, amount, n + 1)
    decreases n - k
  {
    if k < n {
      ReachedSkips(ranked, amount, k + 1, n);
    }
  }

  /** The selection exists and suffices, and no sufficient choice has fewer outpoints. */
  ghost predicate Fewest(coins: seq<Coin>, amount: u64, r: Option<set<nat>>) {
    && r.Some? && r.value <= Seals(coins) && HeldBy(coins, r.value) >= amount
    && forall chosen :: chosen <= Seals(coins) && HeldBy(coins, chosen) >= amount ==> |r.value| <= |chosen|
  }

  /** The first coins of a ranking hold what they are worth. */
  lemma {:induction false} PrefixHolds(ranked: seq<Coin>, n: nat, m: nat)
    requires Distinct(ranked) && n <= |ranked| && m <= |ranked|
    ensures HeldBy(ranked[..m], Seals(ranked[..n])) == Worth(ranked[..if m < n then m else n])
  {
    if m > 0 {
      PrefixHolds(ranked, n, m - 1);
      assert ranked[..m][..m - 1] == ranked[..m - 1];
      WorthGrows(ranked, m - 1, m);
      assert ranked[m - 1].seal in Seals(ranked[..n]) <==> m - 1 < n by {
        if m - 1 < n {
          assert ranked[..n][m - 1] == ranked[m - 1];
        }
      }
    }
  }

  /** However ties are broken, the selection suffices with the fewest outpoints if and
      only if the sum that covers the amount fits into 64 bits. */
  lemma {:induction false} FewestOutpoints(coins: seq<Coin>, amount: u64, reversed: bool)
    requires Ascending(coins) && Worth(coins) >= amount
    ensures var ranked := Ranked(coins, reversed);
            Fewest(coins, amount, Picked(coins, amount, reversed)) <==>
            Worth(ranked[..Least(ranked, amount)]) < U64_LIMIT
  {
    var ranked := Ranked(coins, reversed);
    RankedSame(coins, reversed, {});
    ReachedExactly(ranked, amount);
    hide Fewest, Worth, Reached, HeldBy;
    if Worth(ranked[..Least(ranked, amount)]) < U64_LIMIT {
      FittingIsFewest(coins, amount, reversed);
    } else {
      OthersAreMore(coins, amount, reversed);
    }
  }

  /** The same condition decides for all three selectors. */
  lemma {:induction false} AllSelectorsFewest(coins: seq<Coin>, amount: u64, none: set<nat>)
    requires Ascending(coins) && Worth(coins) >= amount
    ensures Fewest(coins, amount, WalletSelection(coins, amount)) ==>
            Fewest(coins, amount, Some(Selected(coins, amount, none)))
    ensures Fewest(coins, amount, Picked(coins, amount, true)) ==> Fewest(coins, amount, WalletSelection(coins, amount))
  {
    var a, b := Ranked(coins, false), Ranked(coins, true);
    FewestOutpoints(coins, amount, false);
    FewestOutpoints(coins, amount, true);
    RankingsAgree(coins);
    LeastOfSums(a, b, amount);
    hide Fewest, Ranked, Least, Worth;
  }

  lemma {:induction false} LeastOfSums(a: seq<Coin>, b: seq<Coin>, amount: nat)
    requires Sums(a) == Sums(b)
    ensures Least(a, amount) == Least(b, amount) && Worth(a[..Least(a, amount)]) == Worth(b[..Least(b, amount)])
  {
    assert |a| == |Sums(a)| == |b|;
    LeastMeans(a, amount);
    LeastMeans(b, amount);
    WorthOfSums(a, b, Least(a, amount));
    WorthOfSums(a, b, Least(b, amount));
    WorthOfSums(a, b, |a|);
    assert a[..|a|] == a && b[..|b|] == b;
  }

  lemma {:induction false} FittingIsFewest(coins: seq<Coin>, amount: u64, reversed: bool)
    requires Ascending(coins)
    requires Reached(Ranked(coins, reversed), amount) == Some(Least(Ranked(coins, reversed), amount))
    ensures Fewest(coins, amount, Picked(coins, amount, reversed))
  {
    var ranked := Ranked(coins, reversed);
    var n := Least(ranked, amount);
    assert Picked(coins, amount, reversed) == Some(Seals(ranked[..n]));
    PickedSuffices(coins, amount, reversed);
    hide Reached, Least, Seals, HeldBy, Ranked;
    forall chosen | chosen <= Seals(coins) && HeldBy(coins, chosen) >= amount
      ensures |Seals(ranked[..n])| <= |chosen|
    {
      FewestCover(coins, reversed, amount, chosen);
    }
  }

  lemma {:induction false} OthersAreMore(coins: seq<Coin>, amount: u64, reversed: bool)
    requires Ascending(coins) && Worth(coins) >= amount
    requires var k := Reached(Ranked(coins, reversed), amount);
             k != Some(Least(Ranked(coins, reversed), amount)) &&
             (k.Some? ==> Least(Ranked(coins, reversed), amount) <= k.value)
    ensures !Fewest(coins, amount, Picked(coins, amount, reversed))
  {
    var ranked := Ranked(coins, reversed);
    var n, k := Least(ranked, amount), Reached(ranked, amount);
    ReachedBounded(ranked, amount, 0);
    if k.Some? {
      assert Picked(coins, amount, reversed) == Some(Seals(ranked[..k.value]));
      RankedDistinct(coins, reversed);
      LeastSuffices(coins, amount, reversed);
      hide Reached, Least, Seals, HeldBy, Ranked, Worth, Distinct;
      CountSeals(ranked, n);
      CountSeals(ranked, k.value);
    }
  }

  /** The largest coins that cover the amount are a sufficient choice. */
  lemma {:induction false} LeastSuffices(coins: seq<Coin>, amount: nat, reversed: bool)
    requires Ascending(coins) && Worth(coins) >= amount
    ensures var ranked := Ranked(coins, reversed);
            var chosen := Seals(ranked[..Least(ranked, amount)]);
            chosen <= Seals(coins) && HeldBy(coins, chosen) >= amount
  {
    var ranked := Ranked(coins, reversed);
    var n := Least(ranked, amount);
    RankedSame(coins, reversed, {});
    RankedDistinct(coins, reversed);
    LeastMeans(ranked, amount);
    PrefixHeld(coins, reversed, n);
    assert forall i :: 0 <= i < n ==> ranked[..n][i] == ranked[i];
  }

  /** At no number of coins the 64-bit sum is at least the amount. */
  ghost predicate FallsShort(ranked: seq<Coin>, amount: u64) {
    forall k: nat :: k <= |ranked| ==> Collected(ranked, k) < amount
  }

  /** The wallet reports an error if and only if the 64-bit sum always falls short. */
  lemma {:induction false} RefusedExactly(coins: seq<Coin>, amount: u64)
    ensures WalletSelection(coins, amount) == None <==> FallsShort(Ranked(coins, false), amount)
  {
    var ranked := Ranked(coins, false);
    if Reached(ranked, amount).None? {
      NeverReached(ranked, amount, 0);
    } else {
      IsReached(ranked, amount, 0);
      assert !FallsShort(ranked, amount);
    }
  }

  lemma {:induction false} NeverReached(ranked: seq<Coin>, amount: u64, k: nat)
    requires k <= |ranked| && ReachedFrom(ranked, amount, k) == None
    ensures forall i :: k <= i <= |ranked| ==> Collected(ranked, i) < amount
    decreases |ranked| - k
  {
    if k < |ranked| {
      NeverReached(ranked, amount, k + 1);
    }
  }

  lemma {:induction false} IsReached(ranked: seq<Coin>, amount: u64, k: nat)
    requires k <= |ranked| && ReachedFrom(ranked, amount, k).Some?
    ensures var n := ReachedFrom(ranked, amount, k).value; k <= n <= |ranked| && Collected(ranked, n) >= amount
    decreases |ranked| - k
  {
    if Collected(ranked, k) < amount {
      IsReached(ranked, amount, k + 1);
    }
  }

  /** It does happen: two allocations on two outpoints that hold enough between
      them, and a wallet that selects nothing. */
  lemma {:induction false} SufficientFundsCanBeRefused()
      returns (allocs: seq<Allocation>, coins: seq<Coin>, amount: u64)
    ensures allocs == [Allocation(0, U64_LIMIT / 2), Allocation(1, U64_LIMIT / 2)] && amount == U64_LIMIT / 2 + 1
    ensures CoinsOf(allocs, coins) && Total(allocs) >= amount
    ensures WalletSelection(coins, amount) == None
  {
    var half: u64 := U64_LIMIT / 2;
    var x, y := Coin(0, half), Coin(1, half);
    var a, b := Allocation(0, half), Allocation(1, half);
    allocs, coins, amount := [a] + [b], [x] + [y], half as int + 1;
    TwoCoins(a, b, x, y);
    var ranked := Ranked(coins, false);
    assert Ranked([x], false) == [x] by { assert [x][..0] == []; }
    assert coins[..1] == [x];
    assert ranked == [x] + [y];
    assert ranked[..0] == [] && ranked[..1] == [x] && ranked[..2] == ranked;
    Snoc([], x, {});
    Snoc([x], y, {});
    assert [] + [x] == [x];
    ReachedMeans(ranked, amount, 2);
  }

  lemma {:induction false} TwoCoins(a: Allocation, b: Allocation, x: Coin, y: Coin)
    requires a.seal == x.seal < b.seal == y.seal && a.amount == x.sum && b.amount == y.sum
    ensures CoinsOf([a] + [b], [x] + [y]) && Total([a] + [b]) == a.amount as int + b.amount as int
  {
    var allocs, coins := [a] + [b], [x] + [y];
    assert allocs[..1] == [a] && [a][..0] == [];
    assert Total([a]) == a.amount && Total(allocs) == Total([a]) + b.amount as int;
    forall s: nat
      ensures Held(allocs, s) ==
              (if a.seal == s then a.amount as int else 0) + (if b.seal == s then b.amount as int else 0)
    {
      HeldSnoc([], a, s);
      assert [] + [a] == [a];
      HeldSnoc([a], b, s);
    }
    assert allocs[0] == a && allocs[1] == b && coins[0] == x && coins[1] == y;
    assert HasSeal(allocs, a.seal) && HasSeal(allocs, b.seal) && HasCoin(coins, a.seal) && HasCoin(coins, b.seal);
  }
}
