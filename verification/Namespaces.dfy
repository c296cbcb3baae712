/** Many accounts in one key-value store: every key of an account starts with the
    account id and a zero byte. */
module Namespaces {
  import opened Basics

  type Key = seq<Byte>

  /** The prefix of an account; a store of its own has none. */
  function Prefix(account: Key): Key {
    if account == [] then [] else account + [0]
  }

  function KeyOf(account: Key, suffix: Key): Key {
    Prefix(account) + suffix
  }

  /** A non-empty id without a zero byte. */
  predicate AccountId(account: Key) {
    account != [] && 0 !in account
  }

  /** Where the first zero byte is, or the length if there is none. */
  function FirstZero(k: Key): (n: nat)
    ensures n <= |k| && (n < |k| ==> k[n] == 0) && 0 !in k[..n]
  {
    if k == [] || k[0] == 0 then 0
    else
      var n := FirstZero(k[1..]);
      assert k[..n + 1] == [k[0]] + k[1..][..n];
      n + 1
  }

  /** Splitting a key at its first zero byte gives its account and its suffix. */
  lemma SplitRecovers(account: Key, suffix: Key)
    requires AccountId(account)
    ensures var k := KeyOf(account, suffix);
            FirstZero(k) == |account| && k[..FirstZero(k)] == account && k[FirstZero(k) + 1..] == suffix
  {
    var k := KeyOf(account, suffix);
    assert k[..|account|] == account && k[|account|] == 0;
  }

  /** Keys of different accounts are different. */
  lemma KeysAreApart(a: Key, b: Key, s: Key, t: Key)
    requires AccountId(a) && AccountId(b) && KeyOf(a, s) == KeyOf(b, t)
    ensures a == b && s == t
  {
    SplitRecovers(a, s);
    SplitRecovers(b, t);
  }

  /** A scan over the prefix of an account meets exactly its own keys. */
  lemma ScanIsExact(a: Key, b: Key, t: Key)
    requires AccountId(a) && AccountId(b)
    ensures Prefix(a) <= KeyOf(b, t) <==> a == b
  {
    hide Prefix, AccountId;
    if Prefix(a) <= KeyOf(b, t) {
      var rest := KeyOf(b, t)[|Prefix(a)|..];
      assert KeyOf(a, rest) == Prefix(a) + rest == KeyOf(b, t);
      KeysAreApart(a, b, rest, t);
    }
  }

  /** In general a scan for one account meets keys of another exactly when one
      prefix extends the other. */
  lemma ScanLeaks(a: Key, b: Key)
    ensures (exists t :: Prefix(a) <= KeyOf(b, t)) <==> Prefix(a) <= Prefix(b) || Prefix(b) <= Prefix(a)
  {
    if Prefix(a) <= Prefix(b) {
      assert Prefix(a) <= KeyOf(b, []);
    } else if Prefix(b) <= Prefix(a) {
      var t := Prefix(a)[|Prefix(b)|..];
      assert KeyOf(b, t) == Prefix(a);
    }
    forall t | Prefix(a) <= KeyOf(b, t)
      ensures Prefix(a) <= Prefix(b) || Prefix(b) <= Prefix(a)
    {
      if |Prefix(a)| <= |Prefix(b)| {
        assert Prefix(a) == KeyOf(b, t)[..|Prefix(a)|] == Prefix(b)[..|Prefix(a)|];
      } else {
        assert Prefix(b) == KeyOf(b, t)[..|Prefix(b)|] == Prefix(a)[..|Prefix(b)|];
      }
    }
  }

  /** An id with a zero byte can lie inside another account. */
  lemma ZeroByteLeaks(a: Key, rest: Key)
    requires AccountId(a)
    ensures !AccountId(a + [0] + rest) && forall t :: Prefix(a) <= KeyOf(a + [0] + rest, t)
  {
    var b := a + [0] + rest;
    assert b[|a|] == 0;
    forall t
      ensures Prefix(a) <= KeyOf(b, t)
    {
      assert KeyOf(b, t) == a + [0] + (rest + [0] + t);
    }
  }

  /** One keyspace of the shared store. */
  class Keyspace<V> {
    var entries: map<Key, V>

    constructor ()
      ensures entries == map[]
    {
      entries := map[];
    }

    /** What an account reads. */
    function Read(account: Key, suffix: Key): Option<V>
      reads this
    {
      if KeyOf(account, suffix) in entries then Some(entries[KeyOf(account, suffix)]) else None
    }

    method Put(account: Key, suffix: Key, value: V)
      requires AccountId(account)
      modifies this
      ensures Read(account, suffix) == Some(value)
      ensures forall b, t :: AccountId(b) && (b != account || t != suffix) ==> Read(b, t) == old(Read(b, t))
      ensures entries.Keys == old(entries).Keys + {KeyOf(account, suffix)}
    {
      forall b, t | AccountId(b) && KeyOf(b, t) == KeyOf(account, suffix)
        ensures b == account && t == suffix
      {
        KeysAreApart(b, account, t, suffix);
      }
      entries := entries[KeyOf(account, suffix) := value];
    }

    method Remove(account: Key, suffix: Key)
      requires AccountId(account)
      modifies this
      ensures Read(account, suffix) == None
      ensures forall b, t :: AccountId(b) && (b != account || t != suffix) ==> Read(b, t) == old(Read(b, t))
      ensures entries.Keys == old(entries).Keys - {KeyOf(account, suffix)}
    {
      forall b, t | AccountId(b) && KeyOf(b, t) == KeyOf(account, suffix)
        ensures b == account && t == suffix
      {
        KeysAreApart(b, account, t, suffix);
      }
      entries := entries - {KeyOf(account, suffix)};
    }

    /** The suffixes met by a scan over the prefix of an account: exactly those the
        account can read. */
    method ScanSuffixes(account: Key) returns (suffixes: set<Key>)
      requires AccountId(account)
      ensures forall t :: t in suffixes <==> Read(account, t).Some?
    {
      suffixes := {};
      var todo := entries.Keys;
      while todo != {}
        invariant todo <= entries.Keys
        invariant forall t :: t in suffixes <==> KeyOf(account, t) in entries && KeyOf(account, t) !in todo
        decreases |todo|
      {
        var k :| k in todo;
        todo := todo - {k};
        if Prefix(account) <= k {
          suffixes := suffixes + {k[|Prefix(account)|..]};
          assert k == KeyOf(account, k[|Prefix(account)|..]);
          assert forall t :: KeyOf(account, t) == k ==> t == k[|Prefix(account)|..];
        } else {
          assert forall t :: KeyOf(account, t) != k;
        }
      }
    }

    /** The accounts found by splitting every key at its first zero byte; keys
        without one belong to stores of their own. */
    method Accounts() returns (accounts: set<Key>)
      ensures forall a :: a in accounts <==> exists k :: k in entries && FirstZero(k) < |k| && k[..FirstZero(k)] == a
    {
      accounts := {};
      var todo := entries.Keys;
      while todo != {}
        invariant todo <= entries.Keys
        invariant forall a :: a in accounts <==>
                    exists k :: k in entries && k !in todo && FirstZero(k) < |k| && k[..FirstZero(k)] == a
        decreases |todo|
      {
        var k :| k in todo;
        todo := todo - {k};
        if FirstZero(k) < |k| {
          accounts := accounts + {k[..FirstZero(k)]};
        }
      }
    }
  }

  /** In a store that only accounts write to, the accounts found are exactly those
      that have an entry. */
  lemma AccountsAreExact<V>(entries: map<Key, V>, a: Key)
    requires forall k :: k in entries ==> exists b, t :: AccountId(b) && k == KeyOf(b, t)
    ensures (exists k :: k in entries && FirstZero(k) < |k| && k[..FirstZero(k)] == a) <==>
            AccountId(a) && exists t :: KeyOf(a, t) in entries
  {
    if k :| k in entries && FirstZero(k) < |k| && k[..FirstZero(k)] == a {
      var b, t :| AccountId(b) && k == KeyOf(b, t);
      SplitRecovers(b, t);
      assert KeyOf(a, t) in entries;
    }
    if AccountId(a) && exists t :: KeyOf(a, t) in entries {
      var t :| KeyOf(a, t) in entries;
      SplitRecovers(a, t);
    }
  }
}
