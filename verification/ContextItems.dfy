/**
 Context items and their de-duplication (argent_core/context_pack.py).  An item id is an injective digest of
 trust class, source type, reference and content; `idOf` stands for it.
 */
module ContextItems {
  datatype Trust = OwnerInstruction | TrustedPolicy | TrustedLocalFact | TrustedArtifact | AgentResult | ExternalUntrusted | OptionalHistory
  datatype Importance = Required | High | Normal | Optional
  datatype Source = Objective | AcceptanceCriteria | Constraint | PolicyReference | Fact | Artifact | History | PriorResult

  datatype Key = Key(trust: Trust, source: Source, ref: string, content: string)
  datatype Item = Item(key: Key, importance: Importance, location: string, artifactHash: string)

  function Rank(i: Importance): nat {
    match i case Required => 4 case High => 3 case Normal => 2 case Optional => 1
  }

  /** The alphabetical order of the persisted trust classes. */
  function TrustOrder(t: Trust): nat {
    match t
    case AgentResult => 0
    case ExternalUntrusted => 1
    case OptionalHistory => 2
    case OwnerInstruction => 3
    case TrustedArtifact => 4
    case TrustedLocalFact => 5
    case TrustedPolicy => 6
  }

  ghost predicate Injective(idOf: Key -> nat) {
    forall a, b :: idOf(a) == idOf(b) ==> a == b
  }

  predicate Less(idOf: Key -> nat, a: Item, b: Item) {
    || Rank(a.importance) > Rank(b.importance)
    || (Rank(a.importance) == Rank(b.importance) &&
        (TrustOrder(a.key.trust) < TrustOrder(b.key.trust)
         || (TrustOrder(a.key.trust) == TrustOrder(b.key.trust) && idOf(a.key) < idOf(b.key))))
  }

  predicate Sorted(idOf: Key -> nat, s: seq<Item>) {
    forall i, j :: 0 <= i < j < |s| ==> Less(idOf, s[i], s[j])
  }

  /** The index of the first item of this key with the highest importance of the key, or -1. */
  function WinnerIndex(items: seq<Item>, key: Key): (w: int)
    ensures -1 <= w < |items| && (w >= 0 ==> items[w].key == key)
  {
    if items == [] then -1
    else
      var n := |items| - 1;
      var w := WinnerIndex(items[..n], key);
      if items[n].key == key && (w == -1 || Rank(items[n].importance) > Rank(items[w].importance)) then n else w
  }

  predicate IsWinner(items: seq<Item>, x: Item) {
    var w := WinnerIndex(items, x.key); w >= 0 && items[w] == x
  }

  /** One item per key, the winning one, in canonical order. */
  ghost predicate IsDedup(idOf: Key -> nat, items: seq<Item>, out: seq<Item>) {
    Sorted(idOf, out) && forall x :: x in out <==> IsWinner(items, x)
  }

  /** Inputs that differ in nothing but order and repetition, with duplicates of one key and importance identical. */
  ghost predicate SameContext(a: seq<Item>, b: seq<Item>) {
    && (forall x :: x in a <==> x in b)
    && (forall x, y :: x in a && y in a && x.key == y.key && x.importance == y.importance ==> x == y)
  }

  lemma {:induction false} WinnerFacts(items: seq<Item>, key: Key)
    ensures var w := WinnerIndex(items, key);
            forall j | 0 <= j < |items| && items[j].key == key ::
              w >= 0 && Rank(items[j].importance) <= Rank(items[w].importance) && (j < w ==> Rank(items[j].importance) < Rank(items[w].importance))
  {
    if items != [] {
      WinnerFacts(items[..|items|-1], key);
      assert forall j | 0 <= j < |items| - 1 :: items[..|items|-1][j] == items[j];
    }
  }

  /** A key keeps its highest importance, on one item. */
  lemma HighestImportanceWins(idOf: Key -> nat, items: seq<Item>, out: seq<Item>, x: Item)
    requires IsDedup(idOf, items, out) && x in items
    ensures var w := WinnerIndex(items, x.key); w >= 0 && items[w] in out && Rank(items[w].importance) >= Rank(x.importance)
    ensures forall y :: y in out && y.key == x.key ==> y == items[WinnerIndex(items, x.key)]
  {
    WinnerFacts(items, x.key);
  }

  /** The same in plain terms, and the order the winners come in: what is required first, what is optional last. */
  lemma ImportanceIsKept(idOf: Key -> nat, items: seq<Item>, out: seq<Item>, x: Item, y: Item)
    requires IsDedup(idOf, items, out) && x in items && y in out && y.key == x.key
    ensures x.importance == Required ==> y.importance == Required
    ensures x.importance == High ==> y.importance in {Required, High}
    ensures x.importance == Normal ==> y.importance != Optional
    ensures forall i, j :: 0 <= i < j < |out| && out[j].importance == Required ==> out[i].importance == Required
    ensures forall i, j :: 0 <= i < j < |out| && out[j].importance == High ==> out[i].importance in {Required, High}
    ensures forall i, j :: 0 <= i < j < |out| && out[i].importance == Optional ==> out[j].importance == Optional
  {
    HighestImportanceWins(idOf, items, out, x);
  }

  lemma KeysAreDistinct(idOf: Key -> nat, items: seq<Item>, out: seq<Item>)
    requires IsDedup(idOf, items, out)
    ensures forall x, y :: x in out && y in out && x.key == y.key ==> x == y
    ensures forall x :: x in out ==> x in items
  {
  }

  lemma {:induction false} SortedIsUnique(idOf: Key -> nat, a: seq<Item>, b: seq<Item>)
    requires Sorted(idOf, a) && Sorted(idOf, b) && forall x :: x in a <==> x in b
    ensures a == b
  {
    EmptyTogether(a, b);
    if a != [] {
      assert b[0] in a && a[0] in b;
      var k :| 0 <= k < |a| && a[k] == b[0];
      var l :| 0 <= l < |b| && b[l] == a[0];
      FirstIsLeast(idOf, a, b, k, l);
      forall x ensures x in a[1..] <==> x in b[1..] {
        RestOf(idOf, a, x);
        RestOf(idOf, b, x);
      }
      SortedIsUnique(idOf, a[1..], b[1..]);
      assert a == [a[0]] + a[1..] && b == [b[0]] + b[1..];
    }
  }

  lemma EmptyTogether(a: seq<Item>, b: seq<Item>)
    requires forall x :: x in a <==> x in b
    ensures a == [] <==> b == []
  {
    if a != [] {
      assert a[0] in b;
    }
    if b != [] {
      assert b[0] in a;
    }
  }

  lemma FirstIsLeast(idOf: Key -> nat, a: seq<Item>, b: seq<Item>, k: nat, l: nat)
    requires Sorted(idOf, a) && Sorted(idOf, b) && k < |a| && l < |b| && a[k] == b[0] && b[l] == a[0]
    ensures a[0] == b[0]
  {
  }

  lemma RestOf(idOf: Key -> nat, s: seq<Item>, x: Item)
    requires Sorted(idOf, s) && s != []
    ensures x in s[1..] <==> x in s && x != s[0]
  {
    assert s == [s[0]] + s[1..];
  }

  /** Order-independence: permuting or repeating the inputs gives the same items in the same order. */
  lemma DedupIgnoresOrder(idOf: Key -> nat, a: seq<Item>, b: seq<Item>, x: seq<Item>, y: seq<Item>)
    requires SameContext(a, b) && IsDedup(idOf, a, x) && IsDedup(idOf, b, y)
    ensures x == y
  {
    hide Less;
    forall e ensures e in x <==> e in y {
      WinnerElsewhere(a, b, e);
      WinnerElsewhere(b, a, e);
    }
    SortedIsUnique(idOf, x, y);
  }

  lemma WinnerElsewhere(a: seq<Item>, b: seq<Item>, e: Item)
    requires SameContext(a, b) || SameContext(b, a)
    ensures IsWinner(a, e) ==> IsWinner(b, e)
  {
    if IsWinner(a, e) {
      WinnerFacts(a, e.key);
      WinnerFacts(b, e.key);
      assert e in a && e in b;
      var x := b[WinnerIndex(b, e.key)];
      assert x in b && x in a;
    }
  }

  // ------------------------------------------------------------------ the algorithm

  lemma LessIsTotal(idOf: Key -> nat, a: Item, b: Item)
    requires Injective(idOf) && a.key != b.key
    ensures Less(idOf, a, b) || Less(idOf, b, a)
  {
    assert idOf(a.key) != idOf(b.key);
  }

  lemma LessTrans(idOf: Key -> nat, a: Item, b: Item, c: Item)
    requires Less(idOf, a, b) && Less(idOf, b, c)
    ensures Less(idOf, a, c)
  {
  }

  /** Inserts one item at its place. */
  method InsertItem(idOf: Key -> nat, s: seq<Item>, x: Item) returns (r: seq<Item>)
    requires Injective(idOf) && Sorted(idOf, s) && forall y :: y in s ==> y.key != x.key
    ensures Sorted(idOf, r) && forall y :: y in r <==> y in s || y == x
  {
    hide Less, Injective;
    var i := |s|;
    while i > 0 && Less(idOf, x, s[i - 1])
      invariant 0 <= i <= |s|
      invariant forall j :: i <= j < |s| ==> Less(idOf, x, s[j])
    {
      i := i - 1;
    }
    r := s[..i] + [x] + s[i..];
    if i > 0 {
      LessIsTotal(idOf, s[i - 1], x);
    }
    forall j | 0 <= j < i ensures Less(idOf, s[j], x) {
      if j < i - 1 {
        LessTrans(idOf, s[j], s[i - 1], x);
      }
    }
    assert s == s[..i] + s[i..];
  }

  /** The first loop of `_dedup`: the winner of every key. */
  method PickWinners(items: seq<Item>) returns (byKey: map<Key, Item>)
    ensures forall k :: k in byKey <==> WinnerIndex(items, k) >= 0
    ensures forall k :: k in byKey ==> byKey[k] == items[WinnerIndex(items, k)]
  {
    byKey := map[];
    for n := 0 to |items|
      invariant forall k :: k in byKey <==> WinnerIndex(items[..n], k) >= 0
      invariant forall k :: k in byKey ==> byKey[k] == items[WinnerIndex(items[..n], k)]
    {
      var it := items[n];
      assert items[..n + 1][..n] == items[..n];
      if it.key !in byKey || Rank(it.importance) > Rank(byKey[it.key].importance) {
        byKey := byKey[it.key := it];
      }
    }
    assert items[..|items|] == items;
  }

  /** `_dedup`: winners first, then the sort into canonical order. */
  method Dedup(idOf: Key -> nat, items: seq<Item>) returns (out: seq<Item>)
    requires Injective(idOf)
    ensures IsDedup(idOf, items, out)
  {
    hide Less, Injective, WinnerIndex;
    var byKey := PickWinners(items);
    out := [];
    var rest := byKey.Keys;
    while rest != {}
      invariant rest <= byKey.Keys && Sorted(idOf, out)
      invariant forall x :: x in out <==> x.key in byKey && x.key !in rest && byKey[x.key] == x
      decreases |rest|
    {
      var k :| k in rest;
      out := InsertItem(idOf, out, byKey[k]);
      rest := rest - {k};
    }
  }
}
