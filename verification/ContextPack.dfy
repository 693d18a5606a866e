/**
 The context pack builder (argent_core/context_pack.py): collecting, trimming to the soft budget, building, and
 the self-check that ends every build.
 */
module ContextPack {
  import opened Wrappers
  import opened ContextItems
  import opened ContextRender

  const MAX_ITEMS := 256
  const MAX_PROVENANCE_ENTRIES := 256
  const MAX_SOURCE_REF_LEN := 512
  const MAX_ARTIFACT_REF_LEN := 512
  const MAX_ARTIFACT_LOCATION_LEN := 1024
  const MAX_METADATA_VALUE_LEN := 1024
  const PACK_ID_PLACEHOLDER := "cp_000000000000000000000000"

  // ------------------------------------------------------------------ removing items

  function Minus(items: seq<Item>, gone: set<Item>): seq<Item> {
    if items == [] then []
    else
      var last := items[|items|-1];
      Minus(items[..|items|-1], gone) + (if last in gone then [] else [last])
  }

  lemma {:induction false} MinusMembers(items: seq<Item>, gone: set<Item>, x: Item)
    ensures |Minus(items, gone)| <= |items| && (x in Minus(items, gone) <==> x in items && x !in gone)
  {
    if items != [] {
      MinusMembers(items[..|items|-1], gone, x);
      assert items == items[..|items|-1] + [items[|items|-1]];
    }
  }

  function TokensOf(packId: string, who: Identity, items: seq<Item>): nat {
    EstimateTokens(Render(packId, who, Project(items)))
  }

  /** `_render_tokens_for`: the estimate with the placeholder id. */
  function Tokens(who: Identity, items: seq<Item>): nat {
    TokensOf(PACK_ID_PLACEHOLDER, who, items)
  }

  lemma {:induction false} TotalShrinks(items: seq<Item>, r: set<Item>, more: set<Item>, sources: set<Source>)
    requires r <= more
    ensures Total(Minus(items, more), sources) <= Total(Minus(items, r), sources)
  {
    if items != [] {
      var init, x := items[..|items|-1], items[|items|-1];
      TotalShrinks(init, r, more, sources);
      Snoc(Minus(init, r), x, sources);
      Snoc(Minus(init, more), x, sources);
      assert Minus(init, r) + [] == Minus(init, r) && Minus(init, more) + [] == Minus(init, more);
    }
  }

  lemma Snoc(items: seq<Item>, x: Item, sources: set<Source>)
    ensures Total(items + [x], sources) == Total(items, sources) + Weight(x, sources)
    ensures ObjectiveOf(items + [x]) == if x.key.source == Objective then x.key.content else ObjectiveOf(items)
  {
    assert (items + [x])[..|items|] == items;
  }

  lemma {:induction false} ObjectiveStays(items: seq<Item>, gone: set<Item>)
    requires forall x :: x in gone ==> x.key.source != Objective
    ensures ObjectiveOf(Minus(items, gone)) == ObjectiveOf(items)
  {
    if items != [] {
      var init, x := items[..|items|-1], items[|items|-1];
      ObjectiveStays(init, gone);
      Snoc(Minus(init, gone), x, {});
      assert Minus(init, gone) + [] == Minus(init, gone);
    }
  }

  /** Removing more items never costs more tokens. */
  lemma TokensShrink(who: Identity, items: seq<Item>, r: set<Item>, more: set<Item>)
    requires r <= more && forall x :: x in more ==> x.key.source != Objective
    ensures Tokens(who, Minus(items, more)) <= Tokens(who, Minus(items, r))
  {
    hide Minus, ObjectiveOf, Render, Project, HeaderLength, RenderedLength, EstimateTokens;
    RenderHasLength(PACK_ID_PLACEHOLDER, who, Minus(items, r));
    RenderHasLength(PACK_ID_PLACEHOLDER, who, Minus(items, more));
    ObjectiveStays(items, r);
    ObjectiveStays(items, more);
    LengthShrinks(HeaderLength(PACK_ID_PLACEHOLDER, who, ObjectiveOf(items)), items, r, more);
    EstimateGrows(Render(PACK_ID_PLACEHOLDER, who, Project(Minus(items, more))), Render(PACK_ID_PLACEHOLDER, who, Project(Minus(items, r))));
  }

  lemma EstimateGrows(a: string, b: string)
    requires |a| <= |b|
    ensures EstimateTokens(a) <= EstimateTokens(b)
  {
  }

  lemma LengthShrinks(head: nat, items: seq<Item>, r: set<Item>, more: set<Item>)
    requires r <= more
    ensures RenderedLength(head, Minus(items, more)) <= RenderedLength(head, Minus(items, r))
  {
    hide Total, Minus;
    TotalShrinks(items, r, more, {AcceptanceCriteria});
    TotalShrinks(items, r, more, {Constraint});
    TotalShrinks(items, r, more, {PolicyReference});
    TotalShrinks(items, r, more, {Fact});
    TotalShrinks(items, r, more, {Artifact});
    TotalShrinks(items, r, more, {History, PriorResult});
  }

  /** The placeholder gives the real token count: only the length of the pack id matters. */
  lemma PlaceholderIsExact(packId: string, who: Identity, items: seq<Item>)
    requires |packId| == |PACK_ID_PLACEHOLDER|
    ensures TokensOf(packId, who, items) == Tokens(who, items)
  {
    hide Render, Project, RenderedLength;
    RenderHasLength(packId, who, items);
    RenderHasLength(PACK_ID_PLACEHOLDER, who, items);
    HeaderById(packId, who, ObjectiveOf(items));
    HeaderById(PACK_ID_PLACEHOLDER, who, ObjectiveOf(items));
  }

  lemma HeaderById(packId: string, who: Identity, objective: string)
    ensures HeaderLength(packId, who, objective) == HeaderLength("", who, objective) + |packId|
  {
    hide Length;
    var h, e := Header(packId, who, objective), Header("", who, objective);
    assert h == [h[0]] + [h[1]] + h[2..] && e == [e[0]] + [e[1]] + e[2..] && h[2..] == e[2..];
    LengthConcat([h[0]] + [h[1]], h[2..]);
    LengthConcat([h[0]], [h[1]]);
    LengthConcat([e[0]] + [e[1]], e[2..]);
    LengthConcat([e[0]], [e[1]]);
    ClosingLength(h[1]);
    ClosingLength(e[1]);
  }

  // ------------------------------------------------------------------ trimming

  /** `_trim_group`: lower groups go first; `None` is never removed. */
  function TrimGroup(x: Item): Option<nat> {
    if x.importance == Required then None
    else if x.key.trust == OptionalHistory then Some(0)
    else if x.key.trust == AgentResult then Some(1)
    else if x.importance == Optional then Some(2)
    else if x.importance == Normal then Some(3)
    else if x.key.ref != "" then Some(4)
    else None
  }

  predicate RemovedBefore(idOf: Key -> nat, a: Item, b: Item)
    requires TrimGroup(a).Some? && TrimGroup(b).Some?
  {
    TrimGroup(a).value < TrimGroup(b).value || (TrimGroup(a) == TrimGroup(b) && idOf(a.key) < idOf(b.key))
  }

  /** The removable items, in the order in which they are given up. */
  ghost predicate IsRemovalOrder(idOf: Key -> nat, items: seq<Item>, order: seq<Item>) {
    && (forall x :: x in order <==> x in items && TrimGroup(x).Some?)
    && InRemovalOrder(idOf, order)
  }

  function Elements(s: seq<Item>): set<Item> {
    set x | x in s
  }

  /** The items left after giving up the first `k` of the removal order. */
  function After(items: seq<Item>, order: seq<Item>, k: nat): seq<Item>
    requires k <= |order|
  {
    Minus(items, Elements(order[..k]))
  }

  /** `k` is the shortest prefix of the removal order that fits, or all of it if none does. */
  predicate Shortest(who: Identity, items: seq<Item>, order: seq<Item>, soft: nat, k: nat) {
    && k <= |order|
    && (forall j :: 0 <= j < k ==> Tokens(who, After(items, order, j)) > soft)
    && (k < |order| ==> Tokens(who, After(items, order, k)) <= soft)
  }

  predicate DistinctKeys(items: seq<Item>) {
    forall i, j :: 0 <= i < j < |items| ==> items[i].key != items[j].key
  }

  predicate InRemovalOrder(idOf: Key -> nat, s: seq<Item>) {
    forall i, j | 0 <= i < j < |s| :: TrimGroup(s[i]).Some? && TrimGroup(s[j]).Some? && RemovedBefore(idOf, s[i], s[j])
  }

  lemma InsertedAt(idOf: Key -> nat, s: seq<Item>, i: nat, x: Item)
    requires i <= |s| && InRemovalOrder(idOf, s) && TrimGroup(x).Some? && forall y :: y in s ==> TrimGroup(y).Some?
    requires i > 0 ==> s[i - 1] in s && RemovedBefore(idOf, s[i - 1], x)
    requires i < |s| ==> s[i] in s && RemovedBefore(idOf, x, s[i])
    ensures InRemovalOrder(idOf, s[..i] + [x] + s[i..])
  {
    forall j | 0 <= j < i ensures TrimGroup(s[j]).Some? && RemovedBefore(idOf, s[j], x) {
      assert s[j] in s;
      if j < i - 1 { assert RemovedBefore(idOf, s[j], s[i - 1]); }
    }
    forall j | i <= j < |s| ensures TrimGroup(s[j]).Some? && RemovedBefore(idOf, x, s[j]) {
      assert s[j] in s;
      if i < j { assert RemovedBefore(idOf, s[i], s[j]); }
    }
  }

  method InsertRemovable(idOf: Key -> nat, s: seq<Item>, x: Item) returns (r: seq<Item>)
    requires Injective(idOf) && TrimGroup(x).Some? && forall y :: y in s ==> TrimGroup(y).Some? && y.key != x.key
    requires InRemovalOrder(idOf, s)
    ensures forall y :: y in r <==> y in s || y == x
    ensures InRemovalOrder(idOf, r)
  {
    hide TrimGroup, InRemovalOrder;
    var i := |s|;
    while i > 0 && RemovedBefore(idOf, x, s[i - 1])
      invariant 0 <= i <= |s|
      invariant i < |s| ==> RemovedBefore(idOf, x, s[i])
    {
      i := i - 1;
    }
    if i > 0 {
      assert s[i - 1] in s && idOf(s[i - 1].key) != idOf(x.key);
    }
    InsertedAt(idOf, s, i, x);
    assert s == s[..i] + s[i..];
    r := s[..i] + [x] + s[i..];
  }

  /** The removable items, sorted by group and id. */
  method SortRemovable(idOf: Key -> nat, items: seq<Item>) returns (order: seq<Item>)
    requires Injective(idOf) && DistinctKeys(items)
    ensures IsRemovalOrder(idOf, items, order)
  {
    hide TrimGroup, RemovedBefore, Injective;
    order := [];
    for n := 0 to |items|
      invariant IsRemovalOrder(idOf, items[..n], order)
    {
      var x := items[n];
      assert items[..n + 1] == items[..n] + [x];
      if TrimGroup(x).Some? {
        assert forall y | y in order :: y in items[..n] && y.key != x.key;
        order := InsertRemovable(idOf, order, x);
      }
    }
    assert items[..|items|] == items;
  }

  /** `remaining.remove(it)`. */
  method RemoveOne(items: seq<Item>, gone: set<Item>, remaining: seq<Item>, x: Item) returns (r: seq<Item>)
    requires DistinctKeys(items) && remaining == Minus(items, gone) && x in items && x !in gone
    ensures r == Minus(items, gone + {x})
  {
    hide DistinctKeys;
    MinusMembers(items, gone, x);
    var k := 0;
    while remaining[k] != x
      invariant k < |remaining| && x in remaining[k..]
      decreases |remaining| - k
    {
      assert remaining[k..] == [remaining[k]] + remaining[k + 1..];
      k := k + 1;
    }
    r := remaining[..k] + remaining[k + 1..];
    RemovedAt(items, gone, k, x);
  }

  lemma {:induction false} RemovedAt(items: seq<Item>, gone: set<Item>, k: nat, x: Item)
    requires DistinctKeys(items) && x !in gone && k < |Minus(items, gone)| && Minus(items, gone)[k] == x
    ensures Minus(items, gone + {x}) == Minus(items, gone)[..k] + Minus(items, gone)[k + 1..]
  {
    var init, last := items[..|items|-1], items[|items|-1];
    var n := Minus(init, gone);
    if last == x {
      LastOnly(items);
      NothingGone(init, gone, x);
      MinusMembers(init, gone, x);
      assert k == |n|;
      assert n + [x] == Minus(items, gone);
      assert Minus(items, gone)[..k] + Minus(items, gone)[k + 1..] == n;
    } else {
      RemovedAt(init, gone, k, x);
      var tail := if last in gone then [] else [last];
      assert Minus(items, gone) == n + tail && Minus(items, gone + {x}) == Minus(init, gone + {x}) + tail;
      assert k < |n| && (n + tail)[..k] == n[..k] && (n + tail)[k + 1..] == n[k + 1..] + tail;
      assert (n + tail)[..k] + (n + tail)[k + 1..] == (n[..k] + n[k + 1..]) + tail;
    }
  }

  lemma LastOnly(items: seq<Item>)
    requires DistinctKeys(items) && items != []
    ensures items[|items|-1] !in items[..|items|-1]
  {
  }

  lemma {:induction false} NothingGone(items: seq<Item>, gone: set<Item>, x: Item)
    requires x !in items
    ensures Minus(items, gone + {x}) == Minus(items, gone)
  {
    if items != [] {
      assert items[|items|-1] in items;
      NothingGone(items[..|items|-1], gone, x);
    }
  }

  /** What trimming leaves: the items minus the shortest prefix of the removal order that fits, or minus all of it. */
  ghost predicate IsTrimmed(idOf: Key -> nat, who: Identity, items: seq<Item>, soft: nat, r: seq<Item>) {
    exists order, k :: IsRemovalOrder(idOf, items, order) && Shortest(who, items, order, soft, k) && r == After(items, order, k)
  }

  /** `_trim`: items are given up in removal order until the render fits the soft budget. */
  method Trim(idOf: Key -> nat, who: Identity, items: seq<Item>, soft: nat) returns (r: seq<Item>)
    requires Injective(idOf) && DistinctKeys(items)
    ensures IsTrimmed(idOf, who, items, soft, r)
  {
    hide Tokens, TrimGroup, RemovedBefore, Injective, Minus, DistinctKeys, IsRemovalOrder;
    var removable := SortRemovable(idOf, items);
    NothingRemoved(items);
    assert removable[..0] == [];
    r := items;
    var i := 0;
    while i < |removable| && Tokens(who, r) > soft
      invariant 0 <= i <= |removable| && r == After(items, removable, i)
      invariant forall j :: 0 <= j < i ==> Tokens(who, After(items, removable, j)) > soft
    {
      OrderIsDistinct(idOf, items, removable, i);
      r := RemoveOne(items, Elements(removable[..i]), r, removable[i]);
      assert Elements(removable[..i]) + {removable[i]} == Elements(removable[..i + 1]);
      i := i + 1;
    }
    assert Shortest(who, items, removable, soft, i);
  }

  lemma OrderIsDistinct(idOf: Key -> nat, items: seq<Item>, order: seq<Item>, i: nat)
    requires IsRemovalOrder(idOf, items, order) && i < |order|
    ensures order[i] in items && order[i] !in Elements(order[..i])
  {
    assert order[i] in order;
    forall j | 0 <= j < i ensures order[j] != order[i] {
      assert RemovedBefore(idOf, order[j], order[i]);
    }
  }

  lemma {:induction false} NothingRemoved(items: seq<Item>)
    ensures Minus(items, {}) == items && Elements([]) == {}
  {
    if items != [] {
      NothingRemoved(items[..|items|-1]);
      assert items == items[..|items|-1] + [items[|items|-1]];
    }
  }

  // ------------------------------------------------------------------ collecting

  datatype Evidence = Evidence(importance: Importance, ref: string, content: string)
  datatype Inputs = Inputs(objective: string, acceptance: seq<string>, constraints: seq<string>, policies: seq<string>,
                           facts: seq<Evidence>, artifacts: seq<ArtifactRef>, history: seq<string>, results: seq<Evidence>)

  function TextItem(trust: Trust, importance: Importance, source: Source, content: string): Item {
    Item(Key(trust, source, if source == Objective then "task_objective" else "", content), importance, "", "")
  }

  function EvidenceItem(trust: Trust, source: Source, e: Evidence): Item {
    Item(Key(trust, source, e.ref, e.content), e.importance, "", "")
  }

  function ArtifactItem(a: ArtifactRef): Item {
    Item(Key(TrustedArtifact, Artifact, a.ref, if a.excerpt != "" then a.excerpt else a.ref), Normal, a.location, a.hash)
  }

  function TextItems(trust: Trust, importance: Importance, source: Source, cs: seq<string>): (r: seq<Item>)
    ensures forall x :: x in r <==> x.key.content in cs && x == TextItem(trust, importance, source, x.key.content)
  {
    if cs == [] then []
    else
      assert cs == [cs[0]] + cs[1..];
      [TextItem(trust, importance, source, cs[0])] + TextItems(trust, importance, source, cs[1..])
  }

  function EvidenceItems(trust: Trust, source: Source, es: seq<Evidence>): (r: seq<Item>)
    ensures forall x :: x in r <==> EvidenceOf(x) in es && x == EvidenceItem(trust, source, EvidenceOf(x))
  {
    if es == [] then []
    else
      assert es == [es[0]] + es[1..];
      [EvidenceItem(trust, source, es[0])] + EvidenceItems(trust, source, es[1..])
  }

  function EvidenceOf(x: Item): Evidence {
    Evidence(x.importance, x.key.ref, x.key.content)
  }

  function ArtifactItems(xs: seq<ArtifactRef>): (r: seq<Item>)
    ensures forall x :: x in r <==> exists a :: a in xs && x == ArtifactItem(a)
  {
    if xs == [] then []
    else
      assert xs == [xs[0]] + xs[1..];
      [ArtifactItem(xs[0])] + ArtifactItems(xs[1..])
  }

  /** `_collect_items`. */
  function Collect(i: Inputs): seq<Item> {
    [TextItem(OwnerInstruction, Required, Objective, i.objective)]
    + TextItems(OwnerInstruction, Required, AcceptanceCriteria, i.acceptance)
    + TextItems(TrustedPolicy, Required, Constraint, i.constraints)
    + TextItems(TrustedPolicy, Required, PolicyReference, i.policies)
    + EvidenceItems(TrustedLocalFact, Fact, i.facts)
    + ArtifactItems(i.artifacts)
    + TextItems(OptionalHistory, Optional, History, i.history)
    + EvidenceItems(AgentResult, PriorResult, i.results)
  }

  /** Which items the inputs give rise to, whatever their order. */
  predicate Collected(i: Inputs, x: Item) {
    var c := x.key.content;
    || x == TextItem(OwnerInstruction, Required, Objective, i.objective)
    || (c in i.acceptance && x == TextItem(OwnerInstruction, Required, AcceptanceCriteria, c))
    || (c in i.constraints && x == TextItem(TrustedPolicy, Required, Constraint, c))
    || (c in i.policies && x == TextItem(TrustedPolicy, Required, PolicyReference, c))
    || (EvidenceOf(x) in i.facts && x == EvidenceItem(TrustedLocalFact, Fact, EvidenceOf(x)))
    || (exists a :: a in i.artifacts && x == ArtifactItem(a))
    || (c in i.history && x == TextItem(OptionalHistory, Optional, History, c))
    || (EvidenceOf(x) in i.results && x == EvidenceItem(AgentResult, PriorResult, EvidenceOf(x)))
  }

  lemma CollectMembers(i: Inputs, x: Item)
    ensures x in Collect(i) <==> Collected(i, x)
  {
    hide TextItem, EvidenceItem, ArtifactItem, TextItems, EvidenceItems, ArtifactItems;
  }

  /** Inputs that list the same things, in any order and any number of times. */
  ghost predicate SameInputs(a: Inputs, b: Inputs) {
    && a.objective == b.objective
    && (forall c :: (c in a.acceptance <==> c in b.acceptance) && (c in a.constraints <==> c in b.constraints)
                    && (c in a.policies <==> c in b.policies) && (c in a.history <==> c in b.history))
    && (forall e :: (e in a.facts <==> e in b.facts) && (e in a.results <==> e in b.results))
    && (forall x :: x in a.artifacts <==> x in b.artifacts)
  }

  /** Two artifacts that would collide agree on location and hash. */
  ghost predicate ArtifactsAgree(i: Inputs) {
    forall a, b | a in i.artifacts && b in i.artifacts && ArtifactItem(a).key == ArtifactItem(b).key :: ArtifactItem(a) == ArtifactItem(b)
  }

  /** Order-independence of the whole pack: the same things in any order give the same items, hence the same
      projection, render and trimming. */
  lemma PackIgnoresOrder(idOf: Key -> nat, a: Inputs, b: Inputs, x: seq<Item>, y: seq<Item>)
    requires SameInputs(a, b) && ArtifactsAgree(a) && IsDedup(idOf, Collect(a), x) && IsDedup(idOf, Collect(b), y)
    ensures x == y
  {
    hide Collect, IsDedup, SameInputs, ArtifactsAgree;
    forall e ensures e in Collect(a) <==> e in Collect(b) {
      SameThings(a, b, e);
    }
    forall e, f | e in Collect(a) && f in Collect(a) && e.key == f.key && e.importance == f.importance ensures e == f {
      SameKeySameItem(a, e, f);
    }
    DedupIgnoresOrder(idOf, Collect(a), Collect(b), x, y);
  }

  lemma SameThings(a: Inputs, b: Inputs, e: Item)
    requires SameInputs(a, b)
    ensures e in Collect(a) <==> e in Collect(b)
  {
    hide Collect;
    CollectMembers(a, e);
    CollectMembers(b, e);
  }

  lemma SameKeySameItem(a: Inputs, e: Item, f: Item)
    requires ArtifactsAgree(a) && e in Collect(a) && f in Collect(a) && e.key == f.key && e.importance == f.importance
    ensures e == f
  {
    hide Collect;
    CollectMembers(a, e);
    CollectMembers(a, f);
  }

  // ------------------------------------------------------------------ packs and their self-check

  datatype Provenance = Provenance(source: Source, ref: string, trust: Trust)
  datatype ExpansionReason = RequiredContext | LargeCodeEvidence | SecurityReview | RootCauseAnalysis | IntegratedReview
  datatype Request = NoReason | Reason(reason: ExpansionReason) | BadReason

  datatype Pack = Pack(packId: string, who: Identity, projection: Projection, items: seq<Item>, soft: nat, hard: nat,
                       estimated: nat, tokenCount: nat, reason: Option<ExpansionReason>, provenance: seq<Provenance>)

  datatype BuildError = InvalidReference | TooManyItems | BudgetExceeded | InvalidReason | SelfCheckFailed
  datatype BuildResult = Built(pack: Pack) | Refused(error: BuildError)

  function ProvenanceOf(items: seq<Item>): (r: seq<Provenance>)
    ensures |r| <= |items|
  {
    if items == [] then []
    else
      var x := items[|items|-1];
      var r := ProvenanceOf(items[..|items|-1]);
      var p := Provenance(x.key.source, x.key.ref, x.key.trust);
      if p in r then r else r + [p]
  }

  predicate Bounded(x: Item) {
    |x.key.ref| <= MAX_SOURCE_REF_LEN && |x.location| <= MAX_METADATA_VALUE_LEN && |x.artifactHash| <= MAX_METADATA_VALUE_LEN
  }

  /** `validate_context_pack`, as far as it looks at counts, bounds, budgets and the render. */
  predicate Validates(p: Pack) {
    && |p.items| <= MAX_ITEMS && (forall x :: x in p.items ==> Bounded(x))
    && p.soft <= p.hard
    && p.tokenCount == EstimateTokens(Render(p.packId, p.who, p.projection))
    && p.tokenCount <= p.hard && p.tokenCount <= p.estimated
    && (p.tokenCount > p.soft <==> p.reason.Some?)
    && |p.provenance| <= MAX_PROVENANCE_ENTRIES
  }

  function NotRequired(items: seq<Item>): set<Item> {
    set x | x in items && x.importance != Required
  }

  /** The tokens that remain when everything removable has been given up. */
  function Removable(items: seq<Item>): set<Item> {
    set x | x in items && TrimGroup(x).Some?
  }

  function LeastTokens(who: Identity, items: seq<Item>): nat {
    Tokens(who, Minus(items, Removable(items)))
  }

  predicate ArtifactsInBounds(i: Inputs) {
    forall a :: a in i.artifacts ==> |a.ref| <= MAX_ARTIFACT_REF_LEN && |a.location| <= MAX_ARTIFACT_LOCATION_LEN
  }

  /** The references that nothing checks before the self-check does. */
  predicate EvidenceInBounds(i: Inputs) {
    && (forall e :: e in i.facts ==> |e.ref| <= MAX_SOURCE_REF_LEN)
    && (forall e :: e in i.results ==> |e.ref| <= MAX_SOURCE_REF_LEN)
    && (forall a :: a in i.artifacts ==> |a.hash| <= MAX_METADATA_VALUE_LEN)
  }

  /** What the budget asks of a pack: the required part within the hard budget, and the rest within the soft budget
      after trimming, or within the hard one by a permitted expansion. */
  predicate WithinBudget(who: Identity, items: seq<Item>, soft: nat, hard: nat, allowExpansion: bool, request: Request) {
    && Tokens(who, Minus(items, NotRequired(items))) <= hard
    && (LeastTokens(who, items) <= soft || (LeastTokens(who, items) <= hard && allowExpansion && request != NoReason))
  }

  lemma TrimFacts(idOf: Key -> nat, who: Identity, items: seq<Item>, soft: nat, r: seq<Item>)
    requires IsTrimmed(idOf, who, items, soft, r)
    requires forall x :: x in items && x.key.source == Objective ==> x.importance == Required
    ensures Tokens(who, r) <= Tokens(who, items)
    ensures Tokens(who, r) <= soft <==> LeastTokens(who, items) <= soft
    ensures Tokens(who, r) > soft ==> Tokens(who, r) == LeastTokens(who, items)
    ensures (forall x :: x in r ==> x in items) && |r| <= |items|
    ensures forall x :: x in items && x.importance == Required ==> x in r
  {
    hide Tokens, Minus, RemovedBefore;
    var order, k :| IsRemovalOrder(idOf, items, order) && Shortest(who, items, order, soft, k) && r == After(items, order, k);
    assert forall x :: x in Elements(order) <==> x in Removable(items);
    assert Elements(order) == Removable(items);
    NothingRemoved(items);
    assert forall x | x in order[..k] :: x in order;
    TokensShrink(who, items, {}, Elements(order[..k]));
    TokensShrink(who, items, Elements(order[..k]), Elements(order));
    assert k == |order| ==> order[..k] == order;
    forall x ensures x in r <==> x in items && x !in Elements(order[..k]) {
      MinusMembers(items, Elements(order[..k]), x);
    }
    MinusMembers(items, Elements(order[..k]), if items == [] then TextItem(OwnerInstruction, Required, Objective, "") else items[0]);
  }

  lemma CollectedFacts(i: Inputs, items: seq<Item>)
    requires forall x :: x in items ==> x in Collect(i)
    ensures forall x :: x in items && x.key.source == Objective ==> x.importance == Required
    ensures ArtifactsInBounds(i) && EvidenceInBounds(i) ==> forall x :: x in items ==> Bounded(x)
  {
    hide Collect;
    forall x | x in items ensures x.key.source == Objective ==> x.importance == Required
      ensures ArtifactsInBounds(i) && EvidenceInBounds(i) ==> Bounded(x)
    {
      CollectMembers(i, x);
    }
  }

  lemma SortedIsDistinct(idOf: Key -> nat, items: seq<Item>, out: seq<Item>)
    requires IsDedup(idOf, items, out)
    ensures DistinctKeys(out) && forall x :: x in out ==> x in items
  {
    KeysAreDistinct(idOf, items, out);
    forall a, b | 0 <= a < b < |out| ensures out[a].key != out[b].key {
      assert Less(idOf, out[a], out[b]);
    }
  }

  /** No trimming ever loses an instruction: the objective, every acceptance criterion, every constraint and every policy reference
      of the inputs is in the projection of what is kept. */
  lemma InstructionsAreKept(idOf: Key -> nat, i: Inputs, who: Identity, items: seq<Item>, soft: nat, kept: seq<Item>, c: string)
    requires IsDedup(idOf, Collect(i), items) && IsTrimmed(idOf, who, items, soft, kept)
    ensures var p := Project(kept);
            && p.objective == i.objective
            && (c in i.acceptance ==> c in p.acceptance) && (c in i.constraints ==> c in p.constraints) && (c in i.policies ==> c in p.policies)
  {
    hide IsDedup, IsTrimmed, Collect, Tokens, Collected, Project, ObjectiveOf;
    KeysAreDistinct(idOf, Collect(i), items);
    CollectedFacts(i, items);
    TrimFacts(idOf, who, items, soft, kept);
    ObjectiveIsKept(idOf, i, items, kept);
    TextsAreKept(idOf, i, items, kept, c);
  }

  lemma ObjectiveIsKept(idOf: Key -> nat, i: Inputs, items: seq<Item>, kept: seq<Item>)
    requires IsDedup(idOf, Collect(i), items) && (forall y :: y in items && y.importance == Required ==> y in kept)
    requires forall x :: x in kept ==> x in Collect(i)
    ensures Project(kept).objective == i.objective
  {
    hide IsDedup, Collect, Collected, ObjectiveOf, Artifacts, Contents;
    var o := TextItem(OwnerInstruction, Required, Objective, i.objective);
    ObjectiveIsCollected(i);
    RequiredIsKept(idOf, i, items, kept, o);
    forall x | x in kept && x.key.source == Objective ensures x.key.content == i.objective {
      CollectMembers(i, x);
      OnlyObjective(i, x);
    }
    ObjectiveIs(kept, i.objective);
  }

  lemma ObjectiveIsCollected(i: Inputs)
    ensures Collected(i, TextItem(OwnerInstruction, Required, Objective, i.objective))
  {
  }

  lemma TextIsCollected(i: Inputs, c: string)
    ensures c in i.acceptance ==> Collected(i, TextItem(OwnerInstruction, Required, AcceptanceCriteria, c))
    ensures c in i.constraints ==> Collected(i, TextItem(TrustedPolicy, Required, Constraint, c))
    ensures c in i.policies ==> Collected(i, TextItem(TrustedPolicy, Required, PolicyReference, c))
  {
  }

  lemma TextsAreKept(idOf: Key -> nat, i: Inputs, items: seq<Item>, kept: seq<Item>, c: string)
    requires IsDedup(idOf, Collect(i), items) && (forall y :: y in items && y.importance == Required ==> y in kept)
    ensures var p := Project(kept);
            (c in i.acceptance ==> c in p.acceptance) && (c in i.constraints ==> c in p.constraints) && (c in i.policies ==> c in p.policies)
  {
    hide IsDedup, Collect, Collected, Project;
    ProjectionKeeps(kept, c, ArtifactRef("", "", "", ""));
    TextIsCollected(i, c);
    if c in i.acceptance { RequiredIsKept(idOf, i, items, kept, TextItem(OwnerInstruction, Required, AcceptanceCriteria, c)); }
    if c in i.constraints { RequiredIsKept(idOf, i, items, kept, TextItem(TrustedPolicy, Required, Constraint, c)); }
    if c in i.policies { RequiredIsKept(idOf, i, items, kept, TextItem(TrustedPolicy, Required, PolicyReference, c)); }
  }

  lemma OnlyObjective(i: Inputs, x: Item)
    requires Collected(i, x) && x.key.source == Objective
    ensures x.key.content == i.objective
  {
  }

  lemma RequiredIsKept(idOf: Key -> nat, i: Inputs, items: seq<Item>, kept: seq<Item>, x: Item)
    requires IsDedup(idOf, Collect(i), items) && Collected(i, x) && x.importance == Required
    requires forall y :: y in items && y.importance == Required ==> y in kept
    ensures exists y :: y in kept && y.key == x.key
  {
    hide IsDedup, Collect;
    CollectMembers(i, x);
    HighestImportanceWins(idOf, Collect(i), items, x);
    var w := WinnerIndex(Collect(i), x.key);
    var y := Collect(i)[w];
    ImportanceIsKept(idOf, Collect(i), items, x, y);
  }

  lemma {:induction false} ObjectiveIs(items: seq<Item>, o: string)
    requires (exists x :: x in items && x.key.source == Objective) && forall x :: x in items && x.key.source == Objective ==> x.key.content == o
    ensures ObjectiveOf(items) == o
  {
    var init, last := items[..|items|-1], items[|items|-1];
    assert items == init + [last];
    if last.key.source != Objective {
      var x :| x in items && x.key.source == Objective;
      assert x in init;
      ObjectiveIs(init, o);
    }
  }

  /** Exactly when the closing self-check fires: every earlier check passes, and the budget limits are crossed or an
      item that survived the trimming has an over-long reference, location or hash. */
  predicate SelfCheckFires(i: Inputs, who: Identity, items: seq<Item>, kept: seq<Item>, soft: nat, hard: nat, allowExpansion: bool, request: Request) {
    && ArtifactsInBounds(i) && |items| <= MAX_ITEMS && WithinBudget(who, items, soft, hard, allowExpansion, request)
    && !(LeastTokens(who, items) > soft && request == BadReason)
    && (soft > hard || exists x :: x in kept && !Bounded(x))
  }

  function LongRef(n: nat): string {
    seq(n, k => 'a')
  }

  /** One REQUIRED fact whose reference is one character too long. */
  const OVERLONG: Inputs := Inputs("o", [], [], [], [Evidence(Required, LongRef(MAX_SOURCE_REF_LEN + 1), "f")], [], [], [])

  /** An input on which it fires, with a budget that everything fits into. */
  lemma OverlongReferenceFires(idOf: Key -> nat, who: Identity, items: seq<Item>, kept: seq<Item>, budget: nat, allowExpansion: bool, request: Request)
    requires IsDedup(idOf, Collect(OVERLONG), items) && budget == Tokens(who, items) && IsTrimmed(idOf, who, items, budget, kept)
    ensures SelfCheckFires(OVERLONG, who, items, kept, budget, budget, allowExpansion, request)
  {
    hide Tokens, Minus, Collect, IsDedup, IsTrimmed;
    var e := OVERLONG.facts[0];
    var a, b := TextItem(OwnerInstruction, Required, Objective, "o"), EvidenceItem(TrustedLocalFact, Fact, e);
    CollectMembers(OVERLONG, a);
    CollectMembers(OVERLONG, b);
    forall x | x in items ensures x == a || x == b {
      KeysAreDistinct(idOf, Collect(OVERLONG), items);
      CollectMembers(OVERLONG, x);
    }
    HighestImportanceWins(idOf, Collect(OVERLONG), items, b);
    KeysAreDistinct(idOf, Collect(OVERLONG), items);
    SortedIsDistinct(idOf, Collect(OVERLONG), items);
    assert b in items;
    DistinctFit(items, {a, b});
    TrimFacts(idOf, who, items, budget, kept);
    NothingRemoved(items);
    TokensShrink(who, items, {}, NotRequired(items));
    TokensShrink(who, items, {}, Removable(items));
  }

  /** What is given up before what: optional history, then the results of agents, then whatever is optional, then normal, and
      last what is important but can be fetched again. */
  predicate GivenUpBefore(y: Item, x: Item) {
    var history, result := OptionalHistory, AgentResult;
    || (y.key.trust == history && x.key.trust != history)
    || (y.key.trust == result && x.key.trust !in {history, result})
    || (y.key.trust !in {history, result} && x.key.trust !in {history, result}
        && ((y.importance == Optional && x.importance != Optional) || (y.importance == Normal && x.importance == High)))
  }

  /** Trimming in plain terms: an item is given up only after everything that goes before it, and what is required, or important
      and not to be fetched again, is kept. */
  lemma GivenUpInOrder(idOf: Key -> nat, who: Identity, items: seq<Item>, soft: nat, r: seq<Item>, x: Item, y: Item)
    requires IsTrimmed(idOf, who, items, soft, r) && x in items && y in items && x !in r
    ensures x.importance != Required
    ensures x.importance == High && x.key.trust != OptionalHistory && x.key.trust != AgentResult ==> x.key.ref != ""
    ensures y.importance != Required && GivenUpBefore(y, x) ==> y !in r
  {
    hide Tokens, Minus;
    var order, k :| IsRemovalOrder(idOf, items, order) && Shortest(who, items, order, soft, k) && r == After(items, order, k);
    MinusMembers(items, Elements(order[..k]), x);
    MinusMembers(items, Elements(order[..k]), y);
    var i :| 0 <= i < k && order[i] == x;
    if y.importance != Required && GivenUpBefore(y, x) {
      assert y in order;
      var j :| 0 <= j < |order| && order[j] == y;
      if j >= k {
        assert false;
      }
      assert order[..k][j] == y;
    }
  }

  lemma {:induction false} DistinctFit(items: seq<Item>, s: set<Item>)
    requires DistinctKeys(items) && forall x :: x in items ==> x in s
    ensures |items| <= |s|
  {
    if items != [] {
      var init, last := items[..|items|-1], items[|items|-1];
      assert last in s && forall x | x in init :: x in items && x != last;
      DistinctFit(init, s - {last});
    }
  }

  /** `build`.  The items of a built pack are the trimmed ones, its counts and projection are those of its own
      items, and an expansion reason is recorded exactly when it overruns the soft budget.  Every refusal is
      characterised; the closing self-check can fire only on crossed budgets, or on a reference or hash that no
      earlier step bounds. */
  method Build(idOf: Key -> nat, i: Inputs, packId: string, who: Identity, soft: nat, hard: nat, allowExpansion: bool, request: Request)
    returns (r: BuildResult, ghost items: seq<Item>, ghost kept: seq<Item>)
    requires Injective(idOf) && |packId| == |PACK_ID_PLACEHOLDER|
    ensures IsDedup(idOf, Collect(i), items)
    ensures r.Built? || r == Refused(SelfCheckFailed) ==> IsTrimmed(idOf, who, items, soft, kept)
    ensures r.Built? ==> Validates(r.pack) && r.pack.packId == packId && r.pack.who == who && r.pack.soft == soft && r.pack.hard == hard
    ensures r.Built? ==> r.pack.items == kept && r.pack.projection == Project(kept) && r.pack.provenance == ProvenanceOf(kept)
    ensures r.Built? ==> r.pack.estimated == Tokens(who, items) && r.pack.tokenCount == Tokens(who, kept)
    ensures r.Built? ==> r.pack.reason == if r.pack.tokenCount > soft && request.Reason? then Some(request.reason) else None
    ensures r.Built? ==> forall x :: x in items && x.importance == Required ==> x in kept
    ensures r == Refused(InvalidReference) <==> !ArtifactsInBounds(i)
    ensures r == Refused(TooManyItems) <==> ArtifactsInBounds(i) && |items| > MAX_ITEMS
    ensures r == Refused(BudgetExceeded) <==>
              ArtifactsInBounds(i) && |items| <= MAX_ITEMS && !WithinBudget(who, items, soft, hard, allowExpansion, request)
    ensures r == Refused(InvalidReason) <==>
              ArtifactsInBounds(i) && |items| <= MAX_ITEMS && WithinBudget(who, items, soft, hard, allowExpansion, request)
              && LeastTokens(who, items) > soft && request == BadReason
    ensures r == Refused(SelfCheckFailed) <==> SelfCheckFires(i, who, items, kept, soft, hard, allowExpansion, request)
    ensures ArtifactsInBounds(i) && EvidenceInBounds(i) && soft <= hard ==> r != Refused(SelfCheckFailed)
  {
    hide Tokens, Collect, IsDedup, Injective, EstimateTokens, Render, Minus, Project, Bounded, Shortest, IsRemovalOrder, DistinctKeys, LeastTokens,
         EvidenceInBounds, IsTrimmed;
    kept := [];
    items := [];
    var its := Dedup(idOf, Collect(i));
    items := its;
    SortedIsDistinct(idOf, Collect(i), its);
    CollectedFacts(i, its);
    if !ArtifactsInBounds(i) {
      r := Refused(InvalidReference);
      return;
    }
    if |its| > MAX_ITEMS {
      r := Refused(TooManyItems);
      return;
    }
    if Tokens(who, Minus(its, NotRequired(its))) > hard {
      r := Refused(BudgetExceeded);
      return;
    }
    var estimated := Tokens(who, its);
    var final := Trim(idOf, who, its, soft);
    kept := final;
    TrimFacts(idOf, who, its, soft, final);
    var reason: Option<ExpansionReason> := None;
    if Tokens(who, final) > soft {
      if Tokens(who, final) > hard || !allowExpansion || request == NoReason {
        r := Refused(BudgetExceeded);
        return;
      }
      if request == BadReason {
        r := Refused(InvalidReason);
        return;
      }
      reason := Some(request.reason);
    }
    PlaceholderIsExact(packId, who, final);
    var projection := ProjectItems(final);
    var pack := Pack(packId, who, projection, final, soft, hard, estimated, Tokens(who, final), reason, ProvenanceOf(final));
    assert EstimateTokens(Render(packId, who, projection)) == TokensOf(packId, who, final);
    r := if Validates(pack) then Built(pack) else Refused(SelfCheckFailed);
  }
}
