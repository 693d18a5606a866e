/**
 The rendered prompt of a context pack, its token estimate, and how both shrink when items are removed
 (argent_core/context_pack.py).
 */
module ContextRender {
  import opened ContextItems

  datatype ArtifactRef = ArtifactRef(ref: string, location: string, excerpt: string, hash: string)
  datatype Identity = Identity(jobId: string, dispatchId: string, role: string)

  datatype Projection = Projection(objective: string, acceptance: seq<string>, constraints: seq<string>, policies: seq<string>,
                                   facts: seq<string>, artifacts: seq<ArtifactRef>, history: seq<string>)

  // ------------------------------------------------------------------ projection

  function Contents(items: seq<Item>, sources: set<Source>): seq<string> {
    if items == [] then []
    else
      var x := items[|items|-1];
      Contents(items[..|items|-1], sources) + (if x.key.source in sources then [x.key.content] else [])
  }

  function ArtifactOf(x: Item): ArtifactRef {
    ArtifactRef(x.key.ref, x.location, if x.key.content != x.key.ref then x.key.content else "", x.artifactHash)
  }

  function Artifacts(items: seq<Item>): seq<ArtifactRef> {
    if items == [] then []
    else
      var x := items[|items|-1];
      Artifacts(items[..|items|-1]) + (if x.key.source == Artifact then [ArtifactOf(x)] else [])
  }

  function ObjectiveOf(items: seq<Item>): string {
    if items == [] then ""
    else
      var x := items[|items|-1];
      if x.key.source == Objective then x.key.content else ObjectiveOf(items[..|items|-1])
  }

  function Project(items: seq<Item>): Projection {
    Projection(ObjectiveOf(items), Contents(items, {AcceptanceCriteria}), Contents(items, {Constraint}), Contents(items, {PolicyReference}),
               Contents(items, {Fact}), Artifacts(items), Contents(items, {History, PriorResult}))
  }

  lemma {:induction false} ContentsAre(items: seq<Item>, sources: set<Source>, c: string)
    ensures c in Contents(items, sources) <==> exists x :: x in items && x.key.source in sources && x.key.content == c
  {
    if items != [] {
      var init, last := items[..|items|-1], items[|items|-1];
      ContentsAre(init, sources, c);
      assert items == init + [last];
      if x :| x in items && x.key.source in sources && x.key.content == c && x != last {
        assert x in init;
      }
      if c in Contents(init, sources) {
        var x :| x in init && x.key.source in sources && x.key.content == c;
        assert x in items;
      }
      assert last in items;
    }
  }

  lemma {:induction false} ArtifactsAre(items: seq<Item>, a: ArtifactRef)
    ensures a in Artifacts(items) <==> exists x :: x in items && x.key.source == Artifact && ArtifactOf(x) == a
  {
    if items != [] {
      var init, last := items[..|items|-1], items[|items|-1];
      ArtifactsAre(init, a);
      assert items == init + [last];
      if x :| x in items && x.key.source == Artifact && ArtifactOf(x) == a && x != last {
        assert x in init;
      }
      if a in Artifacts(init) {
        var x :| x in init && x.key.source == Artifact && ArtifactOf(x) == a;
        assert x in items;
      }
      assert last in items;
    }
  }

  /** Nothing is lost or invented: every field holds exactly the contents of the items of its own source. */
  lemma ProjectionKeeps(items: seq<Item>, c: string, a: ArtifactRef)
    ensures var p := Project(items);
            && (c in p.acceptance <==> exists x :: x in items && x.key.source == AcceptanceCriteria && x.key.content == c)
            && (c in p.constraints <==> exists x :: x in items && x.key.source == Constraint && x.key.content == c)
            && (c in p.policies <==> exists x :: x in items && x.key.source == PolicyReference && x.key.content == c)
            && (c in p.facts <==> exists x :: x in items && x.key.source == Fact && x.key.content == c)
            && (c in p.history <==> exists x :: x in items && (x.key.source == History || x.key.source == PriorResult) && x.key.content == c)
            && (a in p.artifacts <==> exists x :: x in items && x.key.source == Artifact && a.ref == x.key.ref && a.location == x.location
                                                  && a.hash == x.artifactHash && a.excerpt == if x.key.content == x.key.ref then "" else x.key.content)
  {
    ContentsAre(items, {AcceptanceCriteria}, c);
    ContentsAre(items, {Constraint}, c);
    ContentsAre(items, {PolicyReference}, c);
    ContentsAre(items, {Fact}, c);
    ContentsAre(items, {History, PriorResult}, c);
    ArtifactsAre(items, a);
  }

  /** The projection loop, one pass over the items. */
  method ProjectItems(items: seq<Item>) returns (p: Projection)
    ensures p == Project(items)
  {
    p := Projection("", [], [], [], [], [], []);
    for i := 0 to |items|
      invariant p == Project(items[..i])
    {
      assert items[..i + 1][..i] == items[..i];
      var x := items[i];
      match x.key.source
      case Objective => p := p.(objective := x.key.content);
      case AcceptanceCriteria => p := p.(acceptance := p.acceptance + [x.key.content]);
      case Constraint => p := p.(constraints := p.constraints + [x.key.content]);
      case PolicyReference => p := p.(policies := p.policies + [x.key.content]);
      case Fact => p := p.(facts := p.facts + [x.key.content]);
      case Artifact => p := p.(artifacts := p.artifacts + [ArtifactOf(x)]);
      case _ => p := p.(history := p.history + [x.key.content]);
    }
    assert items[..|items|] == items;
  }

  // ------------------------------------------------------------------ rendering

  function Bullets(xs: seq<string>): seq<string> {
    if xs == [] then [] else Bullets(xs[..|xs|-1]) + ["- " + xs[|xs|-1]]
  }

  function ArtifactLines(a: ArtifactRef): seq<string> {
    ["- ref: " + a.ref] + (if a.location != "" then ["  location: " + a.location] else [])
    + (if a.excerpt != "" then ["  excerpt: " + a.excerpt] else [])
  }

  function AllArtifactLines(xs: seq<ArtifactRef>): seq<string> {
    if xs == [] then [] else AllArtifactLines(xs[..|xs|-1]) + ArtifactLines(xs[|xs|-1])
  }

  function Section(title: string, body: seq<string>): seq<string> {
    if body == [] then [] else [title] + body
  }

  function Header(packId: string, who: Identity, objective: string): seq<string> {
    ["You are an agent in a deterministic, isolated development team.", "context_pack_id: " + packId, "version: 1",
     "job_id: " + who.jobId, "dispatch_id: " + who.dispatchId, "role: " + who.role, "objective:", objective]
  }

  const CLOSING: string := "Reply with exactly one JSON object matching your role schema."

  function RenderLines(packId: string, who: Identity, p: Projection): seq<string> {
    Header(packId, who, p.objective)
    + Section("acceptance_criteria:", Bullets(p.acceptance))
    + Section("constraints:", Bullets(p.constraints))
    + Section("policy_references:", Bullets(p.policies))
    + Section("facts:", Bullets(p.facts))
    + Section("artifacts:", AllArtifactLines(p.artifacts))
    + Section("history:", Bullets(p.history))
    + [CLOSING]
  }

  function Join(lines: seq<string>): string {
    if lines == [] then "" else Join(lines[..|lines|-1]) + lines[|lines|-1] + "\n"
  }

  function EstimateTokens(text: string): nat {
    if |text| / 4 > 1 then |text| / 4 else 1
  }

  /** A token for every four characters begun and finished, and never none. */
  lemma EstimateIsAQuarter(text: string)
    ensures var n := EstimateTokens(text); if |text| < 8 then n == 1 else 4 * n <= |text| < 4 * n + 4
  {
  }

  function Render(packId: string, who: Identity, p: Projection): string {
    Join(RenderLines(packId, who, p))
  }

  // ------------------------------------------------------------------ lengths

  function Length(lines: seq<string>): nat {
    if lines == [] then 0 else Length(lines[..|lines|-1]) + |lines[|lines|-1]| + 1
  }

  lemma {:induction false} JoinLength(lines: seq<string>)
    ensures |Join(lines)| == Length(lines)
  {
    if lines != [] {
      JoinLength(lines[..|lines|-1]);
    }
  }

  lemma {:induction false} LengthConcat(a: seq<string>, b: seq<string>)
    ensures Length(a + b) == Length(a) + Length(b)
  {
    if b == [] {
      assert a + b == a;
    } else {
      assert (a + b)[..|a + b|-1] == a + b[..|b|-1];
      LengthConcat(a, b[..|b|-1]);
    }
  }

  function SectionLength(title: string, body: nat): nat {
    if body == 0 then 0 else |title| + 1 + body
  }

  lemma {:induction false} SectionHasLength(title: string, body: seq<string>)
    ensures Length(Section(title, body)) == SectionLength(title, Length(body))
  {
    if body != [] {
      LengthConcat([title], body);
      assert Length([title]) == |title| + 1 by { assert [title][..0] == []; }
      assert Length(body) > 0;
    }
  }

  /** What one item adds to the section of these sources. */
  function Weight(x: Item, sources: set<Source>): nat {
    if x.key.source !in sources then 0
    else if x.key.source == Artifact then Length(ArtifactLines(ArtifactOf(x)))
    else |x.key.content| + 3
  }

  function Total(items: seq<Item>, sources: set<Source>): nat {
    if items == [] then 0 else Total(items[..|items|-1], sources) + Weight(items[|items|-1], sources)
  }

  lemma {:induction false} BulletsLength(items: seq<Item>, sources: set<Source>)
    requires Artifact !in sources
    ensures Length(Bullets(Contents(items, sources))) == Total(items, sources)
  {
    if items != [] {
      var init, x := items[..|items|-1], items[|items|-1];
      BulletsLength(init, sources);
      assert Contents(init, sources) + [] == Contents(init, sources);
      if x.key.source in sources {
        var c := Contents(items, sources);
        assert c[..|c|-1] == Contents(init, sources);
        LengthConcat(Bullets(c[..|c|-1]), ["- " + x.key.content]);
        assert Length(["- " + x.key.content]) == |x.key.content| + 3 by { assert ["- " + x.key.content][..0] == []; }
      }
    }
  }

  lemma {:induction false} ArtifactsLength(items: seq<Item>)
    ensures Length(AllArtifactLines(Artifacts(items))) == Total(items, {Artifact})
  {
    if items != [] {
      var init, x := items[..|items|-1], items[|items|-1];
      ArtifactsLength(init);
      assert Artifacts(init) + [] == Artifacts(init);
      if x.key.source == Artifact {
        var c := Artifacts(items);
        assert c[..|c|-1] == Artifacts(init);
        LengthConcat(AllArtifactLines(c[..|c|-1]), ArtifactLines(ArtifactOf(x)));
      }
    }
  }

  function HeaderLength(packId: string, who: Identity, objective: string): nat {
    Length(Header(packId, who, objective))
  }

  /** The length of the rendered prompt, section by section. */
  function RenderedLength(head: nat, items: seq<Item>): nat {
    head + SectionLength("acceptance_criteria:", Total(items, {AcceptanceCriteria}))
    + SectionLength("constraints:", Total(items, {Constraint}))
    + SectionLength("policy_references:", Total(items, {PolicyReference}))
    + SectionLength("facts:", Total(items, {Fact}))
    + SectionLength("artifacts:", Total(items, {Artifact}))
    + SectionLength("history:", Total(items, {History, PriorResult}))
    + |CLOSING| + 1
  }

  lemma RenderHasLength(packId: string, who: Identity, items: seq<Item>)
    ensures |Render(packId, who, Project(items))| == RenderedLength(HeaderLength(packId, who, ObjectiveOf(items)), items)
  {
    hide Length, Join, Total, Contents, Bullets, Artifacts, AllArtifactLines, Section, Header, SectionLength;
    var p := Project(items);
    var h := Header(packId, who, p.objective);
    var s1 := Section("acceptance_criteria:", Bullets(p.acceptance));
    var s2 := Section("constraints:", Bullets(p.constraints));
    var s3 := Section("policy_references:", Bullets(p.policies));
    var s4 := Section("facts:", Bullets(p.facts));
    var s5 := Section("artifacts:", AllArtifactLines(p.artifacts));
    var s6 := Section("history:", Bullets(p.history));
    var closing := [CLOSING];
    JoinLength(RenderLines(packId, who, p));
    LengthConcat(h + s1 + s2 + s3 + s4 + s5 + s6, closing);
    LengthConcat(h + s1 + s2 + s3 + s4 + s5, s6);
    LengthConcat(h + s1 + s2 + s3 + s4, s5);
    LengthConcat(h + s1 + s2 + s3, s4);
    LengthConcat(h + s1 + s2, s3);
    LengthConcat(h + s1, s2);
    LengthConcat(h, s1);
    ClosingLength(CLOSING);
    BulletsLength(items, {AcceptanceCriteria});
    BulletsLength(items, {Constraint});
    BulletsLength(items, {PolicyReference});
    BulletsLength(items, {Fact});
    BulletsLength(items, {History, PriorResult});
    ArtifactsLength(items);
    SectionHasLength("acceptance_criteria:", Bullets(p.acceptance));
    SectionHasLength("constraints:", Bullets(p.constraints));
    SectionHasLength("policy_references:", Bullets(p.policies));
    SectionHasLength("facts:", Bullets(p.facts));
    SectionHasLength("artifacts:", AllArtifactLines(p.artifacts));
    SectionHasLength("history:", Bullets(p.history));
  }

  lemma ClosingLength(line: string)
    ensures Length([line]) == |line| + 1
  {
    assert [line][..0] == [];
  }
}
