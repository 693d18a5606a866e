/** Lexical path roots (argent_core/concurrency_policy.py): normalisation, validation and overlap. */
module PathRoots {
  import opened Wrappers

  // ------------------------------------------------------------------ strings

  /** Python's whitespace characters. */
  predicate IsSpace(c: char) {
    var n := c as int;
    9 <= n <= 13 || 28 <= n <= 32 || n == 0x85 || n == 0xA0 || n == 0x1680 || 0x2000 <= n <= 0x200A || n == 0x2028 || n == 0x2029
    || n == 0x202F || n == 0x205F || n == 0x3000
  }

  function StripLeft(s: string): string {
    if s != [] && IsSpace(s[0]) then StripLeft(s[1..]) else s
  }

  function StripRight(s: string): string {
    if s != [] && IsSpace(s[|s|-1]) then StripRight(s[..|s|-1]) else s
  }

  function Strip(s: string): string {
    StripRight(StripLeft(s))
  }

  function Slashes(s: string): string {
    if s == [] then [] else [if s[0] == '\\' then '/' else s[0]] + Slashes(s[1..])
  }

  /** `s.split("/")`. */
  function Split(s: string): (r: seq<string>)
    ensures |r| >= 1
  {
    if s == [] then [""]
    else
      var r := Split(s[1..]);
      if s[0] == '/' then [""] + r else [[s[0]] + r[0]] + r[1..]
  }

  /** `"/".join(segments)`. */
  function Join(segs: seq<string>): string {
    if segs == [] then "" else if |segs| == 1 then segs[0] else segs[0] + "/" + Join(segs[1..])
  }

  function StripSlashes(s: string): string {
    if s != [] && s[|s|-1] == '/' then StripSlashes(s[..|s|-1]) else s
  }

  // ------------------------------------------------------------------ normalisation and validation

  /** One step of the segment stack. */
  function Push(stack: seq<string>, seg: string): seq<string> {
    if seg == "" || seg == "." then stack
    else if seg == ".." then (if stack == [] then [] else stack[..|stack|-1])
    else stack + [seg]
  }

  function Resolve(segs: seq<string>): seq<string> {
    if segs == [] then [] else Push(Resolve(segs[..|segs|-1]), segs[|segs|-1])
  }

  /** Some segment pops above the root. */
  predicate Escapes(segs: seq<string>) {
    segs != [] && (Escapes(segs[..|segs|-1]) || (segs[|segs|-1] == ".." && Resolve(segs[..|segs|-1]) == []))
  }

  function NormRel(path: string): string {
    StripSlashes(Join(Resolve(Split(Strip(Slashes(path))))))
  }

  /** `_validate_rel_root`; `alpha` is the letter test of the drive check, `None` the raised ValueError. */
  function ValidateRelRoot(path: string, alpha: char -> bool): Option<string> {
    var raw := Strip(path);
    if raw == "" || raw[0] == '/' || raw[0] == '\\' then None
    else if |raw| >= 2 && alpha(raw[0]) && raw[1] == ':' then None
    else
      var segs := Split(Slashes(raw));
      if Escapes(segs) then None
      else
        var norm := Join(Resolve(segs));
        if norm == "" || norm == ".." || "../" <= norm then None else Some(norm)
  }

  /** A plain segment: what a resolved path is made of. */
  predicate Plain(seg: string) {
    seg != "" && seg != "." && seg != ".." && forall i :: 0 <= i < |seg| ==> seg[i] != '/' && seg[i] != '\\'
  }

  predicate AllPlain(segs: seq<string>) {
    forall i :: 0 <= i < |segs| ==> Plain(segs[i])
  }

  predicate NoSlash(seg: string) {
    forall i :: 0 <= i < |seg| ==> seg[i] != '/'
  }

  // ------------------------------------------------------------------ split and join

  lemma {:induction false} SplitPieces(s: string)
    ensures forall i :: 0 <= i < |Split(s)| ==> NoSlash(Split(s)[i])
    ensures (forall i :: 0 <= i < |s| ==> s[i] != '\\') ==> forall i, j :: 0 <= i < |Split(s)| && 0 <= j < |Split(s)[i]| ==> Split(s)[i][j] != '\\'
  {
    if s != [] {
      SplitPieces(s[1..]);
    }
  }

  lemma SplitCons(c: char, t: string)
    ensures Split([c] + t) == if c == '/' then [""] + Split(t) else [[c] + Split(t)[0]] + Split(t)[1..]
  {
    assert ([c] + t)[1..] == t;
  }

  lemma {:induction false} SplitConcat(u: string, v: string)
    ensures Split(u + "/" + v) == Split(u) + Split(v)
  {
    hide Split;
    if u == [] {
      assert u + "/" + v == ['/'] + v;
      SplitCons('/', v);
      SplitEmpty();
    } else {
      var t := u[1..] + "/" + v;
      assert u + "/" + v == [u[0]] + t && u == [u[0]] + u[1..];
      SplitConcat(u[1..], v);
      SplitCons(u[0], t);
      SplitCons(u[0], u[1..]);
    }
  }

  lemma SplitEmpty()
    ensures Split("") == [""]
  {
  }

  lemma {:induction false} SplitPlain(seg: string)
    requires NoSlash(seg)
    ensures Split(seg) == [seg]
  {
    if seg != [] {
      SplitPlain(seg[1..]);
      assert [seg[0]] + seg[1..] == seg;
    }
  }

  lemma {:induction false} SplitJoin(segs: seq<string>)
    requires segs != [] && forall i :: 0 <= i < |segs| ==> NoSlash(segs[i])
    ensures Split(Join(segs)) == segs
  {
    SplitPlain(segs[0]);
    if |segs| > 1 {
      SplitJoin(segs[1..]);
      SplitConcat(segs[0], Join(segs[1..]));
    }
  }

  lemma {:induction false} JoinConcat(a: seq<string>, b: seq<string>)
    requires a != [] && b != []
    ensures Join(a + b) == Join(a) + "/" + Join(b)
  {
    if |a| > 1 {
      assert (a + b)[1..] == a[1..] + b;
      JoinConcat(a[1..], b);
      assert a[0] + "/" + (Join(a[1..]) + "/" + Join(b)) == a[0] + "/" + Join(a[1..]) + "/" + Join(b);
    } else {
      assert (a + b)[1..] == b;
    }
  }

  lemma {:induction false} SlashesFacts(s: string)
    ensures |Slashes(s)| == |s|
    ensures forall i :: 0 <= i < |s| ==> Slashes(s)[i] != '\\'
    ensures (forall i :: 0 <= i < |s| ==> s[i] != '\\') ==> Slashes(s) == s
  {
    if s != [] {
      SlashesFacts(s[1..]);
    }
  }

  // ------------------------------------------------------------------ resolved paths

  lemma {:induction false} ResolvePlain(segs: seq<string>)
    requires forall i :: 0 <= i < |segs| ==> forall j :: 0 <= j < |segs[i]| ==> segs[i][j] != '/' && segs[i][j] != '\\'
    ensures AllPlain(Resolve(segs))
  {
    if segs != [] {
      ResolvePlain(segs[..|segs|-1]);
    }
  }

  lemma {:induction false} ResolveKeepsPlain(segs: seq<string>)
    requires AllPlain(segs)
    ensures Resolve(segs) == segs && !Escapes(segs)
  {
    if segs != [] {
      ResolveKeepsPlain(segs[..|segs|-1]);
      assert segs == segs[..|segs|-1] + [segs[|segs|-1]];
    }
  }

  lemma {:induction false} JoinShape(segs: seq<string>)
    requires AllPlain(segs) && segs != []
    ensures Join(segs) != "" && Join(segs)[|Join(segs)|-1] != '/' && forall i :: 0 <= i < |Join(segs)| ==> Join(segs)[i] != '\\'
  {
    if |segs| > 1 {
      JoinShape(segs[1..]);
    }
  }

  /** An accepted root is a non-empty path of plain segments. */
  lemma ValidatedShape(path: string, alpha: char -> bool) returns (segs: seq<string>)
    requires ValidateRelRoot(path, alpha).Some?
    ensures segs != [] && AllPlain(segs) && ValidateRelRoot(path, alpha).value == Join(segs)
    ensures Split(Join(segs)) == segs
  {
    var pieces := Split(Slashes(Strip(path)));
    segs := Resolve(pieces);
    SlashesFacts(Strip(path));
    SplitPieces(Slashes(Strip(path)));
    ResolvePlain(pieces);
    SplitJoin(segs);
  }

  lemma {:induction false} StripShrinks(s: string)
    ensures |StripLeft(s)| <= |s| && |StripRight(s)| <= |s|
    ensures |StripLeft(s)| == |s| ==> StripLeft(s) == s
    ensures |StripRight(s)| == |s| ==> StripRight(s) == s
  {
    if s != [] {
      StripShrinks(s[1..]);
      StripShrinks(s[..|s|-1]);
    }
  }

  lemma StripIsShorter(s: string)
    ensures |Strip(s)| <= |s| && (Strip(s) != s ==> |Strip(s)| < |s|)
  {
    StripShrinks(s);
    StripShrinks(StripLeft(s));
  }

  function Weight(segs: seq<string>): nat {
    if segs == [] then 0 else Weight(segs[..|segs|-1]) + |segs[|segs|-1]| + 1
  }

  lemma {:induction false} SplitWeight(s: string)
    ensures Weight(Split(s)) == |s| + 1
  {
    if s != [] {
      SplitWeight(s[1..]);
      var r := Split(s[1..]);
      if s[0] == '/' {
        WeightConcat([""], r);
      } else {
        WeightConcat([[s[0]] + r[0]], r[1..]);
        WeightConcat([r[0]], r[1..]);
        assert r == [r[0]] + r[1..];
      }
    }
  }

  lemma {:induction false} WeightConcat(a: seq<string>, b: seq<string>)
    ensures Weight(a + b) == Weight(a) + Weight(b)
    ensures |a| == 1 ==> Weight(a) == |a[0]| + 1
  {
    if b == [] {
      assert a + b == a;
    } else {
      assert (a + b)[..|a + b|-1] == a + b[..|b|-1];
      WeightConcat(a, b[..|b|-1]);
    }
    if |a| == 1 {
      assert a[..0] == [];
    }
  }

  lemma {:induction false} JoinWeight(segs: seq<string>)
    requires segs != []
    ensures |Join(segs)| + 1 == Weight(segs)
  {
    WeightConcat([segs[0]], segs[1..]);
    assert segs == [segs[0]] + segs[1..];
    if |segs| > 1 {
      JoinWeight(segs[1..]);
    }
  }

  lemma {:induction false} ResolveWeight(segs: seq<string>)
    ensures Weight(Resolve(segs)) <= Weight(segs)
  {
    if segs != [] {
      var init := segs[..|segs|-1];
      ResolveWeight(init);
      WeightConcat(Resolve(init), [segs[|segs|-1]]);
      WeightConcat([segs[|segs|-1]], []);
    }
  }

  lemma {:induction false} StripSlashesShrinks(s: string)
    ensures |StripSlashes(s)| <= |s| && (s != "" && s[|s|-1] != '/' ==> StripSlashes(s) == s)
  {
    if s != [] {
      StripSlashesShrinks(s[..|s|-1]);
    }
  }

  lemma NormNeverGrows(path: string)
    ensures |NormRel(path)| <= |Strip(Slashes(path))|
  {
    var s := Strip(Slashes(path));
    var segs := Resolve(Split(s));
    SplitWeight(s);
    ResolveWeight(Split(s));
    StripSlashesShrinks(Join(segs));
    if segs != [] {
      JoinWeight(segs);
    }
  }

  /** When normalising an accepted root again gives it back: exactly when it neither starts nor ends with
      whitespace.  Stripping happens before resolving in the one and after replacing in the other, so an accepted
      root such as the result of "x/.. /." is a different path to the overlap test. */
  lemma NormIsIdentityIff(path: string, alpha: char -> bool)
    requires ValidateRelRoot(path, alpha).Some?
    ensures var root := ValidateRelRoot(path, alpha).value;
            NormRel(root) == root <==> Strip(root) == root
  {
    var segs := ValidatedShape(path, alpha);
    var root := Join(segs);
    JoinShape(segs);
    SlashesFacts(root);
    if Strip(root) == root {
      ResolveKeepsPlain(segs);
      StripSlashesShrinks(root);
    } else {
      StripIsShorter(root);
      NormNeverGrows(root);
    }
  }

  // ------------------------------------------------------------------ overlap

  function IsPrefix(prefix: string, path: string): bool {
    prefix != "" && (prefix == path || prefix + "/" <= path)
  }

  /** The string test is the segment test. */
  lemma PrefixIsSegmentPrefix(xs: seq<string>, ys: seq<string>)
    requires xs != [] && ys != [] && AllPlain(xs) && AllPlain(ys)
    ensures IsPrefix(Join(xs), Join(ys)) <==> xs <= ys
  {
    var x, y := Join(xs), Join(ys);
    SplitJoin(xs);
    SplitJoin(ys);
    JoinShape(xs);
    if x + "/" <= y {
      var v := y[|x| + 1..];
      assert y == x + "/" + v;
      SplitConcat(x, v);
    }
    if xs <= ys && xs != ys {
      var zs := ys[|xs|..];
      assert ys == xs + zs;
      JoinConcat(xs, zs);
    }
  }

  function Norms(roots: seq<string>): set<string> {
    set r | r in roots :: NormRel(r)
  }

  predicate PathRootsConflict(a: seq<string>, b: seq<string>) {
    exists x, y :: x in Norms(a) && y in Norms(b) && x != "" && y != "" && (IsPrefix(x, y) || IsPrefix(y, x))
  }

  /** A path, as segments, lies under a root. */
  predicate Under(path: seq<string>, root: string) {
    Split(root) <= path
  }

  /** An accepted root without whitespace at its ends. */
  ghost predicate Canonical(root: string) {
    Strip(root) == root && exists path: string, alpha: char -> bool :: ValidateRelRoot(path, alpha) == Some(root)
  }

  lemma CanonicalShape(root: string)
    requires Canonical(root)
    ensures NormRel(root) == root != "" && AllPlain(Split(root)) && Join(Split(root)) == root
  {
    var path: string, alpha: char -> bool :| ValidateRelRoot(path, alpha) == Some(root);
    var segs := ValidatedShape(path, alpha);
    NormIsIdentityIff(path, alpha);
    JoinShape(segs);
  }

  lemma CanonicalPrefix(x: string, y: string)
    requires Canonical(x) && Canonical(y)
    ensures IsPrefix(x, y) <==> Split(x) <= Split(y)
  {
    CanonicalShape(x);
    CanonicalShape(y);
    PrefixIsSegmentPrefix(Split(x), Split(y));
  }

  /** Path roots conflict exactly when some path lies under a root of each side. */
  lemma ConflictIsOverlap(a: seq<string>, b: seq<string>)
    requires forall r :: r in a || r in b ==> Canonical(r)
    ensures PathRootsConflict(a, b) <==> exists path: seq<string>, x, y :: x in a && y in b && Under(path, x) && Under(path, y)
  {
    hide Canonical, IsPrefix, NormRel, Split;
    forall r | r in a || r in b ensures NormRel(r) == r != "" {
      CanonicalShape(r);
    }
    if PathRootsConflict(a, b) {
      var x, y :| x in Norms(a) && y in Norms(b) && (IsPrefix(x, y) || IsPrefix(y, x));
      CanonicalPrefix(x, y);
      CanonicalPrefix(y, x);
      var path := if Split(x) <= Split(y) then Split(y) else Split(x);
      assert x in a && y in b && Under(path, x) && Under(path, y);
    }
    if path: seq<string>, x, y :| x in a && y in b && Under(path, x) && Under(path, y) {
      CanonicalPrefix(x, y);
      CanonicalPrefix(y, x);
      PrefixesNest(Split(x), Split(y), path);
      assert x in Norms(a) && y in Norms(b);
    }
  }

  lemma {:induction false} StripKeeps(s: string)
    ensures forall c :: c in StripLeft(s) ==> c in s
    ensures forall c :: c in StripRight(s) ==> c in s
  {
    if s != [] {
      StripKeeps(s[1..]);
      StripKeeps(s[..|s|-1]);
    }
  }

  /** Whatever the root, its normal form is a path of plain segments, or nothing. */
  lemma NormShape(path: string) returns (segs: seq<string>)
    ensures AllPlain(segs) && NormRel(path) == Join(segs)
    ensures if segs == [] then NormRel(path) == "" else NormRel(path) != "" && Split(NormRel(path)) == segs
  {
    hide Split, Resolve, Strip, Slashes, StripSlashes, Plain;
    var slashed := Slashes(path);
    var s := Strip(slashed);
    SlashesFacts(path);
    assert forall c :: c in s ==> c in slashed by {
      StripKeeps(slashed);
      StripKeeps(StripLeft(slashed));
      StripIs(slashed);
    }
    assert forall i :: 0 <= i < |s| ==> s[i] in slashed;
    SplitPieces(s);
    ResolvePlain(Split(s));
    segs := Resolve(Split(s));
    if segs != [] {
      JoinShape(segs);
      StripSlashesShrinks(Join(segs));
      assert forall i | 0 <= i < |segs| :: Plain(segs[i]);
      PlainHasNoSlash(segs);
      SplitJoin(segs);
    } else {
      NoSlashesToStrip();
    }
  }

  lemma StripIs(s: string)
    ensures Strip(s) == StripRight(StripLeft(s))
  {
  }

  lemma NoSlashesToStrip()
    ensures StripSlashes("") == "" && Join([]) == ""
  {
  }

  lemma PlainHasNoSlash(segs: seq<string>)
    requires AllPlain(segs)
    ensures forall i :: 0 <= i < |segs| ==> NoSlash(segs[i])
  {
  }

  /** What the overlap test decides for any roots at all: whether a path lies under the normal form of a root of each side,
      roots that normalise to nothing left aside. */
  lemma ConflictIsOverlapOfNormalForms(a: seq<string>, b: seq<string>)
    ensures PathRootsConflict(a, b) <==>
              exists path: seq<string>, x, y :: x in a && y in b && MeetUnder(path, x, y)
  {
    hide IsPrefix, NormRel, Split;
    if PathRootsConflict(a, b) {
      var u, v :| u in Norms(a) && v in Norms(b) && u != "" && v != "" && (IsPrefix(u, v) || IsPrefix(v, u));
      var x :| x in a && NormRel(x) == u;
      var y :| y in b && NormRel(y) == v;
      NormPrefix(x, y);
      NormPrefix(y, x);
      var path := if Split(u) <= Split(v) then Split(v) else Split(u);
      assert MeetUnder(path, x, y);
    }
    if path: seq<string>, x, y :| x in a && y in b && MeetUnder(path, x, y) {
      NormPrefix(x, y);
      NormPrefix(y, x);
      PrefixesNest(Split(NormRel(x)), Split(NormRel(y)), path);
      assert NormRel(x) in Norms(a) && NormRel(y) in Norms(b);
    }
  }

  predicate MeetUnder(path: seq<string>, x: string, y: string) {
    NormRel(x) != "" && NormRel(y) != "" && Under(path, NormRel(x)) && Under(path, NormRel(y))
  }

  lemma NormPrefix(x: string, y: string)
    requires NormRel(x) != "" && NormRel(y) != ""
    ensures IsPrefix(NormRel(x), NormRel(y)) <==> Split(NormRel(x)) <= Split(NormRel(y))
  {
    hide IsPrefix, NormRel, Split;
    var xs := NormShape(x);
    var ys := NormShape(y);
    PrefixIsSegmentPrefix(xs, ys);
  }

  lemma PrefixesNest(x: seq<string>, y: seq<string>, path: seq<string>)
    requires x <= path && y <= path
    ensures x <= y || y <= x
  {
  }

  lemma ResolveTwo(a: string, b: string)
    requires Plain(a)
    ensures Resolve([a, b]) == Push([a], b) && !Escapes([a, b])
  {
    assert [a, b][..1] == [a] && [a][..0] == [];
    assert Resolve([]) == [] && Resolve([a]) == [a];
    assert !Escapes([]) && !Escapes([a]);
  }

  lemma ResolveThree(a: string, b: string, c: string)
    requires Plain(a) && Plain(b) && c == "."
    ensures Resolve([a, b, c]) == [a, b] && !Escapes([a, b, c])
  {
    assert [a, b, c][..2] == [a, b];
    ResolveTwo(a, b);
  }

  lemma SplitTwo(a: string, b: string)
    requires NoSlash(a) && NoSlash(b)
    ensures Split(a + "/" + b) == [a, b] && Join([a, b]) == a + "/" + b
  {
    SplitConcat(a, b);
    SplitPlain(a);
    SplitPlain(b);
  }

  lemma PlainExamples()
    ensures Plain("x") && Plain(".. ") && !IsSpace('x') && !IsSpace('.')
  {
  }

  lemma AcceptsTrailingSpace(alpha: char -> bool)
    ensures ValidateRelRoot("x/.. /.", alpha) == Some("x/.. ")
  {
    hide Split, Resolve, Strip, Slashes, Join, Escapes, Plain, IsSpace;
    PlainExamples();
    var raw := "x/.. /.";
    SlashesFacts(raw);
    assert Slashes(raw) == raw;
    StripRightNone(raw);
    assert raw == "x/.. " + "/" + "." && "x/.. " == "x" + "/" + ".. ";
    SplitTwo("x", ".. ");
    SplitConcat("x/.. ", ".");
    SplitPlain(".");
    assert Split(raw) == ["x", ".. ", "."];
    ResolveThree("x", ".. ", ".");
  }

  lemma StripRightNone(s: string)
    requires s != "" && !IsSpace(s[0]) && !IsSpace(s[|s|-1])
    ensures Strip(s) == s && StripRight(s) == s
  {
  }

  lemma StripOneSpace(s: string)
    requires s != "" && !IsSpace(s[0]) && !IsSpace(s[|s|-1])
    ensures Strip(s + " ") == s
  {
    var t := s + " ";
    assert t[0] == s[0] && t[|t|-1] == ' ' && t[..|t|-1] == s;
    StripRightNone(s);
  }

  /** An accepted root whose last segment is two dots and a space: normalised again it resolves to nothing, so the
      overlap test drops it, and it conflicts with no root, not even with itself. */
  lemma TrailingSpaceVanishes(alpha: char -> bool)
    ensures ValidateRelRoot("x/.. /.", alpha) == Some("x/.. ")
    ensures NormRel("x/.. ") == "" && !PathRootsConflict(["x/.. "], ["x/.. "])
  {
    hide Split, Resolve, Strip, Slashes, Escapes, IsSpace, Plain;
    AcceptsTrailingSpace(alpha);
    PlainExamples();
    var root := "x/.. ";
    SlashesFacts(root);
    assert Slashes(root) == root;
    assert root == "x/.." + " ";
    StripOneSpace("x/..");
    assert "x/.." == "x" + "/" + "..";
    SplitTwo("x", "..");
    ResolveTwo("x", "..");
    assert Push(["x"], "..") == [];
    assert NormRel(root) == "";
  }

  /** What is refused as a root: nothing at all, an absolute path, a drive, and a path that starts above its own root. */
  lemma RefusedRoots(path: string, alpha: char -> bool)
    requires var raw := Strip(path);
             || raw == "" || raw[0] == '/' || raw[0] == '\\' || (|raw| >= 2 && alpha(raw[0]) && raw[1] == ':')
             || Split(Slashes(raw))[0] == ".."
    ensures ValidateRelRoot(path, alpha) == None
  {
    hide Strip, Slashes, Split, Resolve;
    var segs := Split(Slashes(Strip(path)));
    if segs[0] == ".." {
      assert segs[..1] == [".."] && [".."][..0] == [];
      assert Resolve([]) == [] by { ResolveNothing(); }
      assert Escapes([".."]);
      EscapesStays(segs, 1);
    }
  }

  lemma ResolveNothing()
    ensures Resolve([]) == []
  {
  }

  /** What is accepted: every path of plain segments without whitespace at its ends that does not look like a drive, as it is. */
  lemma PlainRootsAreAccepted(segs: seq<string>, alpha: char -> bool)
    requires segs != [] && AllPlain(segs) && Strip(Join(segs)) == Join(segs)
    requires |Join(segs)| >= 2 && alpha(Join(segs)[0]) ==> Join(segs)[1] != ':'
    ensures ValidateRelRoot(Join(segs), alpha) == Some(Join(segs))
  {
    hide Strip, Slashes, Split, Resolve, Join, Plain;
    var root := Join(segs);
    JoinShape(segs);
    SlashesFacts(root);
    PlainHasNoSlash(segs);
    SplitJoin(segs);
    ResolveKeepsPlain(segs);
    StartsPlain(segs);
  }

  lemma StartsPlain(segs: seq<string>)
    requires segs != [] && AllPlain(segs)
    ensures Join(segs) != "" && Join(segs)[0] != '/' && Join(segs)[0] != '\\' && Join(segs) != ".." && !("../" <= Join(segs))
  {
    hide Split;
    var root := Join(segs);
    JoinShape(segs);
    PlainHasNoSlash(segs);
    SplitJoin(segs);
    SplitPlain("..");
    assert Plain(segs[0]);
    if "../" <= root {
      var rest := root[3..];
      assert root == ".." + "/" + rest;
      SplitConcat("..", rest);
    }
    if |segs| > 1 {
      assert root == segs[0] + "/" + Join(segs[1..]);
    }
  }

  // ------------------------------------------------------------------ the loops

  method NormalisePath(path: string) returns (r: string)
    ensures r == NormRel(path)
  {
    var segs := Split(Strip(Slashes(path)));
    var parts: seq<string> := [];
    for i := 0 to |segs|
      invariant parts == Resolve(segs[..i])
    {
      assert segs[..i + 1][..i] == segs[..i];
      var seg := segs[i];
      if seg == "" || seg == "." {
        continue;
      }
      if seg == ".." {
        if parts != [] {
          parts := parts[..|parts|-1];
        }
        continue;
      }
      parts := parts + [seg];
    }
    assert segs[..|segs|] == segs;
    r := StripSlashes(Join(parts));
  }

  lemma {:induction false} EscapesStays(segs: seq<string>, i: nat)
    requires i <= |segs| && Escapes(segs[..i])
    ensures Escapes(segs)
    decreases |segs|
  {
    if i == |segs| {
      assert segs[..i] == segs;
    } else {
      assert segs[..|segs|-1][..i] == segs[..i];
      EscapesStays(segs[..|segs|-1], i);
    }
  }

  /** The fail-closed validation: the depth counter refuses to pop above the root. */
  method ValidatePath(path: string, alpha: char -> bool) returns (r: Option<string>)
    ensures r == ValidateRelRoot(path, alpha)
  {
    var raw := Strip(path);
    if raw == "" || raw[0] == '/' || raw[0] == '\\' || (|raw| >= 2 && alpha(raw[0]) && raw[1] == ':') {
      return None;
    }
    var segs := Split(Slashes(raw));
    var depth, out: seq<string> := 0, [];
    for i := 0 to |segs|
      invariant out == Resolve(segs[..i]) && depth == |out| && !Escapes(segs[..i])
    {
      assert segs[..i + 1][..i] == segs[..i];
      var seg := segs[i];
      if seg == "" || seg == "." {
        continue;
      }
      if seg == ".." {
        if depth == 0 {
          EscapesStays(segs, i + 1);
          return None;
        }
        out := out[..|out|-1];
        depth := depth - 1;
        continue;
      }
      out := out + [seg];
      depth := depth + 1;
    }
    assert segs[..|segs|] == segs;
    var norm := Join(out);
    if norm == "" || norm == ".." || "../" <= norm {
      return None;
    }
    r := Some(norm);
  }

  method RootsConflict(a: seq<string>, b: seq<string>) returns (r: bool)
    ensures r == PathRootsConflict(a, b)
  {
    hide NormRel, IsPrefix;
    for i := 0 to |a|
      invariant forall k, y :: 0 <= k < i && y in b && NormRel(a[k]) != "" && NormRel(y) != "" ==>
                  !IsPrefix(NormRel(a[k]), NormRel(y)) && !IsPrefix(NormRel(y), NormRel(a[k]))
    {
      var x := NormalisePath(a[i]);
      for j := 0 to |b|
        invariant forall l :: 0 <= l < j && x != "" && NormRel(b[l]) != "" ==> !IsPrefix(x, NormRel(b[l])) && !IsPrefix(NormRel(b[l]), x)
      {
        var y := NormalisePath(b[j]);
        if x != "" && y != "" && (IsPrefix(x, y) || IsPrefix(y, x)) {
          assert x in Norms(a) && y in Norms(b);
          return true;
        }
      }
    }
    r := false;
  }
}
