/** The in-memory GitHub provider (argent_core/external_provider_adapter.py): branches and pull requests. */
module Provider {
  import opened Wrappers

  /** What the duplicate scan compares: repository, branches, head commit and idempotency key. */
  datatype Identity = Identity(repo: nat, headBranch: nat, baseBranch: nat, headSha: nat, idempotencyKey: nat)
  datatype PullRequest = PullRequest(identity: Identity, title: string, body: string, argentOwned: bool)

  datatype Request =
    | PushFeatureBranch(repo: nat, branch: nat, sha: nat, shaIsValid: bool)
    | CreatePullRequest(identity: Identity, title: string, body: string)
    | UpdatePullRequest(number: nat, newTitle: Option<string>, newBody: Option<string>)
    | Other

  datatype Outcome = Success(objectId: nat) | Waiting | Unavailable | RateLimited | ConflictOutcome | ValidationFailed | CredentialError

  datatype World = World(branches: map<nat, nat>, branchRepos: map<nat, nat>, pullRequests: map<nat, PullRequest>, next: nat)

  const EMPTY: World := World(map[], map[], map[], 1)

  predicate Matches(w: World, n: nat, id: Identity) {
    n in w.pullRequests && w.pullRequests[n].argentOwned && w.pullRequests[n].identity == id
  }

  /** The first Argent-owned pull request of this identity, numbers from `n` on. */
  function FindOwned(w: World, id: Identity, n: nat): (r: Option<nat>)
    ensures r.Some? ==> n <= r.value < w.next && Matches(w, r.value, id)
    ensures r.None? ==> forall m :: n <= m < w.next ==> !Matches(w, m, id)
    decreases w.next - n
  {
    if n >= w.next then None else if Matches(w, n, id) then Some(n) else FindOwned(w, id, n + 1)
  }

  function Create(w: World, id: Identity, title: string, body: string): (World, Outcome) {
    var found := FindOwned(w, id, 0);
    if found.Some? then (w, Success(found.value))
    else (w.(pullRequests := w.pullRequests[w.next := PullRequest(id, title, body, true)], next := w.next + 1), Success(w.next))
  }

  function Push(w: World, repo: nat, branch: nat, sha: nat, shaIsValid: bool): (World, Outcome) {
    if !shaIsValid then (w, ValidationFailed)
    else if branch in w.branches && w.branches[branch] != sha then (w, ConflictOutcome)
    else (w.(branches := w.branches[branch := sha], branchRepos := w.branchRepos[branch := repo]), Success(sha))
  }

  function Update(w: World, number: nat, title: Option<string>, body: Option<string>): (World, Outcome) {
    if number !in w.pullRequests then (w, ValidationFailed)
    else
      var pr := w.pullRequests[number];
      var t := if title.Some? then title.value else pr.title;
      var b := if body.Some? then body.value else pr.body;
      (w.(pullRequests := w.pullRequests[number := pr.(title := t, body := b)]), Success(number))
  }

  /** What the provider does when no failure is injected. */
  function Perform(w: World, r: Request): (World, Outcome) {
    match r
    case PushFeatureBranch(repo, branch, sha, shaIsValid) => Push(w, repo, branch, sha, shaIsValid)
    case CreatePullRequest(id, title, body) => Create(w, id, title, body)
    case UpdatePullRequest(number, title, body) => Update(w, number, title, body)
    case Other => (w, Success(0))
  }

  /** The reconciliation probe. */
  function Observe(w: World, r: Request): Option<nat> {
    match r
    case PushFeatureBranch(repo, branch, sha, _) =>
      if branch in w.branches && w.branches[branch] == sha && (branch !in w.branchRepos || w.branchRepos[branch] == repo)
      then Some(sha) else None
    case CreatePullRequest(id, _, _) => FindOwned(w, id, 0)
    case _ => None
  }

  /** Numbers below the next one, and no two Argent-owned pull requests of one identity. */
  ghost predicate NoDuplicates(w: World) {
    && (forall n :: n in w.pullRequests ==> n < w.next)
    && (forall n: nat, m: nat, id | Matches(w, n, id) && Matches(w, m, id) :: n == m)
  }

  /** Pull requests keep their identity and owner for ever. */
  ghost predicate Keeps(w: World, v: World) {
    forall n :: n in w.pullRequests ==>
      n in v.pullRequests && v.pullRequests[n].identity == w.pullRequests[n].identity
      && v.pullRequests[n].argentOwned == w.pullRequests[n].argentOwned
  }

  lemma PerformKeeps(w: World, r: Request)
    requires NoDuplicates(w)
    ensures NoDuplicates(Perform(w, r).0) && Keeps(w, Perform(w, r).0)
  {
    var v := Perform(w, r).0;
    forall n: nat, id | Matches(v, n, id)
      ensures Matches(w, n, id) || (r.CreatePullRequest? && n == w.next && id == r.identity && FindOwned(w, id, 0) == None)
    {
    }
  }

  /** A create that reports success names the one Argent-owned pull request of its identity, and the probe
      finds that one. */
  lemma CreateThenObserve(w: World, r: Request)
    requires NoDuplicates(w) && r.CreatePullRequest?
    ensures var (v, o) := Perform(w, r);
            && o.Success? && Matches(v, o.objectId, r.identity)
            && Observe(v, r) == Some(o.objectId)
            && (forall n :: Matches(v, n, r.identity) ==> n == o.objectId)
            && Perform(v, r) == (v, o)
  {
    PerformKeeps(w, r);
    var (v, o) := Perform(w, r);
    assert Matches(v, o.objectId, r.identity);
    assert FindOwned(v, r.identity, 0).Some?;
  }

  lemma PushThenObserve(w: World, r: Request)
    requires r.PushFeatureBranch? && Perform(w, r).1.Success?
    ensures Observe(Perform(w, r).0, r) == Some(r.sha) && Perform(Perform(w, r).0, r) == Perform(w, r)
  {
    var v := Perform(w, r).0;
    assert v.branches[r.branch := r.sha] == v.branches && v.branchRepos[r.branch := r.repo] == v.branchRepos;
  }

  /** The adapter object: scripted failures first, then the operation itself. */
  class FakeGitHubAdapter {
    var branches: map<nat, nat>
    var branchRepos: map<nat, nat>
    var pullRequests: map<nat, PullRequest>
    var nextPrNumber: nat
    var calls: seq<Request>

    ghost function Contents(): World
      reads this
    {
      World(branches, branchRepos, pullRequests, nextPrNumber)
    }

    constructor ()
      ensures Contents() == EMPTY && calls == [] && NoDuplicates(Contents())
    {
      branches, branchRepos, pullRequests, nextPrNumber, calls := map[], map[], map[], 1, [];
    }

    /** The scan over all pull requests that both the create and the probe make. */
    method Scan(id: Identity) returns (r: Option<nat>)
      ensures r == FindOwned(Contents(), id, 0)
    {
      var n := 0;
      while n < nextPrNumber
        invariant n <= nextPrNumber && FindOwned(Contents(), id, 0) == FindOwned(Contents(), id, n)
      {
        if n in pullRequests && pullRequests[n].argentOwned && pullRequests[n].identity == id {
          return Some(n);
        }
        n := n + 1;
      }
      r := None;
    }

    method CreatePr(id: Identity, title: string, body: string, injected: Option<Outcome>) returns (outcome: Outcome)
      requires injected.Some? ==> !injected.value.Success?
      modifies this
      ensures calls == old(calls) + [CreatePullRequest(id, title, body)]
      ensures (Contents(), outcome) == if injected.Some? then (old(Contents()), injected.value) else Create(old(Contents()), id, title, body)
      ensures injected.None? && FindOwned(old(Contents()), id, 0).None? ==>
                outcome == Success(old(nextPrNumber)) && nextPrNumber == old(nextPrNumber) + 1
                && pullRequests == old(pullRequests)[old(nextPrNumber) := PullRequest(id, title, body, true)]
      ensures injected.Some? || FindOwned(old(Contents()), id, 0).Some? ==> pullRequests == old(pullRequests)
    {
      calls := calls + [CreatePullRequest(id, title, body)];
      if injected.Some? {
        return injected.value;
      }
      var found := Scan(id);
      if found.Some? {
        return Success(found.value);
      }
      var n := nextPrNumber;
      nextPrNumber := nextPrNumber + 1;
      pullRequests := pullRequests[n := PullRequest(id, title, body, true)];
      outcome := Success(n);
    }

    method PushBranch(repo: nat, branch: nat, sha: nat, shaIsValid: bool, injected: Option<Outcome>) returns (outcome: Outcome)
      requires injected.Some? ==> !injected.value.Success?
      modifies this
      ensures calls == old(calls) + [PushFeatureBranch(repo, branch, sha, shaIsValid)]
      ensures (Contents(), outcome) == if injected.Some? then (old(Contents()), injected.value) else Push(old(Contents()), repo, branch, sha, shaIsValid)
      ensures outcome.Success? <==> injected.None? && shaIsValid && (branch in old(branches) ==> old(branches)[branch] == sha)
      ensures outcome.Success? ==> branch in branches && branches[branch] == sha && branchRepos == old(branchRepos)[branch := repo]
      ensures forall b :: b in old(branches) ==> b in branches && branches[b] == old(branches)[b]
      ensures !outcome.Success? ==> branches == old(branches) && branchRepos == old(branchRepos)
    {
      calls := calls + [PushFeatureBranch(repo, branch, sha, shaIsValid)];
      if injected.Some? {
        return injected.value;
      }
      if !shaIsValid {
        return ValidationFailed;
      }
      if branch in branches && branches[branch] != sha {
        return ConflictOutcome;
      }
      branches := branches[branch := sha];
      branchRepos := branchRepos[branch := repo];
      outcome := Success(sha);
    }

    method UpdatePr(number: nat, title: Option<string>, body: Option<string>, injected: Option<Outcome>) returns (outcome: Outcome)
      requires injected.Some? ==> !injected.value.Success?
      modifies this
      ensures calls == old(calls) + [UpdatePullRequest(number, title, body)]
      ensures (Contents(), outcome) == if injected.Some? then (old(Contents()), injected.value) else Update(old(Contents()), number, title, body)
      ensures outcome.Success? <==> injected.None? && number in old(pullRequests)
      ensures pullRequests.Keys == old(pullRequests).Keys && forall n :: n in pullRequests && n != number ==> pullRequests[n] == old(pullRequests)[n]
      ensures forall n :: n in pullRequests ==>
                pullRequests[n].identity == old(pullRequests)[n].identity && pullRequests[n].argentOwned == old(pullRequests)[n].argentOwned
      ensures outcome.Success? ==> number in pullRequests
                                   && pullRequests[number].title == (if title.Some? then title.value else old(pullRequests)[number].title)
                                   && pullRequests[number].body == (if body.Some? then body.value else old(pullRequests)[number].body)
    {
      calls := calls + [UpdatePullRequest(number, title, body)];
      if injected.Some? {
        return injected.value;
      }
      if number !in pullRequests {
        return ValidationFailed;
      }
      if title.Some? {
        pullRequests := pullRequests[number := pullRequests[number].(title := title.value)];
      }
      if body.Some? {
        pullRequests := pullRequests[number := pullRequests[number].(body := body.value)];
      }
      assert pullRequests == Update(old(Contents()), number, title, body).0.pullRequests;
      outcome := Success(number);
    }

    method Probe(r: Request) returns (found: Option<nat>)
      ensures found == Observe(Contents(), r)
    {
      match r
      case PushFeatureBranch(repo, branch, sha, _) =>
        if branch in branches && branches[branch] == sha && (branch !in branchRepos || branchRepos[branch] == repo) {
          return Some(sha);
        }
        found := None;
      case CreatePullRequest(id, _, _) =>
        found := Scan(id);
      case _ =>
        found := None;
    }
  }
}
