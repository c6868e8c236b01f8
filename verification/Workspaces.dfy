/** Candidate workspaces and the integration branch (src/walter/sandbox.py), over an abstract git:
    commits with a parent and a tree, one branch, and worktrees that are maps from path to content. */
module Workspaces {
  import opened Base

  type CommitId = int

  type Tree = map<int, int>

  datatype CommitRec = CommitRec(parent: Option<CommitId>, tree: Tree)

  /** A worktree: the commit it was created on, its files now, and its own HEAD. */
  datatype Candidate = Candidate(base: CommitId, files: Tree, head: CommitId)

  datatype Grant = Grant(candidate: Id, author: Id, readOnly: bool)

  /** The digest over base and inventory, an injective function of both. */
  datatype Fingerprint = Fingerprint(base: CommitId, files: Tree)

  /** `start` is the repository's HEAD; the integration branch need not exist yet. */
  datatype Repo = Repo(commits: map<CommitId, CommitRec>, start: CommitId, branch: Option<CommitId>,
                       candidates: map<Id, Candidate>, grants: map<Id, Grant>)

  datatype IntegrateError = UnknownGrant | CandidateChanged | IntegrationStale | NoChanges | CommitMismatch | RefMoved

  /** Grants name candidates, whose commits exist. */
  ghost predicate Linked(r: Repo) {
    && r.start in r.commits && (r.branch.Some? ==> r.branch.value in r.commits)
    && (forall g :: g in r.grants ==> r.grants[g].candidate in r.candidates)
    && (forall c :: c in r.candidates ==>
          r.candidates[c].base in r.commits && r.candidates[c].head in r.commits)
  }

  function HeadOf(r: Repo): CommitId { if r.branch.Some? then r.branch.value else r.start }

  /** `integration_head(create=True)` */
  function WithBranch(r: Repo): Repo { r.(branch := Some(HeadOf(r))) }

  function Created(r: Repo, c: Id, g: Id, worker: Id): Repo
    requires HeadOf(r) in r.commits
  {
    var head := HeadOf(r);
    WithBranch(r).(candidates := r.candidates[c := Candidate(head, r.commits[head].tree, head)],
                   grants := r.grants[g := Grant(c, worker, false)])
  }

  predicate Writable(r: Repo, g: Id) {
    g in r.grants && !r.grants[g].readOnly && r.grants[g].candidate in r.candidates
  }

  function WithFiles(r: Repo, c: Id, files: Tree): Repo requires c in r.candidates {
    r.(candidates := r.candidates[c := r.candidates[c].(files := files)])
  }

  function Wrote(r: Repo, g: Id, path: int, content: int): Repo {
    if !Writable(r, g) then r
    else WithFiles(r, r.grants[g].candidate, r.candidates[r.grants[g].candidate].files[path := content])
  }

  function Deleted(r: Repo, g: Id, path: int): Repo {
    if !Writable(r, g) || path !in r.candidates[r.grants[g].candidate].files then r
    else WithFiles(r, r.grants[g].candidate, r.candidates[r.grants[g].candidate].files - {path})
  }

  /** A reviewer's grant is a read-only copy for somebody other than the author. */
  function Reviewing(r: Repo, g: Id, worker: Id, id: Id): Repo {
    if g !in r.grants || worker == r.grants[g].author then r
    else r.(grants := r.grants[id := r.grants[g].(readOnly := true)])
  }

  function FrozenGrant(x: Grant, c: Id): Grant { if x.candidate == c then x.(readOnly := true) else x }

  function Frozen(r: Repo, g: Id): Repo {
    if g !in r.grants then r
    else r.(grants := map i | i in r.grants :: FrozenGrant(r.grants[i], r.grants[g].candidate))
  }

  function FingerprintOf(r: Repo, g: Id): Fingerprint
    requires g in r.grants && r.grants[g].candidate in r.candidates
  {
    var c := r.candidates[r.grants[g].candidate];
    Fingerprint(c.base, c.files)
  }

  predicate Changed(r: Repo, c: Id)
    requires c in r.candidates && r.candidates[c].base in r.commits
  {
    r.candidates[c].files != r.commits[r.candidates[c].base].tree
  }

  /** `_commit_candidate`: a candidate that is already committed on its base is reused. */
  function Committing(r: Repo, c: Id, id: CommitId): Result<(Repo, CommitId), IntegrateError>
    requires Linked(r) && c in r.candidates
  {
    var x := r.candidates[c];
    if x.head == x.base then
      if !Changed(r, c) then Ok((r, x.base))
      else Ok((r.(commits := r.commits[id := CommitRec(Some(x.base), x.files)],
                  candidates := r.candidates[c := x.(head := id)]), id))
    else if r.commits[x.head].parent != Some(x.base) || r.commits[x.head].tree != x.files then Err(CommitMismatch)
    else Ok((r, x.head))
  }

  /** `integrate` up to the moment it moves the ref: the repository, and the commit to move to. */
  function Prepared(r: Repo, g: Id, expected: Fingerprint, id: CommitId): (Repo, Result<CommitId, IntegrateError>)
    requires Linked(r)
  {
    if g !in r.grants then (r, Err(UnknownGrant))
    else if FingerprintOf(r, g) != expected then (r, Err(CandidateChanged))
    else
      var r1, head := WithBranch(r), HeadOf(r);
      if r1.candidates[r1.grants[g].candidate].base != head then (r1, Err(IntegrationStale))
      else
        match Committing(r1, r1.grants[g].candidate, id)
        case Err(e) => (r1, Err(e))
        case Ok(done) => (done.0, if done.1 == head then Err(NoChanges) else Ok(done.1))
  }

  /** `update-ref` with the expected old value: a compare-and-swap. */
  function Swapped(r: Repo, head: CommitId, commit: CommitId): Result<Repo, IntegrateError> {
    if r.branch == Some(head) then Ok(r.(branch := Some(commit))) else Err(RefMoved)
  }

  /** The repository after `integrate`, and what it returned. */
  function Integrated(r: Repo, g: Id, expected: Fingerprint, id: CommitId): (Repo, Result<CommitId, IntegrateError>)
    requires Linked(r)
  {
    var (r1, commit) := Prepared(r, g, expected, id);
    if commit.Err? then (r1, commit)
    else
      match Swapped(r1, HeadOf(r), commit.value)
      case Err(e) => (r1, Err(e))
      case Ok(r2) => (r2, commit)
  }

  /** The workspace manager with the state its methods change. */
  class WorkspaceManager {
    const start: CommitId
    var commits: map<CommitId, CommitRec>
    var branch: Option<CommitId>
    var candidates: map<Id, Candidate>
    var grants: map<Id, Grant>

    ghost function Contents(): Repo reads this { Repo(commits, start, branch, candidates, grants) }

    constructor (start: CommitId, tree: Tree)
      ensures Linked(Contents()) && Contents() == Repo(map[start := CommitRec(None, tree)], start, None, map[], map[])
    {
      this.start := start;
      commits, branch, candidates, grants := map[start := CommitRec(None, tree)], None, map[], map[];
    }

    method IntegrationHead() returns (head: CommitId)
      requires Linked(Contents())
      modifies this`branch
      ensures head == HeadOf(old(Contents())) && Contents() == WithBranch(old(Contents()))
    {
      if branch.None? { branch := Some(start); }
      return branch.value;
    }

    method CreateCandidate(c: Id, g: Id, worker: Id)
      requires Linked(Contents())
      modifies this
      ensures Contents() == Created(old(Contents()), c, g, worker)
    {
      var base := IntegrationHead();
      candidates := candidates[c := Candidate(base, commits[base].tree, base)];
      grants := grants[g := Grant(c, worker, false)];
    }

    method WriteFile(g: Id, path: int, content: int) returns (ok: bool)
      requires Linked(Contents())
      modifies this`candidates
      ensures ok <==> Writable(old(Contents()), g)
      ensures Contents() == Wrote(old(Contents()), g, path, content)
    {
      if g !in grants || grants[g].readOnly { return false; }
      var c := grants[g].candidate;
      candidates := candidates[c := candidates[c].(files := candidates[c].files[path := content])];
      return true;
    }

    method DeleteFile(g: Id, path: int) returns (ok: bool)
      requires Linked(Contents())
      modifies this`candidates
      ensures ok <==> Writable(old(Contents()), g) && path in old(candidates)[old(grants)[g].candidate].files
      ensures Contents() == Deleted(old(Contents()), g, path)
    {
      if g !in grants || grants[g].readOnly { return false; }
      var c := grants[g].candidate;
      if path !in candidates[c].files { return false; }
      candidates := candidates[c := candidates[c].(files := candidates[c].files - {path})];
      return true;
    }

    method ReviewerGrant(g: Id, worker: Id, id: Id) returns (ok: bool)
      modifies this`grants
      ensures ok <==> g in old(grants) && worker != old(grants)[g].author
      ensures Contents() == Reviewing(old(Contents()), g, worker, id)
    {
      if g !in grants || worker == grants[g].author { return false; }
      grants := grants[id := grants[g].(readOnly := true)];
      return true;
    }

    /** Closes every grant of the candidate for writing and takes its fingerprint. */
    method Freeze(g: Id) returns (fingerprint: Result<Fingerprint, IntegrateError>)
      requires Linked(Contents())
      modifies this`grants
      ensures Contents() == Frozen(old(Contents()), g)
      ensures fingerprint == if g in old(grants) then Ok(FingerprintOf(old(Contents()), g)) else Err(UnknownGrant)
    {
      if g !in grants { return Err(UnknownGrant); }
      ghost var before := Contents();
      var c := grants[g].candidate;
      var pending := grants.Keys;
      while pending != {}
        invariant pending <= before.grants.Keys
        invariant grants == map i | i in before.grants ::
                    if i in pending then before.grants[i] else FrozenGrant(before.grants[i], c)
      {
        assert (forall x :: x !in pending) ==> pending == {};
        var i :| i in pending;
        if grants[i].candidate == c { grants := grants[i := grants[i].(readOnly := true)]; }
        pending := pending - {i};
      }
      return Ok(Fingerprint(candidates[c].base, candidates[c].files));
    }

    method CommitCandidate(c: Id, id: CommitId) returns (r: Result<CommitId, IntegrateError>)
      requires Linked(Contents()) && c in candidates
      modifies this`commits, this`candidates
      ensures var done := Committing(old(Contents()), c, id);
        if done.Err? then r == Err(done.error) && Contents() == old(Contents())
        else r == Ok(done.value.1) && Contents() == done.value.0
    {
      var current, base := candidates[c].head, candidates[c].base;
      if current == base {
        if candidates[c].files == commits[base].tree { return Ok(current); }
        commits := commits[id := CommitRec(Some(base), candidates[c].files)];
        candidates := candidates[c := candidates[c].(head := id)];
        return Ok(id);
      }
      if commits[current].parent != Some(base) { return Err(CommitMismatch); }
      if commits[current].tree != candidates[c].files { return Err(CommitMismatch); }
      return Ok(current);
    }

    method Integrate(g: Id, expected: Fingerprint, id: CommitId) returns (r: Result<CommitId, IntegrateError>)
      requires Linked(Contents())
      modifies this
      ensures (Contents(), r) == Integrated(old(Contents()), g, expected, id)
    {
      if g !in grants { return Err(UnknownGrant); }
      var c := grants[g].candidate;
      if Fingerprint(candidates[c].base, candidates[c].files) != expected { return Err(CandidateChanged); }
      var head := IntegrationHead();
      if candidates[c].base != head { return Err(IntegrationStale); }
      r := CommitCandidate(c, id);
      if r.Err? { return; }
      if r.value == head { return Err(NoChanges); }
      if branch != Some(head) { return Err(RefMoved); }
      branch := Some(r.value);
    }
  }
}
