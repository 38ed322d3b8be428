// The first-fit search over prepared candidates and the ownership of what each of
// them has opened.

module CandidateSearch {

  // What preparing one candidate comes to.
  datatype Preparation = Failed | Prepared(protocol: string, promptTokens: int, fits: bool)

  class Resource {
    var open: bool

    constructor ()
      ensures open
    {
      open := true;
    }

    method Close()
      modifies this
      ensures !open
    {
      open := false;
    }
  }

  class MainCommit {
    const prepared: Preparation
    const attempt: Resource
    const bodyStorage: Resource
    var committed: bool

    ghost predicate Owns()
      reads this, attempt, bodyStorage
    {
      attempt != bodyStorage && attempt.open && bodyStorage.open && !committed
    }

    ghost predicate Released()
      reads this, attempt, bodyStorage
    {
      !attempt.open && !bodyStorage.open && !committed
    }

    constructor (prepared: Preparation)
      ensures Owns() && this.prepared == prepared && fresh(attempt) && fresh(bodyStorage)
    {
      this.prepared := prepared;
      attempt := new Resource();
      bodyStorage := new Resource();
      committed := false;
    }

    // Closing releases everything, unless the resources were handed over.
    method Close()
      modifies attempt, bodyStorage
      ensures old(committed) ==> attempt.open == old(attempt.open) && bodyStorage.open == old(bodyStorage.open)
      ensures !old(committed) ==> Released()
    {
      if committed { return; }
      attempt.Close();
      bodyStorage.Close();
    }
  }

  predicate Matches(p: Preparation, requiredProtocol: string) {
    p.Prepared? && (requiredProtocol == "" || p.protocol == requiredProtocol)
  }

  predicate Wins(p: Preparation, requiredProtocol: string) {
    Matches(p, requiredProtocol) && p.fits
  }

  // The index of the first winner, or the number of candidates.
  function FirstWinner(ps: seq<Preparation>, requiredProtocol: string): (k: nat)
    ensures k <= |ps|
    ensures forall i :: 0 <= i < k ==> !Wins(ps[i], requiredProtocol)
    ensures k < |ps| ==> Wins(ps[k], requiredProtocol)
  {
    if ps == [] then 0
    else
      var k := FirstWinner(ps[..|ps| - 1], requiredProtocol);
      if k < |ps| - 1 then k else if Wins(ps[|ps| - 1], requiredProtocol) then |ps| - 1 else |ps|
  }

  // The largest prompt among candidates of the right protocol.
  function MostTokens(ps: seq<Preparation>, requiredProtocol: string): nat {
    if ps == [] then 0
    else
      var front, last := MostTokens(ps[..|ps| - 1], requiredProtocol), ps[|ps| - 1];
      if Matches(last, requiredProtocol) && last.promptTokens > front then last.promptTokens else front
  }

  lemma {:induction false} MostTokensIsMaximum(ps: seq<Preparation>, requiredProtocol: string)
    ensures var m := MostTokens(ps, requiredProtocol);
            && (forall p :: p in ps && Matches(p, requiredProtocol) ==> p.promptTokens <= m)
            && (m == 0 || exists p :: p in ps && Matches(p, requiredProtocol) && p.promptTokens == m)
  {
    if ps != [] {
      var front := ps[..|ps| - 1];
      assert ps == front + [ps[|ps| - 1]];
      MostTokensIsMaximum(front, requiredProtocol);
      assert forall p :: p in ps ==> p in front || p == ps[|ps| - 1];
    }
  }

  predicate AllOverLimit(ps: seq<Preparation>, requiredProtocol: string) {
    forall i :: 0 <= i < |ps| ==> Matches(ps[i], requiredProtocol) && !ps[i].fits
  }

  function PreparedOnly(ps: seq<Preparation>): seq<Preparation> {
    if ps == [] then []
    else PreparedOnly(ps[..|ps| - 1]) + if ps[|ps| - 1].Prepared? then [ps[|ps| - 1]] else []
  }

  // The candidates that were looked at: up to the winner, or all of them.
  function Seen(ps: seq<Preparation>, requiredProtocol: string): seq<Preparation> {
    var k := FirstWinner(ps, requiredProtocol);
    if k < |ps| then ps[..k + 1] else ps
  }

  lemma StillFirst(ps: seq<Preparation>, requiredProtocol: string, i: nat)
    requires i < |ps| && FirstWinner(ps[..i], requiredProtocol) == i
    ensures FirstWinner(ps[..i + 1], requiredProtocol) == if Wins(ps[i], requiredProtocol) then i else i + 1
    ensures Wins(ps[i], requiredProtocol) ==> FirstWinner(ps, requiredProtocol) == i
    ensures PreparedOnly(ps[..i + 1]) == PreparedOnly(ps[..i]) + if ps[i].Prepared? then [ps[i]] else []
    ensures var before := MostTokens(ps[..i], requiredProtocol);
            MostTokens(ps[..i + 1], requiredProtocol)
            == if Matches(ps[i], requiredProtocol) && ps[i].promptTokens > before then ps[i].promptTokens else before
  {
    assert ps[..i + 1][..i] == ps[..i];
    assert forall k :: 0 <= k < i ==> ps[..i][k] == ps[k];
  }

  datatype Verdict = CouldNotPrepare | WrongProtocol | OverLimit | Fits

  function VerdictOn(p: Preparation, requiredProtocol: string): Verdict {
    if p.Failed? then CouldNotPrepare
    else if requiredProtocol != "" && p.protocol != requiredProtocol then WrongProtocol
    else if p.fits then Fits
    else OverLimit
  }

  // Prepares one candidate and keeps what it opened only if it fits.
  method TryCandidate(p: Preparation, requiredProtocol: string) returns (verdict: Verdict, commit: MainCommit?)
    ensures verdict == VerdictOn(p, requiredProtocol) && (commit == null <==> p.Failed?)
    ensures commit != null ==> fresh(commit) && fresh(commit.attempt) && fresh(commit.bodyStorage) && commit.prepared == p
    ensures commit != null ==> if verdict == Fits then commit.Owns() else commit.Released()
  {
    if p.Failed? { return CouldNotPrepare, null; }
    commit := new MainCommit(p);
    if requiredProtocol != "" && p.protocol != requiredProtocol {
      commit.Close();
      return WrongProtocol, commit;
    }
    if p.fits { return Fits, commit; }
    commit.Close();
    verdict := OverLimit;
  }

  // The first candidate that prepares, matches and fits is returned intact; every other prepared one
  // is closed, and none is prepared after it.
  method EvaluateCandidates(candidates: seq<Preparation>, requiredProtocol: string)
      returns (winner: MainCommit?, allOverLimit: bool, inputTokens: nat, errors: nat, ghost commits: seq<MainCommit>)
    ensures winner != null <==> FirstWinner(candidates, requiredProtocol) < |candidates|
    ensures winner != null ==> winner in commits && winner.Owns() && winner.prepared == candidates[FirstWinner(candidates, requiredProtocol)]
    ensures forall c :: c in commits ==> fresh(c) && (c == winner || c.Released())
    ensures |commits| == |PreparedOnly(Seen(candidates, requiredProtocol))|
    ensures forall k :: 0 <= k < |commits| ==> commits[k].prepared == PreparedOnly(Seen(candidates, requiredProtocol))[k]
    ensures inputTokens == MostTokens(Seen(candidates, requiredProtocol), requiredProtocol)
    ensures winner == null ==> (errors > 0 <==> exists k :: 0 <= k < |candidates| && !Matches(candidates[k], requiredProtocol))
    ensures allOverLimit <==> winner == null && AllOverLimit(candidates, requiredProtocol)
  {
    assert candidates[..0] == [];
    assert FirstWinner([], requiredProtocol) == 0 && MostTokens([], requiredProtocol) == 0 && PreparedOnly([]) == [];
    hide FirstWinner, PreparedOnly, MostTokens;
    winner, allOverLimit, inputTokens, errors, commits := null, true, 0, 0, [];
    for i := 0 to |candidates|
      invariant FirstWinner(candidates[..i], requiredProtocol) == i
      invariant inputTokens == MostTokens(candidates[..i], requiredProtocol)
      invariant allOverLimit <==> errors == 0
      invariant errors == 0 <==> forall k :: 0 <= k < i ==> Matches(candidates[k], requiredProtocol)
      invariant |commits| == |PreparedOnly(candidates[..i])|
      invariant forall k :: 0 <= k < |commits| ==> commits[k].prepared == PreparedOnly(candidates[..i])[k]
      invariant forall c :: c in commits ==> fresh(c) && fresh(c.attempt) && fresh(c.bodyStorage) && c.Released()
    {
      assert candidates[..i + 1][..i] == candidates[..i];
      StillFirst(candidates, requiredProtocol, i);
      var verdict, commit := TryCandidate(candidates[i], requiredProtocol);
      if commit != null {
        commits := commits + [commit];
      }
      if verdict == CouldNotPrepare || verdict == WrongProtocol {
        allOverLimit := false;
        errors := errors + 1;
        continue;
      }
      if candidates[i].promptTokens > inputTokens {
        inputTokens := candidates[i].promptTokens;
      }
      if verdict == Fits {
        return commit, false, inputTokens, errors, commits;
      }
    }
    assert candidates[..|candidates|] == candidates;
  }

  class RequestContext {
    var storage: Resource

    constructor (storage: Resource)
      ensures this.storage == storage
    {
      this.storage := storage;
    }

    // Handing the winner's body over to the request: from then on closing the commit leaves it open,
    // and the request's former body is closed.
    method CommitMainRequest(commit: MainCommit) returns (ok: bool)
      modifies this, commit, storage
      ensures ok == old(commit.bodyStorage.open)
      ensures ok ==> commit.committed && storage == commit.bodyStorage && storage.open
      ensures ok && old(storage) != commit.bodyStorage ==> !old(storage).open
      ensures !ok ==> storage == old(storage) && commit.committed == old(commit.committed) && storage.open == old(storage.open)
    {
      if !commit.bodyStorage.open { return false; }
      var oldStorage := storage;
      storage := commit.bodyStorage;
      if oldStorage != commit.bodyStorage {
        oldStorage.Close();
      }
      commit.committed := true;
      ok := true;
    }
  }
}
