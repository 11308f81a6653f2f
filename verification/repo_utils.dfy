/** Fanning an action out over the repos of a team: find, filter, load, act, and keep what came
    back. The finder, the loader and the action are parameters; their I/O is not modelled. */
module RepoUtils {
  import opened Wrappers
  import opened Seqs
  import opened Promises

  datatype RepoId = RepoId(owner: string, repo: string)

  /** `relevantRepos`: one entry per found repo, the id where the filter accepts it and an
      undefined placeholder where it does not. */
  function RelevantRepos(found: seq<RepoId>, accept: RepoId -> bool): (r: seq<Option<RepoId>>)
    ensures |r| == |found|
    ensures forall i :: 0 <= i < |found| ==> r[i] == (if accept(found[i]) then Some(found[i]) else None)
  {
    if |found| == 0 then []
    else [if accept(found[0]) then Some(found[0]) else None] + RelevantRepos(found[1..], accept)
  }

  /** Dropping the placeholders of `relevantRepos` leaves exactly the accepted repos, in order. */
  lemma {:induction false} RelevantReposPresent(found: seq<RepoId>, accept: RepoId -> bool)
    ensures Present(RelevantRepos(found, accept)) == Filter(found, accept)
  {
    if |found| > 0 {
      RelevantReposPresent(found[1..], accept);
      var r := RelevantRepos(found, accept);
      assert r[1..] == RelevantRepos(found[1..], accept);
    }
  }

  /** One repo's outcome: load it, then run the action with the shared parameters; a failure of
      either is caught and yields nothing. */
  function Attempt<Proj, R, P>(id: RepoId, load: RepoId -> Result<Proj, string>,
                               action: (Proj, P) -> Result<R, string>, parameters: P): (o: Option<R>)
    ensures o.Some? <==> load(id).Success? && action(load(id).value, parameters).Success?
    ensures o.Some? ==> o.value == action(load(id).value, parameters).value
  {
    match load(id)
    case Failure(_) => None
    case Success(p) =>
      match action(p, parameters)
      case Failure(_) => None
      case Success(v) => Some(v)
  }

  function Outcomes<Proj, R, P>(ids: seq<RepoId>, load: RepoId -> Result<Proj, string>,
                                action: (Proj, P) -> Result<R, string>, parameters: P): (os: seq<Option<R>>)
    ensures |os| == |ids|
    ensures forall i :: 0 <= i < |ids| ==> os[i] == Attempt(ids[i], load, action, parameters)
  {
    seq(|ids|, i requires 0 <= i < |ids| => Attempt(ids[i], load, action, parameters))
  }

  /** `doWithAllRepos`, acting on the accepted repos only: the truthy results of the repos that
      loaded and whose action succeeded, in the order the repos were found. */
  function DoWithAllRepos<Proj, R, P>(found: seq<RepoId>, accept: RepoId -> bool,
                                      load: RepoId -> Result<Proj, string>,
                                      action: (Proj, P) -> Result<R, string>, parameters: P,
                                      truthy: R -> bool): (r: seq<R>)
    ensures |r| <= |Filter(found, accept)| <= |found|
    ensures forall i :: 0 <= i < |r| ==>
              truthy(r[i]) &&
              exists j :: 0 <= j < |found| && accept(found[j]) && Attempt(found[j], load, action, parameters) == Some(r[i])
    ensures forall j :: 0 <= j < |found| && accept(found[j]) && Attempt(found[j], load, action, parameters).Some?
                          && truthy(Attempt(found[j], load, action, parameters).value) ==>
              Attempt(found[j], load, action, parameters).value in r
  {
    if |found| == 0 then []
    else
      var rest := DoWithAllRepos(found[1..], accept, load, action, parameters, truthy);
      var o := Attempt(found[0], load, action, parameters);
      if accept(found[0]) && o.Some? && truthy(o.value) then
        var r := [o.value] + rest;
        assert r[1..] == rest;
        r
      else rest
  }

  /** `relevantRepos` with its finder: a rejection of the finder is the result's rejection, and
      otherwise each found repo gets its entry. */
  function FindRelevantRepos(finding: Result<seq<RepoId>, string>, accept: RepoId -> bool)
    : (r: Result<seq<Option<RepoId>>, string>)
    ensures r.Failure? <==> finding.Failure?
    ensures finding.Failure? ==> r.error == finding.error
    ensures finding.Success? ==> |r.value| == |finding.value| && forall i :: 0 <= i < |finding.value| ==>
              r.value[i] == (if accept(finding.value[i]) then Some(finding.value[i]) else None)
  {
    match finding
    case Failure(e) => Failure(e)
    case Success(found) => Success(RelevantRepos(found, accept))
  }

  /** `doWithAllRepos` with its finder, acting on the accepted repos only: a rejection of the
      finder is the result's rejection, and otherwise the result is the pipeline that filters the
      found repos, attempts each, and keeps the truthy results of those that succeeded. */
  function FindAndDoWithAllRepos<Proj, R, P>(finding: Result<seq<RepoId>, string>, accept: RepoId -> bool,
                                             load: RepoId -> Result<Proj, string>,
                                             action: (Proj, P) -> Result<R, string>, parameters: P,
                                             truthy: R -> bool): (r: Result<seq<R>, string>)
    ensures r.Failure? <==> finding.Failure?
    ensures finding.Failure? ==> r.error == finding.error
    ensures finding.Success? ==>
              r.value == Filter(Present(Outcomes(Filter(finding.value, accept), load, action, parameters)), truthy)
  {
    match finding
    case Failure(e) => Failure(e)
    case Success(found) =>
      DoWithAllReposIsPipeline(found, accept, load, action, parameters, truthy);
      Success(DoWithAllRepos(found, accept, load, action, parameters, truthy))
  }

  /** The corrected fan-out is the source's pipeline with the placeholders skipped: filter the
      found repos, attempt each, drop the failures, drop the falsy results. */
  lemma {:induction false} DoWithAllReposIsPipeline<Proj, R, P>(found: seq<RepoId>, accept: RepoId -> bool,
                                                                load: RepoId -> Result<Proj, string>,
                                                                action: (Proj, P) -> Result<R, string>,
                                                                parameters: P, truthy: R -> bool)
    ensures DoWithAllRepos(found, accept, load, action, parameters, truthy)
            == Filter(Present(Outcomes(Filter(found, accept), load, action, parameters)), truthy)
  {
    if |found| > 0 {
      DoWithAllReposIsPipeline(found[1..], accept, load, action, parameters, truthy);
      var ids' := Filter(found[1..], accept);
      var ps' := Present(Outcomes(ids', load, action, parameters));
      var rest := DoWithAllRepos(found[1..], accept, load, action, parameters, truthy);
      assert rest == Filter(ps', truthy);
      var o := Attempt(found[0], load, action, parameters);
      if accept(found[0]) {
        assert Filter(found, accept) == [found[0]] + ids';
        OutcomesCons(found[0], ids', load, action, parameters);
        PresentCons(o, Outcomes(ids', load, action, parameters));
        if o.Some? {
          FilterCons(o.value, ps', truthy);
        } else {
          assert Present(Outcomes([found[0]] + ids', load, action, parameters)) == ps';
        }
      } else {
        assert Filter(found, accept) == ids';
      }
    }
  }

  lemma OutcomesCons<Proj, R, P>(id: RepoId, ids: seq<RepoId>, load: RepoId -> Result<Proj, string>,
                                 action: (Proj, P) -> Result<R, string>, parameters: P)
    ensures Outcomes([id] + ids, load, action, parameters)
            == [Attempt(id, load, action, parameters)] + Outcomes(ids, load, action, parameters)
  {
    var os := Outcomes([id] + ids, load, action, parameters);
    assert os[1..] == Outcomes(ids, load, action, parameters);
  }

  lemma PresentCons<T>(o: Option<T>, os: seq<Option<T>>)
    ensures Present([o] + os) == (if o.Some? then [o.value] else []) + Present(os)
  {
    assert ([o] + os)[1..] == os;
  }

  lemma FilterCons<T>(v: T, vs: seq<T>, keep: T -> bool)
    ensures Filter([v] + vs, keep) == (if keep(v) then [v] + Filter(vs, keep) else Filter(vs, keep))
  {
    assert ([v] + vs)[1..] == vs;
  }

  /** The message of the TypeError the `catch` handler throws when it logs `id.owner` for an
      undefined placeholder. */
  const OwnerOfUndefined: string := "TypeError: Cannot read property 'owner' of undefined"

  /** One entry of `relevantRepos` as the source handles it: the loader is called even for a
      placeholder, and the catch handler reads the placeholder's owner. */
  function AttemptAsWritten<Proj, R, P>(entry: Option<RepoId>, load: Option<RepoId> -> Result<Proj, string>,
                                        action: (Proj, P) -> Result<R, string>, parameters: P)
    : (o: Result<Option<R>, string>)
    ensures o.Failure? <==> entry.None? && (load(entry).Failure? || action(load(entry).value, parameters).Failure?)
    ensures o.Failure? ==> o.error == OwnerOfUndefined
  {
    var outcome := match load(entry)
                   case Failure(e) => Failure(e)
                   case Success(p) => action(p, parameters);
    match outcome
    case Success(v) => Success(Some(v))
    case Failure(_) => if entry.Some? then Success(None) else Failure(OwnerOfUndefined)
  }

  function SettleAsWritten<Proj, R, P>(entries: seq<Option<RepoId>>, load: Option<RepoId> -> Result<Proj, string>,
                                       action: (Proj, P) -> Result<R, string>, parameters: P)
    : (rs: seq<Result<Option<R>, string>>)
    ensures |rs| == |entries|
    ensures forall i :: 0 <= i < |entries| ==> rs[i] == AttemptAsWritten(entries[i], load, action, parameters)
  {
    seq(|entries|, i requires 0 <= i < |entries| => AttemptAsWritten(entries[i], load, action, parameters))
  }

  /** `doWithAllRepos` as written: every entry of `relevantRepos`, placeholders included, goes to
      the loader. The whole result rejects only through a placeholder, that is only when the
      filter rejected some repo. */
  function DoWithAllReposAsWritten<Proj, R, P>(found: seq<RepoId>, accept: RepoId -> bool,
                                               load: Option<RepoId> -> Result<Proj, string>,
                                               action: (Proj, P) -> Result<R, string>, parameters: P,
                                               truthy: R -> bool): (r: Result<seq<R>, string>)
    ensures r.Failure? ==> r.error == OwnerOfUndefined && exists j :: 0 <= j < |found| && !accept(found[j])
  {
    var entries := RelevantRepos(found, accept);
    match AllOf(SettleAsWritten(entries, load, action, parameters))
    case Failure(e) => Failure(e)
    case Success(os) => Success(Filter(Present(os), truthy))
  }

  /** A loader that, like the default one, clones only real repo ids. */
  function CloneOnly(e: Option<RepoId>): Result<string, string> {
    if e.Some? then Success(e.value.repo) else Failure("no repo to clone")
  }

  /** One found repo that the filter rejects makes the whole as-written fan-out reject, where the
      corrected one simply acts on nothing. */
  lemma FilteredRepoRejectsAsWritten()
    ensures var found := [RepoId("atomist", "skipped")];
            var accept := (id: RepoId) => false;
            var action := (p: string, n: int) => Success(p);
            var truthy := (v: string) => |v| > 0;
            && DoWithAllReposAsWritten(found, accept, CloneOnly, action, 0, truthy) == Failure(OwnerOfUndefined)
            && DoWithAllRepos(found, accept, (id: RepoId) => CloneOnly(Some(id)), action, 0, truthy) == []
  {
    var found := [RepoId("atomist", "skipped")];
    var accept := (id: RepoId) => false;
    var action := (p: string, n: int) => Success(p);
    assert RelevantRepos(found, accept) == [None];
    var rs := SettleAsWritten([None], CloneOnly, action, 0);
    assert rs[0] == Failure(OwnerOfUndefined);
  }

  /** When the filter accepts every found repo there are no placeholders, and the as-written
      fan-out succeeds with exactly the corrected result. */
  lemma {:induction false} AsWrittenAgreesWhenAllAccepted<Proj, R, P>(found: seq<RepoId>, accept: RepoId -> bool,
                                                                       loadAny: Option<RepoId> -> Result<Proj, string>,
                                                                       load: RepoId -> Result<Proj, string>,
                                                                       action: (Proj, P) -> Result<R, string>,
                                                                       parameters: P, truthy: R -> bool)
    requires forall j :: 0 <= j < |found| ==> accept(found[j])
    requires forall id :: loadAny(Some(id)) == load(id)
    ensures DoWithAllReposAsWritten(found, accept, loadAny, action, parameters, truthy)
            == Success(DoWithAllRepos(found, accept, load, action, parameters, truthy))
  {
    var entries := RelevantRepos(found, accept);
    var rs := SettleAsWritten(entries, loadAny, action, parameters);
    var os := Outcomes(found, load, action, parameters);
    forall i | 0 <= i < |rs|
      ensures rs[i] == Success(os[i])
    {
      assert entries[i] == Some(found[i]);
      assert loadAny(entries[i]) == load(found[i]);
    }
    var all := AllOf(rs);
    assert all.Success?;
    assert all.value == os;
    assert Filter(found, accept) == found;
    DoWithAllReposIsPipeline(found, accept, load, action, parameters, truthy);
  }
}
