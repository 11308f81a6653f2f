/** `EditorSupport.handle`: edit every accepted repo, locally or through a pull request, and
    report how many repos were seen and edited. Loading, editing and the pull request itself are
    the `run` parameter. */
module EditorSupport {
  import opened Wrappers
  import opened Seqs
  import opened Promises
  import opened RepoUtils

  const LicenseBranch: string := "add-license"
  const LicenseMessage: string := "Added license"

  /** How one repo is edited: loaded and edited in place, or edited on a branch and proposed as
      a pull request. */
  datatype EditPlan = LocalEdit(repo: RepoId) | PullRequestEdit(repo: RepoId, branch: string, message: string)

  datatype HandlerResult = HandlerResult(code: int, reposEdited: nat, reposSeen: nat)

  function PlanEdit(local: bool, r: RepoId): (plan: EditPlan)
    ensures plan.repo == r
    ensures plan.LocalEdit? <==> local
    ensures !local ==> plan.branch == "add-license" && plan.message == "Added license"
  {
    if local then LocalEdit(r) else PullRequestEdit(r, LicenseBranch, LicenseMessage)
  }

  /** Find the repos, then edit the accepted ones in the order found. A rejection of the finder
      is the handler's rejection. Otherwise the handler succeeds with code 0 and the counts when
      every edit succeeded, and fails with the error of one of the failing edits when not. */
  function Handle(finding: Result<seq<RepoId>, string>, accept: RepoId -> bool, local: bool,
                  run: EditPlan -> Result<(), string>): (r: Result<HandlerResult, string>)
    ensures finding.Failure? ==> r == Failure(finding.error)
    ensures finding.Success? ==> var found := finding.value;
            && (r.Success? <==> forall i :: 0 <= i < |found| && accept(found[i]) ==> run(PlanEdit(local, found[i])).Success?)
            && (r.Success? ==> r.value.code == 0 && r.value.reposSeen == |found| && r.value.reposEdited <= r.value.reposSeen)
            && (r.Success? ==> (r.value.reposEdited == |found| <==> forall i :: 0 <= i < |found| ==> accept(found[i])))
            && (r.Failure? ==> exists i :: 0 <= i < |found| && accept(found[i]) && run(PlanEdit(local, found[i])) == Failure(r.error))
  {
    match finding
    case Failure(e) => Failure(e)
    case Success(found) =>
      var toEdit := Filter(found, accept);
      FilterKeepsLength(found, accept);
      match AllOf(EditOps(Plans(toEdit, local), run))
      case Success(_) =>
        EditsOfAcceptedSucceed(found, accept, toEdit, local, run);
        Success(HandlerResult(0, |toEdit|, |found|))
      case Failure(e) =>
        FailingEditIsAccepted(found, accept, toEdit, local, run, e);
        Failure(e)
  }

  /** One plan per repo to edit, in order. */
  function Plans(toEdit: seq<RepoId>, local: bool): (plans: seq<EditPlan>)
    ensures |plans| == |toEdit|
    ensures forall k :: 0 <= k < |toEdit| ==> plans[k] == PlanEdit(local, toEdit[k])
  {
    seq(|toEdit|, k requires 0 <= k < |toEdit| => PlanEdit(local, toEdit[k]))
  }

  /** Running each plan, in order. */
  function EditOps(plans: seq<EditPlan>, run: EditPlan -> Result<(), string>): (ops: seq<Result<(), string>>)
    ensures |ops| == |plans|
    ensures forall k :: 0 <= k < |plans| ==> ops[k] == run(plans[k])
  {
    seq(|plans|, k requires 0 <= k < |plans| => run(plans[k]))
  }

  /** The plans `handle` runs are exactly one per accepted repo: each targets a found repo the
      filter accepted, edits in place exactly in local mode, and every accepted repo gets one. */
  lemma PlansTargetAcceptedRepos(found: seq<RepoId>, accept: RepoId -> bool, local: bool)
    ensures var plans := Plans(Filter(found, accept), local);
            && (forall k :: 0 <= k < |plans| ==>
                  plans[k].repo in found && accept(plans[k].repo) && (plans[k].LocalEdit? <==> local))
            && (forall i :: 0 <= i < |found| && accept(found[i]) ==> PlanEdit(local, found[i]) in plans)
  {
  }

  /** When every edit of `toEdit` succeeds, so does the edit of each found repo it holds. */
  lemma EditsOfAcceptedSucceed(found: seq<RepoId>, accept: RepoId -> bool, toEdit: seq<RepoId>, local: bool,
                               run: EditPlan -> Result<(), string>)
    requires forall i :: 0 <= i < |found| && accept(found[i]) ==> found[i] in toEdit
    requires AllOf(EditOps(Plans(toEdit, local), run)).Success?
    ensures forall i :: 0 <= i < |found| && accept(found[i]) ==> run(PlanEdit(local, found[i])).Success?
  {
    forall i | 0 <= i < |found| && accept(found[i])
      ensures run(PlanEdit(local, found[i])).Success?
    {
      assert found[i] in toEdit;
      var k :| 0 <= k < |toEdit| && toEdit[k] == found[i];
      assert EditOps(Plans(toEdit, local), run)[k].Success?;
    }
  }

  /** A failing edit of `toEdit` is the edit of an accepted repo that was found. */
  lemma FailingEditIsAccepted(found: seq<RepoId>, accept: RepoId -> bool, toEdit: seq<RepoId>, local: bool,
                              run: EditPlan -> Result<(), string>, e: string)
    requires forall k :: 0 <= k < |toEdit| ==> toEdit[k] in found && accept(toEdit[k])
    requires AllOf(EditOps(Plans(toEdit, local), run)) == Failure(e)
    ensures exists i :: 0 <= i < |found| && accept(found[i]) && run(PlanEdit(local, found[i])) == Failure(e)
  {
    var ops := EditOps(Plans(toEdit, local), run);
    var k :| 0 <= k < |ops| && ops[k] == Failure(e);
    assert toEdit[k] in found;
    var i :| 0 <= i < |found| && found[i] == toEdit[k];
    assert run(PlanEdit(local, found[i])) == ops[k];
  }

  /** The repos edited are the ones `relevantRepos` keeps: the count reported is the number of
      its entries that are not placeholders. */
  lemma EditedCountMatchesRelevantRepos(finding: Result<seq<RepoId>, string>, accept: RepoId -> bool, local: bool,
                                        run: EditPlan -> Result<(), string>)
    requires Handle(finding, accept, local, run).Success?
    ensures finding.Success?
    ensures Handle(finding, accept, local, run).value.reposEdited == |Present(RelevantRepos(finding.value, accept))|
  {
    RelevantReposPresent(finding.value, accept);
  }
}
