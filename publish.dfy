/** `publishToGitHub`, the handler run when a deck document changes: it checks
    that the change asks for a publication, resolves the owner's GitHub token,
    user and repository, then clones, checks out the rolling branch, pulls,
    rewrites the entry file, commits, pushes and opens a pull request. Every
    answer of the outside world (the token store, the API, git) is a field of
    `Env`. */
module Publish {
  import opened Wrappers
  import opened Text
  import opened Effects
  import opened GitHubApi
  import opened DeckContent
  import opened WorkingCopies

  datatype DeckMeta = DeckMeta(published: bool, pathname: Option<string>)

  /** The fields of a deck document the handler reads. */
  datatype DeckData = DeckData(meta: Option<DeckMeta>, ownerId: Option<string>)

  /** The document before and after the change (`None` when it has no data). */
  datatype Change = Change(before: Option<DeckData>, after: Option<DeckData>)

  /** A JavaScript-truthy string: present and not empty. */
  predicate Present(s: Option<string>)
  {
    s.Some? && s.value != ""
  }

  /** The guards on the new document: it has `meta` with `published` set and a
      non-empty `pathname`, and a non-empty `owner_id`. */
  predicate Qualifies(after: Option<DeckData>)
  {
    && after.Some?
    && after.value.meta.Some?
    && after.value.meta.value.published
    && Present(after.value.meta.value.pathname)
    && Present(after.value.ownerId)
  }

  /** What `findToken` settles with: a rejection when the token document does
      not exist (or cannot be read), otherwise the document's `github.token`. */
  datatype TokenDocument = TokenMissing | TokenFound(githubToken: Option<string>)

  /** What git does at each step. */
  datatype GitAnswers = GitAnswers(
    clone: CloneAnswer,
    checkoutOk: bool,
    listRemote: ListRemoteAnswer,
    pull: PullAnswer,
    commitOk: bool,
    pushOk: bool)

  /** Everything the handler learns from outside: the verdict of
      `isDeckPublished`, the token store, the four API replies, git, and the
      configured author name and email. */
  datatype Env = Env(
    deckPublished: bool,
    tokens: TokenDocument,
    viewer: Reply<Option<User>>,
    lookup: Reply<Option<Repo>>,
    cloneTemplate: Reply<Option<CloneTemplatePayload>>,
    pullRequest: Reply<Option<CreatePullRequestPayload>>,
    git: GitAnswers,
    authorName: string,
    authorEmail: string)

  /** How an invocation ends. There is no rejected outcome: a silent return is
      `NotApplicable`, an error caught by the top-level `catch` and written to
      the console is `Logged`. */
  datatype Outcome = NotApplicable | Logged(error: Error) | Completed

  /** Where the checks before the working copy leave the handler: stopped, or
      ready with a token, a user and a repository; `events` are the effects
      performed so far. */
  datatype GateResult =
    | Stop(outcome: Outcome, events: seq<Event>)
    | Proceed(token: string, user: User, repo: Repo, events: seq<Event>)

  function ApiEvents(queries: seq<Query>): (es: seq<Event>)
    ensures |es| == |queries|
    ensures forall k :: 0 <= k < |es| ==> es[k] == Api(queries[k])
  {
    if queries == [] then [] else [Api(queries[0])] + ApiEvents(queries[1..])
  }

  /** The handler up to and including `findOrCreateRepo` and the checks on its
      result. */
  function Gate(change: Change, env: Env): (g: GateResult)
    ensures !Qualifies(change.after) ==> g == Stop(NotApplicable, [])
    ensures !env.deckPublished ==> g == Stop(NotApplicable, [])
    ensures Qualifies(change.after) && env.deckPublished ==>
              |g.events| > 0 && g.events[0] == TokenLookup(change.after.value.ownerId.value)
    ensures forall k :: 0 <= k < |g.events| ==> !IsStepEffect(g.events[k])
    ensures g.Stop? ==> !g.outcome.Completed?
    ensures g.Stop? && g.outcome.Logged? ==> g.outcome.error in {TokenNotFound, QueryFailed, MalformedViewer}
    ensures Qualifies(change.after) && env.deckPublished && env.tokens.TokenMissing? ==>
              g == Stop(Logged(TokenNotFound), [TokenLookup(change.after.value.ownerId.value)])
    ensures Qualifies(change.after) && env.deckPublished && env.tokens.TokenFound? &&
            Present(env.tokens.githubToken) && env.viewer.Failed? ==>
              g == Stop(Logged(QueryFailed), [TokenLookup(change.after.value.ownerId.value), Api(ViewerQuery)])
    ensures g.Proceed? ==>
              && Qualifies(change.after) && env.deckPublished
              && env.tokens == TokenFound(Some(g.token)) && g.token != ""
              && env.viewer.Json? && env.viewer.data == Some(Some(g.user))
              && g.repo.url != ""
  {
    if !Qualifies(change.after) || !env.deckPublished then Stop(NotApplicable, [])
    else
      var looked := [TokenLookup(change.after.value.ownerId.value)];
      match env.tokens
      case TokenMissing => Stop(Logged(TokenNotFound), looked)
      case TokenFound(token) =>
        if !Present(token) then Stop(NotApplicable, looked)
        else
          var viewer := GetUser(env.viewer);
          var afterViewer := looked + ApiEvents(viewer.queries);
          match viewer.answer
          case Threw(error) => Stop(Logged(error), afterViewer)
          case Resolved(user) =>
            if user.None? then Stop(NotApplicable, afterViewer)
            else
              var found := FindOrCreateRepo(user, env.lookup, env.cloneTemplate);
              var afterRepo := afterViewer + ApiEvents(found.queries);
              match found.answer
              case Threw(error) => Stop(Logged(error), afterRepo)
              case Resolved(repo) =>
                if repo.None? || repo.value.url == "" then Stop(NotApplicable, afterRepo)
                else Proceed(token.value, user.value, repo.value, afterRepo)
  }

  /** The repository the handler would work on, read off the raw replies: the
      looked-up one when the lookup found one (GraphQL errors in the lookup are
      ignored), otherwise the one the clone mutation returned without errors. */
  function RepositoryFrom(env: Env): Option<Repo>
  {
    if Found(env.lookup) then env.lookup.data.value
    else if env.lookup.Json? && env.cloneTemplate.Json? && env.cloneTemplate.data.Some?
            && env.cloneTemplate.data.value.Some? && !env.cloneTemplate.errors
    then env.cloneTemplate.data.value.value.repository
    else None
  }

  /** The handler reaches the working copy exactly when the change qualifies,
      `isDeckPublished` agrees, the token, viewer and repository are all there
      and the repository has a URL. */
  lemma GateProceedsExactly(change: Change, env: Env)
    ensures Gate(change, env).Proceed? <==>
              && Qualifies(change.after) && env.deckPublished
              && env.tokens.TokenFound? && Present(env.tokens.githubToken)
              && env.viewer.Json? && env.viewer.data.Some? && env.viewer.data.value.Some?
              && RepositoryFrom(env).Some? && RepositoryFrom(env).value.url != ""
    ensures Gate(change, env).Proceed? ==> Gate(change, env).repo == RepositoryFrom(env).value
  {
  }

  /** The error the checks before the working copy log, read off the raw
      answers: a missing token document; a viewer reply that failed or has no
      `data`; a failed lookup; a failed clone mutation after a lookup that
      found nothing. Every other stop is silent. */
  function GateError(env: Env): Option<Error>
  {
    if env.tokens.TokenMissing? then Some(TokenNotFound)
    else if !Present(env.tokens.githubToken) then None
    else if env.viewer.Failed? then Some(QueryFailed)
    else if env.viewer.data.None? then Some(MalformedViewer)
    else if env.viewer.data.value.None? then None
    else if env.lookup.Failed? then Some(QueryFailed)
    else if !Found(env.lookup) && env.cloneTemplate.Failed? then Some(QueryFailed)
    else None
  }

  /** A rejection before the working copy reaches the top-level `catch` and is
      logged exactly when the change qualifies, `isDeckPublished` agrees and
      one of the answers is a failure `GateError` names; it is that error. */
  lemma GateLogsExactly(change: Change, env: Env)
    ensures Gate(change, env).Stop? && Gate(change, env).outcome.Logged? <==>
              Qualifies(change.after) && env.deckPublished && GateError(env).Some?
    ensures Gate(change, env).Stop? && Gate(change, env).outcome.Logged? ==>
              Gate(change, env).outcome.error == GateError(env).value
  {
  }

  /** One awaited step and whether it settled without an error. */
  datatype StepRun = StepRun(step: Step, ok: bool)

  /** The steps ran in `Pipeline` order, each one only after all earlier ones
      succeeded. */
  predicate RanInOrder(steps: seq<StepRun>)
  {
    && |steps| <= |Pipeline|
    && (forall i :: 0 <= i < |steps| ==> steps[i].step == Pipeline[i])
    && (forall i :: 0 <= i < |steps| - 1 ==> steps[i].ok)
  }

  /** The effects belong to the first `n` steps and come in step order. */
  predicate InStepOrder(es: seq<Event>, n: nat)
  {
    && (forall i :: 0 <= i < |es| ==> 1 <= Rank(es[i]) <= n)
    && (forall i, j :: 0 <= i < j < |es| ==> Rank(es[i]) <= Rank(es[j]))
  }

  /** Whether `pull` succeeds: `ls-remote` answered, and either the branch is
      not on the remote (nothing is pulled) or the pull went through. */
  predicate PullSucceeds(git: GitAnswers)
  {
    git.listRemote.Listed? && (!RemoteBranchExists(git.listRemote.output) || git.pull.Pulled?)
  }

  /** The files at the fixed path once clone and pull have succeeded: the
      pulled tree when the rolling branch was on the remote, the cloned tree
      otherwise. */
  function FetchedTree(git: GitAnswers): map<string, string>
  {
    if git.listRemote.Listed? && RemoteBranchExists(git.listRemote.output) && git.pull.Pulled? then git.pull.tree
    else if git.clone.Cloned? then git.clone.tree
    else map[]
  }

  /** Whether each step of `Pipeline` succeeds when it runs, read off the
      answers of the outside world. */
  function Verdicts(env: Env): (oks: seq<bool>)
    ensures |oks| == |Pipeline|
  {
    [ env.git.clone.Cloned?,
      env.git.checkoutOk,
      PullSucceeds(env.git),
      IndexPath in FetchedTree(env.git),
      env.git.commitOk,
      env.git.pushOk,
      !env.pullRequest.Failed? ]
  }

  /** The steps of `plan` run in turn, up to and including the first one that
      fails. */
  function RunUntilFailure(plan: seq<Step>, oks: seq<bool>): seq<StepRun>
    requires |plan| == |oks|
  {
    if plan == [] then []
    else [StepRun(plan[0], oks[0])] + (if oks[0] then RunUntilFailure(plan[1..], oks[1..]) else [])
  }

  /** The steps the handler runs once the gate lets it proceed. */
  function ExpectedSteps(env: Env): seq<StepRun>
  {
    RunUntilFailure(Pipeline, Verdicts(env))
  }

  /** `steps` follows `plan` with the verdicts `oks`, every step but the last
      succeeded, and the run stops only at the end of the plan or at a failure. */
  predicate StopsAtFirstFailure(steps: seq<StepRun>, plan: seq<Step>, oks: seq<bool>)
    requires |plan| == |oks|
  {
    && |steps| <= |plan|
    && (forall i :: 0 <= i < |steps| ==> steps[i] == StepRun(plan[i], oks[i]))
    && (forall i :: 0 <= i < |steps| - 1 ==> oks[i])
    && (|steps| == |plan| || (0 < |steps| && !oks[|steps| - 1]))
  }

  lemma StopsAtFirstFailureTail(steps: seq<StepRun>, plan: seq<Step>, oks: seq<bool>)
    requires |plan| == |oks| && 0 < |plan| && 0 < |steps| && oks[0]
    ensures StopsAtFirstFailure(steps, plan, oks) <==>
              steps[0] == StepRun(plan[0], oks[0]) && StopsAtFirstFailure(steps[1..], plan[1..], oks[1..])
  {
    if steps[0] == StepRun(plan[0], oks[0]) && StopsAtFirstFailure(steps[1..], plan[1..], oks[1..]) {
      forall i | 0 < i < |steps|
        ensures steps[i] == StepRun(plan[i], oks[i])
      {
        assert steps[1..][i - 1] == steps[i];
      }
      forall i | 0 < i < |steps| - 1
        ensures oks[i]
      {
        assert oks[1..][i - 1] == oks[i];
      }
    }
  }

  /** `RunUntilFailure` is characterised by `StopsAtFirstFailure`: it is the
      one sequence of steps that follows the plan and stops at the first
      failure. */
  lemma {:induction false} RunUntilFailureExactly(plan: seq<Step>, oks: seq<bool>, steps: seq<StepRun>)
    requires |plan| == |oks|
    ensures steps == RunUntilFailure(plan, oks) <==> StopsAtFirstFailure(steps, plan, oks)
    decreases |plan|
  {
    if plan != [] && oks[0] && steps != [] {
      RunUntilFailureExactly(plan[1..], oks[1..], steps[1..]);
      StopsAtFirstFailureTail(steps, plan, oks);
      assert steps == [steps[0]] + steps[1..];
    } else if plan != [] && !oks[0] && 1 < |steps| {
      assert !StopsAtFirstFailure(steps, plan, oks) by {
        assert 0 < |steps| - 1;
      }
    }
  }

  /** A run completes, every step having run and the last having succeeded,
      exactly when every verdict is a success. */
  lemma RunUntilFailureCompletes(plan: seq<Step>, oks: seq<bool>)
    requires |plan| == |oks| && 0 < |plan|
    ensures var run := RunUntilFailure(plan, oks);
            (|run| == |plan| && run[|run| - 1].ok) <==> forall i :: 0 <= i < |oks| ==> oks[i]
  {
    var run := RunUntilFailure(plan, oks);
    RunUntilFailureExactly(plan, oks, run);
    if forall i :: 0 <= i < |oks| ==> oks[i] {
      assert |run| == |plan|;
    }
  }

  /** Every answer of the outside world is a success. */
  predicate AllAnswersSucceed(env: Env)
  {
    && env.git.clone.Cloned?
    && env.git.checkoutOk
    && PullSucceeds(env.git)
    && IndexPath in FetchedTree(env.git)
    && env.git.commitOk
    && env.git.pushOk
    && !env.pullRequest.Failed?
  }

  /** The handler runs all seven steps to success exactly when every answer
      is a success. */
  lemma ExpectedStepsComplete(env: Env)
    ensures var run := ExpectedSteps(env);
            (|run| == |Pipeline| && run[|run| - 1].ok) <==> AllAnswersSucceed(env)
  {
    var oks := Verdicts(env);
    RunUntilFailureCompletes(Pipeline, oks);
    if AllAnswersSucceed(env) {
      assert forall i :: 0 <= i < |oks| ==> oks[i];
    } else {
      assert !(oks[0] && oks[1] && oks[2] && oks[3] && oks[4] && oks[5] && oks[6]);
    }
  }

  /** The working-copy part of a run so far: at least the clone ran, and the
      steps ran in order with the verdicts `oks`. */
  predicate Progress(steps: seq<StepRun>, oks: seq<bool>)
  {
    && 0 < |steps|
    && RanInOrder(steps)
    && |oks| == |Pipeline|
    && (forall i :: 0 <= i < |steps| ==> steps[i].ok == oks[i])
  }

  /** What the handler logs when `step` fails: the push names the repository
      in its message, the pull-request call rethrows the transport failure,
      every other step fails with its own error. */
  function StepError(step: Step, login: string): Error
  {
    match step
    case PushStep => PushFailed(PushErrorMessage(login, ProjectName))
    case CreatePRStep => QueryFailed
    case _ => StepFailed(step)
  }

  /** Running the next step after a successful one keeps `Progress`. */
  lemma ExtendProgress(steps: seq<StepRun>, oks: seq<bool>, next: StepRun)
    requires Progress(steps, oks) && steps[|steps| - 1].ok
    requires |steps| < |Pipeline| && next.step == Pipeline[|steps|] && next.ok == oks[|steps|]
    ensures Progress(steps + [next], oks)
  {
  }

  /** A finished run is the one `RunUntilFailure` gives. */
  lemma ProgressStopsAtFirstFailure(steps: seq<StepRun>, oks: seq<bool>)
    requires Progress(steps, oks)
    requires |steps| == |Pipeline| || !steps[|steps| - 1].ok
    ensures steps == RunUntilFailure(Pipeline, oks)
  {
    RunUntilFailureExactly(Pipeline, oks, steps);
  }

  /** The effects `step` leaves when it runs on `repo` with the answers of
      `env`: the clone, the listing and the pull go to the repository's URL,
      the push to the remote carrying `login:token`, the pull request to the
      repository's id. The pull happens only when the listing shows the
      rolling branch, and the deck is written only when it could be read. */
  function StepEffects(step: Step, repo: Repo, login: string, token: string, env: Env): seq<Event>
  {
    match step
    case CloneStep => [RemoveWorkingDir, GitClone(repo.url)]
    case CheckoutStep => [GitCheckout(PublishBranch)]
    case PullStep =>
      [GitListRemote(repo.url, PublishBranch)] +
      (if env.git.listRemote.Listed? && RemoteBranchExists(env.git.listRemote.output)
       then [GitPull(repo.url, PublishBranch)] else [])
    case ParseDeckStep =>
      if IndexPath in FetchedTree(env.git) then [FileRead(IndexPath), FileWrite(IndexPath)] else [FileRead(IndexPath)]
    case CommitStep => [GitCommit({IndexPath})]
    case PushStep => [GitPush(PushUrl(login, token, ProjectName), PublishBranch)]
    case CreatePRStep =>
      [Api(CreatePullRequestMutation(repo.id, PublishBranch, BaseBranch, PullRequestTitle, PullRequestBody))]
  }

  /** The effects of the steps `runs`, one step after the other. */
  function EffectsOf(runs: seq<StepRun>, repo: Repo, login: string, token: string, env: Env): seq<Event>
  {
    if runs == [] then []
    else EffectsOf(runs[..|runs| - 1], repo, login, token, env) + StepEffects(runs[|runs| - 1].step, repo, login, token, env)
  }

  /** The effects of everything after the gate: those of `ExpectedSteps`. */
  function WorkEffects(repo: Repo, login: string, token: string, env: Env): seq<Event>
  {
    EffectsOf(ExpectedSteps(env), repo, login, token, env)
  }

  lemma ExtendEffects(runs: seq<StepRun>, next: StepRun, repo: Repo, login: string, token: string, env: Env)
    ensures EffectsOf(runs + [next], repo, login, token, env)
            == EffectsOf(runs, repo, login, token, env) + StepEffects(next.step, repo, login, token, env)
  {
    assert (runs + [next])[..|runs|] == runs;
  }

  /** Every effect of a step has that step's rank. */
  lemma StepEffectsRank(step: Step, repo: Repo, login: string, token: string, env: Env)
    ensures OfStep(StepEffects(step, repo, login, token, env), step)
  {
  }

  /** Effects of the next step, appended after those of the first `n`, keep
      the step order. */
  lemma AppendInStepOrder(prev: seq<Event>, last: seq<Event>, n: nat, step: Step)
    requires InStepOrder(prev, n) && OfStep(last, step) && StepRank(step) == n + 1
    ensures InStepOrder(prev + last, n + 1)
  {
    var es := prev + last;
    forall i, j | 0 <= i < j < |es|
      ensures Rank(es[i]) <= Rank(es[j])
    {
      if i < |prev| && |prev| <= j {
        assert Rank(es[i]) <= n;
      }
    }
  }

  /** The effects of steps run in `Pipeline` order start with the removal of
      the old directory, belong to those steps, and come in step order. */
  lemma {:induction false} EffectsInStepOrder(runs: seq<StepRun>, repo: Repo, login: string, token: string, env: Env)
    requires 0 < |runs| && RanInOrder(runs)
    ensures var es := EffectsOf(runs, repo, login, token, env);
            0 < |es| && es[0] == RemoveWorkingDir && InStepOrder(es, |runs|)
    decreases |runs|
  {
    var init := runs[..|runs| - 1];
    var prev := EffectsOf(init, repo, login, token, env);
    var last := StepEffects(runs[|runs| - 1].step, repo, login, token, env);
    StepEffectsRank(runs[|runs| - 1].step, repo, login, token, env);
    assert runs[|runs| - 1].step == Pipeline[|runs| - 1];
    if init == [] {
      assert runs[0].step == CloneStep;
      assert prev + last == last;
    } else {
      EffectsInStepOrder(init, repo, login, token, env);
      AppendInStepOrder(prev, last, |init|, runs[|runs| - 1].step);
    }
  }

  lemma EffectsOfPrefix(runs: seq<StepRun>, k: nat, repo: Repo, login: string, token: string, env: Env)
    requires k < |runs|
    ensures EffectsOf(runs[..k + 1], repo, login, token, env)
            == EffectsOf(runs[..k], repo, login, token, env) + StepEffects(runs[k].step, repo, login, token, env)
  {
    assert runs[..k + 1][..k] == runs[..k];
  }

  /** The run in which every step succeeds. */
  const FullRun: seq<StepRun> :=
    [StepRun(CloneStep, true), StepRun(CheckoutStep, true), StepRun(PullStep, true),
     StepRun(ParseDeckStep, true), StepRun(CommitStep, true), StepRun(PushStep, true),
     StepRun(CreatePRStep, true)]

  /** When every answer succeeds, the handler runs every step of `Pipeline`,
      each successfully. */
  lemma ExpectedStepsOnSuccess(env: Env)
    requires AllAnswersSucceed(env)
    ensures ExpectedSteps(env) == FullRun
  {
    RunUntilFailureExactly(Pipeline, Verdicts(env), FullRun);
  }

  /** The effects of fetching: directory removal, clone, checkout, listing
      and, when the listing shows the rolling branch, the pull. */
  function FetchEffects(repo: Repo, env: Env): seq<Event>
  {
    [RemoveWorkingDir, GitClone(repo.url), GitCheckout(PublishBranch), GitListRemote(repo.url, PublishBranch)]
    + (if env.git.listRemote.Listed? && RemoteBranchExists(env.git.listRemote.output)
       then [GitPull(repo.url, PublishBranch)] else [])
  }

  lemma FullRunFetches(repo: Repo, login: string, token: string, env: Env)
    ensures EffectsOf(FullRun[..3], repo, login, token, env) == FetchEffects(repo, env)
  {
    EffectsOfPrefix(FullRun, 0, repo, login, token, env);
    EffectsOfPrefix(FullRun, 1, repo, login, token, env);
    EffectsOfPrefix(FullRun, 2, repo, login, token, env);
    assert FullRun[..0] == [];
  }

  lemma FullRunParses(repo: Repo, login: string, token: string, env: Env)
    requires IndexPath in FetchedTree(env.git)
    ensures EffectsOf(FullRun[..4], repo, login, token, env)
            == EffectsOf(FullRun[..3], repo, login, token, env) + [FileRead(IndexPath), FileWrite(IndexPath)]
  {
    EffectsOfPrefix(FullRun, 3, repo, login, token, env);
  }

  lemma FullRunDelivers(repo: Repo, login: string, token: string, env: Env)
    ensures EffectsOf(FullRun, repo, login, token, env)
            == EffectsOf(FullRun[..4], repo, login, token, env) + Delivery(login, token, repo.id)
  {
    var prepared := EffectsOf(FullRun[..4], repo, login, token, env);
    var d := Delivery(login, token, repo.id);
    EffectsOfPrefix(FullRun, 4, repo, login, token, env);
    assert EffectsOf(FullRun[..5], repo, login, token, env) == prepared + [d[0]];
    EffectsOfPrefix(FullRun, 5, repo, login, token, env);
    assert EffectsOf(FullRun[..6], repo, login, token, env) == prepared + [d[0]] + [d[1]];
    EffectsOfPrefix(FullRun, 6, repo, login, token, env);
    assert FullRun[..7] == FullRun;
    assert prepared + [d[0]] + [d[1]] + [d[2]] == prepared + d;
  }

  /** When every answer succeeds, everything after the gate leaves exactly:
      the removal of the old directory, the clone of the repository, the
      checkout of the rolling branch, its listing and (when it is on the
      remote) its pull, the read and write of the entry file, then the
      commit, the token-bearing push and the pull-request mutation. */
  lemma WorkEffectsComplete(repo: Repo, login: string, token: string, env: Env)
    requires AllAnswersSucceed(env)
    ensures WorkEffects(repo, login, token, env)
            == FetchEffects(repo, env) + [FileRead(IndexPath), FileWrite(IndexPath)] + Delivery(login, token, repo.id)
  {
    ExpectedStepsOnSuccess(env);
    FullRunFetches(repo, login, token, env);
    FullRunParses(repo, login, token, env);
    FullRunDelivers(repo, login, token, env);
  }

  /** The identity `commit` and `push` set: the configured author. */
  function Author(env: Env): Identity
  {
    Identity(env.authorName, env.authorEmail)
  }

  /** The state of the working copy after `step` ran on state `c` with the
      answers of `env`, as each `WorkingCopy` method leaves it. */
  function StepCopy(step: Step, c: CopyState, env: Env): CopyState
  {
    match step
    case CloneStep =>
      (match env.git.clone
       case CloneFailed => EmptyCopy
       case Cloned(defaultBranch, tree) => CopyState(tree, defaultBranch, [], false, None))
    case CheckoutStep => if env.git.checkoutOk then c.(branch := PublishBranch) else c
    case PullStep =>
      if env.git.listRemote.Listed? && RemoteBranchExists(env.git.listRemote.output) && env.git.pull.Pulled?
      then c.(files := env.git.pull.tree)
      else c
    case ParseDeckStep =>
      if IndexPath in c.files then c.(files := c.files[IndexPath := Materialize(c.files[IndexPath])]) else c
    case CommitStep =>
      c.(identity := Some(Author(env)),
         commits := if env.git.commitOk && IndexPath in c.files
                    then c.commits + [CommitRecord(CommitMessage, Author(env), map[IndexPath := c.files[IndexPath]])]
                    else c.commits)
    case PushStep => c.(identity := Some(Author(env)), pushed := c.pushed || env.git.pushOk)
    case CreatePRStep => c
  }

  /** The state of the working copy after the steps `runs`, one after the
      other, starting from an empty one. */
  function CopyAfter(runs: seq<StepRun>, env: Env): CopyState
  {
    if runs == [] then EmptyCopy
    else StepCopy(runs[|runs| - 1].step, CopyAfter(runs[..|runs| - 1], env), env)
  }

  /** One more step changes the working copy as that step does. */
  lemma ExtendCopy(runs: seq<StepRun>, next: StepRun, env: Env)
    ensures CopyAfter(runs + [next], env) == StepCopy(next.step, CopyAfter(runs, env), env)
  {
    assert (runs + [next])[..|runs|] == runs;
  }

  /** The files right after the clone: none when it failed. */
  function ClonedTree(git: GitAnswers): map<string, string>
  {
    if git.clone.Cloned? then git.clone.tree else map[]
  }

  /** The branch right after the clone: the default one, or none. */
  function ClonedBranch(git: GitAnswers): string
  {
    if git.clone.Cloned? then git.clone.defaultBranch else ""
  }

  /** The fetched tree with its entry file materialised. */
  function DeckTree(git: GitAnswers): map<string, string>
  {
    var fetched := FetchedTree(git);
    if IndexPath in fetched then fetched[IndexPath := Materialize(fetched[IndexPath])] else fetched
  }

  /** What the working copy holds after any run of the handler's steps: the
      files of the last file-changing step that succeeded, the rolling branch
      once the checkout succeeded, a commit exactly when the commit succeeded,
      the configured identity once the commit step ran, and a push exactly
      when the push succeeded. */
  predicate CopyFits(c: CopyState, runs: seq<StepRun>, env: Env)
  {
    && c.files == (if |runs| > 3 && runs[3].ok then DeckTree(env.git)
                   else if |runs| > 2 && runs[2].ok then FetchedTree(env.git)
                   else ClonedTree(env.git))
    && c.branch == (if |runs| > 1 && runs[1].ok then PublishBranch else ClonedBranch(env.git))
    && c.commits == (if |runs| > 4 && runs[4].ok && IndexPath in DeckTree(env.git)
                     then [CommitRecord(CommitMessage, Author(env), map[IndexPath := DeckTree(env.git)[IndexPath]])]
                     else [])
    && c.identity == (if |runs| > 4 then Some(Author(env)) else None)
    && (c.pushed <==> |runs| > 5 && runs[5].ok)
  }

  /** The working copy a complete run leaves behind: the rewritten tree on the
      rolling branch, one commit of the rewritten entry file by the configured
      identity, pushed. */
  function PublishedCopy(env: Env): CopyState
    requires IndexPath in FetchedTree(env.git)
  {
    CopyState(DeckTree(env.git), PublishBranch,
              [CommitRecord(CommitMessage, Author(env), map[IndexPath := Materialize(FetchedTree(env.git)[IndexPath])])],
              true, Some(Author(env)))
  }

  /** When every answer succeeds, the steps leave exactly `PublishedCopy`. */
  lemma CompleteRunCopy(env: Env)
    requires AllAnswersSucceed(env)
    ensures CopyAfter(ExpectedSteps(env), env) == PublishedCopy(env)
  {
    ExpectedStepsOnSuccess(env);
    assert Progress(FullRun, Verdicts(env));
    CopyAfterFits(FullRun, env);
  }

  /** The state before the last step of `runs` fits the steps before it. */
  predicate FitsBeforeLast(c: CopyState, runs: seq<StepRun>, env: Env)
  {
    2 <= |runs| && Progress(runs, Verdicts(env)) && CopyFits(c, runs[..|runs| - 1], env)
  }

  // One lemma per step after the clone: that step keeps `CopyFits`.

  lemma CheckoutFits(c: CopyState, runs: seq<StepRun>, env: Env)
    requires FitsBeforeLast(c, runs, env) && |runs| == 2
    ensures CopyFits(StepCopy(CheckoutStep, c, env), runs, env)
  {
  }

  lemma PullFits(c: CopyState, runs: seq<StepRun>, env: Env)
    requires FitsBeforeLast(c, runs, env) && |runs| == 3
    ensures CopyFits(StepCopy(PullStep, c, env), runs, env)
  {
  }

  lemma ParseDeckFits(c: CopyState, runs: seq<StepRun>, env: Env)
    requires FitsBeforeLast(c, runs, env) && |runs| == 4
    ensures CopyFits(StepCopy(ParseDeckStep, c, env), runs, env)
  {
  }

  lemma CommitFits(c: CopyState, runs: seq<StepRun>, env: Env)
    requires FitsBeforeLast(c, runs, env) && |runs| == 5
    ensures CopyFits(StepCopy(CommitStep, c, env), runs, env)
  {
  }

  lemma PushFits(c: CopyState, runs: seq<StepRun>, env: Env)
    requires FitsBeforeLast(c, runs, env) && |runs| == 6
    ensures CopyFits(StepCopy(PushStep, c, env), runs, env)
  {
  }

  lemma CreatePRFits(c: CopyState, runs: seq<StepRun>, env: Env)
    requires FitsBeforeLast(c, runs, env) && |runs| == 7
    ensures CopyFits(StepCopy(CreatePRStep, c, env), runs, env)
  {
  }

  lemma {:induction false} CopyAfterFits(runs: seq<StepRun>, env: Env)
    requires Progress(runs, Verdicts(env))
    ensures CopyFits(CopyAfter(runs, env), runs, env)
    decreases |runs|
  {
    var init := runs[..|runs| - 1];
    var n := |runs| - 1;
    assert runs[n].step == Pipeline[n];
    if n == 0 {
      assert init == [];
      return;
    }
    assert Progress(init, Verdicts(env));
    CopyAfterFits(init, env);
    var c := CopyAfter(init, env);
    match runs[n].step
    case CloneStep =>
    case CheckoutStep => CheckoutFits(c, runs, env);
    case PullStep => PullFits(c, runs, env);
    case ParseDeckStep => ParseDeckFits(c, runs, env);
    case CommitStep => CommitFits(c, runs, env);
    case PushStep => PushFits(c, runs, env);
    case CreatePRStep => CreatePRFits(c, runs, env);
  }

  /** The working copy a run leaves behind once the deck has been rewritten:
      on the rolling branch, with an entry file free of placeholders, nothing
      committed or pushed yet. */
  predicate Prepared(wc: WorkingCopy)
    reads wc
  {
    && wc.branch == PublishBranch
    && IndexPath in wc.files
    && !Occurs(wc.files[IndexPath], TitleToken)
    && !Occurs(wc.files[IndexPath], AuthorToken)
    && wc.commits == []
    && !wc.pushed
  }

  /** The working copy after a complete run: on the rolling branch, pushed,
      with one commit that changes the entry file only and leaves no
      placeholder in it. */
  predicate Published(wc: WorkingCopy)
    reads wc
  {
    && wc.branch == PublishBranch
    && wc.pushed
    && |wc.commits| == 1
    && wc.commits[0].changes.Keys == {IndexPath}
    && !Occurs(wc.commits[0].changes[IndexPath], TitleToken)
    && !Occurs(wc.commits[0].changes[IndexPath], AuthorToken)
  }

  /** The steps that bring the repository to the fixed path: clone, check out
      the rolling branch, pull. Each step runs only when the previous one
      succeeded, and succeeds as the answers say. */
  method Fetch(token: string, user: User, repo: Repo, env: Env, wc: WorkingCopy)
    returns (failure: Option<Error>, steps: seq<StepRun>, effects: seq<Event>)
    modifies wc
    ensures Progress(steps, Verdicts(env)) && |steps| <= 3
    ensures effects == EffectsOf(steps, repo, user.login, token, env)
    ensures failure.None? <==> |steps| == 3 && steps[2].ok
    ensures failure.Some? ==>
              !steps[|steps| - 1].ok && failure.value == StepFailed(steps[|steps| - 1].step)
    ensures wc.Snapshot() == CopyAfter(steps, env)
    ensures failure.None? ==>
              wc.files == FetchedTree(env.git) && wc.branch == PublishBranch && wc.commits == [] && !wc.pushed
  {
    failure, effects := wc.Clone(repo.url, env.git.clone);
    steps := [StepRun(CloneStep, failure.None?)];
    ExtendEffects([], steps[0], repo, user.login, token, env);
    ExtendCopy([], steps[0], env);
    assert [] + steps == steps;
    if failure.Some? {
      return;
    }
    failure, steps, effects := Refresh(token, user, repo, env, wc, steps, effects);
    CopyAfterFits(steps, env);
  }

  /** On a fresh clone: check out the rolling branch, then pull it from the
      remote when the remote has it. */
  method Refresh(token: string, user: User, repo: Repo, env: Env, wc: WorkingCopy,
                 cloned: seq<StepRun>, local: seq<Event>)
    returns (failure: Option<Error>, steps: seq<StepRun>, effects: seq<Event>)
    requires Progress(cloned, Verdicts(env)) && |cloned| == 1 && cloned[0].ok
    requires local == EffectsOf(cloned, repo, user.login, token, env)
    requires wc.Snapshot() == CopyAfter(cloned, env)
    modifies wc
    ensures Progress(steps, Verdicts(env)) && 1 < |steps| <= 3
    ensures effects == EffectsOf(steps, repo, user.login, token, env)
    ensures failure.None? <==> |steps| == 3 && steps[2].ok
    ensures failure.Some? ==>
              !steps[|steps| - 1].ok && failure.value == StepFailed(steps[|steps| - 1].step)
    ensures wc.Snapshot() == CopyAfter(steps, env)
  {
    var events;
    var oks := Verdicts(env);
    steps, effects := cloned, local;
    failure, events := wc.CheckoutBranch(env.git.checkoutOk);
    assert events == StepEffects(CheckoutStep, repo, user.login, token, env);
    ExtendProgress(steps, oks, StepRun(CheckoutStep, failure.None?));
    ExtendEffects(steps, StepRun(CheckoutStep, failure.None?), repo, user.login, token, env);
    ExtendCopy(steps, StepRun(CheckoutStep, failure.None?), env);
    effects, steps := effects + events, steps + [StepRun(CheckoutStep, failure.None?)];
    if failure.Some? {
      return;
    }

    failure, events := wc.Pull(repo.url, env.git.listRemote, env.git.pull);
    assert events == StepEffects(PullStep, repo, user.login, token, env);
    ExtendProgress(steps, oks, StepRun(PullStep, failure.None?));
    ExtendEffects(steps, StepRun(PullStep, failure.None?), repo, user.login, token, env);
    ExtendCopy(steps, StepRun(PullStep, failure.None?), env);
    effects, steps := effects + events, steps + [StepRun(PullStep, failure.None?)];
  }

  /** The local steps: fetch the repository, then rewrite the deck. On success
      the entry file is `Materialize` of the fetched one. */
  method Prepare(token: string, user: User, repo: Repo, env: Env, wc: WorkingCopy)
    returns (failure: Option<Error>, steps: seq<StepRun>, effects: seq<Event>)
    modifies wc
    ensures Progress(steps, Verdicts(env)) && |steps| <= 4
    ensures effects == EffectsOf(steps, repo, user.login, token, env)
    ensures failure.None? <==> |steps| == 4 && steps[3].ok
    ensures failure.Some? ==>
              !steps[|steps| - 1].ok && failure.value == StepFailed(steps[|steps| - 1].step)
    ensures wc.Snapshot() == CopyAfter(steps, env)
    ensures failure.None? ==>
              Prepared(wc) && wc.files[IndexPath] == Materialize(FetchedTree(env.git)[IndexPath])
  {
    failure, steps, effects := Fetch(token, user, repo, env, wc);
    if failure.Some? {
      return;
    }
    var events;
    failure, events := wc.ParseDeck();
    ExtendCopy(steps, StepRun(ParseDeckStep, failure.None?), env);
    ExtendProgress(steps, Verdicts(env), StepRun(ParseDeckStep, failure.None?));
    ExtendEffects(steps, StepRun(ParseDeckStep, failure.None?), repo, user.login, token, env);
    effects, steps := effects + events, steps + [StepRun(ParseDeckStep, failure.None?)];
  }

  /** The last effects of a complete run: the commit of the entry file, the
      push of the rolling branch to the remote that carries the token, and
      the pull-request mutation. */
  function Delivery(login: string, token: string, repositoryId: string): seq<Event>
  {
    [ GitCommit({IndexPath}),
      GitPush(PushUrl(login, token, ProjectName), PublishBranch),
      Api(CreatePullRequestMutation(repositoryId, PublishBranch, BaseBranch, PullRequestTitle, PullRequestBody)) ]
  }

  /** Commit and push on a prepared working copy, the push only after the
      commit succeeded. */
  method Ship(token: string, user: User, repo: Repo, env: Env, wc: WorkingCopy,
              prepared: seq<StepRun>, local: seq<Event>)
    returns (failure: Option<Error>, steps: seq<StepRun>, effects: seq<Event>)
    requires Progress(prepared, Verdicts(env)) && |prepared| == 4 && prepared[3].ok
    requires local == EffectsOf(prepared, repo, user.login, token, env)
    requires Prepared(wc) && wc.Snapshot() == CopyAfter(prepared, env)
    modifies wc
    ensures Progress(steps, Verdicts(env)) && 4 < |steps| <= 6
    ensures effects == EffectsOf(steps, repo, user.login, token, env)
    ensures steps[..4] == prepared && |local| <= |effects| && effects[..|local|] == local
    ensures failure.None? <==> |steps| == 6 && steps[5].ok
    ensures failure.Some? ==>
              !steps[|steps| - 1].ok && failure.value == StepError(steps[|steps| - 1].step, user.login)
    ensures wc.files == old(wc.files) && wc.Snapshot() == CopyAfter(steps, env)
    ensures failure.None? ==>
              && Published(wc)
              && wc.commits == [CommitRecord(CommitMessage, Identity(env.authorName, env.authorEmail),
                                             map[IndexPath := wc.files[IndexPath]])]
              && effects == local + [GitCommit({IndexPath}), GitPush(PushUrl(user.login, token, ProjectName), PublishBranch)]
  {
    failure, steps, effects := CommitDeck(token, user, repo, env, wc, prepared, local);
    if failure.Some? {
      return;
    }
    var committed := effects;
    failure, steps, effects := PushBranch(token, user, repo, env, wc, steps, committed);
    assert effects == local + [GitCommit({IndexPath})] + [GitPush(PushUrl(user.login, token, ProjectName), PublishBranch)];
  }

  /** The commit, once the deck was rewritten: it changes only the commits and
      the configured identity. */
  method CommitDeck(token: string, user: User, repo: Repo, env: Env, wc: WorkingCopy,
                    prepared: seq<StepRun>, local: seq<Event>)
    returns (failure: Option<Error>, steps: seq<StepRun>, effects: seq<Event>)
    requires Progress(prepared, Verdicts(env)) && |prepared| == 4 && prepared[3].ok
    requires local == EffectsOf(prepared, repo, user.login, token, env)
    requires wc.Snapshot() == CopyAfter(prepared, env) && IndexPath in wc.files
    modifies wc`identity, wc`commits
    ensures steps == prepared + [StepRun(CommitStep, env.git.commitOk)]
    ensures Progress(steps, Verdicts(env))
    ensures effects == EffectsOf(steps, repo, user.login, token, env)
    ensures effects == local + [GitCommit({IndexPath})]
    ensures failure.None? <==> env.git.commitOk
    ensures failure.Some? ==> failure.value == StepFailed(CommitStep)
    ensures failure.None? ==>
              wc.commits == old(wc.commits) + [CommitRecord(CommitMessage, Author(env), map[IndexPath := wc.files[IndexPath]])]
    ensures wc.Snapshot() == CopyAfter(steps, env)
  {
    var events;
    failure, events := wc.Commit(env.authorName, env.authorEmail, env.git.commitOk);
    ExtendCopy(prepared, StepRun(CommitStep, failure.None?), env);
    ExtendProgress(prepared, Verdicts(env), StepRun(CommitStep, failure.None?));
    ExtendEffects(prepared, StepRun(CommitStep, failure.None?), repo, user.login, token, env);
    effects, steps := local + events, prepared + [StepRun(CommitStep, failure.None?)];
  }

  /** The push, once the commit succeeded: it changes only whether the branch
      is on the remote and the configured identity. */
  method PushBranch(token: string, user: User, repo: Repo, env: Env, wc: WorkingCopy,
                    committed: seq<StepRun>, local: seq<Event>)
    returns (failure: Option<Error>, steps: seq<StepRun>, effects: seq<Event>)
    requires Progress(committed, Verdicts(env)) && |committed| == 5 && committed[4].ok
    requires local == EffectsOf(committed, repo, user.login, token, env)
    requires wc.Snapshot() == CopyAfter(committed, env)
    modifies wc`identity, wc`pushed
    ensures steps == committed + [StepRun(PushStep, env.git.pushOk)]
    ensures Progress(steps, Verdicts(env))
    ensures effects == EffectsOf(steps, repo, user.login, token, env)
    ensures effects == local + [GitPush(PushUrl(user.login, token, ProjectName), PublishBranch)]
    ensures failure.None? <==> env.git.pushOk
    ensures failure.Some? ==> failure.value == StepError(PushStep, user.login)
    ensures failure.None? ==> wc.pushed
    ensures wc.Snapshot() == CopyAfter(steps, env)
  {
    var events;
    failure, events := wc.Push(token, env.authorName, env.authorEmail, user.login, ProjectName, env.git.pushOk);
    ExtendCopy(committed, StepRun(PushStep, failure.None?), env);
    ExtendProgress(committed, Verdicts(env), StepRun(PushStep, failure.None?));
    ExtendEffects(committed, StepRun(PushStep, failure.None?), repo, user.login, token, env);
    effects, steps := local + events, committed + [StepRun(PushStep, failure.None?)];
  }

  /** The remote steps on a prepared working copy: commit, push, open the pull
      request. Each step runs only when the previous one succeeded, and
      succeeds as the answers say. */
  method Deliver(token: string, user: User, repo: Repo, env: Env, wc: WorkingCopy,
                 prepared: seq<StepRun>, local: seq<Event>)
    returns (failure: Option<Error>, steps: seq<StepRun>, effects: seq<Event>)
    requires Progress(prepared, Verdicts(env)) && |prepared| == 4 && prepared[3].ok
    requires local == EffectsOf(prepared, repo, user.login, token, env)
    requires Prepared(wc) && wc.Snapshot() == CopyAfter(prepared, env)
    modifies wc
    ensures Progress(steps, Verdicts(env)) && 4 < |steps|
    ensures effects == EffectsOf(steps, repo, user.login, token, env)
    ensures steps[..4] == prepared && |local| <= |effects| && effects[..|local|] == local
    ensures failure.None? <==> |steps| == |Pipeline| && steps[|steps| - 1].ok
    ensures failure.Some? ==>
              !steps[|steps| - 1].ok && failure.value == StepError(steps[|steps| - 1].step, user.login)
    ensures wc.files == old(wc.files) && wc.Snapshot() == CopyAfter(steps, env)
    ensures failure.None? ==>
              && Published(wc)
              && wc.commits == [CommitRecord(CommitMessage, Identity(env.authorName, env.authorEmail),
                                             map[IndexPath := wc.files[IndexPath]])]
              && effects == local + Delivery(user.login, token, repo.id)
  {
    var shipped;
    failure, steps, shipped := Ship(token, user, repo, env, wc, prepared, local);
    effects := shipped;
    if failure.Some? {
      return;
    }

    var pr := CreatePR(repo.id, env.pullRequest);
    var events := ApiEvents(pr.queries);
    ExtendProgress(steps, Verdicts(env), StepRun(CreatePRStep, pr.answer.Resolved?));
    ExtendEffects(steps, StepRun(CreatePRStep, pr.answer.Resolved?), repo, user.login, token, env);
    ExtendCopy(steps, StepRun(CreatePRStep, pr.answer.Resolved?), env);
    effects, steps := shipped + events, steps + [StepRun(CreatePRStep, pr.answer.Resolved?)];
    failure := if pr.answer.Threw? then Some(pr.answer.error) else None;
    assert effects[..|local|] == local by {
      assert effects[..|local|] == shipped[..|local|];
    }
    if failure.None? {
      var d := Delivery(user.login, token, repo.id);
      assert d == [d[0], d[1]] + [d[2]];
      assert local + d == local + [d[0], d[1]] + [d[2]];
    }
  }

  /** A run that stopped at a failing step or ran every step is the expected
      one: its effects are `WorkEffects`, in step order, it is complete
      exactly when every answer succeeds, and then it leaves `PublishedCopy`. */
  lemma RunFinished(steps: seq<StepRun>, repo: Repo, login: string, token: string, env: Env)
    requires Progress(steps, Verdicts(env))
    requires |steps| == |Pipeline| || !steps[|steps| - 1].ok
    ensures steps == ExpectedSteps(env)
    ensures var es := WorkEffects(repo, login, token, env);
            0 < |es| && es[0] == RemoveWorkingDir && InStepOrder(es, |steps|)
    ensures (|steps| == |Pipeline| && steps[|steps| - 1].ok) <==> AllAnswersSucceed(env)
    ensures AllAnswersSucceed(env) ==>
              IndexPath in FetchedTree(env.git) && CopyAfter(steps, env) == PublishedCopy(env)
  {
    ProgressStopsAtFirstFailure(steps, Verdicts(env));
    ExpectedStepsComplete(env);
    EffectsInStepOrder(steps, repo, login, token, env);
    if AllAnswersSucceed(env) {
      CompleteRunCopy(env);
    }
  }

  /** Everything after the gate, on the repository it resolved: the steps run
      are exactly `ExpectedSteps(env)`, and a complete run commits the
      materialised entry file of the fetched tree, pushes it with the token
      and asks for the pull request. */
  method Work(token: string, user: User, repo: Repo, env: Env, wc: WorkingCopy)
    returns (failure: Option<Error>, steps: seq<StepRun>, effects: seq<Event>)
    modifies wc
    ensures Progress(steps, Verdicts(env))
    ensures steps == ExpectedSteps(env)
    ensures effects == WorkEffects(repo, user.login, token, env)
    ensures 0 < |effects| && effects[0] == RemoveWorkingDir && InStepOrder(effects, |steps|)
    ensures failure.None? <==> AllAnswersSucceed(env)
    ensures failure.Some? ==>
              !steps[|steps| - 1].ok && failure.value == StepError(steps[|steps| - 1].step, user.login)
    ensures wc.Snapshot() == CopyAfter(steps, env)
    ensures failure.None? ==>
              && IndexPath in FetchedTree(env.git)
              && wc.Snapshot() == PublishedCopy(env)
              && Published(wc)
              && 3 <= |effects|
              && effects[|effects| - 3..] == Delivery(user.login, token, repo.id)
  {
    failure, steps, effects := Prepare(token, user, repo, env, wc);
    if failure.None? {
      failure, steps, effects := Deliver(token, user, repo, env, wc, steps, effects);
    } else {
      assert steps[|steps| - 1].step == Pipeline[|steps| - 1];
    }
    RunFinished(steps, repo, user.login, token, env);
  }

  /** The whole handler. The working copy is only touched once `Gate` lets the
      handler proceed; after that the steps of `Pipeline` run in order, each
      gated on the previous one and succeeding as the answers say, and the
      first failure is logged and ends the run without any later effect. */
  method PublishToGitHub(change: Change, env: Env, wc: WorkingCopy)
    returns (outcome: Outcome, steps: seq<StepRun>, trace: seq<Event>)
    modifies wc
    ensures Gate(change, env).Stop? ==>
              && outcome == Gate(change, env).outcome
              && steps == []
              && trace == Gate(change, env).events
              && unchanged(wc)
    ensures var g := Gate(change, env);
            g.Proceed? ==>
              && steps == ExpectedSteps(env)
              && trace == g.events + WorkEffects(g.repo, g.user.login, g.token, env)
              && |g.events| < |trace| && trace[..|g.events|] == g.events
              && Progress(steps, Verdicts(env))
              && trace[|g.events|] == RemoveWorkingDir && InStepOrder(trace[|g.events|..], |steps|)
              && (outcome == Completed <==> AllAnswersSucceed(env))
              && (outcome != Completed ==>
                    outcome == Logged(StepError(steps[|steps| - 1].step, g.user.login))
                    && !steps[|steps| - 1].ok)
              && (outcome == Completed ==>
                    3 <= |trace| && trace[|trace| - 3..] == Delivery(g.user.login, g.token, g.repo.id))
              && wc.Snapshot() == CopyAfter(steps, env)
    ensures outcome == Completed ==>
              && IndexPath in FetchedTree(env.git)
              && wc.Snapshot() == PublishedCopy(env)
              && Published(wc)
  {
    var g := Gate(change, env);
    if g.Stop? {
      return g.outcome, [], g.events;
    }
    var failure, effects;
    failure, steps, effects := Work(g.token, g.user, g.repo, env, wc);
    trace := g.events + effects;
    assert trace[..|g.events|] == g.events && trace[|g.events|..] == effects;
    outcome := if failure.None? then Completed else Logged(failure.value);
  }
}
