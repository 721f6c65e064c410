/** The fixed names the publish pipeline uses, the steps it awaits in order,
    the externally visible effects it performs, and the errors that reach its
    top-level handler. */
module Effects {

  /** Name of the user repository, also the name of the fixed local directory. */
  const ProjectName: string := "test"
  /** The rolling branch every publication is pushed to. */
  const PublishBranch: string := "deckdeckgo"
  /** The base branch of the pull request. */
  const BaseBranch: string := "master"
  /** Id of the template repository new user repositories are cloned from. */
  const TemplateRepositoryId: string := "MDEwOlJlcG9zaXRvcnkxNTM0MDk2MTg="
  /** The only file the pipeline rewrites and commits, relative to the working copy. */
  const IndexPath: string := "src/index.html"
  const CommitMessage: string := "feat: last changes"
  const PullRequestTitle: string := "Hello World"
  const PullRequestBody: string := "Hello"

  /** The awaited calls of the pipeline once a repository is known, in the order the
      handler awaits them. */
  datatype Step = CloneStep | CheckoutStep | PullStep | ParseDeckStep | CommitStep | PushStep | CreatePRStep

  const Pipeline: seq<Step> :=
    [CloneStep, CheckoutStep, PullStep, ParseDeckStep, CommitStep, PushStep, CreatePRStep]

  /** Position (1-based) of a step in `Pipeline`. */
  function StepRank(s: Step): (k: nat)
    ensures 1 <= k <= |Pipeline| && Pipeline[k - 1] == s
  {
    match s
    case CloneStep => 1
    case CheckoutStep => 2
    case PullStep => 3
    case ParseDeckStep => 4
    case CommitStep => 5
    case PushStep => 6
    case CreatePRStep => 7
  }

  /** The GraphQL documents sent to the hosting API. */
  datatype Query =
    | ViewerQuery
    | RepositoryQuery(owner: string, name: string)
    | CloneTemplateMutation(templateId: string, ownerId: string, name: string)
    | CreatePullRequestMutation(repositoryId: string, head: string, base: string, title: string, body: string)

  /** An effect on the outside world: the token store, the hosting API, the
      local file system or a git remote. */
  datatype Event =
    | TokenLookup(ownerId: string)
    | Api(query: Query)
    | RemoveWorkingDir
    | GitClone(url: string)
    | GitCheckout(branch: string)
    | GitListRemote(url: string, branch: string)
    | GitPull(url: string, branch: string)
    | FileRead(path: string)
    | FileWrite(path: string)
    | GitCommit(paths: set<string>)
    | GitPush(remote: string, branch: string)

  /** The step an effect belongs to (its rank in `Pipeline`), or 0 for the
      effects that happen before the working copy is touched. */
  function Rank(e: Event): nat
  {
    match e
    case TokenLookup(_) => 0
    case Api(q) => if q.CreatePullRequestMutation? then StepRank(CreatePRStep) else 0
    case RemoveWorkingDir => StepRank(CloneStep)
    case GitClone(_) => StepRank(CloneStep)
    case GitCheckout(_) => StepRank(CheckoutStep)
    case GitListRemote(_, _) => StepRank(PullStep)
    case GitPull(_, _) => StepRank(PullStep)
    case FileRead(_) => StepRank(ParseDeckStep)
    case FileWrite(_) => StepRank(ParseDeckStep)
    case GitCommit(_) => StepRank(CommitStep)
    case GitPush(_, _) => StepRank(PushStep)
  }

  /** Every effect in `es` belongs to `step`. */
  predicate OfStep(es: seq<Event>, step: Step)
  {
    forall k :: 0 <= k < |es| ==> Rank(es[k]) == StepRank(step)
  }

  /** An effect of a pipeline step: one on the working copy, a git remote or,
      for the last step, the pull-request mutation (anything past the gate). */
  predicate IsStepEffect(e: Event)
  {
    Rank(e) > 0
  }

  /** What a rejected promise carries to the top-level `catch`. */
  datatype Error =
    | TokenNotFound               // the token document is missing or cannot be read
    | QueryFailed                 // the API answered with a non-ok status or no JSON body
    | MalformedViewer             // the viewer answer carried no `data` to read `viewer` from
    | StepFailed(step: Step)      // git or the file system failed in that step
    | PushFailed(message: string) // the sanitised error built by `push`
}
