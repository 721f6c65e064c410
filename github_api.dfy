/** The calls the pipeline makes to the hosting provider's GraphQL API, as
    functions of the replies it gets. Each reply is what `queryGitHub`
    followed by `response.json()` produced; the HTTP transport itself is not
    part of the model. */
module GitHubApi {
  import opened Wrappers
  import opened Effects

  datatype User = User(id: string, login: string)

  datatype Repo = Repo(id: string, url: string, nameWithOwner: string)

  /** A reply of the API: `Failed` when `queryGitHub` throws (a non-ok status)
      or the body is not JSON; otherwise the parsed body, where `data` is the
      one field the caller reads below `data` (absent when `data` itself is
      absent) and `errors` says whether an `errors` member is present (any
      present array, even an empty one, is truthy). */
  datatype Reply<T> = Failed | Json(data: Option<T>, errors: bool)

  /** How a promise settles. */
  datatype Answer<T> = Threw(error: Error) | Resolved(value: T)

  /** A settled call together with the API requests it issued, in order. */
  datatype Call<T> = Call(answer: Answer<T>, queries: seq<Query>)

  /** `data.cloneTemplateRepository` of the clone mutation's reply. */
  datatype CloneTemplatePayload = CloneTemplatePayload(repository: Option<Repo>)

  /** `data.createPullRequest` of the pull-request mutation's reply. */
  datatype CreatePullRequestPayload = CreatePullRequestPayload(pullRequestId: Option<string>)

  /** A mutation reply that the code treats as "no result": no `data`, no
      mutation field under it, or an `errors` member. */
  predicate SoftFailure<T>(reply: Reply<Option<T>>)
  {
    reply.Json? && (reply.data.None? || reply.data.value.None? || reply.errors)
  }

  /** The repository lookup found a repository (`repo.data.repository` truthy). */
  predicate Found(lookup: Reply<Option<Repo>>)
  {
    lookup.Json? && lookup.data.Some? && lookup.data.value.Some?
  }

  /** `getUser`: resolves with `data.viewer`, rejects when the transport fails
      or when there is no `data` to read `viewer` from. GraphQL errors are not
      looked at. */
  function GetUser(reply: Reply<Option<User>>): (c: Call<Option<User>>)
    ensures c.queries == [ViewerQuery]
    ensures c.answer.Threw? <==> reply.Failed? || reply.data.None?
    ensures c.answer.Threw? ==> c.answer.error == if reply.Failed? then QueryFailed else MalformedViewer
    ensures c.answer.Resolved? ==> reply.Json? && reply.data == Some(c.answer.value)
  {
    match reply
    case Failed => Call(Threw(QueryFailed), [ViewerQuery])
    case Json(None, _) => Call(Threw(MalformedViewer), [ViewerQuery])
    case Json(Some(viewer), _) => Call(Resolved(viewer), [ViewerQuery])
  }

  /** `createRepo`: clones the template repository into the user's account. */
  function CreateRepo(user: Option<User>, reply: Reply<Option<CloneTemplatePayload>>): (c: Call<Option<Repo>>)
    ensures user.None? ==> c == Call(Resolved(None), [])
    ensures user.Some? ==>
              c.queries == [CloneTemplateMutation(TemplateRepositoryId, user.value.id, ProjectName)]
    ensures user.Some? ==> (c.answer.Threw? <==> reply.Failed?)
    ensures c.answer.Threw? ==> c.answer.error == QueryFailed
    ensures user.Some? && SoftFailure(reply) ==> c.answer == Resolved(None)
    ensures c.answer.Resolved? && c.answer.value.Some? ==>
              reply == Json(Some(Some(CloneTemplatePayload(c.answer.value))), false)
    ensures user.Some? && reply.Json? && !SoftFailure(reply) ==>
              c.answer == Resolved(reply.data.value.value.repository)
  {
    if user.None? then Call(Resolved(None), [])
    else
      var queries := [CloneTemplateMutation(TemplateRepositoryId, user.value.id, ProjectName)];
      match reply
      case Failed => Call(Threw(QueryFailed), queries)
      case Json(data, errors) =>
        if data.None? || data.value.None? || errors then Call(Resolved(None), queries)
        else Call(Resolved(data.value.value.repository), queries)
  }

  /** `findOrCreateRepo`: looks the repository `<login>/test` up and returns it
      when found; otherwise returns whatever `createRepo` returns. The fixed
      two-second settle delay before that return is not modelled. */
  function FindOrCreateRepo(user: Option<User>, lookup: Reply<Option<Repo>>,
                            create: Reply<Option<CloneTemplatePayload>>): (c: Call<Option<Repo>>)
    ensures user.None? ==> c == Call(Resolved(None), [])
    ensures user.Some? ==> |c.queries| > 0 && c.queries[0] == RepositoryQuery(user.value.login, ProjectName)
    ensures user.Some? && Found(lookup) ==>
              c == Call(Resolved(lookup.data.value), [RepositoryQuery(user.value.login, ProjectName)])
    ensures user.Some? && lookup.Failed? ==>
              c == Call(Threw(QueryFailed), [RepositoryQuery(user.value.login, ProjectName)])
    ensures user.Some? && lookup.Json? && !Found(lookup) ==>
              c.answer == CreateRepo(user, create).answer &&
              c.queries[1..] == CreateRepo(user, create).queries
    ensures (exists k :: 0 <= k < |c.queries| && c.queries[k].CloneTemplateMutation?) <==>
              user.Some? && lookup.Json? && !Found(lookup)
    ensures forall k :: 0 <= k < |c.queries| ==> !c.queries[k].CreatePullRequestMutation?
  {
    if user.None? then Call(Resolved(None), [])
    else
      var lookupQuery := RepositoryQuery(user.value.login, ProjectName);
      match lookup
      case Failed => Call(Threw(QueryFailed), [lookupQuery])
      case Json(data, _) =>
        if data.Some? && data.value.Some? then Call(Resolved(data.value), [lookupQuery])
        else
          var created := CreateRepo(user, create);
          var queries := [lookupQuery] + created.queries;
          assert queries[1].CloneTemplateMutation?;
          Call(created.answer, queries)
  }

  /** `createPR`: opens a pull request from the rolling branch into the base
      branch. Resolves in every case but a transport failure; `confirmed` says
      whether the reply carried the pull request, which the caller cannot see
      (both paths resolve with `undefined`). */
  function CreatePR(repositoryId: string, reply: Reply<Option<CreatePullRequestPayload>>): (c: Call<bool>)
    ensures c.queries == [CreatePullRequestMutation(repositoryId, PublishBranch, BaseBranch, PullRequestTitle, PullRequestBody)]
    ensures c.answer.Threw? <==> reply.Failed?
    ensures c.answer.Threw? ==> c.answer.error == QueryFailed
    ensures SoftFailure(reply) ==> c.answer == Resolved(false)
    ensures c.answer == Resolved(true) <==> reply.Json? && !SoftFailure(reply)
  {
    var queries := [CreatePullRequestMutation(repositoryId, PublishBranch, BaseBranch, PullRequestTitle, PullRequestBody)];
    match reply
    case Failed => Call(Threw(QueryFailed), queries)
    case Json(data, errors) =>
      Call(Resolved(!(data.None? || data.value.None? || errors)), queries)
  }

  /** A hosting backend that answers repository lookups from its table of
      repositories, keyed by (owner login, name). A missing repository reads
      as `repository: null` with an `errors` member, as the API reports it. */
  datatype Hosting = Hosting(repos: map<(string, string), Repo>)

  function LookupReply(h: Hosting, owner: string, name: string): (reply: Reply<Option<Repo>>)
    ensures Found(reply) <==> (owner, name) in h.repos
  {
    if (owner, name) in h.repos then Json(Some(Some(h.repos[(owner, name)])), false)
    else Json(Some(None), true)
  }

  /** The backend after a `findOrCreateRepo` call: a repository it returned
      without finding it was created under the user's account. */
  function AfterCreate(h: Hosting, user: User, call: Call<Option<Repo>>): Hosting
  {
    if call.answer.Resolved? && call.answer.value.Some? && (user.login, ProjectName) !in h.repos
    then Hosting(h.repos[(user.login, ProjectName) := call.answer.value.value])
    else h
  }

  /** Finding or creating is idempotent against a consistent backend: a second
      call returns the same repository as the first and issues no clone
      mutation, whatever the clone mutation would have answered. */
  lemma FindOrCreateIdempotent(h: Hosting, user: User,
                               create1: Reply<Option<CloneTemplatePayload>>,
                               create2: Reply<Option<CloneTemplatePayload>>)
    requires var first := FindOrCreateRepo(Some(user), LookupReply(h, user.login, ProjectName), create1);
             first.answer.Resolved? && first.answer.value.Some?
    ensures var first := FindOrCreateRepo(Some(user), LookupReply(h, user.login, ProjectName), create1);
            var second := FindOrCreateRepo(Some(user),
                            LookupReply(AfterCreate(h, user, first), user.login, ProjectName), create2);
            second.answer == first.answer &&
            second.queries == [RepositoryQuery(user.login, ProjectName)]
  {
  }
}
