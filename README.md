# Publishing a deck to GitHub — a Dafny model

DeckDeckGo's cloud function `publishToGitHub` runs whenever a deck document
changes. When the new version of the deck is published and has an owner, it
goes through these stages:

1. It looks up the owner's GitHub token.
2. It asks the GitHub GraphQL API for the user.
3. It finds the repository `<login>/test`, or creates it from a template.
4. It clones that repository into a fixed temporary directory.
5. It checks out the rolling branch `deckdeckgo` and pulls that branch when it exists on the remote.
6. It replaces the two placeholders `{{DECKDECKGO_TITLE}}` and `{{DECKDECKGO_AUTHOR}}` in `src/index.html`.
7. It commits that file, pushes the branch with the token in the remote URL, and opens a pull request into `master`.

From the token lookup onwards, any error is caught and logged. The call to
`isDeckPublished` (line 44) comes before the `try`, so a rejection there
would escape the handler. The model takes that call's answer as a boolean.

The model takes each answer of the outside world as a parameter:

- the token store;
- the four API replies;
- what git does at each step;
- the configured author name and email.

The model returns the outcome, the steps that ran and the trace of effects.

| file | module | what it holds |
|---|---|---|
| `wrappers.dfy` | `Wrappers` | `Option` |
| `text.dfy` | `Text` | global literal replacement (`String.prototype.replace` with a `g` regular expression) and its split/join reference definition |
| `effects.dfy` | `Effects` | the fixed names, the ordered pipeline of steps, GraphQL queries, observable effects, errors |
| `github_api.dfy` | `GitHubApi` | `getUser`, `findOrCreateRepo`, `createRepo`, `createPR` as functions of the API's replies |
| `deck_content.dfy` | `DeckContent` | the placeholder substitution of `parseDeck` |
| `working_copy.dfy` | `WorkingCopies` | the class `WorkingCopy` (files, branch, commits, push state, identity) with `clone`, `checkoutBranch`, `pull`, `parseDeck`, `commit`, `push`; the push URL and the sanitised push error |
| `publish.dfy` | `Publish` | the trigger guards, the gate up to `findOrCreateRepo`, and the whole handler as methods over a `WorkingCopy` |

The handler's outcome is `NotApplicable` (a silent `return`), `Logged(error)`
(the top-level `catch`) or `Completed`. The model has no rejected outcome:
`isDeckPublished` is an input, and every later failure ends in the `catch`.

## Model

| member | source | states |
|---|---|---|
| Text.ReplaceAllIsSplitJoin | cloud/functions/src/watch/github/publish-github.ts:382-383 | replacing every occurrence left to right equals splitting the input at the pattern and joining the pieces with the replacement |
| Text.JoinSplit | cloud/functions/src/watch/github/publish-github.ts:382-383 | splitting at the pattern and joining with the pattern gives the input back, so the text between placeholders is kept verbatim |
| Text.SplitPartsAvoidPattern | cloud/functions/src/watch/github/publish-github.ts:382-383 | no piece between two occurrences contains the pattern |
| Text.NoOccurrenceAfterReplaceAll | cloud/functions/src/watch/github/publish-github.ts:382-383 | when the replacement shares no character with the pattern, no occurrence is left after a global replace |
| Text.AbsenceKeptByReplaceAll | cloud/functions/src/watch/github/publish-github.ts:382-383 | the second replacement cannot bring back a placeholder the first one removed |
| Text.ReplaceAllWithoutOccurrence | cloud/functions/src/watch/github/publish-github.ts:382-383 | a text without the pattern is left unchanged |
| DeckContent.ValuesAvoidPlaceholders | cloud/functions/src/watch/github/publish-github.ts:382-383 | each of the values `test` and `david` shares no character with either placeholder |
| DeckContent.Materialize | cloud/functions/src/watch/github/publish-github.ts:380-385 | after both replacements no `{{DECKDECKGO_TITLE}}` and no `{{DECKDECKGO_AUTHOR}}` remains |
| DeckContent.MaterializeIsSplitJoin | cloud/functions/src/watch/github/publish-github.ts:380-385 | the materialised file is the input split at the title and joined with `test`, then split at the author and joined with `david`, so the text around the placeholders is kept |
| DeckContent.MaterializeKeepsPlainFile | cloud/functions/src/watch/github/publish-github.ts:380-385 | a file without placeholders is written back unchanged |
| Effects.StepRank | cloud/functions/src/watch/github/publish-github.ts:77-89 | every awaited step has its 1-based position in the fixed pipeline order |
| GitHubApi.GetUser | cloud/functions/src/watch/github/publish-github.ts:126-148 | issues the viewer query once; rejects exactly when the transport fails or the reply has no `data`; otherwise resolves with `data.viewer`, GraphQL errors notwithstanding |
| GitHubApi.CreateRepo | cloud/functions/src/watch/github/publish-github.ts:194-235 | without a user: `undefined` and no request; otherwise one clone-template mutation for template `MDEwOlJlcG9zaXRvcnkxNTM0MDk2MTg=` named `test`; rejects iff the transport fails; a reply without data, without the mutation field or with `errors` gives `undefined`; with a user and an error-free reply carrying the mutation field, the answer is the repository in that reply |
| GitHubApi.FindOrCreateRepo | cloud/functions/src/watch/github/publish-github.ts:150-192 | first request is the lookup of `<login>/test`; a found repository is returned with no further request; a failed lookup rejects; otherwise the answer and the remaining requests are those of `createRepo`; a clone mutation is issued exactly when a user is given and the lookup answered without finding; never a pull-request mutation |
| GitHubApi.CreatePR | cloud/functions/src/watch/github/publish-github.ts:237-268 | one mutation from `deckdeckgo` into `master` titled `Hello World`, body `Hello`; rejects iff the transport fails; resolves in every other case and the pull request was confirmed exactly when the reply has data, the mutation field and no `errors` |
| GitHubApi.FindOrCreateIdempotent | cloud/functions/src/watch/github/publish-github.ts:150-192 | against a consistent backend a second run returns the repository of the first and issues only the lookup, never a second clone mutation |
| WorkingCopies.PushUrlUserinfo | cloud/functions/src/watch/github/publish-github.ts:361 | the push remote, read as an `https` URL whose authority runs up to the first `/`, `?` or `#` and whose userinfo comes before its `@` (sections 3.2 and 3.2.1 of RFC 3986), carries exactly `login:token` as its userinfo |
| WorkingCopies.PushErrorHidesToken | cloud/functions/src/watch/github/publish-github.ts:362-366 | the error raised in place of git's contains the token only where the fixed wording, the login or the project name already does |
| WorkingCopies.WorkingCopy.Clone | cloud/functions/src/watch/github/publish-github.ts:291-302 | removes the directory, then clones; fails exactly when the clone fails; the new state is the cloned tree on the default branch with no commits made, nothing pushed and no identity |
| WorkingCopies.WorkingCopy.CheckoutBranch | cloud/functions/src/watch/github/publish-github.ts:312-319 | on success the current branch is `deckdeckgo`; on failure the branch is unchanged and the step error is raised |
| WorkingCopies.WorkingCopy.Pull | cloud/functions/src/watch/github/publish-github.ts:321-335 | lists the remote branch, pulls only when the listing printed a non-empty string; fails exactly when the listing fails or a pull that was attempted fails; the files change only by a successful pull |
| WorkingCopies.WorkingCopy.ParseDeck | cloud/functions/src/watch/github/publish-github.ts:369-392 | with `src/index.html` present: reads and writes it, its new content is `Materialize` of the old one, so no placeholder remains, and every other file is untouched; without it: fails after the read |
| WorkingCopies.WorkingCopy.Commit | cloud/functions/src/watch/github/publish-github.ts:337-350 | sets the identity; succeeds exactly when git answers that it made the commit and `src/index.html` exists, and then appends one commit `feat: last changes` by that identity recording only that file's content |
| WorkingCopies.WorkingCopy.Push | cloud/functions/src/watch/github/publish-github.ts:352-367 | sets the identity, pushes `deckdeckgo` to the token-bearing remote; on failure raises only the sanitised message naming `<login>/<project>` |
| Publish.Gate | cloud/functions/src/watch/github/publish-github.ts:31-69 | a change that fails the guards, or that `isDeckPublished` rejects, stops with no effect at all; otherwise the token lookup comes first; none of its effects touches the working copy or a git remote; a missing token document is logged as `TokenNotFound` after the lookup alone; a failed viewer query is logged as `QueryFailed` after the lookup and that query; a logged error is a missing token, a failed query or a malformed viewer; proceeding implies a non-empty token, the viewer from the reply and a repository with a URL |
| Publish.GateLogsExactly | cloud/functions/src/watch/github/publish-github.ts:51-69 | the gate logs an error if and only if the guards hold, the deck counts as published and `GateError` names one: no token document, a failed or data-less viewer query, a failed lookup, or a failed clone mutation after a lookup that found nothing; the logged error is that one |
| Publish.GateProceedsExactly | cloud/functions/src/watch/github/publish-github.ts:36-69 | the handler reaches the working copy if and only if the guards hold, the deck counts as published, the token is non-empty, the viewer is there and the found-or-created repository has a URL, and that repository is the looked-up one, else the one the clone mutation returned |
| Publish.RunUntilFailureExactly | cloud/functions/src/watch/github/publish-github.ts:77-92 | a sequence of steps is the one obtained by running the plan until the first failure if and only if it follows the plan with the given verdicts, every step but the last succeeded, and it ends at the plan's end or at a failed step |
| Publish.RunUntilFailureCompletes | cloud/functions/src/watch/github/publish-github.ts:77-92 | running until the first failure reaches the end of the plan with a success if and only if every verdict is a success |
| Publish.ExpectedStepsComplete | cloud/functions/src/watch/github/publish-github.ts:77-89 | the seven steps all run and succeed if and only if the clone, checkout, pull, commit, push and pull-request answers all succeed and the fetched tree holds `src/index.html` |
| Publish.ExpectedStepsOnSuccess | cloud/functions/src/watch/github/publish-github.ts:77-89 | when every answer succeeds, the handler runs all seven steps of the pipeline and each succeeds |
| Publish.EffectsInStepOrder | cloud/functions/src/watch/github/publish-github.ts:77-89 | the effects of steps run in pipeline order start with the removal of the old directory, each belongs to one of those steps, and they come in the order the handler awaits the steps |
| Publish.WorkEffectsComplete | cloud/functions/src/watch/github/publish-github.ts:77-89 | when every answer succeeds, the effects after the gate are exactly: remove the directory, clone `repo.url`, check out `deckdeckgo`, list it on `repo.url`, pull it from `repo.url` when listed, read and write `src/index.html`, commit it, push to the remote carrying `login:token`, request the pull request on the repository's id |
| Publish.CopyAfterFits | cloud/functions/src/watch/github/publish-github.ts:77-89 | the working copy after any in-order run: the cloned tree and default branch (nothing at all after a failed clone), the rolling branch once the checkout succeeded, the pulled tree once the pull succeeded, the rewritten entry file once the deck step succeeded, one commit exactly when the commit succeeded, the configured identity once the commit step ran, and pushed if and only if the push succeeded |
| Publish.CompleteRunCopy | cloud/functions/src/watch/github/publish-github.ts:77-89 | when every answer succeeds, the steps leave exactly `PublishedCopy`: the rewritten tree on `deckdeckgo`, one commit of the rewritten entry file by the configured identity, pushed |
| Publish.RunFinished | cloud/functions/src/watch/github/publish-github.ts:77-92 | a run that ends at a failed step or at the end of the pipeline is `ExpectedSteps`, its effects start with the directory removal and come in step order, it is complete if and only if every answer succeeds, and then it leaves `PublishedCopy` |
| Publish.Fetch | cloud/functions/src/watch/github/publish-github.ts:77-81 | clone, checkout and pull run in order, each only after the previous succeeded; each step succeeds exactly as its answer says; the effects are exactly those of the steps run, so the clone, the listing and the pull go to the gate's `repo.url`; a failure is the last step's own; the working copy is `CopyAfter` of the steps run, whether they failed or not; success leaves on `deckdeckgo` the pulled tree when the branch was on the remote, the cloned tree otherwise, with no commit and no push |
| Publish.Refresh | cloud/functions/src/watch/github/publish-github.ts:79-81 | on a fresh clone, checkout then pull, the pull only after a successful checkout, each succeeding as its answer says, with exactly the effects of the steps run and the working copy `CopyAfter` of them |
| Publish.Prepare | cloud/functions/src/watch/github/publish-github.ts:77-83 | the four local steps in order, each succeeding as its answer says, with exactly the effects of the steps run, leaving the working copy `CopyAfter` of those steps; the deck step succeeds exactly when the fetched tree holds `src/index.html`, and then that file is `Materialize` of the fetched one, free of placeholders, on `deckdeckgo` |
| Publish.Ship | cloud/functions/src/watch/github/publish-github.ts:85-87 | commit, then push only after a successful commit, each succeeding as its answer says, with exactly the effects of the steps run; the files are untouched and the working copy is `CopyAfter` of all steps run; success leaves one commit `feat: last changes` by the configured identity holding `src/index.html`, the branch pushed, and the new effects are the commit followed by the push of `deckdeckgo` to the remote carrying `login:token` |
| Publish.CommitDeck | cloud/functions/src/watch/github/publish-github.ts:85 | after the deck step the commit succeeds exactly as its answer says, appends exactly the commit of `src/index.html`, and on success adds one commit `feat: last changes` by the configured identity holding that file; it changes only the commits and the identity, leaving the working copy `CopyAfter` of the steps run |
| Publish.PushBranch | cloud/functions/src/watch/github/publish-github.ts:87 | after a successful commit the push succeeds exactly as its answer says, appends exactly the push of `deckdeckgo` to the remote carrying `login:token`, and changes only the push state and identity, leaving the working copy `CopyAfter` of the steps run |
| Publish.Deliver | cloud/functions/src/watch/github/publish-github.ts:85-89 | commit, push and pull request after the local steps, in order, each gated on the previous and succeeding as its answer says, with exactly the effects of the steps run and the working copy `CopyAfter` of them; the earlier steps and effects are kept as a prefix; the error of a failed step is that step's own, the push's being the sanitised message; success appends exactly the commit, the token-bearing push and the pull-request mutation into `master` |
| Publish.Work | cloud/functions/src/watch/github/publish-github.ts:77-92 | the steps run are exactly `ExpectedSteps`, those of the pipeline up to the first failing answer, and the effects are exactly `WorkEffects`, those of these steps on the gate's repository, in step order and starting with the directory removal; the working copy is `CopyAfter` of those steps, after a failure as after success; the run succeeds if and only if every answer does; a failure is logged with the last step's error; success leaves exactly `PublishedCopy` (the rewritten tree on `deckdeckgo`, one commit of `Materialize` of the fetched `src/index.html` by the configured identity, pushed) and ends with the push to the remote carrying the token and the pull-request mutation |
| Publish.PublishToGitHub | cloud/functions/src/watch/github/publish-github.ts:31-93 | a stopped gate leaves the working copy untouched and returns the gate's outcome and effects; otherwise the steps are exactly `ExpectedSteps`, the working copy is `CopyAfter` of them, and the trace is exactly the gate's effects followed by `WorkEffects` on the repository, login and token the gate resolved, which come in pipeline order; the outcome is `Completed` if and only if every answer succeeds; any other outcome logs the error of the last step run, which failed; on completion the copy is exactly `PublishedCopy`: the rewritten tree on `deckdeckgo`, pushed, with one commit holding `Materialize` of the fetched `src/index.html` by the configured identity, and the trace ends with the commit, the push to `https://<login>:<token>@github.com/<login>/test.git` and the pull-request mutation |

## Left out

- `findToken` (lines 95-116) is read as a `TokenDocument`. A missing document and a read error both become `TokenMissing`.
- `isDeckPublished` is a boolean input. Its call on line 44 sits outside the `try`, so a rejection there would make the handler itself reject. The model does not represent that.
- `queryGitHub` (lines 270-289) and `fetch` are reduced to a `Reply`. A non-ok status and a body that is not JSON are both `Failed`. The HTTP request, its headers and the console output are not modelled.
- The fixed fields of the clone mutation are not part of the `Query` value: description `Hello`, `includeAllBranches: false` and visibility `PUBLIC`.
- The two-second `setTimeout` before `findOrCreateRepo` resolves with a created repository is not modelled. Timing is outside the model.
- Concurrent invocations sharing the fixed directory `os.tmpdir()/test` are not modelled. Each run has a working copy of its own.
- `functions.config()` is not read. The author name and email are inputs.
- The `console.error` calls in the inner `catch` blocks are not modelled. Only the error reaching the top-level `catch` is kept, as `Logged`.
- The commented-out block at lines 394-407 is not modelled.
- git and the file system are reduced to answers: the clone's tree, ok flags, the `ls-remote` output and the pulled tree. Merging, history and the index are not modelled.
- WorkingCopies.WorkingCopy.Commit: the `ok` answer stands for git having made the commit. A republish whose `src/index.html` is unchanged since the last commit on `deckdeckgo` gives git nothing to commit; the model does not tell that case apart and records a commit whenever the answer is `ok`. The history fetched from the remote is outside the model, so the unchanged case cannot be detected from its state.
- WorkingCopies.WorkingCopy.ParseDeck: a failing write of `src/index.html` is not modelled. Only a missing file fails the step.
- The JavaScript strings are modelled as `seq<char>`. The UTF-16 code units and the replace call's regular-expression machinery (no special characters occur in the two patterns) are not modelled.
- `webcomponents/inline-editor/src/components/actions/color-actions/color-actions.tsx` is not part of this model.
