/** The local working copy at the fixed temporary path and the git and file
    steps the pipeline runs on it: `clone`, `checkoutBranch`, `pull`,
    `parseDeck`, `commit` and `push`. What git and the remote answer is given
    to each step as a parameter. */
module WorkingCopies {
  import opened Wrappers
  import opened Text
  import opened Effects
  import opened DeckContent

  datatype Identity = Identity(name: string, email: string)

  /** A commit made in the working copy: its message, its author and the file
      contents it records (only the paths it was asked to commit). */
  datatype CommitRecord = CommitRecord(message: string, author: Identity, changes: map<string, string>)

  /** The whole state of a working copy, as a value. */
  datatype CopyState = CopyState(files: map<string, string>, branch: string, commits: seq<CommitRecord>,
                                 pushed: bool, identity: Option<Identity>)

  /** The state of an empty working copy: nothing at the fixed path yet. */
  const EmptyCopy: CopyState := CopyState(map[], "", [], false, None)

  /** What `git clone` does: fail, or check out the default branch with these files. */
  datatype CloneAnswer = CloneFailed | Cloned(defaultBranch: string, tree: map<string, string>)

  /** What `git ls-remote <url> deckdeckgo` does: fail, or print something
      (`None` for `undefined`). */
  datatype ListRemoteAnswer = ListFailed | Listed(output: Option<string>)

  /** What `git pull <url> deckdeckgo` does: fail, or merge into these files. */
  datatype PullAnswer = PullFailed | Pulled(tree: map<string, string>)

  /** The remote branch is taken to exist exactly when `ls-remote` printed a
      non-empty string. */
  predicate RemoteBranchExists(output: Option<string>)
  {
    output.Some? && output.value != ""
  }

  const PushUrlScheme: string := "https://"
  const PushErrorLead: string := "Error while pushing changes to branch deckdeckgo for"

  /** The remote `push` uses: the token rides in the userinfo of the URL. */
  function PushUrl(login: string, token: string, project: string): string
  {
    PushUrlScheme + login + ":" + token + "@github.com/" + login + "/" + project + ".git"
  }

  /** The error `push` raises instead of git's own, which may quote the URL. */
  function PushErrorMessage(login: string, project: string): string
  {
    PushErrorLead + " " + login + "/" + project
  }

  /** Index of the first character of `s` that is one of `delimiters`, or
      `|s|` when there is none. */
  function FirstIndex(s: string, delimiters: set<char>): (k: nat)
    ensures k <= |s|
    ensures k < |s| ==> s[k] in delimiters
    ensures forall j :: 0 <= j < k ==> s[j] !in delimiters
  {
    if |s| == 0 then 0
    else if s[0] in delimiters then 0
    else 1 + FirstIndex(s[1..], delimiters)
  }

  /** The characters that end the authority (section 3.2 of RFC 3986): the
      start of the path, of the query or of the fragment. */
  const AuthorityEnd: set<char> := {'/', '?', '#'}

  /** The authority of what follows the scheme: everything up to the first
      `/`, `?` or `#`. */
  function Authority(rest: string): string
  {
    rest[..FirstIndex(rest, AuthorityEnd)]
  }

  /** The userinfo of an authority: what precedes its first `@`, if any. */
  function UserinfoPart(authority: string): Option<string>
  {
    var at := FirstIndex(authority, {'@'});
    if at == |authority| then None else Some(authority[..at])
  }

  /** User and password of a userinfo, split at its first colon. */
  function Credentials(userinfo: string): (string, string)
  {
    var colon := FirstIndex(userinfo, {':'});
    if colon == |userinfo| then (userinfo, "") else (userinfo[..colon], userinfo[colon + 1..])
  }

  /** User and password carried by an `https` URL, in the reading of sections
      3.2 and 3.2.1 of RFC 3986: the authority runs up to the first `/`, `?`
      or `#`, the userinfo is what precedes `@` in it, and a colon separates
      user from password. */
  function Userinfo(url: string): Option<(string, string)>
  {
    if !StartsWith(url, PushUrlScheme) then None
    else
      match UserinfoPart(Authority(url[|PushUrlScheme|..]))
      case None => None
      case Some(userinfo) => Some(Credentials(userinfo))
  }

  lemma FirstIndexAfter(a: string, delimiters: set<char>, c: char, b: string)
    requires c in delimiters
    requires forall j :: 0 <= j < |a| ==> a[j] !in delimiters
    ensures FirstIndex(a + [c] + b, delimiters) == |a|
  {
    var s := a + [c] + b;
    forall j | 0 <= j < |a|
      ensures s[j] !in delimiters
    {
      assert s[j] == a[j];
    }
    assert s[|a|] == c;
  }

  lemma AuthorityBeforeSlash(authority: string, path: string)
    requires '/' !in authority && '?' !in authority && '#' !in authority
    ensures Authority(authority + ['/'] + path) == authority
  {
    forall j | 0 <= j < |authority|
      ensures authority[j] !in AuthorityEnd
    {
      assert authority[j] in authority;
    }
    FirstIndexAfter(authority, AuthorityEnd, '/', path);
    assert (authority + ['/'] + path)[..|authority|] == authority;
  }

  lemma UserinfoBeforeAt(userinfo: string, host: string)
    requires '@' !in userinfo && '@' !in host
    ensures UserinfoPart(userinfo + ['@'] + host) == Some(userinfo)
  {
    forall j | 0 <= j < |userinfo|
      ensures userinfo[j] !in {'@'}
    {
      assert userinfo[j] in userinfo;
    }
    FirstIndexAfter(userinfo, {'@'}, '@', host);
    assert (userinfo + ['@'] + host)[..|userinfo|] == userinfo;
  }

  lemma CredentialsAtColon(user: string, password: string)
    requires ':' !in user
    ensures Credentials(user + [':'] + password) == (user, password)
  {
    forall j | 0 <= j < |user|
      ensures user[j] !in {':'}
    {
      assert user[j] in user;
    }
    FirstIndexAfter(user, {':'}, ':', password);
    var info := user + [':'] + password;
    assert info[..|user|] == user;
    assert info[|user| + 1..] == password;
  }

  /** The push URL carries exactly `login:token` as its userinfo, when the login
      holds none of `:`, `@`, `/`, `?`, `#` and the token none of `@`, `/`,
      `?`, `#` (GitHub logins and tokens never do). */
  lemma PushUrlUserinfo(login: string, token: string, project: string)
    requires ':' !in login && '@' !in login && '/' !in login && '?' !in login && '#' !in login
    requires '@' !in token && '/' !in token && '?' !in token && '#' !in token
    ensures Userinfo(PushUrl(login, token, project)) == Some((login, token))
  {
    var url := PushUrl(login, token, project);
    var info := login + [':'] + token;
    var authority := info + ['@'] + "github.com";
    var path := login + "/" + project + ".git";
    var rest := authority + ['/'] + path;
    assert url == PushUrlScheme + rest;
    assert url[|PushUrlScheme|..] == rest;
    AuthorityBeforeSlash(authority, path);
    UserinfoBeforeAt(info, "github.com");
    CredentialsAtColon(login, token);
  }

  /** An occurrence of `q` in `a + [c] + b`, where `q` does not hold `c`, lies
      wholly inside `a` or wholly inside `b`. */
  lemma OccurrenceAroundSeparator(a: string, c: char, b: string, q: string, i: nat)
    requires c !in q
    ensures OccursAt(a + [c] + b, q, i) ==> OccursAt(a, q, i) || (i > |a| && OccursAt(b, q, i - |a| - 1))
  {
    var s := a + [c] + b;
    if i + |q| <= |a| {
      assert s[i..i + |q|] == a[i..i + |q|];
    } else if i > |a| && i + |q| <= |s| {
      assert s[i..i + |q|] == b[i - |a| - 1..i - |a| - 1 + |q|];
    } else if i + |q| <= |s| {
      // the separator falls inside the window, and `q` has no `c`
      assert s[i..i + |q|][|a| - i] == c && c in s[i..i + |q|];
    }
  }

  /** The sanitised push error contains the token only where the fixed wording,
      the login or the project name already does, for any token without spaces
      and slashes. */
  lemma PushErrorHidesToken(login: string, project: string, token: string)
    requires ' ' !in token && '/' !in token
    ensures Occurs(PushErrorMessage(login, project), token) ==>
              Occurs(PushErrorLead, token) || Occurs(login, token) || Occurs(project, token)
  {
    var msg := PushErrorMessage(login, project);
    var tail := login + "/" + project;
    assert msg == PushErrorLead + [' '] + tail;
    assert tail == login + ['/'] + project;
    if Occurs(msg, token) {
      var i: nat :| i <= |msg| && OccursAt(msg, token, i);
      OccurrenceAroundSeparator(PushErrorLead, ' ', tail, token, i);
      if OccursAt(PushErrorLead, token, i) {
        assert i <= |PushErrorLead|;
      } else {
        var j: nat := i - |PushErrorLead| - 1;
        OccurrenceAroundSeparator(login, '/', project, token, j);
        if OccursAt(login, token, j) {
          assert j <= |login|;
        } else {
          assert j - |login| - 1 <= |project|;
        }
      }
    }
  }

  /** The working copy at the fixed local path. `files` maps paths relative to
      its root to contents; `commits` are the commits made in it since it was
      cloned (the history fetched from the remote is not modelled). */
  class WorkingCopy {
    var files: map<string, string>
    var branch: string
    var commits: seq<CommitRecord>
    var pushed: bool
    var identity: Option<Identity>

    /** The state of this working copy, as a value. */
    function Snapshot(): CopyState
      reads this
    {
      CopyState(files, branch, commits, pushed, identity)
    }

    /** Nothing at the fixed path yet. */
    constructor ()
      ensures files == map[] && branch == "" && commits == []
      ensures !pushed && identity == None
      ensures Snapshot() == EmptyCopy
    {
      files, branch, commits := map[], "", [];
      pushed, identity := false, None;
    }

    /** `clone`: removes whatever an earlier run left at the fixed path, then
        clones the repository there. */
    method Clone(url: string, answer: CloneAnswer) returns (failure: Option<Error>, events: seq<Event>)
      modifies this
      ensures events == [RemoveWorkingDir, GitClone(url)]
      ensures OfStep(events, CloneStep)
      ensures failure.Some? <==> answer.CloneFailed?
      ensures failure.Some? ==> failure.value == StepFailed(CloneStep)
      ensures answer.Cloned? ==> files == answer.tree && branch == answer.defaultBranch
      ensures answer.CloneFailed? ==> files == map[] && branch == ""
      ensures commits == [] && !pushed && identity == None
    {
      files, branch, commits := map[], "", [];
      pushed, identity := false, None;
      events := [RemoveWorkingDir, GitClone(url)];
      match answer
      case CloneFailed =>
        failure := Some(StepFailed(CloneStep));
      case Cloned(defaultBranch, tree) =>
        files, branch := tree, defaultBranch;
        failure := None;
    }

    /** `checkoutBranch`: `git checkout -B deckdeckgo` creates the branch, or
        resets it when it exists, at the current commit and checks it out. */
    method CheckoutBranch(ok: bool) returns (failure: Option<Error>, events: seq<Event>)
      modifies this`branch
      ensures events == [GitCheckout(PublishBranch)]
      ensures OfStep(events, CheckoutStep)
      ensures ok ==> failure == None && branch == PublishBranch
      ensures !ok ==> failure == Some(StepFailed(CheckoutStep)) && branch == old(branch)
    {
      events := [GitCheckout(PublishBranch)];
      if ok {
        branch := PublishBranch;
        failure := None;
      } else {
        failure := Some(StepFailed(CheckoutStep));
      }
    }

    /** `pull`: asks the remote for the rolling branch and pulls it only when
        the answer is a non-empty string. */
    method Pull(url: string, listed: ListRemoteAnswer, pulled: PullAnswer)
      returns (failure: Option<Error>, events: seq<Event>)
      modifies this`files
      ensures var onRemote := listed.Listed? && RemoteBranchExists(listed.output);
              && events == [GitListRemote(url, PublishBranch)] + (if onRemote then [GitPull(url, PublishBranch)] else [])
              && (failure.Some? <==> listed.ListFailed? || (onRemote && pulled.PullFailed?))
              && files == if failure.None? && onRemote then pulled.tree else old(files)
      ensures failure.Some? ==> failure.value == StepFailed(PullStep)
      ensures OfStep(events, PullStep)
    {
      events := [GitListRemote(url, PublishBranch)];
      match listed
      case ListFailed =>
        failure := Some(StepFailed(PullStep));
      case Listed(output) =>
        if !RemoteBranchExists(output) {
          // the branch is not on the remote yet: pulling it would fail
          failure := None;
          return;
        }
        events := events + [GitPull(url, PublishBranch)];
        match pulled
        case PullFailed =>
          failure := Some(StepFailed(PullStep));
        case Pulled(tree) =>
          files := tree;
          failure := None;
    }

    /** `parseDeck`: reads the entry file, replaces both placeholders and
        writes the result back. Reading a missing file fails. */
    method ParseDeck() returns (failure: Option<Error>, events: seq<Event>)
      modifies this`files
      ensures IndexPath in old(files) ==>
                failure == None && events == [FileRead(IndexPath), FileWrite(IndexPath)] &&
                files == old(files)[IndexPath := Materialize(old(files)[IndexPath])]
      ensures IndexPath !in old(files) ==>
                failure == Some(StepFailed(ParseDeckStep)) && events == [FileRead(IndexPath)] &&
                files == old(files)
      ensures OfStep(events, ParseDeckStep)
      ensures failure.None? ==>
                IndexPath in files && !Occurs(files[IndexPath], TitleToken) &&
                !Occurs(files[IndexPath], AuthorToken)
      ensures forall path :: path != IndexPath ==> (path in files <==> path in old(files))
      ensures forall path :: path in files && path != IndexPath ==> files[path] == old(files)[path]
    {
      if IndexPath !in files {
        return Some(StepFailed(ParseDeckStep)), [FileRead(IndexPath)];
      }
      var data := files[IndexPath];
      var result := ReplaceAll(data, TitleToken, TitleValue);
      result := ReplaceAll(result, AuthorToken, AuthorValue);
      assert result == Materialize(data);
      files := files[IndexPath := result];
      failure, events := None, [FileRead(IndexPath), FileWrite(IndexPath)];
    }

    /** `commit`: sets the author identity, then commits the entry file alone
        (a path-limited commit: other changed files stay out of it). */
    method Commit(name: string, email: string, ok: bool) returns (failure: Option<Error>, events: seq<Event>)
      modifies this`identity, this`commits
      ensures identity == Some(Identity(name, email))
      ensures events == [GitCommit({IndexPath})]
      ensures OfStep(events, CommitStep)
      ensures failure.None? <==> ok && IndexPath in files
      ensures failure.Some? ==> failure.value == StepFailed(CommitStep)
      ensures failure.None? ==>
                commits == old(commits) + [CommitRecord(CommitMessage, Identity(name, email),
                                                        map[IndexPath := files[IndexPath]])]
      ensures failure.Some? ==> commits == old(commits)
    {
      identity := Some(Identity(name, email));
      events := [GitCommit({IndexPath})];
      if !ok || IndexPath !in files {
        return Some(StepFailed(CommitStep)), events;
      }
      commits := commits + [CommitRecord(CommitMessage, Identity(name, email), map[IndexPath := files[IndexPath]])];
      failure := None;
    }

    /** `push`: sets the author identity and pushes the rolling branch to the
        user's repository, authenticating with the token in the URL. Any git
        error is replaced by one naming only the branch, login and project. */
    method Push(token: string, name: string, email: string, login: string, project: string, ok: bool)
      returns (failure: Option<Error>, events: seq<Event>)
      modifies this`identity, this`pushed
      ensures identity == Some(Identity(name, email))
      ensures events == [GitPush(PushUrl(login, token, project), PublishBranch)]
      ensures OfStep(events, PushStep)
      ensures ok ==> failure == None && pushed
      ensures !ok ==> failure == Some(PushFailed(PushErrorMessage(login, project))) && pushed == old(pushed)
    {
      identity := Some(Identity(name, email));
      events := [GitPush(PushUrl(login, token, project), PublishBranch)];
      if ok {
        pushed := true;
        failure := None;
      } else {
        failure := Some(PushFailed(PushErrorMessage(login, project)));
      }
    }
  }
}
