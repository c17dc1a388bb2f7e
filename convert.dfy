/**
 * The push-event normaliser: turns one record of the repository activity feed,
 * typed as a push event, into a partial document in the shape of a GitHub
 * `push` webhook. Only the fields the normaliser reads are modelled. Each Dafny
 * field is the camel-case form of its JSON field (`htmlUrl` is `html_url`,
 * `fullName` is `full_name`, `avatarUrl` is `avatar_url`, `baseRef` is
 * `base_ref`, `headCommit` is `head_commit`); the other names are the same.
 */
module Convert {
  import opened Wrappers
  import opened Strings

  /** Profile and repository pages live under this prefix. */
  const GITHUB_URL := "https://github.com/"
  /** The fixed e-mail address given to every pusher. */
  const PUSHER_EMAIL := "example@localhost"
  /** How many characters of a commit hash the compare URL keeps. */
  const SHA_ABBREVIATION: nat := 12

  // ---- The feed record (the fields of the `PushEvent` interface that are read) ----

  /** `actor`: the user who pushed. */
  datatype Actor = Actor(id: int, login: string, url: string, avatarUrl: string)

  /** `author` of a commit: the display name and e-mail, not the login. */
  datatype Author = Author(email: string, name: string)

  /** One element of `payload.commits`. */
  datatype Commit = Commit(sha: string, author: Author, message: string, distinct: bool)

  /** `repo`: `name` is the full `owner/name`. */
  datatype Repo = Repo(id: int, name: string, url: string)

  /** `payload`: `head` is the commit the ref now points to, `before` the one it pointed to. */
  datatype Payload = Payload(ref: string, head: string, before: string, commits: seq<Commit>)

  datatype PushEvent = PushEvent(actor: Actor, repo: Repo, payload: Payload)

  // ---- The webhook document ----

  /**
   * `repository`: `name` is the second `/`-separated segment of the full name, and is
   * missing (JavaScript `undefined`) when the full name has no `/`.
   */
  datatype PartialRepository =
    PartialRepository(id: int, name: Option<string>, fullName: string, url: string, htmlUrl: string)

  /** `sender`. */
  datatype PartialUser =
    PartialUser(login: string, id: int, avatarUrl: string, url: string, htmlUrl: string)

  /** One element of `commits`, and `head_commit`. */
  datatype PartialCommit =
    PartialCommit(id: string, distinct: bool, message: string, url: string, author: Author)

  /** `pusher`. */
  datatype Pusher = Pusher(name: string, email: string)

  /** The document; `baseRef` (`base_ref`) and `headCommit` (`head_commit`) are `null` as `None`. */
  datatype WebhookPushEvent = WebhookPushEvent(
    ref: string,
    before: string,
    after: string,
    created: bool,
    deleted: bool,
    forced: bool,
    baseRef: Option<string>,
    compare: string,
    commits: seq<PartialCommit>,
    headCommit: Option<PartialCommit>,
    repository: PartialRepository,
    pusher: Pusher,
    sender: PartialUser)

  // ---- The transform ----

  /** `fullName.split("/")[1]`, which is `undefined` when there is no second segment. */
  function RepoName(fullName: string): Option<string> {
    var parts := Split(fullName, '/');
    if |parts| >= 2 then Some(parts[1]) else None
  }

  function ConvertRepository(event: PushEvent): PartialRepository {
    var repoUrl := GITHUB_URL + event.repo.name;
    PartialRepository(
      id := event.repo.id,
      name := RepoName(event.repo.name),
      fullName := event.repo.name,
      url := event.repo.url,
      htmlUrl := repoUrl)
  }

  function ConvertUser(user: Actor): PartialUser {
    PartialUser(
      login := user.login,
      id := user.id,
      avatarUrl := user.avatarUrl,
      url := user.url,
      htmlUrl := GITHUB_URL + user.login)
  }

  function ConvertCommit(commit: Commit, repoUrl: string): PartialCommit {
    PartialCommit(
      id := commit.sha,
      distinct := commit.distinct,
      message := commit.message,
      url := repoUrl + "/commit/" + commit.sha,
      author := commit.author)
  }

  /** `commits.map((c) => convertCommit(c, repoUrl))`. */
  function ConvertCommits(commits: seq<Commit>, repoUrl: string): seq<PartialCommit> {
    seq(|commits|, i requires 0 <= i < |commits| => ConvertCommit(commits[i], repoUrl))
  }

  /** `s.at(-1) ?? null`: the last element, or `null` for an empty array. */
  function Last<T>(s: seq<T>): Option<T> {
    if |s| == 0 then None else Some(s[|s| - 1])
  }

  /** `${repoUrl}/compare/${before.substring(0, 12)}...${after.substring(0, 12)}`. */
  function CompareUrl(repoUrl: string, before: string, after: string): string {
    repoUrl + "/compare/" + Prefix(before, SHA_ABBREVIATION) + "..." + Prefix(after, SHA_ABBREVIATION)
  }

  function ConvertPushEvent(event: PushEvent): WebhookPushEvent {
    var repo := ConvertRepository(event);
    var commits := ConvertCommits(event.payload.commits, repo.htmlUrl);
    var before, after := event.payload.before, event.payload.head;
    WebhookPushEvent(
      ref := event.payload.ref,
      before := before,
      after := after,
      created := false,
      deleted := false,
      forced := false,
      baseRef := None,
      compare := CompareUrl(repo.htmlUrl, before, after),
      commits := commits,
      headCommit := Last(commits),
      repository := repo,
      pusher := Pusher(name := event.actor.login, email := PUSHER_EMAIL),
      sender := ConvertUser(event.actor))
  }

  /**
   * The feed record a webhook document was made from: every field the normaliser
   * reads is copied somewhere into the document, so it can be read back.
   */
  function SourceEvent(w: WebhookPushEvent): PushEvent {
    PushEvent(
      actor := Actor(w.sender.id, w.sender.login, w.sender.url, w.sender.avatarUrl),
      repo := Repo(w.repository.id, w.repository.fullName, w.repository.url),
      payload := Payload(
        ref := w.ref,
        head := w.after,
        before := w.before,
        commits := seq(|w.commits|, i requires 0 <= i < |w.commits| =>
          Commit(w.commits[i].id, w.commits[i].author, w.commits[i].message, w.commits[i].distinct))))
  }

  // ---- Properties ----

  /** The repository part: identity copied, page under the GitHub prefix, short name from `owner/name`. */
  lemma RepositoryPart(event: PushEvent, owner: string, name: string)
    requires event.repo.name == owner + "/" + name
    requires '/' !in owner && '/' !in name
    ensures ConvertPushEvent(event).repository ==
      PartialRepository(event.repo.id, Some(name), owner + "/" + name, event.repo.url,
                        GITHUB_URL + owner + "/" + name)
  {
    SplitJoin([owner, name], '/');
    assert Join([owner, name], '/') == owner + "/" + name by {
      assert [owner, name][1..] == [name];
    }
  }

  /** The short name is missing exactly when the full name has no `/`. */
  lemma RepositoryNameMissing(event: PushEvent)
    ensures ConvertPushEvent(event).repository.name.None? <==> '/' !in event.repo.name
  {
    if '/' in event.repo.name {
      SplitWithSeparator(event.repo.name, '/');
    } else {
      SplitWithoutSeparator(event.repo.name, '/');
    }
  }

  /**
   * With more than one `/` the short name is the text between the first and the
   * second `/`: the rest of the full name is not included.
   */
  lemma RepositoryNameSecondSegment(event: PushEvent, owner: string, rest: string)
    requires event.repo.name == owner + "/" + rest
    requires '/' !in owner
    ensures ConvertPushEvent(event).repository.name == Some(Split(rest, '/')[0])
    ensures '/' !in Split(rest, '/')[0] && Split(rest, '/')[0] <= rest
    ensures Split(rest, '/')[0] == rest || rest[|Split(rest, '/')[0]|] == '/'
  {
    SplitAtFirstSeparator(owner, '/', rest);
    assert owner + "/" + rest == owner + ['/'] + rest;
    SegmentIsPrefix(rest, '/');
  }

  lemma {:induction false} SegmentIsPrefix(s: string, sep: char)
    ensures Split(s, sep)[0] <= s
    ensures Split(s, sep)[0] == s || s[|Split(s, sep)[0]|] == sep
    decreases |s|
  {
    if s != [] && s[0] != sep {
      SegmentIsPrefix(s[1..], sep);
    }
  }

  /**
   * The commit list has the same length and order as the payload's; each element
   * keeps the hash as `id`, the flags, message and author, and links to the commit
   * page under the repository page.
   */
  lemma CommitsCorrespond(event: PushEvent)
    ensures |ConvertPushEvent(event).commits| == |event.payload.commits|
    ensures forall i :: 0 <= i < |event.payload.commits| ==>
      var c, p := event.payload.commits[i], ConvertPushEvent(event).commits[i];
      p.id == c.sha && p.distinct == c.distinct && p.message == c.message && p.author == c.author &&
      p.url == GITHUB_URL + event.repo.name + "/commit/" + c.sha &&
      p.url == ConvertPushEvent(event).repository.htmlUrl + "/commit/" + p.id
  {
  }

  /** `head_commit` is the last converted commit, and `null` exactly when there are no commits. */
  lemma HeadCommitIsLast(event: PushEvent)
    ensures var w := ConvertPushEvent(event);
      (w.headCommit.None? <==> |event.payload.commits| == 0) &&
      (w.headCommit.Some? ==>
         |w.commits| > 0 && w.headCommit.value == w.commits[|w.commits| - 1] &&
         w.headCommit.value.id == event.payload.commits[|event.payload.commits| - 1].sha)
  {
  }

  /**
   * The compare URL is the repository page, `/compare/`, the first twelve characters
   * (or all, when shorter) of the old and new hashes, joined by `...`.
   */
  lemma CompareUrlShape(event: PushEvent)
    ensures var w := ConvertPushEvent(event);
      var b, a := event.payload.before, event.payload.head;
      exists x, y :: w.compare == GITHUB_URL + event.repo.name + "/compare/" + x + "..." + y &&
        x <= b && |x| == (if |b| < 12 then |b| else 12) &&
        y <= a && |y| == (if |a| < 12 then |a| else 12)
  {
  }

  /** A concrete compare URL for two 40-character hashes. */
  lemma CompareUrlExample(event: PushEvent)
    requires event.repo.name == "owner/repo"
    requires event.payload.before == "aaaaaaaaaaaaaaaaaaaaaaaaaaaaaaaaaaaaaaaa"
    requires event.payload.head == "bbbbbbbbbbbbbbbbbbbbbbbbbbbbbbbbbbbbbbbb"
    ensures ConvertPushEvent(event).compare ==
      "https://github.com/" + "owner/repo" + "/compare/" + "aaaaaaaaaaaa" + "..." + "bbbbbbbbbbbb"
  {
  }

  /** The sender and pusher come from the actor; the pusher's e-mail is fixed. */
  lemma ActorParts(event: PushEvent)
    ensures var w := ConvertPushEvent(event);
      w.sender == PartialUser(event.actor.login, event.actor.id, event.actor.avatarUrl,
                              event.actor.url, GITHUB_URL + event.actor.login) &&
      w.pusher == Pusher(event.actor.login, "example@localhost")
  {
  }

  /** `ref`, `before` and `after` are copied; the push is never a creation, deletion or force push. */
  lemma FixedFields(event: PushEvent)
    ensures var w := ConvertPushEvent(event);
      w.ref == event.payload.ref && w.before == event.payload.before && w.after == event.payload.head &&
      !w.created && !w.deleted && !w.forced && w.baseRef == None
  {
  }

  /** Nothing the normaliser reads is lost: the record can be read back from the document. */
  lemma SourceEventOfConvert(event: PushEvent)
    ensures SourceEvent(ConvertPushEvent(event)) == event
  {
  }

  /** Hence two different records never give the same document. */
  lemma ConvertPushEventInjective(e1: PushEvent, e2: PushEvent)
    requires ConvertPushEvent(e1) == ConvertPushEvent(e2)
    ensures e1 == e2
  {
    SourceEventOfConvert(e1);
    SourceEventOfConvert(e2);
  }
}
