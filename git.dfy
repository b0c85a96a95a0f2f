/**
 * provision/git.py: cloning repositories, the GitHub token, cloning every
 * repository of the token's owner that is not marked to be ignored, the
 * latest tag of a checkout, and downloading an asset of a repository's
 * latest release chosen interactively.
 */
module Git {
  import opened Wrappers
  import opened Text
  import opened Paths
  import opened Host

  const OWNER_SSH := "git@github.com:comfortablynick/"
  const TOKEN_FILE := "~/.github_token"
  const IGNORE_MARKER := ".provision_ignore"
  const CLONE_ROOT := "~/git"
  /** `shlex.split("git describe --tags --abbrev=0")` */
  const LATEST_TAG: seq<string> := ["git", "describe", "--tags", "--abbrev=0"]

  // ---------------------------------------------------------------- git_clone

  /** `repo[0:4] in ("git@", "http")` */
  predicate IsUrl(repo: string) { StartsWith(repo, "git@") || StartsWith(repo, "http") }

  /** The repository argument of `git clone`: anything that is not already a URL names one of the owner's repositories. */
  function NormaliseRepo(repo: string): (url: string)
    ensures IsUrl(url)
    ensures IsUrl(repo) ==> url == repo
  {
    if IsUrl(repo) then repo
    else
      var url := OWNER_SSH + repo + ".git";
      assert url[..4] == "git@";
      url
  }

  /** Normalising twice is normalising once. */
  lemma NormaliseIdempotent(repo: string)
    ensures NormaliseRepo(NormaliseRepo(repo)) == NormaliseRepo(repo)
  {
  }

  /** A bare name becomes the owner's SSH URL. */
  lemma NormaliseBareName(name: string)
    requires !IsUrl(name)
    ensures NormaliseRepo(name) == OWNER_SSH + name + ".git"
  {
  }

  function CloneCommand(url: string, args: seq<string>): seq<string> { ["git", "clone", url] + args }

  /**
   * `git_clone(repo, dest_path, args)` with `list` the contents of the list
   * object passed as `args` (or of the shared default): the effects, the list
   * afterwards, and the outcome. `dest` is `None` for Python's `None`.
   */
  function GitClonePlan(e: Env, w: World, repo: string, dest: Option<string>, list: seq<string>): (r: (World, seq<string>, Outcome))
    ensures r.0.dirs == w.dirs && r.0.refreshes == w.refreshes && r.0.cacheUpdated == w.cacheUpdated && r.0.stdin == w.stdin
    ensures !Which(e, "git") ==> r == (w, list, ReturnedNone)
    ensures Which(e, "git") ==>
      r.1 == list + (if dest.Some? then [ExpandUser(dest.value, e.home)] else [])
  {
    if !Which(e, "git") then (w, list, ReturnedNone)
    else
      var url := NormaliseRepo(repo);
      var list2 := if dest.Some? then list + [ExpandUser(dest.value, e.home)] else list;
      var (w1, entered) := EnterW(e, w, ExpandUser(CLONE_ROOT, e.home));
      if !entered then (w1, list2, Raised(OsError))
      else
        var (w2, reply) := RunW(e, w1, CloneCommand(url, list2));
        assert w2.dirs[..|w.dirs|] == w.dirs;
        assert CloneCommand(url, list2)[1] != REFRESH[1];
        (LeaveW(w2), list2, if reply.Missing? then Raised(FileNotFound) else ReturnedNone)
  }

  /** The clone command issued: `git clone`, the normalised repository, then the list with the expanded destination appended. */
  lemma GitCloneCommand(e: Env, w: World, repo: string, dest: Option<string>, list: seq<string>)
    requires Which(e, "git") && e.answer(|w.log|).Exited?
    ensures var r := GitClonePlan(e, w, repo, dest, list);
      r.0.log == w.log + [EnterDir(ExpandUser(CLONE_ROOT, e.home)), Exec(CloneCommand(NormaliseRepo(repo), r.1)), LeaveDir]
  {
  }

  /**
   * Calls that rely on the shared default list each leave one more entry in
   * it: the second of two default calls clones with `--recursive` followed
   * by two empty strings.
   */
  lemma DefaultListGrows(e: Env, w: World, repo1: string, repo2: string)
    requires Which(e, "git")
    ensures var r1 := GitClonePlan(e, w, repo1, Some(""), ["--recursive"]);
      var r2 := GitClonePlan(e, r1.0, repo2, Some(""), r1.1);
      r1.1 == ["--recursive", ""] && r2.1 == ["--recursive", "", ""]
  {
  }

  /**
   * `git_clone(repo, dest_path, args)`; `args == null` stands for leaving
   * `args` out, so that the shared default list is the one appended to.
   */
  method GitClone(h: Host, repo: string, dest: Option<string>, args: StrList?) returns (o: Outcome)
    modifies h, h.cloneDefaults, args
    ensures var list := if args == null then h.cloneDefaults else args;
      (h.State(), list.items, o) == GitClonePlan(h.env, old(h.State()), repo, dest, old(list.items))
    ensures args != null && args != h.cloneDefaults ==> h.cloneDefaults.items == old(h.cloneDefaults.items)
  {
    if !Which(h.env, "git") {
      return ReturnedNone;
    }
    var url := NormaliseRepo(repo);
    var list := if args == null then h.cloneDefaults else args;
    if dest.Some? {
      list.Append(ExpandUser(dest.value, h.env.home));
    }
    var cmd := CloneCommand(url, list.items);
    var entered := h.EnterDir(ExpandUser(CLONE_ROOT, h.env.home));
    if !entered {
      return Raised(OsError);
    }
    var reply := h.Run(cmd);
    h.LeaveDir();
    o := if reply.Missing? then Raised(FileNotFound) else ReturnedNone;
  }

  // ---------------------------------------------------------------- github_token

  /** `github_token()`: "" when the file is missing, else its text without leading and trailing newlines. */
  function GithubToken(e: Env): string {
    match ReadFile(e, TOKEN_FILE)
    case None => ""
    case Some(text) => StripNewlines(text)
  }

  /** A token stored with newlines around it is read back without them. */
  lemma {:induction false} TokenTrimmed(e: Env, pre: string, token: string, post: string)
    requires Repeats(pre, '\n') && Repeats(post, '\n')
    requires token != "" && token[0] != '\n' && token[|token| - 1] != '\n'
    requires ReadFile(e, TOKEN_FILE) == Some(pre + token + post)
    ensures GithubToken(e) == token
  {
    StripNewlinesFrame(pre, token, post);
  }

  lemma MissingTokenFile(e: Env)
    requires ReadFile(e, TOKEN_FILE).None?
    ensures GithubToken(e) == ""
  {
  }

  // ---------------------------------------------------------------- clone_git_repos

  predicate Wanted(r: OwnRepo) { IGNORE_MARKER !in r.rootNames }

  /** The repositories that are not marked with the ignore file, in listing order. */
  function Kept(repos: seq<OwnRepo>): seq<OwnRepo> {
    if repos == [] then []
    else (if Wanted(repos[0]) then [repos[0]] else []) + Kept(repos[1..])
  }

  /** The kept repositories are the listed ones without the marker. */
  lemma {:induction false} KeptMembers(repos: seq<OwnRepo>, r: OwnRepo)
    ensures r in Kept(repos) <==> r in repos && Wanted(r)
  {
    if repos != [] {
      KeptMembers(repos[1..], r);
      assert repos == [repos[0]] + repos[1..];
    }
  }

  /** The loop of `clone_git_repos` from `repos` on, with the default list holding `list`. */
  function CloneEach(e: Env, w: World, list: seq<string>, repos: seq<OwnRepo>): (r: (World, seq<string>, Outcome))
    ensures r.0.dirs == w.dirs && r.0.refreshes == w.refreshes && r.0.cacheUpdated == w.cacheUpdated && r.0.stdin == w.stdin
    decreases |repos|
  {
    if repos == [] then (w, list, ReturnedNone)
    else if !Wanted(repos[0]) then CloneEach(e, w, list, repos[1..])
    else
      var (w1, list1, o) := GitClonePlan(e, w, repos[0].sshUrl, Some(""), list);
      if o.Raised? then (w1, list1, o) else CloneEach(e, w1, list1, repos[1..])
  }

  /** `clone_git_repos(args)`: nothing without a token, otherwise the loop over the owner's repositories. */
  function CloneReposPlan(e: Env, w: World, list: seq<string>): (World, seq<string>, Outcome) {
    if GithubToken(e) == "" then (w, list, ReturnedNone) else CloneEach(e, w, list, e.ownRepos)
  }

  /** The repositories that the clone commands of a log fetch, in order. */
  function ClonedUrls(log: seq<Event>): seq<string> {
    if log == [] then []
    else
      var ev := log[0];
      (if ev.Exec? && |ev.argv| >= 3 && ev.argv[..2] == ["git", "clone"] then [ev.argv[2]] else [])
      + ClonedUrls(log[1..])
  }

  lemma {:induction false} ClonedUrlsAppend(a: seq<Event>, b: seq<Event>)
    ensures ClonedUrls(a + b) == ClonedUrls(a) + ClonedUrls(b)
  {
    if a == [] {
      assert a + b == b;
    } else {
      assert (a + b)[1..] == a[1..] + b;
      ClonedUrlsAppend(a[1..], b);
    }
  }

  function SshUrls(repos: seq<OwnRepo>): seq<string> {
    if repos == [] then [] else [repos[0].sshUrl] + SshUrls(repos[1..])
  }

  function Blanks(n: nat): seq<string> { if n == 0 then [] else [""] + Blanks(n - 1) }

  /** One default clone that returns: its clone command fetches `url`, and the default list gains an empty string. */
  lemma CloneStep(e: Env, w: World, url: string, list: seq<string>) returns (mine: seq<Event>)
    requires Which(e, "git") && IsUrl(url)
    ensures var r := GitClonePlan(e, w, url, Some(""), list);
      r.2 == ReturnedNone ==> r.0.log == w.log + mine && ClonedUrls(mine) == [url] && r.1 == list + [""]
  {
    var r := GitClonePlan(e, w, url, Some(""), list);
    mine := [EnterDir(ExpandUser(CLONE_ROOT, e.home)), Exec(CloneCommand(url, r.1)), LeaveDir];
    if r.2 == ReturnedNone {
      GitCloneCommand(e, w, url, Some(""), list);
      var tail := mine[1..];
      assert CloneCommand(url, r.1)[..2] == ["git", "clone"];
      assert tail[0] == Exec(CloneCommand(url, r.1)) && tail[1..] == [LeaveDir];
      assert ClonedUrls([LeaveDir]) == [] by { assert [LeaveDir][1..] == []; }
      assert ClonedUrls(tail) == [url];
    }
  }

  /**
   * When git is present and no clone raises, the loop clones exactly the
   * repositories without the ignore marker, in listing order.
   */
  lemma {:induction false} CloneEachClonesKept(e: Env, w: World, list: seq<string>, repos: seq<OwnRepo>)
    requires Which(e, "git")
    requires forall r :: r in repos ==> IsUrl(r.sshUrl)
    ensures var r := CloneEach(e, w, list, repos);
      r.2 == ReturnedNone ==>
        |w.log| <= |r.0.log| && r.0.log[..|w.log|] == w.log
        && ClonedUrls(r.0.log[|w.log|..]) == SshUrls(Kept(repos))
    decreases |repos|, 1
  {
    var r := CloneEach(e, w, list, repos);
    if repos == [] {
      assert r.0.log[|w.log|..] == [];
    } else if !Wanted(repos[0]) {
      assert r == CloneEach(e, w, list, repos[1..]);
      CloneEachClonesKept(e, w, list, repos[1..]);
      assert Kept(repos) == Kept(repos[1..]);
    } else {
      CloneWantedClonesKept(e, w, list, repos);
    }
  }

  /** The step of `CloneEachClonesKept` for a repository without the marker. */
  lemma {:induction false} CloneWantedClonesKept(e: Env, w: World, list: seq<string>, repos: seq<OwnRepo>)
    requires Which(e, "git") && repos != [] && Wanted(repos[0])
    requires forall r :: r in repos ==> IsUrl(r.sshUrl)
    ensures var r := CloneEach(e, w, list, repos);
      r.2 == ReturnedNone ==>
        |w.log| <= |r.0.log| && r.0.log[..|w.log|] == w.log
        && ClonedUrls(r.0.log[|w.log|..]) == SshUrls(Kept(repos))
    decreases |repos|, 0
  {
    var r := CloneEach(e, w, list, repos);
    assert repos[0] in repos;
    var url := repos[0].sshUrl;
    var (w1, list1, o) := GitClonePlan(e, w, url, Some(""), list);
    var mine := CloneStep(e, w, url, list);
    CloneWantedStep(e, w, list, repos);
    if o == ReturnedNone && r.2 == ReturnedNone {
      CloneEachClonesKept(e, w1, list1, repos[1..]);
      KeptUrls(repos);
      ClonesChain(w.log, mine, w1.log, r.0.log, url, SshUrls(Kept(repos[1..])));
    }
  }

  /** A clone of `url` logged as `mine`, followed by a log that clones `rest`, clones `url` and then `rest`. */
  lemma ClonesChain(a: seq<Event>, mine: seq<Event>, a1: seq<Event>, full: seq<Event>, url: string, rest: seq<string>)
    requires a1 == a + mine && ClonedUrls(mine) == [url]
    requires |a1| <= |full| && full[..|a1|] == a1 && ClonedUrls(full[|a1|..]) == rest
    ensures |a| <= |full| && full[..|a|] == a && ClonedUrls(full[|a|..]) == [url] + rest
  {
    ClonedAfter(full, a, mine, url);
  }

  lemma KeptUrls(repos: seq<OwnRepo>)
    requires repos != [] && Wanted(repos[0])
    ensures SshUrls(Kept(repos)) == [repos[0].sshUrl] + SshUrls(Kept(repos[1..]))
  {
    var kept := Kept(repos[1..]);
    assert Kept(repos) == [repos[0]] + kept;
    assert ([repos[0]] + kept)[1..] == kept;
  }

  /** The repositories a log clones after `a + mine`, where `mine` clones `url`. */
  lemma ClonedAfter(full: seq<Event>, a: seq<Event>, mine: seq<Event>, url: string)
    requires |a| + |mine| <= |full| && full[..|a| + |mine|] == a + mine
    requires ClonedUrls(mine) == [url]
    ensures full[..|a|] == a && ClonedUrls(full[|a|..]) == [url] + ClonedUrls(full[|a| + |mine|..])
  {
    LogAfter(full, a, mine);
    ClonedUrlsAppend(mine, full[|a| + |mine|..]);
  }

  /** A log that starts with `a + mine` continues, after `a`, with `mine` and the rest. */
  lemma LogAfter(full: seq<Event>, a: seq<Event>, mine: seq<Event>)
    requires |a| + |mine| <= |full| && full[..|a| + |mine|] == a + mine
    ensures full[..|a|] == a && full[|a|..] == mine + full[|a| + |mine|..]
  {
    assert full[..|a|] == (a + mine)[..|a|];
    assert full[|a|..|a| + |mine|] == mine;
    assert full[|a|..] == full[|a|..|a| + |mine|] + full[|a| + |mine|..];
  }

  /** Each repository cloned leaves one more empty string in the default list. */
  lemma {:induction false} CloneEachGrowsList(e: Env, w: World, list: seq<string>, repos: seq<OwnRepo>)
    requires Which(e, "git")
    requires forall r :: r in repos ==> IsUrl(r.sshUrl)
    ensures var r := CloneEach(e, w, list, repos);
      r.2 == ReturnedNone ==> r.1 == list + Blanks(|Kept(repos)|)
    decreases |repos|, 1
  {
    var r := CloneEach(e, w, list, repos);
    if repos == [] {
      assert list + Blanks(0) == list;
    } else if !Wanted(repos[0]) {
      assert r == CloneEach(e, w, list, repos[1..]);
      CloneEachGrowsList(e, w, list, repos[1..]);
      assert Kept(repos) == Kept(repos[1..]);
    } else {
      CloneWantedGrowsList(e, w, list, repos);
    }
  }

  /** The step of `CloneEachGrowsList` for a repository without the marker. */
  lemma {:induction false} CloneWantedGrowsList(e: Env, w: World, list: seq<string>, repos: seq<OwnRepo>)
    requires Which(e, "git") && repos != [] && Wanted(repos[0])
    requires forall r :: r in repos ==> IsUrl(r.sshUrl)
    ensures var r := CloneEach(e, w, list, repos);
      r.2 == ReturnedNone ==> r.1 == list + Blanks(|Kept(repos)|)
    decreases |repos|, 0
  {
    var r := CloneEach(e, w, list, repos);
    var (w1, list1, o) := GitClonePlan(e, w, repos[0].sshUrl, Some(""), list);
    CloneWantedStep(e, w, list, repos);
    if o == ReturnedNone && r.2 == ReturnedNone {
      CloneEachGrowsList(e, w1, list1, repos[1..]);
      KeptCount(repos);
      BlanksStep(list, |Kept(repos[1..])|);
    }
  }

  /** The loop after cloning a repository without the marker: it stops at a raise and otherwise goes on with the next one. */
  lemma CloneWantedStep(e: Env, w: World, list: seq<string>, repos: seq<OwnRepo>)
    requires Which(e, "git") && repos != [] && Wanted(repos[0])
    ensures var (w1, list1, o) := GitClonePlan(e, w, repos[0].sshUrl, Some(""), list);
      && list1 == list + [""]
      && CloneEach(e, w, list, repos) == if o.Raised? then (w1, list1, o) else CloneEach(e, w1, list1, repos[1..])
  {
    assert ExpandUser("", e.home) == "";
  }

  lemma KeptCount(repos: seq<OwnRepo>)
    requires repos != [] && Wanted(repos[0])
    ensures |Kept(repos)| == |Kept(repos[1..])| + 1
  {
  }

  lemma BlanksStep(list: seq<string>, n: nat)
    ensures list + [""] + Blanks(n) == list + Blanks(n + 1)
  {
    assert Blanks(n + 1) == [""] + Blanks(n);
  }


  /** Without a token nothing is cloned at all. */
  lemma NoTokenNoClones(e: Env, w: World, list: seq<string>)
    requires GithubToken(e) == ""
    ensures CloneReposPlan(e, w, list) == (w, list, ReturnedNone)
  {
  }

  /** `clone_git_repos(args)` */
  method CloneGitRepos(h: Host) returns (o: Outcome)
    modifies h, h.cloneDefaults
    ensures (h.State(), h.cloneDefaults.items, o) == CloneReposPlan(h.env, old(h.State()), old(h.cloneDefaults.items))
  {
    var token := GithubToken(h.env);
    if token == "" {
      return ReturnedNone;
    }
    var repos := h.env.ownRepos;
    var i := 0;
    while i < |repos|
      invariant 0 <= i <= |repos|
      invariant CloneEach(h.env, old(h.State()), old(h.cloneDefaults.items), repos)
        == CloneEach(h.env, h.State(), h.cloneDefaults.items, repos[i..])
    {
      assert repos[i..][1..] == repos[i + 1..];
      if Wanted(repos[i]) {
        o := GitClone(h, repos[i].sshUrl, Some(""), null);
        if o.Raised? {
          return;
        }
      }
      i := i + 1;
    }
    return ReturnedNone;
  }

  // ---------------------------------------------------------------- git_latest_tag

  /** `git_latest_tag()`: the captured output of `git describe` without surrounding newlines. */
  function LatestTagPlan(e: Env, w: World): (r: (World, Option<string>))
    ensures r.0 == RunW(e, w, LATEST_TAG).0
    ensures r.1.None? <==> e.answer(|w.log|).Missing?
    ensures r.1.Some? ==> r.1.value == StripNewlines(e.answer(|w.log|).stdout)
  {
    var (w1, reply) := RunW(e, w, LATEST_TAG);
    (w1, if reply.Missing? then None else Some(StripNewlines(reply.stdout)))
  }

  /** Output that is a tag between newlines gives exactly that tag. */
  lemma LatestTagFromOutput(e: Env, w: World, pre: string, tag: string, post: string)
    requires e.answer(|w.log|).Exited? && e.answer(|w.log|).stdout == pre + tag + post
    requires Repeats(pre, '\n') && Repeats(post, '\n')
    requires tag != "" && tag[0] != '\n' && tag[|tag| - 1] != '\n'
    ensures LatestTagPlan(e, w).1 == Some(tag)
  {
    StripNewlinesFrame(pre, tag, post);
  }

  method GitLatestTag(h: Host) returns (tag: Option<string>)
    modifies h
    ensures (h.State(), tag) == LatestTagPlan(h.env, old(h.State()))
  {
    var reply := h.Run(LATEST_TAG);
    tag := if reply.Missing? then None else Some(StripNewlines(reply.stdout));
  }

  // ---------------------------------------------------------------- github_latest_release

  datatype Choice = Cancel | Retry | Pick(index: nat)

  /**
   * One answer to the prompt for `n` assets: "" cancels, text that `int()`
   * rejects and numbers whose `assets[k - 1]` is out of range ask again, and
   * any other number `k` picks `assets[k - 1]`, indexing from the end when
   * `k - 1` is negative.
   */
  function Choose(choice: string, n: nat): (c: Choice)
    ensures c.Pick? ==> c.index < n
    ensures choice == "" <==> c == Cancel
  {
    if choice == "" then Cancel
    else match ParseInt(choice)
      case None => Retry
      case Some(k) =>
        var i := k - 1;
        if -(n as int) <= i < n then Pick(if i >= 0 then i else i + n) else Retry
  }

  /** The line printed for each asset, labelled from 1. */
  function Listing(assets: seq<Asset>): (lines: seq<string>)
    ensures |lines| == |assets|
    ensures forall i :: 0 <= i < |assets| ==> lines[i] == ShowNat(i + 1) + ": " + assets[i].name
  {
    seq(|assets|, i requires 0 <= i < |assets| => ShowNat(i + 1) + ": " + assets[i].name)
  }

  /** Typing the label of an asset picks that asset. */
  lemma ChooseLabel(assets: seq<Asset>, k: nat)
    requires 1 <= k <= |assets|
    ensures Choose(ShowInt(k), |assets|) == Pick(k - 1)
    ensures Listing(assets)[k - 1] == ShowInt(k) + ": " + assets[k - 1].name
  {
    ParseShowInt(k);
    assert ShowInt(k) != "" by { assert |ShowNat(k)| > 0; }
  }

  /** "0" is not rejected: it picks the last asset. */
  lemma ChooseZeroPicksLast(n: nat)
    requires n > 0
    ensures Choose("0", n) == Pick(n - 1)
  {
    ParseShowInt(0);
    assert ShowInt(0) == "0";
  }

  /** A number from `1 - n` to 0 indexes from the end: `assets[k - 1]` is `assets[k - 1 + n]`. */
  lemma ChooseFromEnd(k: int, n: nat)
    requires 1 - n <= k <= 0
    ensures Choose(ShowInt(k), n) == Pick(k - 1 + n)
  {
    ParseShowInt(k);
    assert ShowInt(k) != "" by { assert |ShowNat(-k)| > 0; }
  }

  /** A number whose `assets[k - 1]` raises `IndexError` asks again. */
  lemma ChooseOutOfRange(k: int, n: nat)
    requires k > n || k < 1 - n
    ensures Choose(ShowInt(k), n) == Retry
  {
    ParseShowInt(k);
    assert ShowInt(k) != "" by { assert |ShowNat(if k < 0 then -k else k)| > 0; }
  }

  /** Text without a digit asks again. */
  lemma ChooseNonNumeric(choice: string, n: nat)
    requires choice != "" && forall k :: 0 <= k < |choice| ==> !IsDigit(choice[k])
    ensures Choose(choice, n) == Retry
  {
    ParseIntNeedsDigit(choice);
  }

  /** With no assets no answer can pick one. */
  lemma NoAssetsNoPick(choice: string)
    ensures !Choose(choice, 0).Pick?
  {
  }

  datatype ChoiceEnd = Chosen(index: nat) | Cancelled | NoMoreInput

  /** Where the prompt loop stops: the input left, how it ended, and how many prompts `input` wrote. */
  datatype LoopEnd = LoopEnd(rest: seq<string>, end: ChoiceEnd, asked: nat)

  const CHOICE_PROMPT := "Enter number of choice: "

  /** The `while True` prompt loop over the remaining input lines; each pass writes one prompt. */
  function ChoiceLoop(lines: seq<string>, n: nat): (r: LoopEnd)
    ensures r.end.Chosen? ==> r.end.index < n
    ensures |r.rest| <= |lines|
    ensures 1 <= r.asked <= |lines| + 1
    decreases |lines|
  {
    if lines == [] then LoopEnd([], NoMoreInput, 1)
    else match Choose(lines[0], n)
      case Cancel => LoopEnd(lines[1..], Cancelled, 1)
      case Pick(i) => LoopEnd(lines[1..], Chosen(i), 1)
      case Retry =>
        var r := ChoiceLoop(lines[1..], n);
        r.(asked := r.asked + 1)
  }

  /** `k` prompts in a row. */
  function Asks(k: nat): (evs: seq<Event>)
    ensures |evs| == k && forall i :: 0 <= i < k ==> evs[i] == Ask(CHOICE_PROMPT)
  {
    seq(k, i => Ask(CHOICE_PROMPT))
  }

  /**
   * The loop stops at the first answer that cancels or picks; every answer
   * before it asked again, and exactly the answers up to it are consumed,
   * each after its own prompt. Running out of input costs one more prompt.
   */
  lemma {:induction false} ChoiceLoopStopsAtFirst(lines: seq<string>, n: nat) returns (j: nat)
    ensures var r := ChoiceLoop(lines, n);
      !r.end.NoMoreInput? ==>
        j < |lines| && r.rest == lines[j + 1..] && (forall k :: 0 <= k < j ==> Choose(lines[k], n) == Retry)
        && (if r.end.Cancelled? then Choose(lines[j], n) == Cancel else Choose(lines[j], n) == Pick(r.end.index))
        && r.asked == j + 1
    ensures var r := ChoiceLoop(lines, n);
      r.end.NoMoreInput? ==>
        && r.rest == []
        && (forall k :: 0 <= k < |lines| ==> Choose(lines[k], n) == Retry)
        && r.asked == |lines| + 1
    decreases |lines|
  {
    j := 0;
    if lines == [] {
      return;
    }
    var c := Choose(lines[0], n);
    if c != Retry {
      return;
    }
    var rest := lines[1..];
    var r1 := ChoiceLoop(rest, n);
    assert ChoiceLoop(lines, n) == r1.(asked := r1.asked + 1);
    var j1 := ChoiceLoopStopsAtFirst(rest, n);
    j := j1 + 1;
    forall k | 1 <= k < |lines|
      ensures lines[k] == rest[k - 1]
    {
    }
  }

  /** The prompt loop of `github_latest_release`, reading from standard input. */
  method ChooseAsset(h: Host, n: nat) returns (end: ChoiceEnd)
    modifies h
    ensures var r := ChoiceLoop(old(h.stdin), n);
      h.stdin == r.rest && end == r.end && h.log == old(h.log) + Asks(r.asked)
    ensures h.State() == old(h.State()).(stdin := h.stdin, log := h.log)
  {
    ghost var asked := 0;
    while true
      invariant ChoiceLoop(old(h.stdin), n) == ChoiceLoop(h.stdin, n).(asked := ChoiceLoop(h.stdin, n).asked + asked)
      invariant h.log == old(h.log) + Asks(asked)
      invariant h.cacheUpdated == old(h.cacheUpdated) && h.dirs == old(h.dirs) && h.refreshes == old(h.refreshes)
      decreases |h.stdin|
    {
      AsksSnoc(asked);
      var line := h.ReadLine(CHOICE_PROMPT);
      asked := asked + 1;
      if line.None? {
        return NoMoreInput;
      }
      match Choose(line.value, n)
      case Cancel =>
        return Cancelled;
      case Pick(i) =>
        return Chosen(i);
      case Retry =>
    }
  }

  lemma AsksSnoc(k: nat)
    ensures Asks(k) + [Ask(CHOICE_PROMPT)] == Asks(k + 1)
  {
  }

  function Says(lines: seq<string>): (evs: seq<Event>)
    ensures |evs| == |lines| && forall k :: 0 <= k < |evs| ==> evs[k] == Say(lines[k])
  {
    seq(|lines|, k requires 0 <= k < |lines| => Say(lines[k]))
  }

  /** Printing each line in turn. */
  function SayAll(w: World, lines: seq<string>): (w2: World)
    ensures w2 == w.(log := w.log + Says(lines))
    ensures |w2.log| == |w.log| + |lines| && w2.log[..|w.log|] == w.log
    ensures forall k :: |w.log| <= k < |w2.log| ==> w2.log[k].Say?
    decreases |lines|
  {
    SaysAfter(w.log, lines);
    if lines == [] then
      w
    else
      var w1 := Emit(w, Say(lines[0]));
      SaysCons(w.log, lines);
      SayAll(w1, lines[1..])
  }

  /** A log followed by the lines printed: longer by one event per line, all of them printed lines. */
  lemma SaysAfter(log: seq<Event>, lines: seq<string>)
    ensures var l2 := log + Says(lines);
      |l2| == |log| + |lines| && l2[..|log|] == log && forall k :: |log| <= k < |l2| ==> l2[k].Say?
  {
    var l2 := log + Says(lines);
    assert forall k :: |log| <= k < |l2| ==> l2[k] == Says(lines)[k - |log|];
  }

  lemma SaysCons(log: seq<Event>, lines: seq<string>)
    requires lines != []
    ensures log + [Say(lines[0])] + Says(lines[1..]) == log + Says(lines)
  {
    assert [Say(lines[0])] + Says(lines[1..]) == Says(lines);
  }

  lemma PrefixTrans(a: seq<Event>, b: seq<Event>, c: seq<Event>)
    requires |a| <= |b| && b[..|a|] == a && |b| <= |c| && c[..|b|] == b
    ensures c[..|a|] == a
  {
    assert c[..|a|] == c[..|b|][..|a|];
  }

  const MENU_TITLE := "Choose from the following packages:"

  /**
   * After the choice: report it, request the asset, and write it under
   * `dest`; a namespace without `dest` raises before anything is written.
   */
  function DownloadPlan(e: Env, w: World, dest: Option<string>, file: Asset): (r: (World, Outcome))
    ensures r.0 == w.(log := r.0.log)
    ensures |w.log| + 2 <= |r.0.log| && r.0.log[..|w.log|] == w.log && r.0.log[|w.log| + 1] == Fetch(file.url)
    ensures r.1 == Returned(0) <==> dest.Some?
    ensures dest.None? ==> (r.1 == Raised(AttributeMissing("dest"))
      && forall k :: |w.log| <= k < |r.0.log| ==> !r.0.log[k].WriteFile?)
    ensures dest.Some? ==> r.0.log[|r.0.log| - 1] == WriteFile(Join(ExpandUser(dest.value, e.home), file.name))
  {
    var w1 := Emit(Emit(w, Say("You chose to download " + file.name)), Fetch(file.url));
    match dest
    case None => (w1, Raised(AttributeMissing("dest")))
    case Some(d) =>
      var path := Join(ExpandUser(d, e.home), file.name);
      (Emit(Emit(w1, Say("Downloading to " + path + "...")), WriteFile(path)), Returned(0))
  }

  /** The prompt loop over the remaining input, then the download of the asset chosen. */
  function AnswerPlan(e: Env, w: World, dest: Option<string>, assets: seq<Asset>): (r: (World, Outcome))
    ensures r.0.dirs == w.dirs && r.0.refreshes == w.refreshes && r.0.cacheUpdated == w.cacheUpdated
    ensures |w.log| <= |r.0.log| && r.0.log[..|w.log|] == w.log
    ensures r.1 == Returned(0) ==> dest.Some?
    ensures dest.None? ==> forall k :: |w.log| <= k < |r.0.log| ==> !r.0.log[k].WriteFile?
    ensures var asked := ChoiceLoop(w.stdin, |assets|).asked;
      |w.log| + asked <= |r.0.log| && forall k :: |w.log| <= k < |w.log| + asked ==> r.0.log[k] == Ask(CHOICE_PROMPT)
  {
    var LoopEnd(rest, end, asked) := ChoiceLoop(w.stdin, |assets|);
    var w1 := w.(stdin := rest, log := w.log + Asks(asked));
    AsksAfter(w.log, asked);
    match end
    case NoMoreInput => (w1, Raised(EndOfInput))
    case Cancelled => (w1, Returned(1))
    case Chosen(i) =>
      var r := DownloadPlan(e, w1, dest, assets[i]);
      AsksKept(w.log, asked, r.0.log);
      r
  }

  /** A log followed by prompts keeps the log and holds only prompts after it. */
  lemma AsksAfter(log: seq<Event>, k: nat)
    ensures var l2 := log + Asks(k);
      |l2| == |log| + k && l2[..|log|] == log && forall i :: |log| <= i < |l2| ==> l2[i] == Ask(CHOICE_PROMPT)
  {
  }

  /** A log that extends `log + Asks(k)` keeps `log` and those prompts. */
  lemma AsksKept(log: seq<Event>, k: nat, l3: seq<Event>)
    requires |log| + k <= |l3| && l3[..|log| + k] == log + Asks(k)
    ensures l3[..|log|] == log && forall i :: |log| <= i < |log| + k ==> l3[i] == Ask(CHOICE_PROMPT)
  {
    AsksAfter(log, k);
    assert l3[..|log|] == l3[..|log| + k][..|log|];
    forall i | |log| <= i < |log| + k
      ensures l3[i] == Ask(CHOICE_PROMPT)
    {
      assert l3[i] == l3[..|log| + k][i];
    }
  }

  /** The listing of a non-empty release, then the prompt. */
  function PromptPlan(e: Env, w: World, dest: Option<string>, assets: seq<Asset>): (r: (World, Outcome))
    ensures r.0.dirs == w.dirs && r.0.refreshes == w.refreshes && r.0.cacheUpdated == w.cacheUpdated
    ensures |w.log| <= |r.0.log| && r.0.log[..|w.log|] == w.log
    ensures r.1 == Returned(0) ==> dest.Some?
    ensures dest.None? ==> forall k :: |w.log| <= k < |r.0.log| ==> !r.0.log[k].WriteFile?
  {
    var w1 := SayAll(w, [MENU_TITLE] + Listing(assets));
    var r := AnswerPlan(e, w1, dest, assets);
    PrefixTrans(w.log, w1.log, r.0.log);
    r
  }

  /** `github_latest_release(args)` */
  function LatestReleasePlan(e: Env, w: World, ns: Namespace): (r: (World, Outcome))
    ensures r.0.dirs == w.dirs && r.0.refreshes == w.refreshes && r.0.cacheUpdated == w.cacheUpdated
  {
    if GithubToken(e) == "" then (w, Returned(1))
    else match ns.repo
      case None => (w, Raised(AttributeMissing("repo")))
      case Some(repoName) =>
        if repoName !in e.remote then (w, Raised(GithubFailure))
        else
          var repo := e.remote[repoName];
          match SkipCheck(e, repo.name, ns)
          case Some(o) => (w, o)
          case None =>
            if repo.releases == [] then (w, Raised(IndexOutOfRange))
            else PromptPlan(e, w, ns.dest, repo.releases[0])
  }

  /** Without a token, or when the program exists and `force` is off, the function returns 1 before any effect. */
  lemma LatestReleaseGuards(e: Env, w: World, ns: Namespace)
    requires GithubToken(e) == "" || (ns.repo.Some? && ns.repo.value in e.remote
      && Which(e, e.remote[ns.repo.value].name) && ns.force == Some(false))
    ensures LatestReleasePlan(e, w, ns) == (w, Returned(1))
  {
  }

  /**
   * A release without assets is not caught by the `totalCount` check: the
   * prompt comes up over an empty list and can only end by cancelling or by
   * running out of input.
   */
  lemma EmptyReleaseNeverDownloads(e: Env, w: World, ns: Namespace)
    requires GithubToken(e) != "" && ns.repo.Some? && ns.repo.value in e.remote
    requires var repo := e.remote[ns.repo.value];
      SkipCheck(e, repo.name, ns).None? && repo.releases != [] && repo.releases[0] == []
    ensures var r := LatestReleasePlan(e, w, ns);
      r.1 == Returned(1) || r.1 == Raised(EndOfInput)
  {
  }

  /**
   * A namespace without `dest` (the `github-release` subcommand sets none)
   * never ends in success, and nothing is written whatever is chosen.
   */
  lemma MissingDestNeverWrites(e: Env, w: World, ns: Namespace)
    requires ns.dest.None?
    ensures var r := LatestReleasePlan(e, w, ns);
      r.1 != Returned(0) && |w.log| <= |r.0.log| && r.0.log[..|w.log|] == w.log
      && forall k :: |w.log| <= k < |r.0.log| ==> !r.0.log[k].WriteFile?
  {
  }

  /** `github_latest_release(args)` */
  method GithubLatestRelease(h: Host, ns: Namespace) returns (o: Outcome)
    modifies h
    ensures (h.State(), o) == LatestReleasePlan(h.env, old(h.State()), ns)
  {
    if GithubToken(h.env) == "" {
      return Returned(1);
    }
    if ns.repo.None? {
      return Raised(AttributeMissing("repo"));
    }
    if ns.repo.value !in h.env.remote {
      return Raised(GithubFailure);
    }
    var repo := h.env.remote[ns.repo.value];
    var skip := SkipCheck(h.env, repo.name, ns);
    if skip.Some? {
      return skip.value;
    }
    if repo.releases == [] {
      return Raised(IndexOutOfRange);
    }
    var assets := repo.releases[0];
    var lines := [MENU_TITLE] + Listing(assets);
    ghost var w0 := h.State();
    var k := 0;
    while k < |lines|
      invariant 0 <= k <= |lines|
      invariant SayAll(w0, lines) == SayAll(h.State(), lines[k..])
    {
      assert lines[k..][1..] == lines[k + 1..];
      h.Record(Say(lines[k]));
      k := k + 1;
    }
    var end := ChooseAsset(h, |assets|);
    match end
    case NoMoreInput =>
      return Raised(EndOfInput);
    case Cancelled =>
      return Returned(1);
    case Chosen(i) =>
      var file := assets[i];
      h.Record(Say("You chose to download " + file.name));
      h.Record(Fetch(file.url));
      if ns.dest.None? {
        return Raised(AttributeMissing("dest"));
      }
      var path := Join(ExpandUser(ns.dest.value, h.env.home), file.name);
      h.Record(Say("Downloading to " + path + "..."));
      h.Record(WriteFile(path));
      return Returned(0);
  }
}
