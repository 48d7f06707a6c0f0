/** Stage B of the integrator (app/routes/integrations_stage_b.py): promote a
    Stage-A branch to a pull request against the base branch, and optionally
    tag the branch head. The configuration comes from the environment, the
    branch name is checked against two regular expressions, every GitHub
    request is retried on 5xx answers and network errors, and `promote`
    reuses an open pull request and an existing tag. GitHub itself is a
    value of the model: the heads of the branches, the open pull requests by
    branch, and the tags. */
module StageB {
  import opened PyText
  import opened Oracles
  import opened JsonValue
  import BranchPusher

  // ------------------------------------------------------- configuration

  /** What `validate_env` returns. */
  datatype Config = Config(api: string, token: string, repo: string, base: string)

  /** `os.environ.get(name, default)`. */
  function EnvGet(env: map<string, string>, name: string, default: string): string {
    if name in env then env[name] else default
  }

  const DefaultApi := "https://api.github.com"

  /** `_need(name)`: the variable stripped, or a RuntimeError when it is
      missing or blank. An error carries the exception's message. */
  function Need(env: map<string, string>, name: string): (r: Outcome<string>)
    ensures r.Raises? <==> Strip(EnvGet(env, name, "")) == []
    ensures r.Raises? ==> r.error == "Missing required env var: " + name
    ensures r.Ok? ==> r.value == Strip(EnvGet(env, name, "")) && r.value != []
  {
    var v := Strip(EnvGet(env, name, ""));
    if v == [] then Raises("Missing required env var: " + name) else Ok(v)
  }

  const RepoShapeError := "GITHUB_REPO must look like 'owner/repo'"

  /** `validate_env()`: the API URL without trailing slashes, the token and
      the repository (both required, stripped), and the base branch; the
      repository must hold exactly one "/". */
  function ValidateEnv(env: map<string, string>): (r: Outcome<Config>)
    ensures r.Ok? ==> r.value.token != [] && CountChar(r.value.repo, '/') == 1
  {
    var api := RStripChar(EnvGet(env, "GITHUB_API", DefaultApi), '/');
    match Need(env, "GITHUB_TOKEN")
    case Raises(e) => Raises(e)
    case Ok(token) =>
      match Need(env, "GITHUB_REPO")
      case Raises(e) => Raises(e)
      case Ok(repo) =>
        var base := EnvGet(env, "GITHUB_BASE", "main");
        if CountChar(repo, '/') != 1 then Raises(RepoShapeError)
        else Ok(Config(api, token, repo, base))
  }

  /** When the configuration is accepted, and what it holds: the token first,
      then the repository, must be non-blank; the API URL never ends with
      "/"; the defaults are the public GitHub API and "main". */
  lemma ValidateEnvMeaning(env: map<string, string>)
    ensures ValidateEnv(env).Ok? <==>
      && Strip(EnvGet(env, "GITHUB_TOKEN", "")) != []
      && Strip(EnvGet(env, "GITHUB_REPO", "")) != []
      && CountChar(Strip(EnvGet(env, "GITHUB_REPO", "")), '/') == 1
    ensures Strip(EnvGet(env, "GITHUB_TOKEN", "")) == [] ==>
      ValidateEnv(env) == Raises("Missing required env var: GITHUB_TOKEN")
    ensures ValidateEnv(env).Ok? ==>
      var cfg := ValidateEnv(env).value;
      && cfg.token == Strip(cfg.token) && cfg.repo == Strip(cfg.repo)
      && (cfg.api == [] || cfg.api[|cfg.api| - 1] != '/')
      && ("GITHUB_BASE" !in env ==> cfg.base == "main")
      && ("GITHUB_API" !in env ==> cfg.api == DefaultApi)
  {
    if ValidateEnv(env).Ok? {
      var cfg := ValidateEnv(env).value;
      StripOfStripped(cfg.token);
      StripOfStripped(cfg.repo);
      assert DefaultApi[|DefaultApi| - 1] == 'm';
    }
  }

  /** `_owner_repo(repo)`: the text before and after the first "/"; Python
      raises ValueError when there is none. */
  function OwnerRepo(repo: string): (r: Outcome<(string, string)>)
    ensures r.Ok? <==> '/' in repo
    ensures r.Ok? ==> r.value.0 + "/" + r.value.1 == repo && '/' !in r.value.0
  {
    var k := IndexOfChar(repo, '/', 0);
    if k == -1 then Raises("not enough values to unpack (expected 2, got 1)")
    else
      assert repo == repo[..k] + "/" + repo[k + 1..];
      Ok((repo[..k], repo[k + 1..]))
  }

  /** Splitting an owner and a name joined by "/" gives them back. */
  lemma OwnerRepoRoundTrip(owner: string, name: string)
    requires '/' !in owner
    ensures OwnerRepo(owner + "/" + name) == Ok((owner, name))
  {
    var repo := owner + "/" + name;
    assert repo[|owner|] == '/';
    forall j | 0 <= j < |owner| ensures repo[j] != '/' {
      assert repo[j] == owner[j] && owner[j] in owner;
    }
    assert IndexOfChar(repo, '/', 0) == |owner|;
    assert repo[..|owner|] == owner && repo[|owner| + 1..] == name;
  }

  lemma {:induction false} CountCharAppend(a: string, b: string, c: char)
    ensures CountChar(a + b, c) == CountChar(a, c) + CountChar(b, c)
  {
    if a == [] {
      assert a + b == b;
    } else {
      assert (a + b)[0] == a[0] && (a + b)[1..] == a[1..] + b;
      CountCharAppend(a[1..], b, c);
    }
  }

  lemma {:induction false} CountCharAbsent(a: string, c: char)
    ensures CountChar(a, c) == 0 <==> c !in a
  {
    if a != [] {
      CountCharAbsent(a[1..], c);
      assert a == [a[0]] + a[1..];
    }
  }

  /** A repository with exactly one "/" (as `validate_env` demands) splits
      into an owner and a name, neither of which holds a "/". */
  lemma ConfiguredRepoSplits(repo: string)
    requires CountChar(repo, '/') == 1
    ensures var r := OwnerRepo(repo);
      r.Ok? && '/' !in r.value.0 && '/' !in r.value.1
  {
    CountCharAbsent(repo, '/');
    var r := OwnerRepo(repo);
    CountCharAppend(r.value.0, "/" + r.value.1, '/');
    CountCharAppend("/", r.value.1, '/');
    CountCharAbsent(r.value.0, '/');
    CountCharAbsent(r.value.1, '/');
  }

  // ------------------------------------------------------ branch names

  /** The characters of `[A-Za-z0-9._/-]`. */
  predicate BranchChar(c: char) {
    IsAsciiAlnum(c) || c == '.' || c == '_' || c == '/' || c == '-'
  }

  /** The characters of `[a-z0-9-]`. */
  predicate SlugChar(c: char) {
    IsAsciiLower(c) || IsDigit(c) || c == '-'
  }

  /** The text a pattern ending in `$` must cover: Python's `$` also matches
      just before a final "\n", so that newline may be left over. */
  function DollarText(s: string): (t: string)
    ensures t == s || s == t + "\n"
  {
    if s != [] && s[|s| - 1] == '\n' then s[..|s| - 1] else s
  }

  /** A text `BRANCH_RE` covers entirely: 1 to 255 characters of the class,
      not starting with "/", without "//" or "..", not ending with ".". */
  predicate BranchShape(t: string) {
    && 1 <= |t| <= 255
    && (forall i :: 0 <= i < |t| ==> BranchChar(t[i]))
    && t[0] != '/' && !Contains(t, "//") && !Contains(t, "..") && t[|t| - 1] != '.'
  }

  /** `[a-z0-9-]{1,48}(-\d+)?` covering `u`, with the first part `u[..k]`. */
  predicate TailSplit(u: string, k: int) {
    && 1 <= k <= 48 && k <= |u|
    && (forall i :: 0 <= i < k ==> SlugChar(u[i]))
    && (k == |u| || (u[k] == '-' && IsDigits(u[k + 1..])))
  }

  /** A text `STAGE_A_RE` covers entirely: "stage-a/", eight digits, "-",
      then the tail. */
  predicate StageAShape(t: string) {
    && |t| >= 18 && t[..8] == "stage-a/" && AllDigits(t[8..16]) && t[16] == '-'
    && exists k :: 1 <= k <= 48 && TailSplit(t[17..], k)
  }

  const InvalidBranch := "Invalid branch name"
  const NotStageA := "Branch is not a Stage-A branch"

  /** `validate_branch_name(branch)` as written: both patterns are anchored
      with `$`, so a final "\n" is let through. */
  function ValidateBranchNameAsWritten(branch: string): Http<string> {
    if branch == [] || !BranchShape(DollarText(branch)) then HttpError(400, InvalidBranch)
    else if !StageAShape(DollarText(branch)) then HttpError(400, NotStageA)
    else Answer(branch)
  }

  /** `validate_branch_name(branch)` with both patterns covering the whole
      name, as the character class means. */
  function ValidateBranchName(branch: string): (r: Http<string>)
    ensures r.HttpError? ==> r.status == 400
    ensures r.HttpError? && !BranchShape(branch) ==> r.detail == InvalidBranch
  {
    if !BranchShape(branch) then HttpError(400, InvalidBranch)
    else if !StageAShape(branch) then HttpError(400, NotStageA)
    else Answer(branch)
  }

  /** Past "stage-a/" a Stage-A name holds only slug characters. */
  lemma StageAChars(t: string)
    requires StageAShape(t)
    ensures forall i :: 0 <= i < 8 ==> t[i] == "stage-a/"[i]
    ensures forall i :: 8 <= i < |t| ==> SlugChar(t[i])
  {
    var u := t[17..];
    var k :| 1 <= k <= 48 && TailSplit(u, k);
    forall i | 8 <= i < |t| ensures SlugChar(t[i]) {
      if i < 16 {
        assert t[8..16][i - 8] == t[i];
      } else if 17 <= i && i - 17 > k {
        assert u[k + 1..][i - 17 - k - 1] == t[i];
      }
    }
  }

  /** Every Stage-A name of at most 255 characters has the general branch
      shape, so the first pattern only adds the length bound. */
  lemma StageAIsBranch(t: string)
    requires StageAShape(t) && |t| <= 255
    ensures BranchShape(t)
  {
    StageAChars(t);
    var p := "stage-a/";
    assert forall i :: 0 <= i < 8 ==> BranchChar(p[i]) && p[i] != '.' && (p[i] == '/' <==> i == 7);
    forall i | 0 <= i <= |t| ensures !OccursAt(t, "//", i) && !OccursAt(t, "..", i) {
      if i + 2 <= |t| {
        assert t[i..i + 2][0] == t[i] && t[i..i + 2][1] == t[i + 1];
      }
    }
  }

  /** The corrected check accepts exactly the Stage-A names of at most 255
      characters, and those hold no newline and no control character. */
  lemma ValidateBranchNameMeaning(branch: string)
    ensures ValidateBranchName(branch).Answer? <==> StageAShape(branch) && |branch| <= 255
    ensures ValidateBranchName(branch).Answer? ==> forall i :: 0 <= i < |branch| ==> BranchChar(branch[i])
    ensures ValidateBranchName(branch).Answer? ==> '\n' !in branch
  {
    if StageAShape(branch) && |branch| <= 255 {
      StageAIsBranch(branch);
    }
    assert !BranchChar('\n');
  }

  /** The two checks agree except on a final newline: the code as written
      accepts a name exactly when the corrected check accepts it without that
      newline. */
  lemma AsWrittenDropsFinalNewline(branch: string)
    ensures ValidateBranchNameAsWritten(branch).Answer? <==> ValidateBranchName(DollarText(branch)).Answer?
    ensures '\n' !in branch ==> ValidateBranchNameAsWritten(branch) == ValidateBranchName(branch)
  {
    if '\n' !in branch && branch != [] {
      assert branch[|branch| - 1] in branch;
    }
  }

  /** A Stage-A branch with one character of slug. */
  lemma SampleBranchAccepted()
    ensures ValidateBranchName("stage-a/20240101-x").Answer?
  {
    var t := "stage-a/20240101-x";
    assert TailSplit(t[17..], 1);
    assert StageAShape(t);
    ValidateBranchNameMeaning(t);
  }

  /** What `$` lets through: every accepted name with one "\n" appended is
      accepted as well, so "stage-a/20240101-x\n" passes the code as
      written. */
  lemma TrailingNewlineAccepted(branch: string)
    requires ValidateBranchName(branch).Answer?
    ensures ValidateBranchNameAsWritten(branch + "\n").Answer?
    ensures '\n' in branch + "\n"
  {
    var s := branch + "\n";
    assert s[|s| - 1] == '\n';
    assert DollarText(s) == branch;
  }

  /** The concrete input of the finding. */
  lemma NewlineBranchExample()
    ensures ValidateBranchNameAsWritten("stage-a/20240101-x\n").Answer?
  {
    SampleBranchAccepted();
    TrailingNewlineAccepted("stage-a/20240101-x");
    assert "stage-a/20240101-x" + "\n" == "stage-a/20240101-x\n";
  }

  // ------------------------------------------------------------ retries

  /** An HTTP response: its status, its X-RateLimit-Remaining header, its
      text, and its body as `r.json()` reads it (None when that raises). */
  datatype GhResponse = GhResponse(status: int, rateRemaining: Option<string>, text: string, body: Option<Json>)

  /** One answer GitHub (or the network) gives to one attempt. */
  datatype GhReply = Responded(response: GhResponse) | GhNetworkError(message: string)

  /** A 403 whose X-RateLimit-Remaining header is "0". */
  predicate RateLimited(reply: GhReply) {
    reply.Responded? && reply.response.status == 403 && reply.response.rateRemaining == Some("0")
  }

  const RateLimitDetail := "GitHub rate limit exceeded; wait and retry"

  /** How attempt `attempt` ends: None when it is followed by a sleep and
      another attempt, otherwise what `_request_with_retries` gives back. */
  function Settle(reply: GhReply, attempt: nat, maxRetries: int): Option<Http<GhResponse>> {
    match reply
    case Responded(resp) =>
      if RateLimited(reply) then Some(HttpError(429, RateLimitDetail))
      else if 500 <= resp.status < 600 && attempt < maxRetries then None
      else Some(Answer(resp))
    case GhNetworkError(m) =>
      if attempt < maxRetries then None
      else Some(HttpError(502, "Network error talking to GitHub: " + m))
  }

  /** When an attempt is retried, and what the caller sees otherwise: a rate
      limit is never retried, a 5xx and a network error are retried exactly
      before the last attempt, and any other response is returned as it
      is. */
  lemma SettleMeaning(reply: GhReply, attempt: nat, maxRetries: int)
    ensures Settle(reply, attempt, maxRetries).None? <==>
      attempt < maxRetries && !RateLimited(reply) &&
      (reply.GhNetworkError? || 500 <= reply.response.status < 600)
    ensures Settle(reply, attempt, maxRetries) == Some(HttpError(429, RateLimitDetail)) <==> RateLimited(reply)
    ensures attempt >= maxRetries ==> Settle(reply, attempt, maxRetries).Some?
    ensures (exists m :: Settle(reply, attempt, maxRetries) == Some(HttpError(502, m))) <==>
      reply.GhNetworkError? && attempt >= maxRetries
  {
    if reply.GhNetworkError? && attempt >= maxRetries {
      assert Settle(reply, attempt, maxRetries) == Some(HttpError(502, "Network error talking to GitHub: " + reply.message));
    }
  }

  const UnknownNetworkError := "Unknown network error"

  /** What `_request_with_retries` gives back when attempt `a` gets
      `replies(a)`: the outcome of the first attempt from `attempt` on that
      is not retried. Only a rate limit (429) and a network error (502) are
      raised; a response it returns is never a rate limit. */
  function Retried(replies: nat -> GhReply, maxRetries: int, attempt: nat): (r: Http<GhResponse>)
    decreases maxRetries + 1 - attempt
    ensures r.HttpError? ==> r.status == 429 || r.status == 502
    ensures r.Answer? ==> !RateLimited(Responded(r.value))
  {
    if attempt > maxRetries then HttpError(502, UnknownNetworkError)
    else
      match Settle(replies(attempt), attempt, maxRetries)
      case None => Retried(replies, maxRetries, attempt + 1)
      case Some(r) => r
  }

  /** `_request_with_retries(method, url, max_retries, backoff_start)`: attempt
      `a` gets `replies(a)`, for `a` from 0 to `maxRetries`; each retried
      attempt is followed by a sleep that doubles each time. The after-loop
      error for a remembered network error cannot be reached (the last
      attempt always ends the loop), so a loop that ends gives the unknown
      network error, which happens only when no attempt is made. */
  method RequestWithRetries(replies: nat -> GhReply, maxRetries: int, backoffStart: real)
    returns (r: Http<GhResponse>, requests: nat, sleeps: seq<real>)
    ensures r == Retried(replies, maxRetries, 0)
    ensures requests <= if maxRetries < 0 then 0 else maxRetries + 1
    ensures requests == 0 <==> maxRetries < 0
    ensures |sleeps| == if requests == 0 then 0 else requests - 1
    ensures forall k :: 0 <= k < |sleeps| ==> sleeps[k] == BranchPusher.Backoff(backoffStart, k)
    ensures forall a :: 0 <= a < requests - 1 ==> Settle(replies(a), a, maxRetries).None?
    ensures requests > 0 ==> Settle(replies(requests - 1), requests - 1, maxRetries) == Some(r)
    ensures requests == 0 ==> r == HttpError(502, UnknownNetworkError)
  {
    var backoff := backoffStart;
    sleeps := [];
    requests := 0;
    var attempt := 0;
    while attempt < maxRetries + 1
      invariant 0 <= attempt <= if maxRetries < 0 then 0 else maxRetries
      invariant requests == attempt && |sleeps| == attempt
      invariant backoff == BranchPusher.Backoff(backoffStart, attempt)
      invariant forall k :: 0 <= k < |sleeps| ==> sleeps[k] == BranchPusher.Backoff(backoffStart, k)
      invariant forall a :: 0 <= a < attempt ==> Settle(replies(a), a, maxRetries).None?
      invariant Retried(replies, maxRetries, 0) == Retried(replies, maxRetries, attempt)
    {
      var reply := replies(attempt);
      requests := requests + 1;
      assert Retried(replies, maxRetries, attempt) ==
        if Settle(reply, attempt, maxRetries).None? then Retried(replies, maxRetries, attempt + 1)
        else Settle(reply, attempt, maxRetries).value;
      match reply
      case Responded(resp) =>
        if resp.status == 403 && resp.rateRemaining == Some("0") {
          return HttpError(429, RateLimitDetail), requests, sleeps;
        }
        if 500 <= resp.status < 600 && attempt < maxRetries {
          sleeps := sleeps + [backoff];
          backoff := backoff * 2.0;
          attempt := attempt + 1;
          continue;
        }
        return Answer(resp), requests, sleeps;
      case GhNetworkError(m) =>
        if attempt < maxRetries {
          sleeps := sleeps + [backoff];
          backoff := backoff * 2.0;
          attempt := attempt + 1;
          continue;
        }
        return HttpError(502, "Network error talking to GitHub: " + m), requests, sleeps;
    }
    r := HttpError(502, UnknownNetworkError);
  }

  /** The `max_retries` every helper of `promote` uses. */
  const MaxRetries := 2

  /** One request of `promote`, as its helper sees it once retries are done. */
  function Sent(replies: nat -> GhReply): (r: Http<GhResponse>)
    ensures r.HttpError? ==> r.status == 429 || r.status == 502
  {
    Retried(replies, MaxRetries, 0)
  }

  /** A request GitHub answers at once with a response that is neither a
      5xx nor a rate limit gets that response back; a request that fails
      every time on the network is a 502. */
  lemma SentMeaning(replies: nat -> GhReply)
    ensures Sent(replies).HttpError? ==> Sent(replies).status in {429, 502}
    ensures replies(0).Responded? && !RateLimited(replies(0)) && !(500 <= replies(0).response.status < 600) ==>
      Sent(replies) == Answer(replies(0).response)
    ensures (forall a :: 0 <= a <= MaxRetries ==> replies(a).GhNetworkError?) ==>
      Sent(replies).HttpError? && Sent(replies).status == 502
  {
    if forall a :: 0 <= a <= MaxRetries ==> replies(a).GhNetworkError? {
      assert replies(0).GhNetworkError? && replies(1).GhNetworkError? && replies(2).GhNetworkError?;
      assert Retried(replies, MaxRetries, 2) == HttpError(502, "Network error talking to GitHub: " + replies(2).message);
    }
  }

  // ------------------------------------------------------------- titles

  /** The characters of `[\x00-\x1F\x7F\r\n\t]`. */
  predicate Control(c: char) {
    c as int <= 0x1F || c as int == 0x7F
  }

  /** No character of `s` is a control character. */
  predicate NoControl(s: string) {
    forall i :: 0 <= i < |s| ==> !Control(s[i])
  }

  /** `re.sub(r"[\x00-\x1F\x7F\r\n\t]+", " ", s)`. */
  function SpaceControls(s: string): (r: string)
    ensures |r| <= |s|
    ensures NoControl(r)
  {
    ReplaceRuns(s, Control, ' ')
  }

  lemma NoControlSlice(s: string, a: nat, b: nat)
    requires NoControl(s) && a <= b <= |s|
    ensures NoControl(s[a..b])
  {
    assert forall i :: 0 <= i < b - a ==> s[a..b][i] == s[a + i];
  }

  /** Each run of control characters between two other characters turns into
      exactly one space. */
  lemma ControlRunBecomesSpace(a: string, run: string, b: string)
    requires run != [] && forall i :: 0 <= i < |run| ==> Control(run[i])
    requires a == [] || !Control(a[|a| - 1])
    requires b == [] || !Control(b[0])
    ensures SpaceControls(a + run + b) == SpaceControls(a) + " " + SpaceControls(b)
  {
    RunBecomesOne(a, run, b, Control, ' ');
  }

  const DefaultPromoteTitle := "Stage B Promote"

  /** `_sanitize_title(s)`: control runs become a space, the result is
      stripped and cut to 120 characters, and an empty result becomes
      "Stage B Promote". */
  function SanitizeTitle(s: string): (r: string)
    ensures 1 <= |r| <= 120
    ensures NoControl(r)
    ensures !IsSpace(r[0])
  {
    var t := Take(Strip(SpaceControls(s)), 120);
    TitleCut(s);
    if t == [] then DefaultPromoteTitle else t
  }

  /** The cut title has no control character and does not start with
      whitespace. */
  lemma TitleCut(s: string)
    ensures var t := Take(Strip(SpaceControls(s)), 120);
      NoControl(t) && (t != [] ==> !IsSpace(t[0]))
  {
    var u := SpaceControls(s);
    var st := Strip(u);
    var t := Take(st, 120);
    NoControlSlice(u, StripOffset(u), StripOffset(u) + |st|);
    NoControlSlice(st, 0, |t|);
  }

  /** A title already free of control characters and surrounding whitespace
      and at most 120 characters long is kept. */
  lemma SanitizeTitleKeepsClean(s: string)
    requires 1 <= |s| <= 120 && NoControl(s)
    requires !IsSpace(s[0]) && !IsSpace(s[|s| - 1])
    ensures SanitizeTitle(s) == s
  {
    ReplaceRunsOfClean(s, Control, ' ');
    StripOfStripped(s);
  }

  /** A title with nothing but whitespace and control characters gives the
      default. */
  lemma SanitizeTitleBlank(s: string)
    requires forall i :: 0 <= i < |s| ==> IsSpace(s[i]) || Control(s[i])
    ensures SanitizeTitle(s) == DefaultPromoteTitle
  {
    ReplaceRunsWithin(s, Control, IsSpace, ' ');
  }

  // --------------------------------------------------------------- tags

  /** `re.sub(r"[^A-Za-z0-9._/-]", "-", tag)`. */
  function TagChars(tag: string): (r: string)
    ensures |r| == |tag|
    ensures forall i :: 0 <= i < |tag| ==> r[i] == if BranchChar(tag[i]) then tag[i] else '-'
  {
    seq(|tag|, i requires 0 <= i < |tag| => if BranchChar(tag[i]) then tag[i] else '-')
  }

  /** The tag `promote` uses: disallowed characters become "-", then "/" is
      stripped from both ends. */
  function SafeTag(tag: string): (r: string)
    ensures forall c :: c in r ==> BranchChar(c)
    ensures r == [] || (r[0] != '/' && r[|r| - 1] != '/')
  {
    var t := TagChars(tag);
    assert forall c :: c in t ==> BranchChar(c) by {
      forall c | c in t ensures BranchChar(c) {
        var i :| 0 <= i < |t| && t[i] == c;
      }
    }
    StripChar(t, '/')
  }

  /** The tag is refused when empty, ending with ".", or holding ".." or "//". */
  predicate TagAcceptable(t: string) {
    t != [] && t[|t| - 1] != '.' && !Contains(t, "..") && !Contains(t, "//")
  }

  /** Making a tag safe twice changes nothing more. */
  lemma SafeTagIdempotent(tag: string)
    ensures SafeTag(SafeTag(tag)) == SafeTag(tag)
  {
    var s := SafeTag(tag);
    assert forall i :: 0 <= i < |s| ==> s[i] in s;
    assert TagChars(s) == s;
  }

  // ----------------------------------------------------------- requests

  /** What FastAPI answers when an exception other than HTTPException leaves
      the route: `raise_for_status()`'s HTTPStatusError, a KeyError or
      TypeError on the body, a ValueError from `int`. */
  const InternalError := "Internal Server Error"

  /** httpx's `is_success`: `raise_for_status()` returns for these statuses
      and raises for every other. As the last statement of a helper, a 2xx
      falls off its end and the helper gives None. */
  predicate Success(status: int) {
    200 <= status < 300
  }

  /** `v[k]` on a parsed body: a dictionary holding `k` answers; any other
      value raises. */
  function Index(v: Json, k: string): Option<Json> {
    if v.JObj? && k in v.o then Some(v.o[k]) else None
  }

  /** Python's `int(x)` on a float: truncation toward zero. */
  function Truncate(x: real): (r: int)
    ensures 0.0 <= x ==> r as real <= x < r as real + 1.0
    ensures x < 0.0 ==> r as real - 1.0 < x <= r as real
  {
    if 0.0 <= x then x.Floor else -((-x).Floor)
  }

  /** `int(v)` on a JSON value: a boolean is 0 or 1, a float is truncated, a
      string is read as decimal text; `null`, a list and a dictionary raise. */
  function IntOf(v: Json): Option<int> {
    match v
    case JInt(i) => Some(i)
    case JBool(b) => Some(if b then 1 else 0)
    case JNum(x) => Some(Truncate(x))
    case JStr(s) => ParseInt(s)
    case _ => None
  }

  /** `int(v["number"])`, or the escape. */
  function NumberOf(v: Json): Http<Option<int>> {
    var n := Index(v, "number");
    if n.Some? && IntOf(n.value).Some? then Answer(Some(IntOf(n.value).value))
    else HttpError(500, InternalError)
  }

  /** `_get_ref_sha` once its request is settled: `r.json()["object"]["sha"]`
      for a 200, None for a 404 and for any other 2xx. */
  function RefSha(o: Http<GhResponse>): (r: Http<Option<Json>>)
    ensures o.HttpError? ==> r.HttpError? && r.status == o.status && r.detail == o.detail
    ensures o.Answer? && r.HttpError? ==> r.status == 500
  {
    match o
    case HttpError(status, detail) => HttpError(status, detail)
    case Answer(resp) =>
      if resp.status == 200 then
        var obj := if resp.body.Some? then Index(resp.body.value, "object") else None;
        var sha := if obj.Some? then Index(obj.value, "sha") else None;
        if sha.Some? then Answer(sha) else HttpError(500, InternalError)
      else if resp.status == 404 then Answer(None)
      else if Success(resp.status) then Answer(None) else HttpError(500, InternalError)
  }

  /** `_find_existing_pr` once its request is settled: for a 200, None when
      the body is falsy, else the number of its first item; None for any
      other 2xx. */
  function FoundPr(o: Http<GhResponse>): (r: Http<Option<int>>)
    ensures o.HttpError? ==> r.HttpError? && r.status == o.status && r.detail == o.detail
    ensures o.Answer? && r.HttpError? ==> r.status == 500
  {
    match o
    case HttpError(status, detail) => HttpError(status, detail)
    case Answer(resp) =>
      if resp.status != 200 then (if Success(resp.status) then Answer(None) else HttpError(500, InternalError))
      else if resp.body.None? then HttpError(500, InternalError)
      else if !Truthy(resp.body.value) then Answer(None)
      else if resp.body.value.JArr? then NumberOf(resp.body.value.a[0])
      else HttpError(500, InternalError)
  }

  const PullExists := "A pull request already exists"

  /** `_create_pr` once its request (and the search made again after a 422)
      are settled: the number of a 200 or 201; after a 422 saying the pull
      request exists, the number the search finds; None for any other 2xx. */
  function CreatedPr(o: Http<GhResponse>, refind: Http<GhResponse>): (r: Http<Option<int>>)
    ensures o.HttpError? ==> r.HttpError? && r.status == o.status && r.detail == o.detail
    ensures o.Answer? && r.HttpError? ==> r.status == 500 || (refind.HttpError? && r.status == refind.status)
  {
    match o
    case HttpError(status, detail) => HttpError(status, detail)
    case Answer(resp) =>
      if resp.status == 200 || resp.status == 201 then
        if resp.body.Some? then NumberOf(resp.body.value) else HttpError(500, InternalError)
      else if resp.status == 422 && Contains(resp.text, PullExists) then
        match FoundPr(refind)
        case HttpError(status, detail) => HttpError(status, detail)
        case Answer(pr) => if pr.Some? then Answer(pr) else HttpError(500, InternalError)
      else if Success(resp.status) then Answer(None) else HttpError(500, InternalError)
  }

  /** `_tag_exists` once its request is settled: true for a 200, false for a
      404, and None (taken as false) for any other 2xx. */
  function TagFound(o: Http<GhResponse>): (r: Http<bool>)
    ensures o.HttpError? ==> r.HttpError? && r.status == o.status && r.detail == o.detail
    ensures o.Answer? && r.HttpError? ==> r.status == 500
  {
    match o
    case HttpError(status, detail) => HttpError(status, detail)
    case Answer(resp) =>
      if resp.status == 200 then Answer(true)
      else if Success(resp.status) || resp.status == 404 then Answer(false)
      else HttpError(500, InternalError)
  }

  /** `_create_lightweight_tag` once its request is settled: any 2xx is
      taken. */
  function TagCreated(o: Http<GhResponse>): (r: Http<()>)
    ensures o.HttpError? ==> r.HttpError? && r.status == o.status && r.detail == o.detail
    ensures o.Answer? && r.HttpError? ==> r.status == 500
  {
    match o
    case HttpError(status, detail) => HttpError(status, detail)
    case Answer(resp) => if Success(resp.status) then Answer(()) else HttpError(500, InternalError)
  }

  // ------------------------------------------------------------ promote

  /** The replies GitHub gives, attempt by attempt, to each request `promote`
      can make: the branch ref, the search for an open pull request, its
      creation, the search made again after a 422, the tag ref, and the tag's
      creation. The bodies `promote` sends are not part of the replies. */
  datatype Wire = Wire(branchRef: nat -> GhReply, find: nat -> GhReply, create: nat -> GhReply,
                       refind: nat -> GhReply, tagGet: nat -> GhReply, tagPost: nat -> GhReply)

  /** The answer of `promote`: the pull request number (None when GitHub
      answered the creation with a 2xx other than 200 and 201), the head sha
      as GitHub gave it, and the tag. */
  datatype Promoted = Promoted(prNumber: Option<int>, sha: Json, tag: Option<string>)

  /** Step 4: the open pull request of the branch, or else the one created. */
  function PullNumber(wire: Wire): (r: Http<Option<int>>)
    ensures r.HttpError? ==> r.status in {429, 500, 502}
  {
    match FoundPr(Sent(wire.find))
    case HttpError(status, detail) => HttpError(status, detail)
    case Answer(pr) => if pr.Some? then Answer(pr) else CreatedPr(Sent(wire.create), Sent(wire.refind))
  }

  /** Step 5: no tag when none is asked for; otherwise the safe tag, created
      unless it exists. */
  function TagStep(tag: Option<string>, wire: Wire): (r: Http<Option<string>>)
    ensures r.Answer? ==> r.value == if tag.None? || tag.value == "" then None else Some(SafeTag(tag.value))
    ensures r.Answer? && r.value.Some? ==> TagAcceptable(r.value.value)
    ensures r.HttpError? ==> r.status in {400, 429, 500, 502}
  {
    if tag.None? || tag.value == "" then Answer(None)
    else
      var safe := SafeTag(tag.value);
      if !TagAcceptable(safe) then HttpError(400, "Invalid tag name")
      else
        match TagFound(Sent(wire.tagGet))
        case HttpError(status, detail) => HttpError(status, detail)
        case Answer(exists_) =>
          if exists_ then Answer(Some(safe))
          else
            match TagCreated(Sent(wire.tagPost))
            case HttpError(status, detail) => HttpError(status, detail)
            case Answer(_) => Answer(Some(safe))
  }

  /** Steps 3 to 5 of `promote`, once the configuration and the branch name
      are accepted. */
  function PromoteChecked(branch: string, tag: Option<string>, wire: Wire): (r: Http<Promoted>)
    ensures r.HttpError? ==> r.status in {400, 404, 429, 500, 502}
    ensures r.Answer? ==> Truthy(r.value.sha)
    ensures r.Answer? ==> r.value.tag == if tag.None? || tag.value == "" then None else Some(SafeTag(tag.value))
    ensures r.Answer? && r.value.tag.Some? ==> TagAcceptable(r.value.tag.value)
  {
    match RefSha(Sent(wire.branchRef))
    case HttpError(status, detail) => HttpError(status, detail)
    case Answer(sha) =>
      if sha.None? || !Truthy(sha.value) then HttpError(404, "Branch '" + branch + "' not found")
      else
        match PullNumber(wire)
        case HttpError(status, detail) => HttpError(status, detail)
        case Answer(pr) =>
          match TagStep(tag, wire)
          case HttpError(status, detail) => HttpError(status, detail)
          case Answer(t) => Answer(Promoted(pr, sha.value, t))
  }

  /** `promote(req)` with GitHub's replies on `wire` and the branch check
      `validate` (`ValidateBranchName`, or `ValidateBranchNameAsWritten` for
      the check as the source writes it). The title only goes into the
      creation request, so the answer does not depend on it. An answer has a
      truthy head sha and the safe tag asked for; a refusal is the
      validator's, or one of 400 (bad tag), 404 (no branch), 429 (rate
      limit), 500 (misconfiguration or an escaping exception) and 502
      (network). */
  function Promote(env: map<string, string>, validate: string -> Http<string>, branch: string,
                   tag: Option<string>, wire: Wire): (r: Http<Promoted>)
    ensures r.HttpError? ==>
      r.status in {400, 404, 429, 500, 502} || validate(branch) == HttpError(r.status, r.detail)
    ensures r.Answer? ==> ValidateEnv(env).Ok? && validate(branch).Answer? && Truthy(r.value.sha)
    ensures r.Answer? ==> r.value.tag == if tag.None? || tag.value == "" then None else Some(SafeTag(tag.value))
    ensures r.Answer? && r.value.tag.Some? ==> TagAcceptable(r.value.tag.value)
  {
    match ValidateEnv(env)
    case Raises(e) => HttpError(500, "Integrator misconfigured: " + e)
    case Ok(_) =>
      match validate(branch)
      case HttpError(status, detail) => HttpError(status, detail)
      case Answer(_) => PromoteChecked(branch, tag, wire)
  }

  /** How step 4 picks the number: an open pull request is reused and nothing
      is created; otherwise a 200 or 201 gives the created one's number, a
      422 saying it exists gives what the second search finds (a 500 when it
      finds nothing), and another 2xx leaves the number None. */
  lemma PullNumberMeaning(wire: Wire)
    ensures FoundPr(Sent(wire.find)).Answer? && FoundPr(Sent(wire.find)).value.Some? ==>
      PullNumber(wire) == FoundPr(Sent(wire.find))
    ensures FoundPr(Sent(wire.find)) == Answer(None) && Sent(wire.create).Answer? ==>
      var resp := Sent(wire.create).value;
      && ((resp.status == 200 || resp.status == 201) && resp.body.Some? ==> PullNumber(wire) == NumberOf(resp.body.value))
      && (resp.status == 422 && Contains(resp.text, PullExists) && FoundPr(Sent(wire.refind)).Answer? ==>
            PullNumber(wire) == (if FoundPr(Sent(wire.refind)).value.Some? then FoundPr(Sent(wire.refind))
                                 else HttpError(500, InternalError)))
      && (Success(resp.status) && resp.status != 200 && resp.status != 201 ==> PullNumber(wire) == Answer(None))
      && (!Success(resp.status) && !(resp.status == 422 && Contains(resp.text, PullExists)) ==>
            PullNumber(wire) == HttpError(500, InternalError))
  {
  }

  /** The failures of `promote`, in the order the route meets them: a
      misconfiguration, the validator's refusal, a failed branch-ref
      request, a missing or falsy sha, a failed pull-request step, then the
      tag step's failure, each as it arises. */
  lemma PromoteFailures(env: map<string, string>, validate: string -> Http<string>, branch: string,
                        tag: Option<string>, wire: Wire)
    ensures ValidateEnv(env).Raises? ==>
      Promote(env, validate, branch, tag, wire) == HttpError(500, "Integrator misconfigured: " + ValidateEnv(env).error)
    ensures ValidateEnv(env).Ok? && validate(branch).HttpError? ==>
      Promote(env, validate, branch, tag, wire) == HttpError(validate(branch).status, validate(branch).detail)
    ensures ValidateEnv(env).Ok? && validate(branch).Answer? ==>
      Promote(env, validate, branch, tag, wire) == PromoteChecked(branch, tag, wire)
    ensures Sent(wire.branchRef).HttpError? ==>
      PromoteChecked(branch, tag, wire) == HttpError(Sent(wire.branchRef).status, Sent(wire.branchRef).detail)
    ensures RefSha(Sent(wire.branchRef)).Answer? && (RefSha(Sent(wire.branchRef)).value.None? ||
                                                     !Truthy(RefSha(Sent(wire.branchRef)).value.value)) ==>
      PromoteChecked(branch, tag, wire) == HttpError(404, "Branch '" + branch + "' not found")
    ensures RefSha(Sent(wire.branchRef)).Answer? && RefSha(Sent(wire.branchRef)).value.Some? &&
            Truthy(RefSha(Sent(wire.branchRef)).value.value) && PullNumber(wire).HttpError? ==>
      PromoteChecked(branch, tag, wire) == HttpError(PullNumber(wire).status, PullNumber(wire).detail)
    ensures RefSha(Sent(wire.branchRef)).Answer? && RefSha(Sent(wire.branchRef)).value.Some? &&
            Truthy(RefSha(Sent(wire.branchRef)).value.value) && PullNumber(wire).Answer? ==>
      PromoteChecked(branch, tag, wire) ==
        match TagStep(tag, wire)
        case HttpError(status, detail) => HttpError(status, detail)
        case Answer(t) => Answer(Promoted(PullNumber(wire).value, RefSha(Sent(wire.branchRef)).value.value, t))
  {
  }

  /** A 2xx other than 200 and 201 to the creation leaves the number None:
      with a head `sha`, no open pull request, and such an answer to the
      creation, `promote` answers `{"pr_number": None, ...}`. */
  lemma AcceptedCreationHasNoNumber(env: map<string, string>, validate: string -> Http<string>, branch: string,
                                    sha: string, status: int)
    requires ValidateEnv(env).Ok? && validate(branch).Answer?
    requires sha != "" && Success(status) && status != 200 && status != 201
    ensures Promote(env, validate, branch, None, AcceptedWire(sha, status)) == Answer(Promoted(None, JStr(sha), None))
  {
    var wire := AcceptedWire(sha, status);
    AcceptedHead(sha, status);
    AcceptedPull(sha, status);
    assert TagStep(None, wire) == Answer(None);
    assert Truthy(JStr(sha));
    assert PromoteChecked(branch, None, wire) == Answer(Promoted(None, JStr(sha), None));
  }

  /** Head `sha`, no open pull request, and `status` to the creation. */
  function AcceptedWire(sha: string, status: int): Wire {
    Wire(Once(Ok200(JObj(map["object" := JObj(map["sha" := JStr(sha)])]))), Once(Ok200(JArr([]))),
         Once(GhResponse(status, None, "", None)), Once(Ok200(JArr([]))), Once(Ok200(JNull)), Once(Ok200(JNull)))
  }

  lemma AcceptedHead(sha: string, status: int)
    ensures RefSha(Sent(AcceptedWire(sha, status).branchRef)) == Answer(Some(JStr(sha)))
  {
    SentOnce(Ok200(JObj(map["object" := JObj(map["sha" := JStr(sha)])])));
  }

  lemma AcceptedPull(sha: string, status: int)
    requires Success(status) && status != 200 && status != 201
    ensures PullNumber(AcceptedWire(sha, status)) == Answer(None)
  {
    var wire := AcceptedWire(sha, status);
    SentOnce(Ok200(JArr([])));
    assert FoundPr(Sent(wire.find)) == Answer(None);
    SentOnce(GhResponse(status, None, "", None));
  }

  /** The branch check decides whether GitHub is asked at all: the check as
      the source writes it lets "stage-a/20240101-x" with a final newline
      go on to the branch-ref request; the corrected check refuses it with
      a 400. */
  lemma NewlineBranchReachesGitHub(env: map<string, string>, tag: Option<string>, wire: Wire)
    requires ValidateEnv(env).Ok?
    ensures Promote(env, ValidateBranchNameAsWritten, "stage-a/20240101-x\n", tag, wire) ==
      PromoteChecked("stage-a/20240101-x\n", tag, wire)
    ensures Promote(env, ValidateBranchName, "stage-a/20240101-x\n", tag, wire).HttpError?
    ensures Promote(env, ValidateBranchName, "stage-a/20240101-x\n", tag, wire).status == 400
  {
    NewlineBranchExample();
    ValidateBranchNameMeaning("stage-a/20240101-x\n");
    assert "stage-a/20240101-x\n"[18] == '\n';
  }

  // ------------------------------------------------- GitHub as a state

  /** A reply given on every attempt. */
  function Once(resp: GhResponse): nat -> GhReply {
    a => Responded(resp)
  }

  /** A 200 with a JSON body. */
  function Ok200(body: Json): GhResponse {
    GhResponse(200, None, "", Some(body))
  }

  /** A request answered at once with a status below 500 that is not a rate
      limit gets that response. */
  lemma SentOnce(resp: GhResponse)
    requires resp.status < 500 && resp.status != 403
    ensures Sent(Once(resp)) == Answer(resp)
  {
    assert Settle(Once(resp)(0), 0, MaxRetries) == Some(Answer(resp));
  }

  /** An open pull request: its number, title and base branch. */
  datatype Pull = Pull(number: int, title: string, base: string)

  /** What `promote` reads and writes on GitHub: the head sha of each branch,
      the open pull request of each branch, and the sha of each tag. */
  datatype GitHub = GitHub(heads: map<string, string>, pulls: map<string, Pull>, tags: map<string, string>)

  /** The head of `branch` as `{"object": {"sha": ...}}`, or a 404. */
  function HeadReply(gh: GitHub, branch: string): GhResponse {
    if branch in gh.heads then Ok200(JObj(map["object" := JObj(map["sha" := JStr(gh.heads[branch])])]))
    else GhResponse(404, None, "", None)
  }

  /** The open pull request of `branch`, as a list of at most one. */
  function OpenPulls(gh: GitHub, branch: string): GhResponse {
    Ok200(JArr(if branch in gh.pulls then [JObj(map["number" := JInt(gh.pulls[branch].number)])] else []))
  }

  /** The pull request just created. */
  function CreatedReply(newNumber: int): GhResponse {
    GhResponse(201, None, "", Some(JObj(map["number" := JInt(newNumber)])))
  }

  /** The tag ref: a 200 when the safe tag exists, a 404 otherwise. */
  function TagReply(gh: GitHub, tag: Option<string>): GhResponse {
    if tag.Some? && SafeTag(tag.value) in gh.tags then Ok200(JNull) else GhResponse(404, None, "", None)
  }

  /** What a GitHub in state `gh` that serves every request answers to
      `promote` for `branch` and `tag`, a new pull request getting the number
      `newNumber`; the new tag is answered with a 201. */
  function Served(gh: GitHub, branch: string, tag: Option<string>, newNumber: int): Wire {
    Wire(Once(HeadReply(gh, branch)), Once(OpenPulls(gh, branch)), Once(CreatedReply(newNumber)),
         Once(OpenPulls(gh, branch)), Once(TagReply(gh, tag)), Once(GhResponse(201, None, "", None)))
  }

  /** Such a GitHub gives the head of the branch, or None when it has none. */
  lemma ServedHead(gh: GitHub, branch: string, tag: Option<string>, newNumber: int)
    ensures RefSha(Sent(Served(gh, branch, tag, newNumber).branchRef)) ==
      Answer(if branch in gh.heads then Some(JStr(gh.heads[branch])) else None)
  {
    SentOnce(HeadReply(gh, branch));
  }

  /** Such a GitHub gives the number of the branch's open pull request, or
      else the new number. */
  lemma ServedPull(gh: GitHub, branch: string, tag: Option<string>, newNumber: int)
    ensures PullNumber(Served(gh, branch, tag, newNumber)) ==
      Answer(Some(if branch in gh.pulls then gh.pulls[branch].number else newNumber))
  {
    SentOnce(OpenPulls(gh, branch));
    SentOnce(CreatedReply(newNumber));
  }

  /** Such a GitHub takes every acceptable tag. */
  lemma ServedTag(gh: GitHub, branch: string, tag: Option<string>, newNumber: int)
    ensures TagStep(tag, Served(gh, branch, tag, newNumber)) ==
      if tag.None? || tag.value == "" then Answer(None)
      else if !TagAcceptable(SafeTag(tag.value)) then HttpError(400, "Invalid tag name")
      else Answer(Some(SafeTag(tag.value)))
  {
    SentOnce(TagReply(gh, tag));
    SentOnce(GhResponse(201, None, "", None));
  }

  /** The title of a pull request when the request gives none, with the arrow
      as the source spells it ("â†’", U+00E2 U+2020 U+2019). */
  function DefaultTitle(branch: string, base: string): string {
    "Promote " + branch + " \U{e2}\U{2020}\U{2019} " + base
  }

  /** The title asked for, or the default one when it is missing or empty. */
  function PullTitle(title: Option<string>, branch: string, base: string): string {
    if title.Some? && title.value != "" then title.value else DefaultTitle(branch, base)
  }

  /** `_find_existing_pr` then, when there is none, `_create_pr`: the number
      of the branch's open pull request, and GitHub afterwards. */
  function PullFor(gh: GitHub, branch: string, title: string, base: string, newNumber: int): (r: (int, GitHub))
    ensures r.1.heads == gh.heads && r.1.tags == gh.tags
    ensures branch in r.1.pulls && r.1.pulls[branch].number == r.0
    ensures branch in gh.pulls ==> r == (gh.pulls[branch].number, gh)
    ensures branch !in gh.pulls ==> r.1.pulls[branch] == Pull(newNumber, SanitizeTitle(title), base)
    ensures forall b :: b != branch && b in gh.pulls ==> b in r.1.pulls && r.1.pulls[b] == gh.pulls[b]
    ensures forall b :: b in r.1.pulls && b !in gh.pulls ==> b == branch && r.0 == newNumber
  {
    if branch in gh.pulls then (gh.pulls[branch].number, gh)
    else (newNumber, gh.(pulls := gh.pulls[branch := Pull(newNumber, SanitizeTitle(title), base)]))
  }

  /** `_tag_exists` then, when it does not, `_create_lightweight_tag`. */
  function TagAt(gh: GitHub, tag: string, sha: string): (g: GitHub)
    ensures g.heads == gh.heads && g.pulls == gh.pulls
    ensures tag in g.tags && g.tags.Keys == gh.tags.Keys + {tag}
    ensures forall t :: t in gh.tags ==> g.tags[t] == gh.tags[t]
    ensures tag !in gh.tags ==> g.tags[tag] == sha
  {
    if tag in gh.tags then gh else gh.(tags := gh.tags[tag := sha])
  }

  /** Steps 4 and 5 of `promote` on a GitHub that serves every request, once
      the branch's head `sha` is known: reuse the open pull request of the
      branch or create one numbered `newNumber`, then, when a tag is asked
      for, make it safe and create it on the head unless it exists. */
  function PromoteFound(cfg: Config, branch: string, sha: string, title: Option<string>, tag: Option<string>,
                        gh: GitHub, newNumber: int): (r: (Http<Promoted>, GitHub))
    ensures r.0.HttpError? ==> r.0 == HttpError(400, "Invalid tag name") && tag.Some? && !TagAcceptable(SafeTag(tag.value))
    ensures r.0.Answer? ==>
      && r.0.value.prNumber.Some? && r.0.value.sha == JStr(sha)
      && (r.0.value.tag.Some? <==> tag.Some? && tag.value != "")
      && (r.0.value.tag.Some? ==> r.0.value.tag.value == SafeTag(tag.value) && TagAcceptable(r.0.value.tag.value))
  {
    var pullTitle := PullTitle(title, branch, cfg.base);
    var (pr, gh1) := PullFor(gh, branch, pullTitle, cfg.base, newNumber);
    if tag.None? || tag.value == "" then (Answer(Promoted(Some(pr), JStr(sha), None)), gh1)
    else
      var safe := SafeTag(tag.value);
      if !TagAcceptable(safe) then (HttpError(400, "Invalid tag name"), gh1)
      else (Answer(Promoted(Some(pr), JStr(sha), Some(safe))), TagAt(gh1, safe, sha))
  }

  /** `promote(req)` against a GitHub in state `gh` that serves every
      request: check the configuration and the branch name, find the
      branch's head, then `PromoteFound`. A new pull request gets the number
      `newNumber`. */
  function PromoteServed(env: map<string, string>, validate: string -> Http<string>, branch: string,
                         title: Option<string>, tag: Option<string>, gh: GitHub, newNumber: int): (Http<Promoted>, GitHub)
  {
    match ValidateEnv(env)
    case Raises(e) => (HttpError(500, "Integrator misconfigured: " + e), gh)
    case Ok(cfg) =>
      match validate(branch)
      case HttpError(status, detail) => (HttpError(status, detail), gh)
      case Answer(_) =>
        if branch !in gh.heads || gh.heads[branch] == "" then
          (HttpError(404, "Branch '" + branch + "' not found"), gh)
        else PromoteFound(cfg, branch, gh.heads[branch], title, tag, gh, newNumber)
  }

  /** The state model answers what `promote` answers when GitHub serves
      every request from that state. */
  lemma PromoteServedAnswers(env: map<string, string>, validate: string -> Http<string>, branch: string,
                             title: Option<string>, tag: Option<string>, gh: GitHub, newNumber: int)
    ensures Promote(env, validate, branch, tag, Served(gh, branch, tag, newNumber)) ==
      PromoteServed(env, validate, branch, title, tag, gh, newNumber).0
  {
    var wire := Served(gh, branch, tag, newNumber);
    if ValidateEnv(env).Ok? && validate(branch).Answer? {
      var cfg := ValidateEnv(env).value;
      assert Promote(env, validate, branch, tag, wire) == PromoteChecked(branch, tag, wire);
      if branch in gh.heads && gh.heads[branch] != "" {
        assert PromoteServed(env, validate, branch, title, tag, gh, newNumber) ==
          PromoteFound(cfg, branch, gh.heads[branch], title, tag, gh, newNumber);
        ServedFound(cfg, branch, title, tag, gh, newNumber);
      } else {
        ServedMissing(branch, tag, gh, newNumber);
      }
    }
  }

  /** Without a head, both answer 404. */
  lemma ServedMissing(branch: string, tag: Option<string>, gh: GitHub, newNumber: int)
    requires !(branch in gh.heads && gh.heads[branch] != "")
    ensures PromoteChecked(branch, tag, Served(gh, branch, tag, newNumber)) == HttpError(404, "Branch '" + branch + "' not found")
  {
    ServedHead(gh, branch, tag, newNumber);
    if branch in gh.heads {
      assert !Truthy(JStr(gh.heads[branch]));
    }
  }

  /** Once the branch has a head, the two agree from step 3 on. */
  lemma ServedFound(cfg: Config, branch: string, title: Option<string>, tag: Option<string>, gh: GitHub, newNumber: int)
    requires branch in gh.heads && gh.heads[branch] != ""
    ensures PromoteChecked(branch, tag, Served(gh, branch, tag, newNumber)) ==
      PromoteFound(cfg, branch, gh.heads[branch], title, tag, gh, newNumber).0
  {
    var wire := Served(gh, branch, tag, newNumber);
    var sha := gh.heads[branch];
    ServedHead(gh, branch, tag, newNumber);
    ServedPull(gh, branch, tag, newNumber);
    ServedTag(gh, branch, tag, newNumber);
    PromoteFoundAnswer(cfg, branch, sha, title, tag, gh, newNumber);
    var pr := if branch in gh.pulls then gh.pulls[branch].number else newNumber;
    assert Truthy(JStr(sha));
    assert PromoteChecked(branch, tag, wire) ==
      match TagStep(tag, wire)
      case HttpError(status, detail) => HttpError(status, detail)
      case Answer(t) => Answer(Promoted(Some(pr), JStr(sha), t));
  }

  /** What `PromoteFound` answers: the branch's pull request number or the
      new one, the head, and the safe tag when it is acceptable. */
  lemma PromoteFoundAnswer(cfg: Config, branch: string, sha: string, title: Option<string>, tag: Option<string>,
                           gh: GitHub, newNumber: int)
    ensures var pr := if branch in gh.pulls then gh.pulls[branch].number else newNumber;
      PromoteFound(cfg, branch, sha, title, tag, gh, newNumber).0 ==
        if tag.None? || tag.value == "" then Answer(Promoted(Some(pr), JStr(sha), None))
        else if !TagAcceptable(SafeTag(tag.value)) then HttpError(400, "Invalid tag name")
        else Answer(Promoted(Some(pr), JStr(sha), Some(SafeTag(tag.value))))
  {
  }

  /** On a GitHub that serves every request, promoting is idempotent: the
      second run with the same request gives the same answer (the same pull
      request number, sha and tag) and changes nothing more on GitHub,
      whatever number a new pull request would get. */
  lemma PromoteIdempotent(env: map<string, string>, validate: string -> Http<string>, branch: string,
                          title: Option<string>, tag: Option<string>, gh: GitHub, n1: int, n2: int)
    ensures var (r1, g1) := PromoteServed(env, validate, branch, title, tag, gh, n1);
      PromoteServed(env, validate, branch, title, tag, g1, n2) == (r1, g1)
  {
    if ValidateEnv(env).Ok? && validate(branch).Answer? && branch in gh.heads && gh.heads[branch] != "" {
      PromoteFoundTwice(ValidateEnv(env).value, branch, gh.heads[branch], title, tag, gh, n1, n2);
    }
  }

  lemma PromoteFoundTwice(cfg: Config, branch: string, sha: string, title: Option<string>, tag: Option<string>,
                          gh: GitHub, n1: int, n2: int)
    ensures var (r1, g1) := PromoteFound(cfg, branch, sha, title, tag, gh, n1);
      g1.heads == gh.heads && PromoteFound(cfg, branch, sha, title, tag, g1, n2) == (r1, g1)
  {
    var pullTitle := PullTitle(title, branch, cfg.base);
    var p := PullFor(gh, branch, pullTitle, cfg.base, n1);
    if tag.Some? && tag.value != "" && TagAcceptable(SafeTag(tag.value)) {
      var g := TagAt(p.1, SafeTag(tag.value), sha);
      assert PullFor(g, branch, pullTitle, cfg.base, n2) == (p.0, g);
      assert TagAt(g, SafeTag(tag.value), sha) == g;
    } else {
      assert PullFor(p.1, branch, pullTitle, cfg.base, n2) == p;
    }
  }

  /** What `PromoteFound` does to the pull requests: the branch's open pull
      request is reused, and otherwise one is created for the branch alone. */
  lemma PromoteFoundPulls(cfg: Config, branch: string, sha: string, title: Option<string>, tag: Option<string>,
                          gh: GitHub, newNumber: int)
    ensures var (r, g) := PromoteFound(cfg, branch, sha, title, tag, gh, newNumber);
      && g.heads == gh.heads
      && (branch in gh.pulls ==> g.pulls == gh.pulls)
      && (r.Answer? && branch in gh.pulls ==> r.value.prNumber == Some(gh.pulls[branch].number))
      && (forall b :: b != branch && b in gh.pulls ==> b in g.pulls && g.pulls[b] == gh.pulls[b])
      && (forall b :: b in g.pulls && b !in gh.pulls ==> b == branch && g.pulls[b].number == newNumber)
  {
    var pullTitle := PullTitle(title, branch, cfg.base);
    var p := PullFor(gh, branch, pullTitle, cfg.base, newNumber);
    var (r, g) := PromoteFound(cfg, branch, sha, title, tag, gh, newNumber);
    if tag.Some? && tag.value != "" && TagAcceptable(SafeTag(tag.value)) {
      assert g == TagAt(p.1, SafeTag(tag.value), sha);
      assert r.value.prNumber == Some(p.0);
    } else {
      assert g == p.1;
      assert r.Answer? ==> r.value.prNumber == Some(p.0);
    }
  }

  /** What `PromoteFound` does to the tags: existing tags are kept as they
      are, and a new one is the answer's tag on the head `sha`. */
  lemma PromoteFoundTags(cfg: Config, branch: string, sha: string, title: Option<string>, tag: Option<string>,
                         gh: GitHub, newNumber: int)
    ensures var (r, g) := PromoteFound(cfg, branch, sha, title, tag, gh, newNumber);
      && (forall t :: t in gh.tags ==> t in g.tags && g.tags[t] == gh.tags[t])
      && (forall t :: t in g.tags && t !in gh.tags ==> r.Answer? && r.value.tag == Some(t) && g.tags[t] == sha && r.value.sha == JStr(sha))
  {
    var pullTitle := PullTitle(title, branch, cfg.base);
    var p := PullFor(gh, branch, pullTitle, cfg.base, newNumber);
    var (r, g) := PromoteFound(cfg, branch, sha, title, tag, gh, newNumber);
    if tag.Some? && tag.value != "" && TagAcceptable(SafeTag(tag.value)) {
      assert g == TagAt(p.1, SafeTag(tag.value), sha);
    } else {
      assert g == p.1;
    }
  }

  /** What one run of `promote` does to GitHub: heads never change; an open
      pull request of the branch is reused, and otherwise one is created only
      once the branch is found; a tag is added only when it is absent, and
      only on the branch's head. */
  lemma PromoteEffects(env: map<string, string>, validate: string -> Http<string>, branch: string,
                       title: Option<string>, tag: Option<string>, gh: GitHub, newNumber: int)
    ensures var (r, g) := PromoteServed(env, validate, branch, title, tag, gh, newNumber);
      && g.heads == gh.heads
      && (branch in gh.pulls ==> g.pulls == gh.pulls)
      && (r.Answer? && branch in gh.pulls ==> r.value.prNumber == Some(gh.pulls[branch].number))
      && (forall b :: b != branch && b in gh.pulls ==> b in g.pulls && g.pulls[b] == gh.pulls[b])
      && (forall b :: b in g.pulls && b !in gh.pulls ==> b == branch && g.pulls[b].number == newNumber)
      && (forall t :: t in gh.tags ==> t in g.tags && g.tags[t] == gh.tags[t])
      && (forall t :: t in g.tags && t !in gh.tags ==>
            r.Answer? && r.value.tag == Some(t) && branch in gh.heads && g.tags[t] == gh.heads[branch] &&
            r.value.sha == JStr(gh.heads[branch]))
  {
    if ValidateEnv(env).Ok? && validate(branch).Answer? && branch in gh.heads && gh.heads[branch] != "" {
      var cfg := ValidateEnv(env).value;
      assert PromoteServed(env, validate, branch, title, tag, gh, newNumber) ==
        PromoteFound(cfg, branch, gh.heads[branch], title, tag, gh, newNumber);
      PromoteFoundPulls(cfg, branch, gh.heads[branch], title, tag, gh, newNumber);
      PromoteFoundTags(cfg, branch, gh.heads[branch], title, tag, gh, newNumber);
    }
  }

  /** A request that is refused before the branch is found changes nothing;
      a branch without a head is not found. */
  lemma PromoteRefusals(env: map<string, string>, validate: string -> Http<string>, branch: string,
                        title: Option<string>, tag: Option<string>, gh: GitHub, newNumber: int)
    ensures var (r, g) := PromoteServed(env, validate, branch, title, tag, gh, newNumber);
      && (ValidateEnv(env).Raises? ==> r.HttpError? && r.status == 500 && g == gh)
      && (ValidateEnv(env).Ok? && validate(branch).HttpError? ==> r == HttpError(validate(branch).status, validate(branch).detail) && g == gh)
      && (ValidateEnv(env).Ok? && validate(branch).Answer? && branch !in gh.heads ==>
            r.HttpError? && r.status == 404 && g == gh)
  {
  }
}
