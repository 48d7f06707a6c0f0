/** The GitHub branch pusher of the integrator (app/integrator/branch_pusher.py):
    branch-name validation, path normalisation, percent-encoding of contents
    paths, commit-message sanitising, the retry loop around a request, and
    writing files to a branch whose contents are modelled as a map from path
    to bytes. HTTP replies are inputs; the remote branch is a class whose
    file map the writes update. */
module BranchPusher {
  import opened PyText
  import opened Oracles

  // --------------------------------------------------------- configuration

  /** What `validate_env` returns: the API URL, the token, the repository and
      the main branch. */
  datatype Config = Config(api: string, token: string, repo: string, mainBranch: string)

  /** `os.environ.get(name, default)`. */
  function EnvGet(env: map<string, string>, name: string, default: string): string {
    if name in env then env[name] else default
  }

  const MissingEnv := "Missing GITHUB_TOKEN or GITHUB_REPO in environment."

  /** `validate_env()`: the configuration, or a RuntimeError (its message
      here) when the token or the repository is empty. */
  function ValidateEnv(env: map<string, string>): (r: Outcome<Config>)
    ensures r.Ok? <==> EnvGet(env, "GITHUB_TOKEN", "") != "" && EnvGet(env, "GITHUB_REPO", "") != ""
    ensures r.Raises? ==> r.error == MissingEnv
    ensures r.Ok? ==> r.value.token != [] && r.value.repo != []
    ensures r.Ok? ==> r.value.api == [] || r.value.api[|r.value.api| - 1] != '/'
    ensures r.Ok? && "GITHUB_MAIN_BRANCH" !in env ==> r.value.mainBranch == "main"
  {
    var api := RStripChar(EnvGet(env, "GITHUB_API", "https://api.github.com"), '/');
    var token := EnvGet(env, "GITHUB_TOKEN", "");
    var repo := EnvGet(env, "GITHUB_REPO", "");
    if token == "" || repo == "" then Raises(MissingEnv)
    else Ok(Config(api, token, repo, EnvGet(env, "GITHUB_MAIN_BRANCH", "main")))
  }

  // ------------------------------------------------------------ branch names

  /** What `validate_branch_name` accepts: non-empty, no "..", no "//", and
      no "/" at either end. */
  predicate BranchNameOk(name: string) {
    && name != []
    && !Contains(name, "..")
    && !Contains(name, "//")
    && !StartsWith(name, "/")
    && !EndsWith(name, "/")
  }

  /** `validate_branch_name(name)`: nothing, or BranchCreateError naming the
      branch. */
  function ValidateBranchName(name: string): (r: Outcome<()>)
    ensures r.Ok? <==> BranchNameOk(name)
    ensures r.Raises? ==> r.error == BranchCreatePrefix + "Invalid branch name provided: " + name
  {
    if BranchNameOk(name) then Ok(()) else Raises(BranchCreatePrefix + "Invalid branch name provided: " + name)
  }

  /** An occurrence in a suffix is an occurrence in the whole. */
  lemma ContainsSuffix(s: string, k: nat, w: string)
    requires k <= |s| && Contains(s[k..], w)
    ensures Contains(s, w)
  {
    var i :| 0 <= i <= |s[k..]| && OccursAt(s[k..], w, i);
    assert s[k + i..k + i + |w|] == s[k..][i..i + |w|];
    assert OccursAt(s, w, k + i);
  }

  /** Where `w` does not occur, no slice of its length equals it. */
  lemma NoOccurrenceAt(s: string, w: string, i: nat)
    requires !Contains(s, w) && i + |w| <= |s|
    ensures s[i..i + |w|] != w
  {
    assert !OccursAt(s, w, i);
  }

  /** Every segment is non-empty and none is "..". */
  predicate SegmentsOk(parts: seq<string>) {
    forall k :: 0 <= k < |parts| ==> parts[k] != [] && parts[k] != ".."
  }

  /** What follows the first "/" of an accepted name is accepted too. */
  lemma TailAccepted(name: string, k: nat)
    requires BranchNameOk(name) && k < |name| && name[k] == '/'
    ensures BranchNameOk(name[k + 1..])
  {
    var tail := name[k + 1..];
    assert name[|name| - 1..] == [name[|name| - 1]];
    assert k + 1 < |name|;
    if k + 2 <= |name| {
      NoOccurrenceAt(name, "//", k);
      assert name[k..k + 2] == [name[k], name[k + 1]];
    }
    assert tail[..1] == [tail[0]];
    if Contains(tail, "..") {
      ContainsSuffix(name, k + 1, "..");
    }
    if Contains(tail, "//") {
      ContainsSuffix(name, k + 1, "//");
    }
    assert tail[|tail| - 1..] == name[|name| - 1..];
  }

  /** An accepted branch name is a "/"-separated path of non-empty segments,
      none of them "..", so it cannot climb out of `refs/heads/`. */
  lemma {:induction false} BranchNameSegments(name: string)
    requires BranchNameOk(name)
    ensures SegmentsOk(Split(name, '/'))
    decreases |name|
  {
    var k := IndexOfChar(name, '/', 0);
    if k == -1 {
      SingleSegmentOk(name);
    } else {
      HeadSegmentOk(name, k);
      TailAccepted(name, k);
      BranchNameSegments(name[k + 1..]);
      assert Split(name, '/') == [name[..k]] + Split(name[k + 1..], '/');
      SegmentsOkCons(name[..k], Split(name[k + 1..], '/'));
    }
  }

  /** An accepted name without "/" is one accepted segment. */
  lemma SingleSegmentOk(name: string)
    requires BranchNameOk(name) && IndexOfChar(name, '/', 0) == -1
    ensures SegmentsOk(Split(name, '/'))
  {
    if |name| >= 2 {
      NoOccurrenceAt(name, "..", 0);
    }
    assert Split(name, '/') == [name];
  }

  /** The text before the first "/" of an accepted name is neither empty
      nor "..". */
  lemma HeadSegmentOk(name: string, k: int)
    requires BranchNameOk(name) && k == IndexOfChar(name, '/', 0) && k != -1
    ensures name[..k] != [] && name[..k] != ".."
  {
    assert name[..1] == [name[0]];
    if k >= 2 {
      NoOccurrenceAt(name, "..", 0);
    }
  }

  lemma SegmentsOkCons(p: string, rest: seq<string>)
    requires p != [] && p != ".." && SegmentsOk(rest)
    ensures SegmentsOk([p] + rest)
  {
  }

  /** A text where `c` never follows itself does not contain `cc`. */
  lemma NoDoubled(s: string, c: char)
    requires forall i :: 0 <= i < |s| - 1 ==> !(s[i] == c && s[i + 1] == c)
    ensures !Contains(s, [c, c])
  {
    forall i | 0 <= i <= |s| ensures !OccursAt(s, [c, c], i) {
      if i + 2 <= |s| {
        assert s[i..i + 2][0] == s[i] && s[i..i + 2][1] == s[i + 1];
      }
    }
  }

  /** The cases the branch-name test checks. */
  lemma BranchNameExamples()
    ensures ValidateBranchName("feature/x").Ok?
    ensures ValidateBranchName("bad..name").Raises?
  {
    assert OccursAt("bad..name", "..", 3);
    var s := "feature/x";
    AbsentChar(s, "..", '.');
    NoDoubled(s, '/');
    assert !Contains(s, "..") && !Contains(s, "//");
    assert s[..1] == "f" && s[|s| - 1..] == "x";
  }

  // ------------------------------------------------------------------ paths

  /** One component of the loop of `posixpath.normpath`: "" and "." are
      dropped; ".." removes the last kept component, except that it is kept
      at the start of a relative path or after another kept "..", and is
      dropped at the root; anything else is kept. */
  function NormStep(acc: seq<string>, comp: string, absolute: bool): seq<string> {
    if comp == "" || comp == "." then acc
    else if comp != ".." || (!absolute && acc == []) || (acc != [] && acc[|acc| - 1] == "..") then acc + [comp]
    else if acc != [] then acc[..|acc| - 1]
    else acc
  }

  /** The components kept from `parts`, in order. */
  function NormComps(parts: seq<string>, absolute: bool): seq<string>
    decreases |parts|
  {
    if parts == [] then []
    else NormStep(NormComps(parts[..|parts| - 1], absolute), parts[|parts| - 1], absolute)
  }

  /** POSIX keeps two leading slashes, and folds one or three and more into
      one. */
  function LeadingSlashes(path: string): (n: nat)
    ensures n <= 2 && (n > 0 <==> StartsWith(path, "/"))
  {
    if StartsWith(path, "//") && !StartsWith(path, "///") then 2
    else if StartsWith(path, "/") then 1
    else 0
  }

  /** `os.path.normpath(path)` on POSIX: "." for the empty path; otherwise
      the leading slashes and the kept components joined by "/", or "."
      when nothing is left. */
  function NormPath(path: string): (r: string)
    ensures r != []
    ensures StartsWith(r, "/") <==> StartsWith(path, "/")
  {
    assert !StartsWith(".", "/") by {
      assert "."[..1][0] != "/"[0];
    }
    if path == [] then "."
    else
      var slashes := LeadingSlashes(path);
      var cs := NormComps(Split(path, '/'), slashes > 0);
      var p := seq(slashes, _ => '/') + Join(cs, "/");
      SlashesFirst(slashes, Join(cs, "/"));
      NormCompsNormal(Split(path, '/'), slashes > 0);
      JoinNoLeadingSlash(cs);
      if p == [] then "." else p
  }

  /** Components that are non-empty and free of "/" join into a text that
      does not start with "/". */
  lemma JoinNoLeadingSlash(cs: seq<string>)
    requires forall i :: 0 <= i < |cs| ==> cs[i] != [] && '/' !in cs[i]
    ensures !StartsWith(Join(cs, "/"), "/")
  {
    if cs != [] {
      JoinStarts(cs, "/");
      assert Join(cs, "/")[0] == cs[0][0];
      assert cs[0][0] in cs[0];
    }
  }

  /** Kept components are non-empty, free of "/", never ".", and a ".."
      only appears in a relative path, and only among leading ".."s. */
  predicate NormalComps(cs: seq<string>, absolute: bool) {
    && (forall i :: 0 <= i < |cs| ==> cs[i] != [] && cs[i] != "." && '/' !in cs[i] && (cs[i] == ".." ==> !absolute))
    && (forall i, j :: 0 <= j < i < |cs| && cs[i] == ".." ==> cs[j] == "..")
  }

  lemma {:induction false} NormCompsNormal(parts: seq<string>, absolute: bool)
    requires forall k :: 0 <= k < |parts| ==> '/' !in parts[k]
    ensures NormalComps(NormComps(parts, absolute), absolute)
    decreases |parts|
  {
    if parts != [] {
      var n := |parts| - 1;
      NormCompsNormal(parts[..n], absolute);
    }
  }

  /** Leading slashes make a text start with "/". */
  lemma SlashesFirst(n: nat, rest: string)
    ensures n > 0 ==> StartsWith(seq(n, _ => '/') + rest, "/")
  {
    if n > 0 {
      assert (seq(n, _ => '/') + rest)[..1] == "/";
    }
  }

  const PushErrorPrefix := "PushError: "
  const RejectedPath := PushErrorPrefix + "Invalid or malicious path rejected: "

  /** `normalize_path` as written: normalise, then turn backslashes into
      "/"; reject an absolute result or one that starts with "..". */
  function NormalizePathAsWritten(path: string): (r: Outcome<string>)
    ensures r.Raises? ==> r.error == RejectedPath + path
  {
    var n := ReplaceChar(NormPath(path), '\\', '/');
    if StartsWith(n, "/") || StartsWith(n, "..") then Raises(RejectedPath + path) else Ok(n)
  }

  /** `normalize_path` with the backslashes turned into "/" before
      normalising, so that "..\\" climbs are resolved and caught. */
  function NormalizePath(path: string): (r: Outcome<string>)
    ensures r.Raises? ==> r.error == RejectedPath + path
  {
    var n := NormPath(ReplaceChar(path, '\\', '/'));
    if StartsWith(n, "/") || StartsWith(n, "..") then Raises(RejectedPath + path) else Ok(n)
  }

  /** A joined text whose first part is ".." starts with "..". */
  lemma JoinDotDotFirst(cs: seq<string>)
    ensures cs != [] && cs[0] == ".." ==> StartsWith(Join(cs, "/"), "..")
  {
    if cs != [] {
      JoinStarts(cs, "/");
    }
  }

  /** Kept components of a relative path that do not start with ".." hold
      no ".." at all. */
  lemma NoClimb(cs: seq<string>)
    requires NormalComps(cs, false) && (cs != [] ==> cs[0] != "..")
    ensures forall i :: 0 <= i < |cs| ==> cs[i] != ".."
  {
  }

  /** A normalised path that neither starts with "/" nor with ".." is "."
      or a path of plain segments. */
  lemma NormPathRelative(q: string)
    requires !StartsWith(NormPath(q), "/") && !StartsWith(NormPath(q), "..")
    ensures var r := NormPath(q); r == "." || forall k :: 0 <= k < |Split(r, '/')| ==> Split(r, '/')[k] !in {"", ".", ".."}
  {
    if q != [] {
      var slashes := LeadingSlashes(q);
      var cs := NormComps(Split(q, '/'), slashes > 0);
      SlashesFirst(slashes, Join(cs, "/"));
      assert seq(slashes, _ => '/') + Join(cs, "/") == Join(cs, "/");
      if Join(cs, "/") != [] {
        NormCompsNormal(Split(q, '/'), false);
        JoinDotDotFirst(cs);
        NoClimb(cs);
        JoinSplit(cs, '/');
      }
    }
  }

  /** An accepted path is "." or a relative path of non-empty segments none
      of which is "." or "..": it cannot leave the repository root. */
  lemma NormalizePathSafe(path: string)
    requires NormalizePath(path).Ok?
    ensures var r := NormalizePath(path).value;
      && !StartsWith(r, "/")
      && (r == "." || forall k :: 0 <= k < |Split(r, '/')| ==> Split(r, '/')[k] !in {"", ".", ".."})
  {
    NormPathRelative(ReplaceChar(path, '\\', '/'));
  }

  /** A text without backslashes is left alone by turning them into "/". */
  lemma NoBackslash(s: string)
    requires '\\' !in s
    ensures ReplaceChar(s, '\\', '/') == s
  {
  }

  /** The components are folded one at a time. */
  lemma NormCompsSnoc(parts: seq<string>, c: string, absolute: bool)
    ensures NormComps(parts + [c], absolute) == NormStep(NormComps(parts, absolute), c, absolute)
  {
    assert (parts + [c])[..|parts|] == parts;
  }

  /** A path joined from parts, the first non-empty, is normalised by folding
      those parts as a relative path. */
  lemma NormPathOfParts(s: string, parts: seq<string>)
    requires |parts| >= 1 && parts[0] != [] && s == Join(parts, "/")
    requires forall k :: 0 <= k < |parts| ==> '/' !in parts[k]
    ensures NormPath(s) == (var j := Join(NormComps(parts, false), "/"); if j == [] then "." else j)
  {
    JoinStarts(parts, "/");
    assert s[0] == parts[0][0];
    JoinSplit(parts, '/');
    assert LeadingSlashes(s) == 0;
  }

  lemma ExamplePathJoined()
    ensures Join(["a", "", "b", "..", "c.txt"], "/") == "a//b/../c.txt"
  {
    JoinCons("..", ["c.txt"], "/");
    JoinCons("b", ["..", "c.txt"], "/");
    JoinCons("", ["b", "..", "c.txt"], "/");
    JoinCons("a", ["", "b", "..", "c.txt"], "/");
  }

  /** A plain component is kept. */
  lemma FoldKeep(parts: seq<string>, c: string, absolute: bool)
    requires c != "" && c != "." && c != ".."
    ensures NormComps(parts + [c], absolute) == NormComps(parts, absolute) + [c]
  {
    NormCompsSnoc(parts, c, absolute);
  }

  /** An empty component or "." is dropped. */
  lemma FoldSkip(parts: seq<string>, c: string, absolute: bool)
    requires c == "" || c == "."
    ensures NormComps(parts + [c], absolute) == NormComps(parts, absolute)
  {
    NormCompsSnoc(parts, c, absolute);
  }

  /** ".." removes a kept plain component. */
  lemma FoldUp(parts: seq<string>, absolute: bool)
    requires var cs := NormComps(parts, absolute); cs != [] && cs[|cs| - 1] != ".."
    ensures var cs := NormComps(parts, absolute); NormComps(parts + [".."], absolute) == cs[..|cs| - 1]
  {
    NormCompsSnoc(parts, "..", absolute);
  }

  /** ".." with nothing kept before it is kept on a relative path. */
  lemma FoldUpFromEmpty(parts: seq<string>)
    requires NormComps(parts, false) == []
    ensures NormComps(parts + [".."], false) == [".."]
  {
    NormCompsSnoc(parts, "..", false);
  }

  lemma ExamplePathFolded()
    ensures NormComps(["a", "", "b", "..", "c.txt"], false) == ["a", "c.txt"]
  {
    FoldKeep([], "a", false);
    assert [] + ["a"] == ["a"];
    FoldSkip(["a"], "", false);
    assert ["a"] + [""] == ["a", ""];
    FoldKeep(["a", ""], "b", false);
    assert ["a", ""] + ["b"] == ["a", "", "b"] && ["a"] + ["b"] == ["a", "b"];
    FoldUp(["a", "", "b"], false);
    assert ["a", "", "b"] + [".."] == ["a", "", "b", ".."] && ["a", "b"][..1] == ["a"];
    FoldKeep(["a", "", "b", ".."], "c.txt", false);
    assert ["a", "", "b", ".."] + ["c.txt"] == ["a", "", "b", "..", "c.txt"] && ["a"] + ["c.txt"] == ["a", "c.txt"];
  }

  lemma ExamplePathResolved(p: string)
    requires p == Join(["a", "", "b", "..", "c.txt"], "/")
    ensures NormPath(p) == Join(["a", "c.txt"], "/")
  {
    ExamplePartsPlain();
    ExamplePathFolded();
    NormPathOfParts(p, ["a", "", "b", "..", "c.txt"]);
    JoinStarts(["a", "c.txt"], "/");
  }

  lemma ExamplePartsPlain()
    ensures forall k :: 0 <= k < 5 ==> '/' !in ["a", "", "b", "..", "c.txt"][k]
  {
  }

  lemma ExamplePathResult()
    ensures Join(["a", "c.txt"], "/") == "a/c.txt"
    ensures !StartsWith("a/c.txt", "/") && !StartsWith("a/c.txt", "..")
  {
    JoinCons("a", ["c.txt"], "/");
    assert "a/c.txt"[..1] == "a" && "a/c.txt"[..2] == "a/";
  }

  lemma ExamplePathNormalised(p: string)
    requires p == "a//b/../c.txt"
    ensures NormalizePath(p) == Ok("a/c.txt")
  {
    NoBackslash(p);
    ExamplePathJoined();
    ExamplePathResolved(p);
    ExamplePathResult();
  }

  lemma UpPathNormalised(p: string)
    requires p == "../evil"
    ensures NormalizePath(p).Raises?
  {
    NoBackslash(p);
    UpPathJoined();
    UpPathFolded();
    NormPathOfParts(p, ["..", "evil"]);
    assert p[..2] == "..";
  }

  lemma UpPathFolded()
    ensures NormComps(["..", "evil"], false) == ["..", "evil"]
  {
    NormCompsSnoc([], "..", false);
    assert [] + [".."] == [".."];
    assert NormComps([".."], false) == [".."];
    FoldKeep([".."], "evil", false);
    assert [".."] + ["evil"] == ["..", "evil"];
  }

  /** The cases the path test checks: a doubled slash and a ".." inside the
      path are resolved; a leading ".." is rejected. */
  lemma NormalizePathExamples()
    ensures NormalizePath("a//b/../c.txt") == Ok("a/c.txt")
    ensures NormalizePath("../evil").Raises?
  {
    ExamplePathNormalised("a//b/../c.txt");
    UpPathNormalised("../evil");
  }

  lemma BackslashPathKept(p: string)
    requires p == "a\\..\\..\\evil"
    ensures NormPath(p) == p
  {
    NormCompsSnoc([], p, false);
    assert [] + [p] == [p];
    assert NormComps([p], false) == [p];
    assert Join([p], "/") == p;
    NormPathOfParts(p, [p]);
  }

  lemma ClimbingPathJoined()
    ensures Join(["a", "..", "..", "evil"], "/") == "a/../../evil"
  {
    JoinCons("..", ["evil"], "/");
    JoinCons("..", ["..", "evil"], "/");
    JoinCons("a", ["..", "..", "evil"], "/");
  }

  lemma ClimbingPathCancelled()
    ensures NormComps(["a", ".."], false) == []
  {
    FoldKeep([], "a", false);
    assert [] + ["a"] == ["a"];
    FoldUp(["a"], false);
    assert ["a"] + [".."] == ["a", ".."] && ["a"][..0] == [];
  }

  lemma ClimbingPathFolded()
    ensures NormComps(["a", "..", "..", "evil"], false) == ["..", "evil"]
  {
    ClimbingPathCancelled();
    FoldUpFromEmpty(["a", ".."]);
    assert ["a", ".."] + [".."] == ["a", "..", ".."];
    FoldKeep(["a", "..", ".."], "evil", false);
    assert ["a", "..", ".."] + ["evil"] == ["a", "..", "..", "evil"] && [".."] + ["evil"] == ["..", "evil"];
  }

  lemma ClimbingPathNormalised(p: string)
    requires p == Join(["a", "..", "..", "evil"], "/")
    ensures NormPath(p) == "../evil"
  {
    ClimbingPartsPlain();
    ClimbingPathFolded();
    NormPathOfParts(p, ["a", "..", "..", "evil"]);
    UpPathJoined();
  }

  lemma ClimbingPartsPlain()
    ensures forall k :: 0 <= k < 4 ==> '/' !in ["a", "..", "..", "evil"][k]
  {
  }

  lemma UpPathJoined()
    ensures Join(["..", "evil"], "/") == "../evil"
  {
    JoinCons("..", ["evil"], "/");
  }

  lemma BackslashesTurned(p: string)
    requires p == "a\\..\\..\\evil"
    ensures ReplaceChar(p, '\\', '/') == "a/../../evil"
  {
    var r := ReplaceChar(p, '\\', '/');
    assert |r| == 12;
    assert r[0] == 'a' && r[1] == '/' && r[2] == '.' && r[3] == '.' && r[4] == '/' && r[5] == '.';
    assert r[6] == '.' && r[7] == '/' && r[8] == 'e' && r[9] == 'v' && r[10] == 'i' && r[11] == 'l';
  }

  /** The order of the two steps matters: backslashes turned into "/" after
      normalising are never resolved, so "a\..\..\evil" is accepted as
      "a/../../evil", a path that climbs above the root once resolved. With
      the steps swapped it is rejected. */
  lemma BackslashClimbAccepted()
    ensures NormalizePathAsWritten("a\\..\\..\\evil") == Ok("a/../../evil")
    ensures NormPath("a/../../evil") == "../evil"
    ensures NormalizePath("a\\..\\..\\evil").Raises?
  {
    AsWrittenKeepsClimb("a\\..\\..\\evil");
    ClimbingPathJoined();
    ClimbingPathNormalised("a/../../evil");
    CorrectedRejectsClimb("a\\..\\..\\evil");
  }

  lemma AsWrittenKeepsClimb(p: string)
    requires p == "a\\..\\..\\evil"
    ensures NormalizePathAsWritten(p) == Ok("a/../../evil")
  {
    BackslashPathKept(p);
    BackslashesTurned(p);
    assert "a/../../evil"[..1] == "a" && "a/../../evil"[..2] == "a/";
  }

  lemma CorrectedRejectsClimb(p: string)
    requires p == "a\\..\\..\\evil"
    ensures NormalizePath(p).Raises?
  {
    BackslashesTurned(p);
    ClimbingPathJoined();
    ClimbingPathNormalised("a/../../evil");
    assert "../evil"[..2] == "..";
  }

  // ---------------------------------------------------------- contents paths

  /** The characters `urllib.parse.quote` never escapes: ASCII letters and
      digits and "_.-~". */
  predicate Unreserved(c: char) {
    IsAsciiAlnum(c) || c == '_' || c == '.' || c == '-' || c == '~'
  }

  /** The UTF-8 encoding of one character (section 3 of RFC 3629). */
  function Utf8(c: char): (bs: seq<Byte>)
    ensures 1 <= |bs| <= 4
    ensures (c as int < 0x80) <==> |bs| == 1
    ensures c as int < 0x80 ==> bs == [c as int as Byte]
  {
    var n := c as int;
    if n < 0x80 then [n as Byte]
    else if n < 0x800 then [(0xC0 + n / 64) as Byte, (0x80 + n % 64) as Byte]
    else if n < 0x10000 then [(0xE0 + n / 4096) as Byte, (0x80 + n / 64 % 64) as Byte, (0x80 + n % 64) as Byte]
    else [(0xF0 + n / 262144) as Byte, (0x80 + n / 4096 % 64) as Byte, (0x80 + n / 64 % 64) as Byte, (0x80 + n % 64) as Byte]
  }

  /** The UTF-8 encoding of a text. */
  function Utf8Bytes(s: string): seq<Byte> {
    if s == [] then [] else Utf8(s[0]) + Utf8Bytes(s[1..])
  }

  /** An upper-case hexadecimal digit. */
  function HexDigit(d: nat): (c: char)
    requires d < 16
    ensures IsDigit(c) || 'A' <= c <= 'F'
  {
    if d < 10 then ('0' as int + d) as char else ('A' as int + d - 10) as char
  }

  predicate IsHexDigit(c: char) { IsDigit(c) || 'A' <= c <= 'F' || 'a' <= c <= 'f' }

  function HexValue(c: char): (d: nat)
    requires IsHexDigit(c)
    ensures d < 16
  {
    if IsDigit(c) then c as int - '0' as int
    else if 'A' <= c <= 'F' then c as int - 'A' as int + 10
    else c as int - 'a' as int + 10
  }

  lemma HexRoundTrip(d: nat)
    requires d < 16
    ensures IsHexDigit(HexDigit(d)) && HexValue(HexDigit(d)) == d
  {
  }

  /** "%XX" for one byte. */
  function Escape(b: Byte): (r: string)
    ensures |r| == 3 && r[0] == '%'
  {
    ['%', HexDigit(b as int / 16), HexDigit(b as int % 16)]
  }

  /** The escapes of a run of bytes. */
  function Escapes(bs: seq<Byte>): (r: string)
    ensures |r| == 3 * |bs|
  {
    if bs == [] then [] else Escape(bs[0]) + Escapes(bs[1..])
  }

  /** One character as `quote` writes it: itself when unreserved, the
      escapes of its UTF-8 bytes otherwise. */
  function QuoteChar(c: char): string {
    if Unreserved(c) then [c] else Escapes(Utf8(c))
  }

  /** `urllib.parse.quote(part)` on a text free of "/". */
  function Quote(s: string): string {
    if s == [] then [] else QuoteChar(s[0]) + Quote(s[1..])
  }

  /** What `quote` writes: unreserved characters, "%" and upper-case hex
      digits. */
  predicate QuotedChar(c: char) {
    Unreserved(c) || c == '%'
  }

  lemma {:induction false} EscapesChars(bs: seq<Byte>)
    ensures forall i :: 0 <= i < |Escapes(bs)| ==> QuotedChar(Escapes(bs)[i])
  {
    if bs != [] {
      EscapesChars(bs[1..]);
      var e := Escape(bs[0]);
      assert forall i :: 0 <= i < 3 ==> QuotedChar(e[i]);
    }
  }

  /** The output of `quote` is made only of unreserved characters and "%";
      in particular it holds no "/". */
  lemma {:induction false} QuoteChars(s: string)
    ensures forall i :: 0 <= i < |Quote(s)| ==> QuotedChar(Quote(s)[i])
    ensures '/' !in Quote(s)
    decreases |s|
  {
    if s != [] {
      QuoteChars(s[1..]);
      if !Unreserved(s[0]) {
        EscapesChars(Utf8(s[0]));
      }
    }
  }

  /** Quoting works character by character. */
  lemma {:induction false} QuoteAppend(a: string, b: string)
    ensures Quote(a + b) == Quote(a) + Quote(b)
    decreases |a|
  {
    if a == [] {
      assert a + b == b;
    } else {
      assert (a + b)[0] == a[0] && (a + b)[1..] == a[1..] + b;
      QuoteAppend(a[1..], b);
    }
  }

  /** Percent-decoding as a server does it: "%" and two hex digits give
      that byte, any other character its UTF-8 bytes. */
  function Unquote(t: string): seq<Byte>
    decreases |t|
  {
    if t == [] then []
    else if t[0] == '%' && |t| >= 3 && IsHexDigit(t[1]) && IsHexDigit(t[2]) then
      [(HexValue(t[1]) * 16 + HexValue(t[2])) as Byte] + Unquote(t[3..])
    else Utf8(t[0]) + Unquote(t[1..])
  }

  lemma UnquoteEscape(b: Byte, rest: string)
    ensures Unquote(Escape(b) + rest) == [b] + Unquote(rest)
  {
    var n := b as int;
    HexRoundTrip(n / 16);
    HexRoundTrip(n % 16);
    var t := Escape(b) + rest;
    assert t[0] == '%' && t[1] == HexDigit(n / 16) && t[2] == HexDigit(n % 16);
    assert t[3..] == rest;
  }

  /** The escapes of `bs` followed by `rest`. */
  function EscapesThen(bs: seq<Byte>, rest: string): string
    decreases |bs|
  {
    if bs == [] then rest else Escape(bs[0]) + EscapesThen(bs[1..], rest)
  }

  lemma {:induction false} EscapesThenAppend(bs: seq<Byte>, rest: string)
    ensures EscapesThen(bs, rest) == Escapes(bs) + rest
    decreases |bs|
  {
    if bs == [] {
      assert Escapes(bs) + rest == rest;
    } else {
      EscapesThenAppend(bs[1..], rest);
      assert Escape(bs[0]) + (Escapes(bs[1..]) + rest) == Escapes(bs) + rest;
    }
  }

  lemma {:induction false} UnquoteEscapes(bs: seq<Byte>, rest: string)
    ensures Unquote(EscapesThen(bs, rest)) == bs + Unquote(rest)
    decreases |bs|
  {
    if bs != [] {
      UnquoteEscapes(bs[1..], rest);
      UnquoteEscape(bs[0], EscapesThen(bs[1..], rest));
      assert bs == [bs[0]] + bs[1..];
    }
  }

  /** Decoding what `quote` wrote gives back the UTF-8 bytes of the text:
      the encoding loses nothing. */
  lemma {:induction false} QuoteRoundTrip(s: string)
    ensures Unquote(Quote(s)) == Utf8Bytes(s)
    decreases |s|
  {
    if s != [] {
      var c := s[0];
      QuoteRoundTrip(s[1..]);
      if Unreserved(c) {
        assert Quote(s) == [c] + Quote(s[1..]);
        assert ([c] + Quote(s[1..]))[1..] == Quote(s[1..]);
      } else {
        EscapesThenAppend(Utf8(c), Quote(s[1..]));
        UnquoteEscapes(Utf8(c), Quote(s[1..]));
      }
    }
  }

  /** `quote` applied to every segment. */
  function QuoteAll(parts: seq<string>): (r: seq<string>)
    ensures |r| == |parts| && forall k :: 0 <= k < |parts| ==> r[k] == Quote(parts[k])
  {
    seq(|parts|, k requires 0 <= k < |parts| => Quote(parts[k]))
  }

  /** `encode_contents_path(path)`: each "/"-separated segment quoted, joined
      again by "/". */
  function EncodeContentsPath(path: string): string {
    Join(QuoteAll(Split(path, '/')), "/")
  }

  /** The encoding keeps the segments: splitting it again gives exactly the
      quoted segments of the path, each of which decodes to the UTF-8 bytes
      of the original segment. */
  lemma EncodeContentsPathSegments(path: string)
    ensures Split(EncodeContentsPath(path), '/') == QuoteAll(Split(path, '/'))
    ensures |Split(EncodeContentsPath(path), '/')| == |Split(path, '/')|
    ensures forall k :: 0 <= k < |Split(path, '/')| ==>
      Unquote(Split(EncodeContentsPath(path), '/')[k]) == Utf8Bytes(Split(path, '/')[k])
  {
    var parts := Split(path, '/');
    var q := QuoteAll(parts);
    forall k | 0 <= k < |q| ensures '/' !in q[k] {
      QuoteChars(parts[k]);
    }
    JoinSplit(q, '/');
    forall k | 0 <= k < |parts| ensures Unquote(q[k]) == Utf8Bytes(parts[k]) {
      QuoteRoundTrip(parts[k]);
    }
  }

  /** A space is written "%20". */
  lemma QuoteSpace()
    ensures QuoteChar(' ') == "%20"
  {
    assert Utf8(' ') == [32 as Byte];
    assert Escapes([32 as Byte]) == Escape(32 as Byte) + Escapes([]);
  }

  /** A text holding a space quotes to a text holding "%20". */

  lemma QuoteOfSpace(s: string, i: nat)
    requires i < |s| && s[i] == ' '
    ensures OccursAt(Quote(s), "%20", |Quote(s[..i])|)
  {
    var t := s[i + 1..];
    assert s == s[..i] + ([' '] + t);
    QuoteAppend(s[..i], [' '] + t);
    QuoteSpaceFirst(t);
    var q, r := Quote(s[..i]), Quote(t);
    assert Quote(s) == q + ("%20" + r);
    OccursBetween(q, "%20", r);
  }

  /** A leading space quotes to "%20". */
  lemma QuoteSpaceFirst(t: string)
    ensures Quote([' '] + t) == "%20" + Quote(t)
  {
    QuoteSpace();
    assert ([' '] + t)[1..] == t;
  }

  /** Every part occurs in the joined text, at the sum of the lengths
      before it. */
  lemma {:induction false} JoinHasPart(parts: seq<string>, sep: string, k: nat) returns (off: nat)
    requires k < |parts|
    ensures off + |parts[k]| <= |Join(parts, sep)| && Join(parts, sep)[off..(off + |parts[k]|)] == parts[k]
    decreases k
  {
    if |parts| == 1 {
      off := 0;
    } else if k == 0 {
      off := 0;
      assert Join(parts, sep) == parts[0] + (sep + Join(parts[1..], sep));
    } else {
      var o := JoinHasPart(parts[1..], sep, k - 1);
      var head := parts[0] + sep;
      off := |head| + o;
      assert Join(parts, sep) == head + Join(parts[1..], sep);
      assert Join(parts, sep)[off..off + |parts[k]|] == Join(parts[1..], sep)[o..o + |parts[k]|];
    }
  }

  /** A character of a joined text other than the separator lies in one of
      the parts. */
  lemma {:induction false} JoinCharInPart(parts: seq<string>, sep: char, c: char)
    requires c in Join(parts, [sep]) && c != sep
    ensures exists k :: 0 <= k < |parts| && c in parts[k]
    decreases |parts|
  {
    if |parts| > 1 {
      var rest := Join(parts[1..], [sep]);
      assert Join(parts, [sep]) == parts[0] + [sep] + rest;
      if c !in parts[0] {
        JoinCharInPart(parts[1..], sep, c);
        var k :| 0 <= k < |parts| - 1 && c in parts[1..][k];
        assert c in parts[k + 1];
      }
    }
  }

  /** What the contents-path test checks, for every path: a space anywhere
      in it shows up as "%20" in the encoding. */
  lemma EncodeContentsPathSpace(path: string)
    requires ' ' in path
    ensures Contains(EncodeContentsPath(path), "%20")
  {
    var k, i := SpacedSegment(path);
    var parts := Split(path, '/');
    QuoteOfSpace(parts[k], i);
    var off := JoinHasPart(QuoteAll(parts), "/", k);
    OccursWithin(EncodeContentsPath(path), Quote(parts[k]), "%20", off, |Quote(parts[k][..i])|);
  }

  /** A space in a path lies in one of its segments. */
  lemma SpacedSegment(path: string) returns (k: nat, i: nat)
    requires ' ' in path
    ensures k < |Split(path, '/')| && i < |Split(path, '/')[k]| && Split(path, '/')[k][i] == ' '
  {
    var parts := Split(path, '/');
    SplitJoin(path, '/');
    JoinCharInPart(parts, '/', ' ');
    k :| 0 <= k < |parts| && ' ' in parts[k];
    i :| 0 <= i < |parts[k]| && parts[k][i] == ' ';
  }

  /** An occurrence inside a slice is an occurrence in the whole. */
  lemma OccursWithin(s: string, t: string, w: string, off: nat, a: nat)
    requires off + |t| <= |s| && s[off..off + |t|] == t && OccursAt(t, w, a)
    ensures OccursAt(s, w, off + a)
  {
    var x, y := s[off + a..off + a + |w|], t[a..a + |w|];
    forall j | 0 <= j < |w| ensures x[j] == y[j] {
      assert x[j] == s[off + a + j] == s[off..off + |t|][a + j];
    }
  }

  // ------------------------------------------------------- commit messages

  /** The message used when the title is not a string or cleans to nothing. */
  const DefaultCommitMessage := "update via integrator"

  /** Printable ASCII, the characters 32 to 126. */
  predicate Printable(c: char) { ' ' <= c <= '~' }

  /** Every character of `s` is printable ASCII. */
  predicate AllPrintable(s: string) { forall c :: c in s ==> Printable(c) }

  /** A newline or printable ASCII is kept; any other character becomes a space. */
  function CleanChar(c: char): (d: char)
    ensures d == '\n' || Printable(d)
    ensures d == c <==> c == '\n' || Printable(c)
  {
    if c == '\n' || Printable(c) then c else ' '
  }

  function CleanChars(s: string): (r: string)
    ensures |r| == |s| && forall i :: 0 <= i < |s| ==> r[i] == CleanChar(s[i])
  {
    seq(|s|, i requires 0 <= i < |s| => CleanChar(s[i]))
  }

  /** `s.rstrip()`: `s` without its trailing whitespace. */
  function RStrip(s: string): (r: string)
    ensures |r| <= |s| && r == s[..|r|]
    ensures r == [] || !IsSpace(r[|r| - 1])
    ensures forall i :: |r| <= i < |s| ==> IsSpace(s[i])
  {
    s[..StripEnd(s, |s|)]
  }

  /** The characters of a prefix are characters of the whole. */
  lemma PrefixChars(s: string, r: string)
    requires |r| <= |s| && r == s[..|r|]
    ensures forall c :: c in r ==> c in s
  {
    forall c | c in r ensures c in s {
      var i :| 0 <= i < |r| && r[i] == c;
      assert s[i] == c;
    }
  }

  /** `s.strip()` keeps only characters of `s`. */
  lemma StripChars(s: string)
    ensures forall c :: c in Strip(s) ==> c in s
  {
    var r, a := Strip(s), StripOffset(s);
    forall c | c in r ensures c in s {
      var i :| 0 <= i < |r| && r[i] == c;
      assert s[a + i] == c;
    }
  }

  /** `[s.strip() for s in lines]`. */
  function StripEach(lines: seq<string>): (r: seq<string>)
    ensures |r| == |lines| && forall k :: 0 <= k < |lines| ==> r[k] == Strip(lines[k])
  {
    seq(|lines|, k requires 0 <= k < |lines| => Strip(lines[k]))
  }

  /** The multi-line collapse: the first line cut to 200 characters and
      right-stripped; then, when there are more lines, " · " and the others
      stripped, joined by single spaces and cut to 200 characters. */
  function CollapseLines(lines: seq<string>): (r: string)
    requires lines != []
    ensures |r| <= 403
  {
    var head := RStrip(Take(lines[0], 200));
    if |lines| == 1 then head
    else head + " \U{b7} " + Take(Join(StripEach(lines[1..]), " "), 200)
  }

  /** The length cap: a text over 256 characters is cut to 256, right-stripped
      and closed with "…"; a shorter one is kept. */
  function CapLength(s: string): (r: string)
    ensures |r| <= 257
    ensures |s| <= 256 ==> r == s
    ensures |s| > 256 ==> r != [] && r[|r| - 1] == '\U{2026}'
    ensures forall c :: c in r ==> c in s || c == '\U{2026}'
  {
    if |s| > 256 then
      var t := RStrip(s[..256]);
      PrefixChars(s[..256], t);
      PrefixChars(s, s[..256]);
      t + "\U{2026}"
    else s
  }

  /** The first pass: control and non-ASCII characters to spaces, carriage
      returns removed, the ends stripped. */
  function CleanedMessage(m: string): string {
    Strip(RemoveChar(CleanChars(m), '\r'))
  }

  /** `sanitize_commit_message(msg)`, where `None` stands for a message that
      is not a string. */

  function SanitizeCommitMessage(msg: Option<string>): (r: string)
    ensures 1 <= |r| <= 257
    ensures msg.None? ==> r == DefaultCommitMessage
  {
    match msg
    case None => DefaultCommitMessage
    case Some(m) =>
      var capped := CapLength(Collapsed(CleanedMessage(m)));
      if capped == [] then DefaultCommitMessage else capped
  }

  /** The collapse applies only to a text that still holds a newline. */
  function Collapsed(cleaned: string): string {
    if '\n' in cleaned then CollapseLines(SplitLines(cleaned)) else cleaned
  }

  /** After the first pass only newlines and printable ASCII remain. */
  lemma CleanedMessageChars(m: string)
    ensures forall c :: c in CleanedMessage(m) ==> c == '\n' || Printable(c)
  {
    var x := CleanChars(m);
    forall c | c in x ensures c == '\n' || Printable(c) {
      var i :| 0 <= i < |x| && x[i] == c;
    }
    StripChars(RemoveChar(x, '\r'));
  }

  /** Collapsing printable lines gives printable ASCII and the middle dot. */

  lemma CollapseLinesChars(lines: seq<string>)
    requires lines != [] && forall k :: 0 <= k < |lines| ==> AllPrintable(lines[k])
    ensures forall c :: c in CollapseLines(lines) ==> Printable(c) || c == '\U{b7}'
  {
    var t := Take(lines[0], 200);
    PrefixChars(t, RStrip(t));
    PrefixChars(lines[0], t);
    if |lines| > 1 {
      var j := Join(StripEach(lines[1..]), " ");
      PrefixChars(j, Take(j, 200));
      JoinedLinesChars(lines[1..]);
    }
  }

  /** Stripped printable lines joined by spaces stay printable. */
  lemma JoinedLinesChars(lines: seq<string>)
    requires forall k :: 0 <= k < |lines| ==> AllPrintable(lines[k])
    ensures AllPrintable(Join(StripEach(lines), " "))
  {
    var parts := StripEach(lines);
    forall c | c in Join(parts, " ") ensures Printable(c) {
      if c != ' ' {
        JoinCharInPart(parts, ' ', c);
        var k :| 0 <= k < |parts| && c in parts[k];
        StripChars(lines[k]);
      }
    }
  }

  /** What the sanitiser promises for every input: a non-string gives the
      default; otherwise the message is one line of 1 to 257 characters,
      each printable ASCII, the middle dot joining the lines, or the closing
      ellipsis. */

  lemma SanitizeCommitMessageShape(msg: Option<string>)
    ensures var r := SanitizeCommitMessage(msg);
      && 1 <= |r| <= 257
      && '\n' !in r
      && forall c :: c in r ==> Printable(c) || c == '\U{b7}' || c == '\U{2026}'
    ensures msg.None? ==> SanitizeCommitMessage(msg) == DefaultCommitMessage
  {
    if msg.Some? {
      CleanedMessageChars(msg.value);
      CollapsedChars(CleanedMessage(msg.value));
    }
  }

  /** After the collapse no newline is left: only printable ASCII and the
      middle dot. */
  lemma CollapsedChars(cleaned: string)
    requires forall c :: c in cleaned ==> c == '\n' || Printable(c)
    ensures forall c :: c in Collapsed(cleaned) ==> Printable(c) || c == '\U{b7}'
  {
    if '\n' in cleaned {
      var lines := SplitLines(cleaned);
      forall k | 0 <= k < |lines| ensures AllPrintable(lines[k]) {
        SplitLinesChars(cleaned, k);
      }
      CollapseLinesChars(lines);
    }
  }

  /** A line of `s.splitlines()` holds only characters of `s`. */


  lemma {:induction false} SplitLinesChars(s: string, k: nat)
    requires k < |SplitLines(s)|
    ensures forall c :: c in SplitLines(s)[k] ==> c in s
    decreases |s|
  {
    var b, w := SplitLinesStep(s);
    if k == 0 {
      PrefixChars(s, s[..b]);
    } else {
      var t := s[b + w..];
      SplitLinesChars(t, k - 1);
      SuffixChars(s, b + w);
    }
  }

  /** One step of `splitlines`: the first line, then the lines after its
      terminator of width `w`. */
  lemma SplitLinesStep(s: string) returns (b: nat, w: nat)
    requires SplitLines(s) != []
    ensures b <= |s| && (b == |s| ==> w == 0) && (b < |s| ==> 1 <= w && b + w <= |s|)
    ensures SplitLines(s)[0] == s[..(b)]
    ensures b < |s| ==> SplitLines(s)[1..] == SplitLines(s[b + w..])
    ensures b == |s| ==> |SplitLines(s)| == 1
  {
    b := LineBreakFrom(s, 0);
    if b == |s| {
      w := 0;
    } else {
      w := if s[b] == '\r' && b + 1 < |s| && s[b + 1] == '\n' then 2 else 1;
    }
  }

  /** The characters of a suffix are characters of the whole. */
  lemma SuffixChars(s: string, i: nat)
    requires i <= |s|
    ensures forall c :: c in s[i..] ==> c in s
  {
    forall c | c in s[i..] ensures c in s {
      var j :| 0 <= j < |s| - i && s[i..][j] == c;
      assert s[i + j] == c;
    }
  }

  /** Removing a character that does not occur changes nothing. */
  lemma {:induction false} RemoveAbsentChar(s: string, a: char)
    requires a !in s
    ensures RemoveChar(s, a) == s
  {
    if s != [] {
      RemoveAbsentChar(s[1..], a);
      assert [s[0]] + s[1..] == s;
    }
  }

  /** A clean one-line title of at most 256 characters, printable and not
      starting or ending with a space, is kept as it is. */

  lemma SanitizeCommitMessageKeepsClean(m: string)
    requires m != [] && |m| <= 256 && AllPrintable(m)
    requires m[0] != ' ' && m[|m| - 1] != ' '
    ensures SanitizeCommitMessage(Some(m)) == m
  {
    assert m[0] in m && m[|m| - 1] in m;
    CleanedOfClean(m);
  }

  /** The first pass keeps a text of newlines and printable ASCII whose ends
      are not spaces. */

  lemma CleanedOfClean(s: string)
    requires forall c :: c in s ==> c == '\n' || Printable(c)
    requires s != [] && s[0] != ' ' && s[0] != '\n' && s[|s| - 1] != ' ' && s[|s| - 1] != '\n'
    ensures CleanedMessage(s) == s
  {
    CleanCharsOfClean(s);
    RemoveAbsentChar(s, '\r');
    assert s[0] in s && s[|s| - 1] in s;
    StripOfStripped(s);
  }

  lemma CleanCharsOfClean(s: string)
    requires forall c :: c in s ==> c == '\n' || Printable(c)
    ensures CleanChars(s) == s
  {
    forall i | 0 <= i < |s| ensures CleanChars(s)[i] == s[i] {
      assert s[i] in s;
    }
  }

  /** Two clean lines become one, joined by " · ". */


  lemma SanitizeCommitMessageTwoLines(a: string, b: string)
    requires a != [] && b != [] && AllPrintable(a) && AllPrintable(b)
    requires a[0] != ' ' && a[|a| - 1] != ' ' && b[0] != ' ' && b[|b| - 1] != ' '
    requires |a| <= 200 && |b| <= 200 && |a| + |b| <= 253
    ensures SanitizeCommitMessage(Some(a + "\n" + b)) == a + " \U{b7} " + b
  {
    var s := a + "\n" + b;
    assert a[0] in a && a[|a| - 1] in a && b[0] in b && b[|b| - 1] in b;
    forall c | c in s ensures c == '\n' || Printable(c) {
      assert c in a || c in "\n" || c in b;
    }
    CleanedOfClean(s);
    CollapsedTwoLines(a, b);
  }

  lemma CollapsedTwoLines(a: string, b: string)
    requires a != [] && b != [] && AllPrintable(a) && AllPrintable(b)
    requires a[|a| - 1] != ' ' && b[0] != ' ' && b[|b| - 1] != ' '
    requires |a| <= 200 && |b| <= 200
    ensures Collapsed(a + "\n" + b) == a + " \U{b7} " + b
  {
    assert (a + "\n" + b)[|a|] == '\n';
    assert a[|a| - 1] in a && b[0] in b && b[|b| - 1] in b;
    TwoLinesSplit(a, b);
    CollapseTwoLines(a, b);
  }

  /** Collapsing two clean lines of at most 200 characters joins them with " · ". */
  lemma CollapseTwoLines(a: string, b: string)
    requires a != [] && b != [] && |a| <= 200 && |b| <= 200
    requires !IsSpace(a[|a| - 1]) && !IsSpace(b[0]) && !IsSpace(b[|b| - 1])
    ensures CollapseLines([a, b]) == a + " \U{b7} " + b
  {
    assert RStrip(a) == a;
    StripOfStripped(b);
    assert [a, b][1..] == [b];
    assert StripEach([b]) == [b];
  }

  /** `(a + "\n" + b).splitlines()` is `[a, b]` for lines without breaks. */

  lemma TwoLinesSplit(a: string, b: string)
    requires b != [] && AllPrintable(a) && AllPrintable(b)
    ensures SplitLines(a + "\n" + b) == [a, b]
  {
    var s := a + "\n" + b;
    var k := LineBreakFrom(s, 0);
    assert IsLineBoundary(s[|a|]);
    forall j | 0 <= j < |a| ensures !IsLineBoundary(s[j]) {
      assert s[j] == a[j] && a[j] in a;
    }
    assert k == |a|;
    assert s[k + 1..] == b && s[..k] == a;
    forall j | 0 <= j < |b| ensures !IsLineBoundary(b[j]) {
      assert b[j] in b;
    }
    SplitLinesOfOneLine(b);
  }

  // ---------------------------------------------------------------- retries

  /** What one attempt of a request brings back: a response with its status
      and text, or a transport error (`httpx.RequestError`) with its text. */
  datatype Reply = Response(status: int, text: string) | NetworkError(message: string)

  /** A reply the retry loop hands back to its caller: a response outside
      500..599, or any response on the last attempt. */
  predicate Final(reply: Reply, attempt: int, maxRetries: int) {
    reply.Response? && (!(500 <= reply.status < 600) || attempt >= maxRetries)
  }

  function Pow2(k: nat): (p: nat)
    ensures p >= 1
  {
    if k == 0 then 1 else 2 * Pow2(k - 1)
  }

  /** The `k`-th sleep is the starting backoff times 2 to the `k`. */

  lemma {:induction false} Doubled(start: real, k: nat)
    ensures Backoff(start, k) == start * Pow2(k) as real
  {
    if k > 0 {
      Doubled(start, k - 1);
      assert Pow2(k) as real == 2.0 * Pow2(k - 1) as real;
    }
  }

  /** The sleep before attempt `k + 1`: the starting backoff doubled `k` times. */
  function Backoff(start: real, k: nat): real {
    if k == 0 then start else 2.0 * Backoff(start, k - 1)
  }

  /** The PushError raised once every attempt is spent: the text of the last
      network error, or "None" when no attempt was made. */

  function NetworkErrorText(last: Option<string>): (e: string)
    ensures StartsWith(e, PushErrorPrefix)
  {
    var e := PushErrorPrefix + ("Network error talking to GitHub: " + if last.Some? then last.value else "None");
    assert e[..|PushErrorPrefix|] == PushErrorPrefix;
    e
  }

  /** `_request_with_retries`: attempt `i` gets `replies(i)`, for `i` from 0 to
      `maxRetries`. A 5xx response before the last attempt and a network
      error before the last attempt are followed by a sleep that doubles
      each time; the first final reply is returned; when the attempts run
      out the last network error is raised. */
  method RequestWithRetries(replies: nat -> Reply, maxRetries: int, backoffStart: real)
    returns (r: Outcome<Reply>, requests: nat, sleeps: seq<real>)
    ensures requests <= if maxRetries < 0 then 0 else maxRetries + 1
    ensures |sleeps| == if requests == 0 then 0 else requests - 1
    ensures forall k :: 0 <= k < |sleeps| ==> sleeps[k] == Backoff(backoffStart, k)
    ensures forall a :: 0 <= a < requests - 1 ==> !Final(replies(a), a, maxRetries)
    ensures r.Ok? <==> requests > 0 && Final(replies(requests - 1), requests - 1, maxRetries)
    ensures r.Ok? ==> r.value == replies(requests - 1)
    ensures r.Raises? ==> requests == (if maxRetries < 0 then 0 else maxRetries + 1)
    ensures r.Raises? && maxRetries < 0 ==> r.error == NetworkErrorText(None)
    ensures r.Raises? && maxRetries >= 0 ==>
      replies(maxRetries).NetworkError? && r.error == NetworkErrorText(Some(replies(maxRetries).message))
  {
    var backoff := backoffStart;
    var last: Option<string> := None;
    sleeps := [];
    requests := 0;
    var attempt := 0;
    while attempt < maxRetries + 1
      invariant 0 <= attempt <= if maxRetries < 0 then 0 else maxRetries + 1
      invariant requests == attempt
      invariant |sleeps| == if attempt > 0 && attempt == maxRetries + 1 then attempt - 1 else attempt
      invariant backoff == Backoff(backoffStart, |sleeps|)
      invariant forall k :: 0 <= k < |sleeps| ==> sleeps[k] == Backoff(backoffStart, k)
      invariant forall a :: 0 <= a < attempt ==> !Final(replies(a), a, maxRetries)
      invariant attempt == 0 ==> last == None
      invariant attempt > 0 && replies(attempt - 1).NetworkError? ==> last == Some(replies(attempt - 1).message)
    {
      var reply := replies(attempt);
      requests := requests + 1;
      if reply.Response? {
        if 500 <= reply.status < 600 && attempt < maxRetries {
          sleeps := sleeps + [backoff];
          backoff := backoff * 2.0;
          attempt := attempt + 1;
          continue;
        }
        return Ok(reply), requests, sleeps;
      }
      last := Some(reply.message);
      if attempt < maxRetries {
        sleeps := sleeps + [backoff];
        backoff := backoff * 2.0;
      }
      attempt := attempt + 1;
    }
    assert attempt > 0 ==> !Final(replies(attempt - 1), attempt - 1, maxRetries);
    r := Raises(NetworkErrorText(last));
  }

  const BranchCreatePrefix := "BranchCreateError: "

  /** `create_branch(cfg, branch)`, given how its two requests ended after
      their retries: the GET of the main branch's ref and the POST of the new
      ref, each a status and a text, or the PushError the retry loop raised.
      True when the branch was created, False when it already exists. */
  function CreateBranch(cfg: Config, branch: string, getMain: Outcome<(int, string)>, post: Outcome<(int, string)>)
    : (r: Outcome<bool>)
    ensures r.Ok? ==>
      && BranchNameOk(branch) && getMain.Ok? && getMain.value.0 == 200 && post.Ok?
      && (r.value <==> post.value.0 == 201)
  {
    match ValidateBranchName(branch)
    case Raises(e) => Raises(e)
    case Ok(_) =>
      match getMain
      case Raises(e) => Raises(e)
      case Ok((status, _)) =>
        if status != 200 then
          Raises(BranchCreatePrefix + "Could not find main branch '" + cfg.mainBranch + "'. Status: " + IntToString(status))
        else match post
          case Raises(e) => Raises(e)
          case Ok((code, text)) =>
            if code == 201 then Ok(true)
            else if code == 422 && Contains(text, "Reference already exists") then Ok(false)
            else Raises(BranchCreatePrefix + "Failed to create branch. Status: " + IntToString(code) + ", Response: " + text)
  }

  /** When `create_branch` answers: True exactly on a valid name, the main
      branch found and a 201; False exactly on a valid name, the main branch
      found and a 422 saying the reference exists. Any other failure is a
      BranchCreateError, unless a request itself failed for good. */
  lemma CreateBranchMeaning(cfg: Config, branch: string, getMain: Outcome<(int, string)>, post: Outcome<(int, string)>)
    ensures CreateBranch(cfg, branch, getMain, post) == Ok(true) <==>
      BranchNameOk(branch) && getMain.Ok? && getMain.value.0 == 200 && post.Ok? && post.value.0 == 201
    ensures CreateBranch(cfg, branch, getMain, post) == Ok(false) <==>
      && BranchNameOk(branch) && getMain.Ok? && getMain.value.0 == 200 && post.Ok? && post.value.0 == 422
      && Contains(post.value.1, "Reference already exists")
    ensures var r := CreateBranch(cfg, branch, getMain, post);
      r.Raises? && !StartsWith(r.error, BranchCreatePrefix) ==>
        (getMain.Raises? && r == Raises(getMain.error)) || (post.Raises? && r == Raises(post.error))
  {
  }

  // ------------------------------------------------------------ the branch

  /** A file of the branch as the contents API reports it. */
  datatype Stored = Stored(content: seq<Byte>, sha: string)

  /** How the GET of one file ended, after its retries: answered from the
      branch (200 with the file when the branch has it, 404 otherwise),
      answered with some other status (a 5xx left after the retries, a 403),
      or failed for good with the text of the last network error. */
  datatype GetAnswer = Served | Unavailable | GetFailed(lastError: string)

  /** How the PUT of one file ended, after its retries: a status with its text
      (and the sha the branch gives the new blob when it accepts the write),
      or failed for good with the text of the last network error. */
  datatype PutAnswer = PutStatus(status: int, text: string, newSha: string) | PutFailed(lastError: string)

  /** What the network and the server do with the two requests for one file. */
  datatype Exchange = Exchange(get: GetAnswer, put: PutAnswer)

  /** The JSON body of a PUT; the content goes out base64-encoded, which is
      not part of this model. */
  datatype Payload = Payload(message: string, content: seq<Byte>, branch: string, sha: Option<string>)

  /** The error of a PUT answered with a status other than 200 and 201. */

  function PutErrorText(path: string, status: int, text: string): (e: string)
    ensures StartsWith(e, PushErrorPrefix)
  {
    var e := PushErrorPrefix + ("GitHub API error writing '" + path + "': " + IntToString(status) + " " + text);
    assert e[..|PushErrorPrefix|] == PushErrorPrefix;
    e
  }

  /** What `put_file` leaves behind: its result, the branch's files, and the
      body of the PUT when one was sent. */
  datatype PutStep = PutStep(outcome: Outcome<bool>, files: map<string, Stored>, sent: Option<Payload>)

  /** `put_file(client, cfg, branch, path, content, commit_msg)` against a
      branch holding `files`: skip a file whose content is already there,
      otherwise PUT it, with the existing file's sha when there is one. */


  function PutFileStep(files: map<string, Stored>, branch: string, path: string, content: seq<Byte>,
                       msg: string, ex: Exchange): (r: PutStep)
    ensures r.outcome == Ok(false) <==> Unchanged(Existing(files, path, ex.get), content)
    ensures r.outcome == Ok(false) ==> r.files == files && r.sent == None
    ensures r.outcome == Ok(true) ==> ex.put.PutStatus? && ex.put.status in {200, 201}
    ensures r.outcome == Ok(true) ==> r.files == files[path := Stored(content, ex.put.newSha)]
    ensures r.outcome.Raises? ==> r.files == files && StartsWith(r.outcome.error, PushErrorPrefix)
    ensures r.sent.None? <==> ex.get.GetFailed? || r.outcome == Ok(false)
    ensures r.sent.Some? ==> r.sent.value == Payload(msg, content, branch, ShaSent(Existing(files, path, ex.get)))
  {
    match ex.get
    case GetFailed(e) => PutStep(Raises(NetworkErrorText(Some(e))), files, None)
    case _ =>
      var existing := Existing(files, path, ex.get);
      if Unchanged(existing, content) then PutStep(Ok(false), files, None)
      else
        var payload := Some(Payload(msg, content, branch, ShaSent(existing)));
        match ex.put
        case PutFailed(e) => PutStep(Raises(NetworkErrorText(Some(e))), files, payload)
        case PutStatus(status, text, newSha) =>
          if status != 200 && status != 201 then PutStep(Raises(PutErrorText(path, status, text)), files, payload)
          else PutStep(Ok(true), files[path := Stored(content, newSha)], payload)
  }

  /** The file a GET found: the branch's, when the GET was served and the
      branch has the path. */
  function Existing(files: map<string, Stored>, path: string, get: GetAnswer): (f: Option<Stored>)
    ensures f.Some? <==> get.Served? && path in files
    ensures f.Some? ==> f.value == files[path]
  {
    if get.Served? && path in files then Some(files[path]) else None
  }

  /** The GET found the file with this very content. */
  predicate Unchanged(existing: Option<Stored>, content: seq<Byte>) {
    existing.Some? && existing.value.content == content
  }

  /** The sha a PUT carries: the existing file's, when the GET found one
      and its sha is not empty (`if sha:`). */

  function ShaSent(existing: Option<Stored>): (sha: Option<string>)
    ensures sha.Some? <==> existing.Some? && existing.value.sha != ""
    ensures sha.Some? ==> sha.value == existing.value.sha
  {
    if existing.Some? && existing.value.sha != "" then Some(existing.value.sha) else None
  }

  /** The counters `push_files` returns. */
  datatype Counts = Counts(written: nat, skipped: nat)

  /** Where the loop stands: its outcome so far and the branch's files. */
  datatype PushState = PushState(outcome: Outcome<Counts>, files: map<string, Stored>)

  /** One item of the loop, whose path normalised to `path`: a rejected
      path ends the loop, an accepted one is put. */
  function PushItem(prev: PushState, branch: string, path: Outcome<string>, content: seq<Byte>, msg: string, ex: Exchange): PushState
    requires prev.outcome.Ok?
  {
    match path
    case Raises(e) => PushState(Raises(e), prev.files)
    case Ok(p) =>
      var step := PutFileStep(prev.files, branch, p, content, msg, ex);
      var c := prev.outcome.value;
      var outcome := match step.outcome
        case Raises(e) => Raises(e)
        case Ok(w) => Ok(if w then Counts(c.written + 1, c.skipped) else Counts(c.written, c.skipped + 1));
      PushState(outcome, step.files)
  }

  /** The normalised path of every item. */
  function NormalizedPaths(items: seq<(string, seq<Byte>)>): (paths: seq<Outcome<string>>)
    ensures |paths| == |items| && forall i :: 0 <= i < |items| ==> paths[i] == NormalizePath(items[i].0)
  {
    seq(|items|, i requires 0 <= i < |items| => NormalizePath(items[i].0))
  }

  /** The loop of `push_files` from item `i` on, starting from `s`: item `i`
      has the normalised path `paths[i]` and meets `net(i)`; the first
      failure ends it. */
  function PushFrom(s: PushState, branch: string, items: seq<(string, seq<Byte>)>, paths: seq<Outcome<string>>,
                    msg: string, net: nat -> Exchange, i: nat): (r: PushState)
    requires i <= |items| == |paths|
    ensures s.outcome.Raises? ==> r == s
    ensures r.outcome.Ok? ==>
      s.outcome.Ok? && r.outcome.value.written + r.outcome.value.skipped == s.outcome.value.written + s.outcome.value.skipped + |items| - i
    decreases |items| - i
  {
    if i == |items| || s.outcome.Raises? then s
    else PushFrom(PushItem(s, branch, paths[i], items[i].1, msg, net(i)), branch, items, paths, msg, net, i + 1)
  }

  /** The whole loop, from no files written and none skipped. */
  function Pushed(start: map<string, Stored>, branch: string, items: seq<(string, seq<Byte>)>, msg: string,
                  net: nat -> Exchange): (r: PushState)
    ensures r.outcome.Ok? ==> r.outcome.value.written + r.outcome.value.skipped == |items|
  {
    PushFrom(PushState(Ok(Counts(0, 0)), start), branch, items, NormalizedPaths(items), msg, net, 0)
  }

  /** One turn of the loop. */
  lemma PushFromStep(s: PushState, branch: string, items: seq<(string, seq<Byte>)>, paths: seq<Outcome<string>>,
                     msg: string, net: nat -> Exchange, i: nat)
    requires i < |items| == |paths| && s.outcome.Ok?
    ensures PushFrom(s, branch, items, paths, msg, net, i)
         == PushFrom(PushItem(s, branch, paths[i], items[i].1, msg, net(i)), branch, items, paths, msg, net, i + 1)
  {
  }

  /** The three ways an item ends. */
  lemma PushItemCases(prev: PushState, branch: string, path: Outcome<string>, content: seq<Byte>, msg: string, ex: Exchange)
    requires prev.outcome.Ok?
    ensures path.Raises? ==> PushItem(prev, branch, path, content, msg, ex) == PushState(Raises(path.error), prev.files)
    ensures path.Ok? ==>
      var step := PutFileStep(prev.files, branch, path.value, content, msg, ex);
      var c := prev.outcome.value;
      && (step.outcome.Raises? ==> PushItem(prev, branch, path, content, msg, ex) == PushState(Raises(step.outcome.error), step.files))
      && (step.outcome == Ok(true) ==> PushItem(prev, branch, path, content, msg, ex) == PushState(Ok(Counts(c.written + 1, c.skipped)), step.files))
      && (step.outcome == Ok(false) ==> PushItem(prev, branch, path, content, msg, ex) == PushState(Ok(Counts(c.written, c.skipped + 1)), step.files))
  {
  }

  /** A rejected path raises a PushError. */

  lemma RejectedIsPushError(path: string)
    ensures StartsWith(RejectedPath + path, PushErrorPrefix)
  {
    var e := RejectedPath + path;
    assert e == PushErrorPrefix + ("Invalid or malicious path rejected: " + path);
    assert e[..|PushErrorPrefix|] == PushErrorPrefix;
  }

  /** An item that succeeds leaves its content at its path. */
  lemma PushItemHolds(prev: PushState, branch: string, path: Outcome<string>, content: seq<Byte>, msg: string, ex: Exchange)
    requires prev.outcome.Ok?
    ensures var s := PushItem(prev, branch, path, content, msg, ex);
      s.outcome.Ok? ==> path.Ok? && path.value in s.files && s.files[path.value].content == content
  {
  }

  /** An item changes no other path, whatever its outcome. */
  lemma PushItemKeeps(prev: PushState, branch: string, path: Outcome<string>, content: seq<Byte>, msg: string, ex: Exchange, key: string)
    requires prev.outcome.Ok? && path != Ok(key)
    ensures var s := PushItem(prev, branch, path, content, msg, ex);
      (key in s.files <==> key in prev.files) && (key in prev.files ==> s.files[key] == prev.files[key])
  {
  }

  /** Every error of the loop is a PushError, when every rejected path is. */
  lemma {:induction false} PushFromErrors(s: PushState, branch: string, items: seq<(string, seq<Byte>)>, paths: seq<Outcome<string>>,
                                          msg: string, net: nat -> Exchange, i: nat)
    requires i <= |items| == |paths|
    requires forall j :: 0 <= j < |paths| && paths[j].Raises? ==> StartsWith(paths[j].error, PushErrorPrefix)
    requires s.outcome.Raises? ==> StartsWith(s.outcome.error, PushErrorPrefix)
    ensures var r := PushFrom(s, branch, items, paths, msg, net, i);
      r.outcome.Raises? ==> StartsWith(r.outcome.error, PushErrorPrefix)
    decreases |items| - i
  {
    if i < |items| && s.outcome.Ok? {
      PushFromErrors(PushItem(s, branch, paths[i], items[i].1, msg, net(i)), branch, items, paths, msg, net, i + 1);
    }
  }

  /** A path no later item normalises to keeps what it holds, whatever the
      outcome. */
  lemma {:induction false} PushFromKeeps(s: PushState, branch: string, items: seq<(string, seq<Byte>)>, paths: seq<Outcome<string>>,
                                         msg: string, net: nat -> Exchange, i: nat, key: string)
    requires i <= |items| == |paths|
    requires forall j :: i <= j < |items| ==> paths[j] != Ok(key)
    ensures var r := PushFrom(s, branch, items, paths, msg, net, i);
      (key in r.files <==> key in s.files) && (key in s.files ==> r.files[key] == s.files[key])
    decreases |items| - i
  {
    if i < |items| && s.outcome.Ok? {
      PushItemKeeps(s, branch, paths[i], items[i].1, msg, net(i), key);
      PushFromKeeps(PushItem(s, branch, paths[i], items[i].1, msg, net(i)), branch, items, paths, msg, net, i + 1, key);
    }
  }

  /** After a successful run from item `i`, every later item's path was
      accepted. */
  lemma {:induction false} PushFromAccepts(s: PushState, branch: string, items: seq<(string, seq<Byte>)>, paths: seq<Outcome<string>>,
                                           msg: string, net: nat -> Exchange, i: nat)
    requires i <= |items| == |paths|
    ensures PushFrom(s, branch, items, paths, msg, net, i).outcome.Ok? ==> forall k :: i <= k < |items| ==> paths[k].Ok?
    decreases |items| - i
  {
    if i < |items| && s.outcome.Ok? {
      var s' := PushItem(s, branch, paths[i], items[i].1, msg, net(i));
      PushFromStep(s, branch, items, paths, msg, net, i);
      PushFromAccepts(s', branch, items, paths, msg, net, i + 1);
    }
  }

  /** After a successful run from item `i`, item `k` holds its content at
      its path when no later item has the same path. */
  lemma {:induction false} PushFromHoldsAt(s: PushState, branch: string, items: seq<(string, seq<Byte>)>, paths: seq<Outcome<string>>,
                                           msg: string, net: nat -> Exchange, i: nat, k: nat)
    requires i <= k < |items| == |paths|
    requires forall j :: k < j < |items| ==> paths[j] != paths[k]
    ensures var r := PushFrom(s, branch, items, paths, msg, net, i);
      r.outcome.Ok? ==> paths[k].Ok? && paths[k].value in r.files && r.files[paths[k].value].content == items[k].1
    decreases |items| - i
  {
    if s.outcome.Ok? {
      var s' := PushItem(s, branch, paths[i], items[i].1, msg, net(i));
      PushFromStep(s, branch, items, paths, msg, net, i);
      if k == i {
        PushItemHolds(s, branch, paths[i], items[i].1, msg, net(i));
        if s'.outcome.Ok? {
          PushFromKeeps(s', branch, items, paths, msg, net, i + 1, paths[i].value);
        }
      } else {
        PushFromHoldsAt(s', branch, items, paths, msg, net, i + 1, k);
      }
    }
  }

  /** What a successful push promises: every path accepted, one count per
      item, and each item's content at its normalised path unless a later
      item has the same path. */
  lemma PushedSucceeds(start: map<string, Stored>, branch: string, items: seq<(string, seq<Byte>)>,
                       msg: string, net: nat -> Exchange)
    ensures var r := Pushed(start, branch, items, msg, net);
      r.outcome.Ok? ==>
        && r.outcome.value.written + r.outcome.value.skipped == |items|
        && forall k :: 0 <= k < |items| ==>
          && NormalizePath(items[k].0).Ok?
          && ((forall j :: k < j < |items| ==> NormalizePath(items[j].0) != NormalizePath(items[k].0)) ==>
                NormalizePath(items[k].0).value in r.files && r.files[NormalizePath(items[k].0).value].content == items[k].1)
  {
    var s := PushState(Ok(Counts(0, 0)), start);
    var paths := NormalizedPaths(items);
    PushFromAccepts(s, branch, items, paths, msg, net, 0);
    forall k | 0 <= k < |items| && forall j :: k < j < |items| ==> paths[j] != paths[k]
      ensures var r := Pushed(start, branch, items, msg, net);
        r.outcome.Ok? ==> paths[k].value in r.files && r.files[paths[k].value].content == items[k].1
    {
      PushFromHoldsAt(s, branch, items, paths, msg, net, 0, k);
    }
  }

  /** A push that fails raises a PushError. */
  lemma PushedFails(start: map<string, Stored>, branch: string, items: seq<(string, seq<Byte>)>,
                    msg: string, net: nat -> Exchange)
    ensures var r := Pushed(start, branch, items, msg, net);
      r.outcome.Raises? ==> StartsWith(r.outcome.error, PushErrorPrefix)
  {
    var s := PushState(Ok(Counts(0, 0)), start);
    var paths := NormalizedPaths(items);
    forall j | 0 <= j < |paths| && paths[j].Raises? ensures StartsWith(paths[j].error, PushErrorPrefix) {
      RejectedIsPushError(items[j].0);
    }
    PushFromErrors(s, branch, items, paths, msg, net, 0);
  }

  /** Whatever its outcome, a push leaves every path no item normalises to
      as it was. */
  lemma PushedKeepsOthers(start: map<string, Stored>, branch: string, items: seq<(string, seq<Byte>)>,
                          msg: string, net: nat -> Exchange, key: string)
    requires forall j :: 0 <= j < |items| ==> NormalizePath(items[j].0) != Ok(key)
    ensures var r := Pushed(start, branch, items, msg, net);
      (key in r.files <==> key in start) && (key in start ==> r.files[key] == start[key])
  {
    PushFromKeeps(PushState(Ok(Counts(0, 0)), start), branch, items, NormalizedPaths(items), msg, net, 0, key);
  }

  /** The remote branch: its files by path. */
  class RemoteBranch {
    var files: map<string, Stored>

    constructor(files0: map<string, Stored>)
      ensures files == files0
    {
      files := files0;
    }

    /** `put_file`: read the file, skip it when its content is already there,
        otherwise send the new content with the old sha; `sent` is the body
        of the PUT, when one went out. */
    method PutFile(branch: string, path: string, content: seq<Byte>, msg: string, ex: Exchange)
      returns (r: Outcome<bool>, sent: Option<Payload>)
      modifies this
      ensures var step := PutFileStep(old(files), branch, path, content, msg, ex);
        r == step.outcome && files == step.files && sent == step.sent
    {
      if ex.get.GetFailed? {
        return Raises(NetworkErrorText(Some(ex.get.lastError))), None;
      }
      var sha: Option<string> := None;
      if ex.get.Served? && path in files {
        if files[path].content == content {
          return Ok(false), None;
        }
        sha := Some(files[path].sha);
      }
      sent := Some(Payload(msg, content, branch, if sha.Some? && sha.value != "" then sha else None));
      if ex.put.PutFailed? {
        return Raises(NetworkErrorText(Some(ex.put.lastError))), sent;
      }
      if ex.put.status != 200 && ex.put.status != 201 {
        return Raises(PutErrorText(path, ex.put.status, ex.put.text)), sent;
      }
      files := files[path := Stored(content, ex.put.newSha)];
      r := Ok(true);
    }

    /** One turn of the loop of `push_files`: a rejected path raises,
        an accepted one is put and counted as written or skipped. */
    method PushItemAt(counts: Counts, branch: string, path: Outcome<string>, content: seq<Byte>, msg: string, ex: Exchange)
      returns (r: Outcome<Counts>)
      modifies this
      ensures PushState(r, files) == PushItem(PushState(Ok(counts), old(files)), branch, path, content, msg, ex)
    {
      PushItemCases(PushState(Ok(counts), files), branch, path, content, msg, ex);
      if path.Raises? {
        return Raises(path.error);
      }
      var w, _ := PutFile(branch, path.value, content, msg, ex);
      if w.Raises? {
        return Raises(w.error);
      }
      if w.value {
        r := Ok(Counts(counts.written + 1, counts.skipped));
      } else {
        r := Ok(Counts(counts.written, counts.skipped + 1));
      }
    }

    /** `push_files(cfg, branch, files, commit_title)`: validate the branch,
        sanitise the title once, then put every file at its normalised path,
        counting writes and skips; the first error ends the push. */
    method PushFiles(branch: string, items: seq<(string, seq<Byte>)>, title: Option<string>, net: nat -> Exchange)
      returns (r: Outcome<Counts>)
      modifies this
      ensures !BranchNameOk(branch) ==> r == Raises(ValidateBranchName(branch).error) && files == old(files)
      ensures BranchNameOk(branch) ==>
        var s := Pushed(old(files), branch, items, SanitizeCommitMessage(title), net);
        r == s.outcome && files == s.files
    {
      var valid := ValidateBranchName(branch);
      if valid.Raises? {
        return Raises(valid.error);
      }
      var msg := SanitizeCommitMessage(title);
      ghost var paths := NormalizedPaths(items);
      ghost var target := PushFrom(PushState(Ok(Counts(0, 0)), files), branch, items, paths, msg, net, 0);
      var counts := Counts(0, 0);
      var i := 0;
      while i < |items|
        invariant 0 <= i <= |items|
        invariant PushFrom(PushState(Ok(counts), files), branch, items, paths, msg, net, i) == target
      {
        PushFromStep(PushState(Ok(counts), files), branch, items, paths, msg, net, i);
        var path := NormalizePath(items[i].0);
        assert path == paths[i];
        var o := PushItemAt(counts, branch, path, items[i].1, msg, net(i));
        if o.Raises? {
          return o;
        }
        counts := o.value;
        i := i + 1;
      }
      return Ok(counts);
    }
  }
}
