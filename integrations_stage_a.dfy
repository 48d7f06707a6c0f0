/** Stage A of the integrator (app/routes/integrations_stage_a.py): a ZIP
    upload becomes a new branch "stage-a/YYYYMMDD-slug" holding the ZIP's
    files. The title is turned into a slug, the archive's entries are
    filtered and bounded, the branch is created (once more with "-2" when it
    already exists), and the files are pushed with the branch pusher. The
    archive as `zipfile` reads it, the UTC date, and the answers of GitHub
    are inputs; the remote branch is `BranchPusher.RemoteBranch`. */
module StageA {
  import opened PyText
  import opened Oracles
  import BranchPusher
  import StageB

  /** `INTEGRATOR_MAX_ZIP_MB`, `INTEGRATOR_MAX_FILE_MB` and
      `INTEGRATOR_MAX_FILE_COUNT`, read once from the environment. */
  datatype Limits = Limits(zipMb: int, fileMb: int, fileCount: int)

  /** The limits when the environment does not set them. */
  const DefaultLimits := Limits(25, 5, 500)

  const MiB := 1024 * 1024

  // ------------------------------------------------------------- slugify

  /** `_slug_re.sub("", s)`: only the characters of `[a-z0-9-]` are kept. */
  function KeepSlugChars(s: string): (r: string)
    ensures |r| <= |s|
    ensures forall i :: 0 <= i < |r| ==> StageB.SlugChar(r[i])
    ensures (forall i :: 0 <= i < |s| ==> StageB.SlugChar(s[i])) ==> r == s
  {
    if s == [] then []
    else (if StageB.SlugChar(s[0]) then [s[0]] else []) + KeepSlugChars(s[1..])
  }

  /** A slug: one to 48 characters of `[a-z0-9-]`. */
  predicate IsSlug(s: string) {
    1 <= |s| <= 48 && forall i :: 0 <= i < |s| ==> StageB.SlugChar(s[i])
  }

  /** `slugify(s)`: strip, lower, turn each whitespace run into "-", drop
      everything outside `[a-z0-9-]`, keep at most 48 characters, and use
      "patch" when nothing is left. */
  function Slugify(title: string): (r: string)
    ensures IsSlug(r)
  {
    SlugOrPatch(KeepSlugChars(Hyphenated(title)))
  }

  /** The title stripped and lowered, each whitespace run one "-". */
  function Hyphenated(title: string): string {
    ReplaceRuns(LowerStr(Strip(title)), IsSpace, '-')
  }

  /** The first 48 characters of a text of slug characters, or "patch" when
      it is empty. */
  function SlugOrPatch(t: string): (r: string)
    requires forall i :: 0 <= i < |t| ==> StageB.SlugChar(t[i])
    ensures IsSlug(r)
    ensures 1 <= |t| <= 48 ==> r == t
  {
    var u := Take(t, 48);
    assert forall i :: 0 <= i < |u| ==> u[i] == t[i];
    if u == [] then "patch" else u
  }

  /** A slug character is neither whitespace nor changed by lowering. */
  lemma SlugCharPlain(c: char)
    requires StageB.SlugChar(c)
    ensures !IsSpace(c) && Lower(c) == c
  {
  }

  /** A text that is already a slug is its own slug. */
  lemma SlugifyKeepsSlug(s: string)
    requires IsSlug(s)
    ensures Slugify(s) == s
  {
    SlugWordPlain(s);
    StripOfStripped(s);
    ReplaceRunsOfClean(s, IsSpace, '-');
  }

  /** Making a slug of a slug changes nothing. */
  lemma SlugifyIdempotent(title: string)
    ensures Slugify(Slugify(title)) == Slugify(title)
  {
    SlugifyKeepsSlug(Slugify(title));
  }

  /** Two slug words separated by a run of whitespace of any length become
      the two words joined by one "-". */
  lemma SlugifyJoinsWords(a: string, ws: string, b: string)
    requires a != [] && b != [] && |a| + 1 + |b| <= 48
    requires forall i :: 0 <= i < |a| ==> StageB.SlugChar(a[i])
    requires forall i :: 0 <= i < |b| ==> StageB.SlugChar(b[i])
    requires ws != [] && forall i :: 0 <= i < |ws| ==> IsSpace(ws[i])
    ensures Slugify(a + ws + b) == a + "-" + b
  {
    var s := a + ws + b;
    SlugWordPlain(a);
    SlugWordPlain(b);
    assert s[0] == a[0] && s[|s| - 1] == b[|b| - 1];
    StripOfStripped(s);
    var lw := LowerStr(ws);
    LowerStrConcat(a, ws, b);
    RunBecomesOne(a, lw, b, IsSpace, '-');
    ReplaceRunsOfClean(a, IsSpace, '-');
    ReplaceRunsOfClean(b, IsSpace, '-');
    JoinedSlug(a, b);
  }

  /** Two slug words joined by "-" are a slug word. */
  lemma JoinedSlug(a: string, b: string)
    requires forall i :: 0 <= i < |a| ==> StageB.SlugChar(a[i])
    requires forall i :: 0 <= i < |b| ==> StageB.SlugChar(b[i])
    ensures forall i :: 0 <= i < |a + "-" + b| ==> StageB.SlugChar((a + "-" + b)[i])
  {
    var head := a + "-";
    var joined := head + b;
    assert |head| == |a| + 1 && head[|a|] == '-';
    forall i | 0 <= i < |joined| ensures StageB.SlugChar(joined[i]) {
      if i < |head| {
        assert joined[i] == head[i];
        if i < |a| {
          assert head[i] == a[i];
        }
      } else {
        assert joined[i] == b[i - |head|];
      }
    }
  }

  /** A slug word is free of whitespace and unchanged by lowering. */
  lemma SlugWordPlain(s: string)
    requires forall i :: 0 <= i < |s| ==> StageB.SlugChar(s[i])
    ensures forall i :: 0 <= i < |s| ==> !IsSpace(s[i])
    ensures LowerStr(s) == s
  {
    forall i | 0 <= i < |s| ensures !IsSpace(s[i]) && Lower(s[i]) == s[i] {
      SlugCharPlain(s[i]);
    }
  }

  /** Lowering a text around a whitespace run lowers only the run, and the
      run stays whitespace. */
  lemma LowerStrConcat(a: string, ws: string, b: string)
    requires LowerStr(a) == a && LowerStr(b) == b
    requires forall i :: 0 <= i < |ws| ==> IsSpace(ws[i])
    ensures LowerStr(a + ws + b) == a + LowerStr(ws) + b
    ensures forall i :: 0 <= i < |ws| ==> IsSpace(LowerStr(ws)[i])
  {
    var s := a + ws + b;
    var t := a + LowerStr(ws) + b;
    forall i | 0 <= i < |s| ensures LowerStr(s)[i] == t[i] {
      if i < |a| {
        assert s[i] == a[i] && t[i] == a[i] == LowerStr(a)[i];
      } else if i < |a| + |ws| {
        assert s[i] == ws[i - |a|];
      } else {
        assert s[i] == b[i - |a| - |ws|] && t[i] == b[i - |a| - |ws|] == LowerStr(b)[i - |a| - |ws|];
      }
    }
  }

  /** Two capitals Python lowers to letters a slug keeps: the Kelvin sign and the dotted capital I. */
  const KelvinSign: char := '\U{212a}'
  const DottedCapitalI: char := '\U{130}'

  /** A title with no ASCII letter or digit, no "-" and no whitespace (one in
      another script, say) gives "patch". The Kelvin sign U+212A and the dotted
      capital I U+0130 are excluded: Python lowers them to "k" and to "i" with a
      combining dot, which the slug keeps. */
  lemma SlugifyFallsBack(title: string)
    requires forall i :: 0 <= i < |title| ==>
      !IsAsciiAlnum(title[i]) && title[i] != '-' && !IsSpace(title[i]) && title[i] != KelvinSign && title[i] != DottedCapitalI
    ensures Slugify(title) == "patch"
  {
    var st := Strip(title);
    assert forall i :: 0 <= i < |st| ==> st[i] == title[StripOffset(title) + i];
    var l := LowerStr(st);
    forall i | 0 <= i < |l| ensures !IsSpace(l[i]) && !StageB.SlugChar(l[i]) {
      var c := st[i];
      assert l[i] == Lower(c);
    }
    ReplaceRunsOfClean(l, IsSpace, '-');
    NoSlugChars(l);
  }

  /** A text without slug characters leaves nothing. */
  lemma {:induction false} NoSlugChars(s: string)
    requires forall i :: 0 <= i < |s| ==> !StageB.SlugChar(s[i])
    ensures KeepSlugChars(s) == []
    decreases |s|
  {
    if s != [] {
      NoSlugChars(s[1..]);
    }
  }

  // ------------------------------------------------------------ the ZIP

  /** One entry of the archive's `infolist()`: its name, whether it is a
      directory, the size it declares, and the bytes `z.read` gives. */
  datatype ZipEntry = ZipEntry(name: string, isDir: bool, size: nat, data: seq<Byte>)

  /** An entry the upload takes: not a directory, not empty. */
  predicate Usable(e: ZipEntry) {
    !e.isDir && e.size != 0
  }

  /** The name and bytes of every usable entry, in archive order. */
  function UsableFiles(entries: seq<ZipEntry>): (r: seq<(string, seq<Byte>)>)
    ensures |r| <= |entries|
  {
    if entries == [] then []
    else (if Usable(entries[0]) then [(entries[0].name, entries[0].data)] else []) + UsableFiles(entries[1..])
  }

  const NoUsableFiles := "ZIP contained no usable files"

  function TooManyFiles(lim: Limits): string {
    "Too many files in ZIP (limit " + IntToString(lim.fileCount) + ")"
  }

  /** The loop of `_extract_zip` from entry `i`, with `files` collected so far:
      skip directories and empty entries, refuse an entry over the file limit,
      collect the others and refuse the one past the count limit; at the end,
      refuse an empty collection. */
  function ExtractFrom(entries: seq<ZipEntry>, lim: Limits, i: nat, files: seq<(string, seq<Byte>)>)
    : Http<seq<(string, seq<Byte>)>>
    requires i <= |entries|
    decreases |entries| - i
  {
    if i == |entries| then
      if files == [] then HttpError(400, NoUsableFiles) else Answer(files)
    else
      var e := entries[i];
      if e.isDir || e.size == 0 then ExtractFrom(entries, lim, i + 1, files)
      else if e.size > lim.fileMb * MiB then HttpError(413, "File too large: " + e.name)
      else
        var more := files + [(e.name, e.data)];
        if |more| > lim.fileCount then HttpError(413, TooManyFiles(lim))
        else ExtractFrom(entries, lim, i + 1, more)
  }

  /** `_extract_zip(buf)` over the entries of a readable archive. */
  function ExtractZipOf(entries: seq<ZipEntry>, lim: Limits): Http<seq<(string, seq<Byte>)>> {
    ExtractFrom(entries, lim, 0, [])
  }

  /** No usable entry of `entries` is over the file limit. */
  predicate AllWithin(entries: seq<ZipEntry>, lim: Limits) {
    forall e :: e in entries && Usable(e) ==> e.size <= lim.fileMb * MiB
  }

  lemma UsableFilesCons(entries: seq<ZipEntry>, lim: Limits, i: nat)
    requires i < |entries|
    ensures UsableFiles(entries[i..]) ==
      (if Usable(entries[i]) then [(entries[i].name, entries[i].data)] else []) + UsableFiles(entries[i + 1..])
    ensures AllWithin(entries[i..], lim) <==>
      (Usable(entries[i]) ==> entries[i].size <= lim.fileMb * MiB) && AllWithin(entries[i + 1..], lim)
  {
    assert entries[i..][1..] == entries[i + 1..];
    assert entries[i..] == [entries[i]] + entries[i + 1..];
  }

  /** The loop from entry `i` on: it answers exactly when no usable entry left
      is too large and the files collected in all stay within the count limit
      and are not none, and then with all of them; it refuses with 400 exactly
      when there are none, and with 413 otherwise. */
  lemma {:induction false} ExtractFromMeaning(entries: seq<ZipEntry>, lim: Limits, i: nat, files: seq<(string, seq<Byte>)>)
    requires i <= |entries|
    requires files == [] || |files| <= lim.fileCount
    ensures var r := ExtractFrom(entries, lim, i, files);
      var all := files + UsableFiles(entries[i..]);
      && (r.Answer? <==> all != [] && |all| <= lim.fileCount && AllWithin(entries[i..], lim))
      && (r.Answer? ==> r.value == all)
      && (r == HttpError(400, NoUsableFiles) <==> all == [])
      && (r.HttpError? && all != [] ==> r.status == 413)
    decreases |entries| - i, 1
  {
    if i == |entries| {
      assert entries[i..] == [];
      assert files + [] == files;
    } else {
      var e := entries[i];
      if e.isDir || e.size == 0 {
        ExtractSkipMeaning(entries, lim, i, files);
      } else if e.size > lim.fileMb * MiB {
        UsableFilesCons(entries, lim, i);
        assert e in entries[i..];
      } else {
        ExtractCollectMeaning(entries, lim, i, files);
      }
    }
  }

  /** `ExtractFromMeaning` as one predicate, for the steps below. */
  predicate ExtractMeans(entries: seq<ZipEntry>, lim: Limits, i: nat, files: seq<(string, seq<Byte>)>)
    requires i <= |entries|
  {
    var r := ExtractFrom(entries, lim, i, files);
    var all := files + UsableFiles(entries[i..]);
    && (r.Answer? <==> all != [] && |all| <= lim.fileCount && AllWithin(entries[i..], lim))
    && (r.Answer? ==> r.value == all)
    && (r == HttpError(400, NoUsableFiles) <==> all == [])
    && (r.HttpError? && all != [] ==> r.status == 413)
  }

  /** A skipped entry: the meaning carries over from the next one. */
  lemma {:induction false} ExtractSkipMeaning(entries: seq<ZipEntry>, lim: Limits, i: nat, files: seq<(string, seq<Byte>)>)
    requires i < |entries| && (entries[i].isDir || entries[i].size == 0)
    requires files == [] || |files| <= lim.fileCount
    ensures ExtractMeans(entries, lim, i, files)
    decreases |entries| - i, 0
  {
    UsableFilesCons(entries, lim, i);
    ExtractFromMeaning(entries, lim, i + 1, files);
    assert files + UsableFiles(entries[i..]) == files + UsableFiles(entries[i + 1..]);
  }

  /** A collected entry: the meaning carries over with one more file, or
      the count limit is passed. */
  lemma {:induction false} ExtractCollectMeaning(entries: seq<ZipEntry>, lim: Limits, i: nat, files: seq<(string, seq<Byte>)>)
    requires i < |entries| && !(entries[i].isDir || entries[i].size == 0) && entries[i].size <= lim.fileMb * MiB
    requires files == [] || |files| <= lim.fileCount
    ensures ExtractMeans(entries, lim, i, files)
    decreases |entries| - i, 0
  {
    var e := entries[i];
    UsableFilesCons(entries, lim, i);
    var more := files + [(e.name, e.data)];
    assert files + UsableFiles(entries[i..]) == more + UsableFiles(entries[i + 1..]);
    if |more| <= lim.fileCount {
      ExtractFromMeaning(entries, lim, i + 1, more);
    }
  }

  /** What `_extract_zip` promises: it answers exactly when the archive has a
      usable entry, no usable entry over the file limit and at most the count
      limit of them, and then with the usable entries in order; no usable
      entry at all is a 400, anything else refused a 413. */
  lemma ExtractZipMeaning(entries: seq<ZipEntry>, lim: Limits)
    ensures var r := ExtractZipOf(entries, lim);
      var all := UsableFiles(entries);
      && (r.Answer? <==> all != [] && |all| <= lim.fileCount && AllWithin(entries, lim))
      && (r.Answer? ==> r.value == all)
      && (r == HttpError(400, NoUsableFiles) <==> all == [])
      && (r.HttpError? && all != [] ==> r.status == 413)
  {
    ExtractFromMeaning(entries, lim, 0, []);
    assert entries[0..] == entries;
    assert [] + UsableFiles(entries) == UsableFiles(entries);
  }

  /** `_extract_zip(buf)`: the loop over the entries, appending to `files`. */
  method ExtractZip(entries: seq<ZipEntry>, lim: Limits) returns (r: Http<seq<(string, seq<Byte>)>>)
    ensures r == ExtractZipOf(entries, lim)
  {
    var files: seq<(string, seq<Byte>)> := [];
    var i := 0;
    while i < |entries|
      invariant 0 <= i <= |entries|
      invariant ExtractFrom(entries, lim, i, files) == ExtractZipOf(entries, lim)
    {
      var e := entries[i];
      if e.isDir || e.size == 0 {
        i := i + 1;
        continue;
      }
      if e.size > lim.fileMb * MiB {
        return HttpError(413, "File too large: " + e.name);
      }
      files := files + [(e.name, e.data)];
      if |files| > lim.fileCount {
        return HttpError(413, TooManyFiles(lim));
      }
      i := i + 1;
    }
    if files == [] {
      return HttpError(400, NoUsableFiles);
    }
    r := Answer(files);
  }

  // ------------------------------------------------------------ branches

  /** The branch an upload is first tried on. */
  function StageABranch(date: string, slug: string): string {
    "stage-a/" + date + "-" + slug
  }

  /** A date as `strftime("%Y%m%d")` writes it. */
  predicate DateStamp(date: string) {
    |date| == 8 && AllDigits(date)
  }

  /** Both branch names an upload may use have the Stage-A shape (the
      pattern of integrations_stage_a.py:14, which is also `STAGE_A_RE`). */
  lemma StageABranchShape(date: string, slug: string, retry: bool)
    requires DateStamp(date) && IsSlug(slug)
    ensures var b := StageABranch(date, slug) + (if retry then "-2" else "");
      StageB.StageAShape(b) && |b| <= 255
  {
    var suffix := if retry then "-2" else "";
    var tail := slug + suffix;
    var b := StageABranch(date, slug) + suffix;
    assert b == "stage-a/" + date + "-" + tail;
    BranchParts(date, tail);
    if retry {
      assert tail[|slug|] == '-';
      assert tail[|slug| + 1..] == "2";
    } else {
      assert tail == slug;
    }
    assert StageB.TailSplit(tail, |slug|);
  }

  /** Where the parts of a Stage-A branch sit. */
  lemma BranchParts(date: string, tail: string)
    requires |date| == 8
    ensures var t := "stage-a/" + date + "-" + tail;
      |t| == 17 + |tail| && t[..8] == "stage-a/" && t[8..16] == date && t[16] == '-' && t[17..] == tail
  {
  }

  /** Every branch an upload uses passes both validations of Stage B (as
      corrected and as written) and that of the branch pusher. */
  lemma StageABranchAccepted(date: string, slug: string, retry: bool)
    requires DateStamp(date) && IsSlug(slug)
    ensures var b := StageABranch(date, slug) + (if retry then "-2" else "");
      && StageB.ValidateBranchName(b).Answer?
      && StageB.ValidateBranchNameAsWritten(b).Answer?
      && BranchPusher.BranchNameOk(b)
  {
    var b := StageABranch(date, slug) + (if retry then "-2" else "");
    StageABranchShape(date, slug, retry);
    StageB.ValidateBranchNameMeaning(b);
    StageB.AsWrittenDropsFinalNewline(b);
    StageB.StageAChars(b);
    assert b[0] == 's';
    assert !StageB.SlugChar('/');
    assert b[|b| - 1..] == [b[|b| - 1]];
  }
  // ---------------------------------------------------------- submit-zip

  /** What GitHub answered the two requests of one `create_branch`. */
  datatype CreateReplies = CreateReplies(getMain: Outcome<(int, string)>, post: Outcome<(int, string)>)

  /** The upload: its file name, its bytes, and the entries `zipfile` reads
      from them (None when they are not a ZIP archive). */
  datatype Upload = Upload(filename: Option<string>, content: seq<Byte>, archive: Option<seq<ZipEntry>>)

  /** What `submit_zip` has settled before pushing: the branch and the files. */
  datatype Plan = Plan(branch: string, files: seq<(string, seq<Byte>)>)

  /** The answer of `submit_zip`. */
  datatype Submitted = Submitted(branch: string, written: nat, skipped: nat)

  const NotZip := "Please upload a .zip file"
  const InvalidZip := "Invalid ZIP file"
  const Uncaught := "Internal Server Error"

  /** The branch the files go to: the base branch when it was created, else
      the base branch with "-2", whatever its creation answered. */
  function CreatedBranch(cfg: BranchPusher.Config, base: string, first: CreateReplies, second: CreateReplies): Outcome<string> {
    match BranchPusher.CreateBranch(cfg, base, first.getMain, first.post)
    case Raises(e) => Raises(e)
    case Ok(created) =>
      if created then Ok(base)
      else match BranchPusher.CreateBranch(cfg, base + "-2", second.getMain, second.post)
        case Raises(e) => Raises(e)
        case Ok(_) => Ok(base + "-2")
  }

  /** An exception leaving a route: a BranchCreateError is a 404 with its
      message; any other is not caught and becomes a 500. */
  function CreateFailure(e: string): (r: Http<Plan>)
    ensures r.HttpError? && (r.status == 404 <==> StartsWith(e, BranchPusher.BranchCreatePrefix))
  {
    if StartsWith(e, BranchPusher.BranchCreatePrefix) then HttpError(404, e[|BranchPusher.BranchCreatePrefix|..])
    else HttpError(500, Uncaught)
  }

  /** Everything `submit_zip` does before pushing, at date `date`. */
  function Planned(env: map<string, string>, lim: Limits, title: string, up: Upload, date: string,
                   first: CreateReplies, second: CreateReplies): (r: Http<Plan>)
    ensures r.Answer? ==>
      && BranchPusher.ValidateEnv(env).Ok? && up.filename.Some? && EndsWith(LowerStr(up.filename.value), ".zip")
      && |up.content| <= lim.zipMb * MiB && up.archive.Some?
      && var base := StageABranch(date, Slugify(title));
        r.value.branch == base || r.value.branch == base + "-2"
  {
    match BranchPusher.ValidateEnv(env)
    case Raises(e) => HttpError(500, "Integrator misconfigured: " + e)
    case Ok(cfg) =>
      CreatedBranchMeaning(cfg, StageABranch(date, Slugify(title)), first, second);
      if up.filename.None? || up.filename.value == "" || !EndsWith(LowerStr(up.filename.value), ".zip") then
        HttpError(400, NotZip)
      else if |up.content| > lim.zipMb * MiB then
        HttpError(413, "ZIP exceeds " + IntToString(lim.zipMb) + " MB limit")
      else if up.archive.None? then HttpError(400, InvalidZip)
      else match ExtractZipOf(up.archive.value, lim)
        case HttpError(status, detail) => HttpError(status, detail)
        case Answer(files) =>
          match CreatedBranch(cfg, StageABranch(date, Slugify(title)), first, second)
          case Raises(e) => CreateFailure(e)
          case Ok(branch) => Answer(Plan(branch, files))
  }

  /** How the push ends the route: the counts, or a PushError as a 502 with
      its message; any other exception is not caught. */
  function PushAnswer(o: Outcome<BranchPusher.Counts>, branch: string): (r: Http<Submitted>)
    ensures o.Ok? ==> r == Answer(Submitted(branch, o.value.written, o.value.skipped))
    ensures o.Raises? && StartsWith(o.error, BranchPusher.PushErrorPrefix) ==>
      r == HttpError(502, o.error[|BranchPusher.PushErrorPrefix|..])
  {
    match o
    case Ok(c) => Answer(Submitted(branch, c.written, c.skipped))
    case Raises(e) =>
      if StartsWith(e, BranchPusher.PushErrorPrefix) then HttpError(502, e[|BranchPusher.PushErrorPrefix|..])
      else HttpError(500, Uncaught)
  }

  /** The checks in front of the upload, in order: configuration (500), file
      name (400), size (413), a readable archive (400), then the archive's
      own refusals. */
  lemma PlannedRefusals(env: map<string, string>, lim: Limits, title: string, up: Upload, date: string,
                        first: CreateReplies, second: CreateReplies)
    ensures var r := Planned(env, lim, title, up, date, first, second);
      && (BranchPusher.ValidateEnv(env).Raises? ==> r.HttpError? && r.status == 500)
      && (BranchPusher.ValidateEnv(env).Ok? && (up.filename.None? || !EndsWith(LowerStr(up.filename.value), ".zip")) ==>
            r == HttpError(400, NotZip))
      && (BranchPusher.ValidateEnv(env).Ok? && up.filename.Some? && EndsWith(LowerStr(up.filename.value), ".zip") ==>
            && (|up.content| > lim.zipMb * MiB ==> r.HttpError? && r.status == 413)
            && (|up.content| <= lim.zipMb * MiB && up.archive.None? ==> r == HttpError(400, InvalidZip))
            && (|up.content| <= lim.zipMb * MiB && up.archive.Some? && ExtractZipOf(up.archive.value, lim).HttpError? ==>
                  r.HttpError? && r.status in {400, 413}))
  {
    if BranchPusher.ValidateEnv(env).Ok? && up.filename.Some? && EndsWith(LowerStr(up.filename.value), ".zip") {
      assert up.filename.value != "";
      if |up.content| <= lim.zipMb * MiB && up.archive.Some? && ExtractZipOf(up.archive.value, lim).HttpError? {
        ExtractZipMeaning(up.archive.value, lim);
      }
    }
  }

  /** An accepted upload goes to the dated branch of its slug, or to that
      branch with "-2" exactly when the first creation found the branch
      existing; either passes every branch-name check; and the files are the
      archive's usable entries. */
  lemma PlannedBranch(env: map<string, string>, lim: Limits, title: string, up: Upload, date: string,
                      first: CreateReplies, second: CreateReplies)
    requires DateStamp(date)
    requires Planned(env, lim, title, up, date, first, second).Answer?
    ensures var p := Planned(env, lim, title, up, date, first, second).value;
      var base := StageABranch(date, Slugify(title));
      var cfg := BranchPusher.ValidateEnv(env).value;
      && (p.branch == base || p.branch == base + "-2")
      && (p.branch == base + "-2" <==> BranchPusher.CreateBranch(cfg, base, first.getMain, first.post) == Ok(false))
      && StageB.ValidateBranchName(p.branch).Answer?
      && BranchPusher.BranchNameOk(p.branch)
      && up.archive.Some? && p.files == UsableFiles(up.archive.value) && p.files != []
  {
    var p := Planned(env, lim, title, up, date, first, second).value;
    var base := StageABranch(date, Slugify(title));
    var cfg := BranchPusher.ValidateEnv(env).value;
    PlannedAnswer(env, lim, title, up, date, first, second);
    ExtractZipMeaning(up.archive.value, lim);
    CreatedBranchMeaning(cfg, base, first, second);
    if p.branch == base {
      StageABranchAccepted(date, Slugify(title), false);
      assert base + "" == base;
    } else {
      StageABranchAccepted(date, Slugify(title), true);
    }
  }

  /** What an accepted upload has been through: a valid configuration, a
      readable archive whose extraction answered with the files, and a
      created branch. */
  lemma PlannedAnswer(env: map<string, string>, lim: Limits, title: string, up: Upload, date: string,
                      first: CreateReplies, second: CreateReplies)
    requires Planned(env, lim, title, up, date, first, second).Answer?
    ensures var p := Planned(env, lim, title, up, date, first, second).value;
      && BranchPusher.ValidateEnv(env).Ok?
      && up.archive.Some?
      && ExtractZipOf(up.archive.value, lim) == Answer(p.files)
      && CreatedBranch(BranchPusher.ValidateEnv(env).value, StageABranch(date, Slugify(title)), first, second) == Ok(p.branch)
  {
    var r := Planned(env, lim, title, up, date, first, second);
    var cfg := BranchPusher.ValidateEnv(env).value;
    var files := ExtractZipOf(up.archive.value, lim).value;
    var created := CreatedBranch(cfg, StageABranch(date, Slugify(title)), first, second);
    assert created.Ok? && r == Answer(Plan(created.value, files));
  }

  /** The branch is the base branch or the base branch with "-2", the latter
      exactly when the first creation answered that the branch exists. */
  lemma CreatedBranchMeaning(cfg: BranchPusher.Config, base: string, first: CreateReplies, second: CreateReplies)
    ensures var r := CreatedBranch(cfg, base, first, second);
      && (r.Ok? ==> r.value == base || r.value == base + "-2")
      && (r.Ok? ==> (r.value == base + "-2" <==> BranchPusher.CreateBranch(cfg, base, first.getMain, first.post) == Ok(false)))
  {
    assert |base + "-2"| != |base|;
  }
  /** Once the first creation finds the branch existing, the answer of the
      second creation does not matter as long as it does not raise. */
  lemma SecondCreationUnchecked(env: map<string, string>, lim: Limits, title: string, up: Upload, date: string,
                                first: CreateReplies, second: CreateReplies, other: CreateReplies)
    requires BranchPusher.ValidateEnv(env).Ok?
    requires var cfg := BranchPusher.ValidateEnv(env).value;
      var base := StageABranch(date, Slugify(title));
      && BranchPusher.CreateBranch(cfg, base, first.getMain, first.post) == Ok(false)
      && BranchPusher.CreateBranch(cfg, base + "-2", second.getMain, second.post).Ok?
      && BranchPusher.CreateBranch(cfg, base + "-2", other.getMain, other.post).Ok?
    ensures Planned(env, lim, title, up, date, first, second) == Planned(env, lim, title, up, date, first, other)
  {
  }

  /** `POST /integrations/stage-a/submit-zip` against the remote branch, at
      date `date`; the pushes meet `net`. */
  method SubmitZip(remote: BranchPusher.RemoteBranch, env: map<string, string>, lim: Limits, title: string,
                   up: Upload, date: string, first: CreateReplies, second: CreateReplies,
                   net: nat -> BranchPusher.Exchange)
    returns (r: Http<Submitted>)
    requires DateStamp(date)
    modifies remote
    ensures var plan := Planned(env, lim, title, up, date, first, second);
      plan.HttpError? ==> r == HttpError(plan.status, plan.detail) && remote.files == old(remote.files)
    ensures var plan := Planned(env, lim, title, up, date, first, second);
      plan.Answer? ==>
        var s := BranchPusher.Pushed(old(remote.files), plan.value.branch, plan.value.files,
                                     BranchPusher.SanitizeCommitMessage(Some(title)), net);
        r == PushAnswer(s.outcome, plan.value.branch) && remote.files == s.files
  {
    var env0 := BranchPusher.ValidateEnv(env);
    if env0.Raises? {
      return HttpError(500, "Integrator misconfigured: " + env0.error);
    }
    var cfg := env0.value;
    if up.filename.None? || up.filename.value == "" || !EndsWith(LowerStr(up.filename.value), ".zip") {
      return HttpError(400, NotZip);
    }
    if |up.content| > lim.zipMb * MiB {
      return HttpError(413, "ZIP exceeds " + IntToString(lim.zipMb) + " MB limit");
    }
    if up.archive.None? {
      return HttpError(400, InvalidZip);
    }
    var extracted := ExtractZip(up.archive.value, lim);
    if extracted.HttpError? {
      return HttpError(extracted.status, extracted.detail);
    }
    var files := extracted.value;
    var baseBranch := StageABranch(date, Slugify(title));
    var branch := baseBranch;
    var created := BranchPusher.CreateBranch(cfg, branch, first.getMain, first.post);
    if created.Ok? && !created.value {
      branch := baseBranch + "-2";
      created := BranchPusher.CreateBranch(cfg, branch, second.getMain, second.post);
    }
    if created.Raises? {
      var failure := CreateFailure(created.error);
      return HttpError(failure.status, failure.detail);
    }
    PlannedBranch(env, lim, title, up, date, first, second);
    var pushed := remote.PushFiles(branch, files, Some(title), net);
    r := PushAnswer(pushed, branch);
  }

  /** An upload that reaches the push and succeeds writes every file at its
      normalised path (unless a later file has the same path) and answers with
      counts that add up to the number of files; a failed push is a 502. */
  lemma SubmittedMeaning(remote0: map<string, BranchPusher.Stored>, env: map<string, string>, lim: Limits, title: string,
                         up: Upload, date: string, first: CreateReplies, second: CreateReplies,
                         net: nat -> BranchPusher.Exchange)
    requires Planned(env, lim, title, up, date, first, second).Answer?
    ensures var p := Planned(env, lim, title, up, date, first, second).value;
      var s := BranchPusher.Pushed(remote0, p.branch, p.files, BranchPusher.SanitizeCommitMessage(Some(title)), net);
      var r := PushAnswer(s.outcome, p.branch);
      && (r.Answer? ==> r.value.written + r.value.skipped == |p.files| && r.value.branch == p.branch)
      && (r.HttpError? ==> r.status == 502)
  {
    var p := Planned(env, lim, title, up, date, first, second).value;
    BranchPusher.PushedSucceeds(remote0, p.branch, p.files, BranchPusher.SanitizeCommitMessage(Some(title)), net);
    BranchPusher.PushedFails(remote0, p.branch, p.files, BranchPusher.SanitizeCommitMessage(Some(title)), net);
  }
}
