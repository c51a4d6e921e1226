/**
 The workspace bootstrap (internal/bootstrap/bootstrap.go) as atomic durable steps: intent, staging, rename,
 metadata. A run may crash between any two steps and any git command may fail.
 */
module Bootstrap {
  import opened Prelude

  /** What a run asks for; an empty URL asks for an empty workspace. Defaults are already applied to the revision. */
  datatype Identity = Identity(url: string, revision: string)

  datatype Meta = Meta(id: Identity, commit: string)

  /** The repository path. `Foreign` is a non-empty directory that git does not recognise. */
  datatype Tree = Absent | NotADirectory | EmptyDir | Foreign | Clone(origin: string, revision: string, head: string)

  datatype Staging =
    | NoStaging | Leftover | Initialised | Configured(url: string)
    | Fetched(url: string, revision: string) | CheckedOut(url: string, revision: string, commit: string)

  /** What survives a crash; `fetches` counts the fetch commands ever started. */
  datatype Disk = Disk(metadata: Option<Meta>, intent: Option<Identity>, repository: Tree, staging: Staging, fetches: nat)

  datatype Code = IdentityMismatch | Incomplete | Unsafe | NotEmpty | RepositoryFailed | CommitInvalid | CommitFailed

  datatype Pc =
    | ReadMetadata | EmptyDirectory | WriteEmptyMeta
    | ReadIntent | Recover | RecoverHead | RecoverMeta(commit: string) | RecoverClear(meta: Meta)
    | WriteIntent | CheckDestination | ResetStaging
    | GitInit | GitConfig | GitFetch | GitCheckout | RevParse
    | RenameIn(commit: string) | WriteMeta(commit: string) | ClearIntent(meta: Meta)
    | Cleanup(result: Result<Meta, Code>)
    | Done(result: Result<Meta, Code>)

  const FRESH := Disk(None, None, Absent, NoStaging, 0)

  predicate Hex(c: char) { '0' <= c <= '9' || 'a' <= c <= 'f' || 'A' <= c <= 'F' }

  predicate ValidCommit(value: string) {
    (|value| == 40 || |value| == 64) && forall i :: 0 <= i < |value| ==> Hex(value[i])
  }

  /** A commit is the name of a SHA-1 or SHA-256 object in hexadecimal digits of either case. */
  lemma CommitsExactly(value: string)
    ensures ValidCommit(value) <==> |value| in {40, 64} && forall c <- value :: c in "0123456789abcdefABCDEF"
  {
    forall c: char
      ensures Hex(c) <==> c in "0123456789abcdefABCDEF"
    {
      HexDigit(c);
    }
  }

  lemma HexDigit(c: char)
    ensures Hex(c) <==> c in "0123456789abcdefABCDEF"
  {
    var digits := "0123456789abcdefABCDEF";
    if '0' <= c <= '9' {
      assert digits[c as int - '0' as int] == c;
    } else if 'a' <= c <= 'f' {
      assert digits[10 + (c as int - 'a' as int)] == c;
    } else if 'A' <= c <= 'F' {
      assert digits[16 + (c as int - 'A' as int)] == c;
    }
  }

  /** The identity metadata stands for; an empty revision of an empty workspace means HEAD. */
  function Recorded(m: Meta): Identity {
    if m.id.url == "" && m.id.revision == "" then Identity("", "HEAD") else m.id
  }

  function Fail(code: Code): Pc { Done(Err(code)) }

  /** One durable step of a run for `id`. `ok` is the outcome of the git command, if the step runs one, and `commit`
      what a checkout resolves to. */
  function Step(id: Identity, d: Disk, pc: Pc, ok: bool, commit: string): (Disk, Pc) {
    match pc
    case ReadMetadata =>
      (d, if d.metadata.Some? then
            if Recorded(d.metadata.value) != id then Fail(IdentityMismatch)
            else if d.repository.Absent? then Fail(Incomplete)
            else if d.repository.NotADirectory? then Fail(Unsafe)
            else Done(Ok(d.metadata.value))
          else if id.url == "" then EmptyDirectory else ReadIntent)
    case EmptyDirectory =>
      if d.repository.Absent? then (d.(repository := EmptyDir), WriteEmptyMeta)
      else (d, if d.repository.EmptyDir? then WriteEmptyMeta
               else if d.repository.NotADirectory? then Fail(Unsafe) else Fail(NotEmpty))
    case WriteEmptyMeta => (d.(metadata := Some(Meta(id, ""))), Done(Ok(Meta(id, ""))))
    case ReadIntent =>
      (d, if d.intent.None? then WriteIntent else if d.intent.value != id then Fail(IdentityMismatch) else Recover)
    case Recover =>
      (d, if d.repository.Absent? then CheckDestination
          else if d.repository.NotADirectory? then Fail(Unsafe)
          else if ok && d.repository.Clone? && d.repository.origin == id.url then RecoverHead
          else Fail(IdentityMismatch))
    case RecoverHead =>
      (d, if !ok || !d.repository.Clone? then Fail(RepositoryFailed)
          else if !ValidCommit(d.repository.head) then Fail(CommitInvalid)
          else RecoverMeta(d.repository.head))
    case RecoverMeta(c) => (d.(metadata := Some(Meta(id, c))), RecoverClear(Meta(id, c)))
    case RecoverClear(m) => (d.(intent := None), Done(Ok(m)))
    case WriteIntent => (d.(intent := Some(id)), CheckDestination)
    case CheckDestination =>
      if d.repository.Absent? || d.repository.EmptyDir? then (d.(repository := Absent), ResetStaging)
      else (d, if d.repository.NotADirectory? then Fail(Unsafe) else Fail(NotEmpty))
    case ResetStaging => (d.(staging := NoStaging), GitInit)
    case GitInit => Git(d, ok, Initialised, GitConfig)
    case GitConfig => Git(d, ok, Configured(id.url), GitFetch)
    case GitFetch => Git(d.(fetches := d.fetches + 1), ok, Fetched(id.url, id.revision), GitCheckout)
    case GitCheckout => Git(d, ok, CheckedOut(id.url, id.revision, commit), RevParse)
    case RevParse =>
      (d, if !ok || !d.staging.CheckedOut? then Cleanup(Err(RepositoryFailed))
          else if !ValidCommit(d.staging.commit) then Cleanup(Err(CommitInvalid))
          else RenameIn(d.staging.commit))
    case RenameIn(c) =>
      if (d.repository.Absent? || d.repository.EmptyDir?) && d.staging.CheckedOut? then
        (d.(repository := Clone(d.staging.url, d.staging.revision, d.staging.commit), staging := NoStaging), WriteMeta(c))
      else (d, Cleanup(Err(CommitFailed)))
    case WriteMeta(c) => (d.(metadata := Some(Meta(id, c))), ClearIntent(Meta(id, c)))
    case ClearIntent(m) => (d.(intent := None), Cleanup(Ok(m)))
    case Cleanup(r) => (d.(staging := NoStaging), Done(r))
    case Done(_) => (d, pc)
  }

  /** A git command on the staging directory; a failed one leaves something behind for the deferred cleanup. */
  function Git(d: Disk, ok: bool, next: Staging, pc: Pc): (Disk, Pc) {
    if ok then (d.(staging := next), pc) else (d.(staging := Leftover), Cleanup(Err(RepositoryFailed)))
  }

  // ---------- crashes ----------

  datatype Running = Running(id: Identity, pc: Pc)

  datatype World = World(disk: Disk, run: Option<Running>)

  datatype Act = Start(id: Identity) | Advance(ok: bool, commit: string) | Crash(mess: bool)

  /** The lock admits one run at a time. A crash loses the run, and may leave the staging directory half written. */
  function Do(w: World, a: Act): Option<World> {
    match a
    case Start(id) =>
      if w.run.None? || w.run.value.pc.Done? then Some(w.(run := Some(Running(id, ReadMetadata)))) else None
    case Advance(ok, commit) =>
      if w.run.None? then None else
      var (d, pc) := Step(w.run.value.id, w.disk, w.run.value.pc, ok, commit);
      Some(World(d, Some(w.run.value.(pc := pc))))
    case Crash(mess) => Some(World(if mess then w.disk.(staging := Leftover) else w.disk, None))
  }

  ghost function Runs(w: World, acts: seq<Act>): Option<World> {
    if acts == [] then Some(w)
    else
      var before := Runs(w, acts[..|acts| - 1]);
      if before.Some? then Do(before.value, acts[|acts| - 1]) else None
  }

  // ---------- the invariant of runs that name a repository ----------

  /** Metadata stands for a complete clone, and a clone without metadata for a matching intent. */
  predicate Consistent(d: Disk) {
    && (d.repository.Absent? || d.repository.Clone?)
    && (d.repository.Clone? ==> ValidCommit(d.repository.head))
    && (d.metadata.Some? ==>
          var m := d.metadata.value;
          m.id.url != "" && d.repository == Clone(m.id.url, m.id.revision, m.commit))
    && (d.metadata.None? && d.repository.Clone? ==>
          d.intent == Some(Identity(d.repository.origin, d.repository.revision)))
    && (d.intent.Some? ==> d.intent.value.url != "")
  }

  /** What a run knows about the disk at each of its steps. */
  predicate Located(d: Disk, id: Identity, pc: Pc) {
    match pc
    case ReadMetadata => true
    case EmptyDirectory => false
    case WriteEmptyMeta => false
    case ReadIntent => d.metadata.None?
    case Recover => d.metadata.None? && d.intent == Some(id)
    case RecoverHead => d.metadata.None? && d.intent == Some(id) && d.repository.Clone?
    case RecoverMeta(c) => d.metadata.None? && d.repository == Clone(id.url, id.revision, c)
    case RecoverClear(m) => d.metadata == Some(m) && m.id == id
    case WriteIntent => d.metadata.None? && d.intent.None?
    case CheckDestination => d.metadata.None? && d.intent == Some(id) && d.repository.Absent?
    case ResetStaging => d.metadata.None? && d.intent == Some(id) && d.repository.Absent?
    case GitInit => d.metadata.None? && d.intent == Some(id) && d.repository.Absent?
    case GitConfig => d.metadata.None? && d.intent == Some(id) && d.repository.Absent?
    case GitFetch => d.metadata.None? && d.intent == Some(id) && d.repository.Absent?
    case GitCheckout => d.metadata.None? && d.intent == Some(id) && d.repository.Absent?
    case RevParse =>
      && d.metadata.None? && d.intent == Some(id) && d.repository.Absent?
      && d.staging.CheckedOut? && d.staging.url == id.url && d.staging.revision == id.revision
    case RenameIn(c) =>
      && d.metadata.None? && d.intent == Some(id) && d.repository.Absent?
      && d.staging == CheckedOut(id.url, id.revision, c) && ValidCommit(c)
    case WriteMeta(c) => d.metadata.None? && d.repository == Clone(id.url, id.revision, c)
    case ClearIntent(m) => d.metadata == Some(m) && m.id == id
    case Cleanup(r) => r.Ok? ==> d.metadata == Some(r.value) && r.value.id == id
    case Done(r) => r.Ok? ==> d.metadata == Some(r.value) && r.value.id == id
  }

  predicate WInv(w: World) {
    && Consistent(w.disk)
    && (w.run.Some? ==> w.run.value.id.url != "" && Located(w.disk, w.run.value.id, w.run.value.pc))
  }

  predicate NamesRepository(a: Act) { a.Start? ==> a.id.url != "" }

  lemma StepKeeps(id: Identity, d: Disk, pc: Pc, ok: bool, commit: string)
    requires id.url != "" && Consistent(d) && Located(d, id, pc)
    ensures
      var (d', pc') := Step(id, d, pc, ok, commit);
      Consistent(d') && Located(d', id, pc')
  {
    hide ValidCommit;
  }

  lemma DoKeeps(w: World, a: Act)
    requires WInv(w) && NamesRepository(a) && Do(w, a).Some?
    ensures WInv(Do(w, a).value)
  {
    hide Step, ValidCommit;
    if a.Advance? {
      StepKeeps(w.run.value.id, w.disk, w.run.value.pc, a.ok, a.commit);
    }
  }

  /** From a fresh workspace, after any crashes and git failures at any step of runs that name a repository: metadata
      implies a complete clone of what it records, and a clone without metadata implies a matching intent. */
  lemma {:induction false} CrashConsistent(acts: seq<Act>)
    requires (forall i :: 0 <= i < |acts| ==> NamesRepository(acts[i])) && Runs(World(FRESH, None), acts).Some?
    ensures WInv(Runs(World(FRESH, None), acts).value) && Consistent(Runs(World(FRESH, None), acts).value.disk)
  {
    hide Do;
    if acts == [] {
    } else {
      CrashConsistent(acts[..|acts| - 1]);
      DoKeeps(Runs(World(FRESH, None), acts[..|acts| - 1]).value, acts[|acts| - 1]);
    }
  }

  // ---------- an uninterrupted run ----------

  /** The git commands of a run; an oracle says which of them succeed. */
  datatype Command = Init | Config | Fetch | Checkout | Head | Origin

  function CommandOf(pc: Pc): Command {
    match pc
    case GitInit => Init
    case GitConfig => Config
    case GitFetch => Fetch
    case GitCheckout => Checkout
    case Recover => Origin
    case _ => Head
  }

  function Rank(pc: Pc): nat {
    match pc
    case ReadMetadata => 20
    case ReadIntent => 19
    case Recover => 18
    case WriteIntent => 17
    case CheckDestination => 16
    case ResetStaging => 15
    case GitInit => 14
    case GitConfig => 13
    case GitFetch => 12
    case GitCheckout => 11
    case RevParse => 10
    case RenameIn(_) => 9
    case WriteMeta(_) => 8
    case ClearIntent(_) => 7
    case RecoverHead => 3
    case RecoverMeta(_) => 2
    case RecoverClear(_) => 1
    case EmptyDirectory => 2
    case WriteEmptyMeta => 1
    case Cleanup(_) => 1
    case Done(_) => 0
  }

  /** Every step brings a run closer to its end. */
  lemma StepAdvances(id: Identity, d: Disk, pc: Pc, ok: bool, commit: string)
    ensures !pc.Done? ==> Rank(Step(id, d, pc, ok, commit).1) < Rank(pc)
  {
    hide ValidCommit;
  }

  function RunToEnd(id: Identity, d: Disk, pc: Pc, git: Command -> bool, commit: string): (Disk, Result<Meta, Code>)
    decreases Rank(pc)
  {
    if pc.Done? then (d, pc.result)
    else
      var (d', pc') := Step(id, d, pc, git(CommandOf(pc)), commit);
      StepAdvances(id, d, pc, git(CommandOf(pc)), commit);
      RunToEnd(id, d', pc', git, commit)
  }

  predicate Working(git: Command -> bool) {
    git(Init) && git(Config) && git(Fetch) && git(Checkout) && git(Head) && git(Origin)
  }

  lemma Unfold(id: Identity, d: Disk, pc: Pc, git: Command -> bool, commit: string)
    requires !pc.Done?
    ensures
      var (d', pc') := Step(id, d, pc, git(CommandOf(pc)), commit);
      RunToEnd(id, d, pc, git, commit) == RunToEnd(id, d', pc', git, commit)
  {
  }

  /** The fetching half of a run with working git, up to the rename. */
  lemma FetchIntoPlace(id: Identity, d: Disk, git: Command -> bool, commit: string)
    requires Working(git) && ValidCommit(commit) && d.repository.Absent?
    ensures RunToEnd(id, d, ResetStaging, git, commit) ==
      RunToEnd(id, d.(fetches := d.fetches + 1, staging := NoStaging, repository := Clone(id.url, id.revision, commit)),
               WriteMeta(commit), git, commit)
  {
    hide RunToEnd, ValidCommit, Step;
    FetchIntoStaging(id, d, git, commit);
    CheckOutAndRename(id, d.(fetches := d.fetches + 1, staging := Fetched(id.url, id.revision)), git, commit);
  }

  lemma FetchIntoStaging(id: Identity, d: Disk, git: Command -> bool, commit: string)
    requires Working(git)
    ensures RunToEnd(id, d, ResetStaging, git, commit) ==
      RunToEnd(id, d.(fetches := d.fetches + 1, staging := Fetched(id.url, id.revision)), GitCheckout, git, commit)
  {
    hide RunToEnd, ValidCommit;
    Unfold(id, d, ResetStaging, git, commit);
    Unfold(id, d.(staging := NoStaging), GitInit, git, commit);
    Unfold(id, d.(staging := Initialised), GitConfig, git, commit);
    Unfold(id, d.(staging := Configured(id.url)), GitFetch, git, commit);
  }

  lemma CheckOutAndRename(id: Identity, d: Disk, git: Command -> bool, commit: string)
    requires Working(git) && ValidCommit(commit) && d.repository.Absent?
    ensures RunToEnd(id, d, GitCheckout, git, commit) ==
      RunToEnd(id, d.(staging := NoStaging, repository := Clone(id.url, id.revision, commit)), WriteMeta(commit), git, commit)
  {
    hide RunToEnd, ValidCommit;
    var d1 := d.(staging := CheckedOut(id.url, id.revision, commit));
    Unfold(id, d, GitCheckout, git, commit);
    Unfold(id, d1, RevParse, git, commit);
    Unfold(id, d1, RenameIn(commit), git, commit);
  }

  lemma RecordMetadata(id: Identity, d: Disk, git: Command -> bool, commit: string)
    ensures RunToEnd(id, d, WriteMeta(commit), git, commit) ==
      (d.(metadata := Some(Meta(id, commit)), intent := None, staging := NoStaging), Ok(Meta(id, commit)))
  {
    hide RunToEnd;
    var m := Meta(id, commit);
    Unfold(id, d, WriteMeta(commit), git, commit);
    Unfold(id, d.(metadata := Some(m)), ClearIntent(m), git, commit);
    Unfold(id, d.(metadata := Some(m), intent := None), Cleanup(Ok(m)), git, commit);
    RunDone(id, d.(metadata := Some(m), intent := None, staging := NoStaging), Ok(m), git, commit);
  }

  lemma FetchAndCommit(id: Identity, d: Disk, git: Command -> bool, commit: string)
    requires Working(git) && ValidCommit(commit)
    requires d.repository.Absent? || d.repository.EmptyDir?
    ensures RunToEnd(id, d, CheckDestination, git, commit) ==
      (Disk(Some(Meta(id, commit)), None, Clone(id.url, id.revision, commit), NoStaging, d.fetches + 1), Ok(Meta(id, commit)))
  {
    hide RunToEnd, ValidCommit;
    Unfold(id, d, CheckDestination, git, commit);
    var d0 := d.(repository := Absent);
    FetchIntoPlace(id, d0, git, commit);
    RecordMetadata(id, d0.(fetches := d.fetches + 1, staging := NoStaging, repository := Clone(id.url, id.revision, commit)), git, commit);
  }

  lemma RunDone(id: Identity, d: Disk, r: Result<Meta, Code>, git: Command -> bool, commit: string)
    ensures RunToEnd(id, d, Done(r), git, commit) == (d, r)
  {
  }

  /** The recovering half of a run with working git. */
  lemma RecoverWithoutFetch(id: Identity, d: Disk, git: Command -> bool, commit: string)
    requires Working(git) && d.repository.Clone? && d.repository.origin == id.url && ValidCommit(d.repository.head)
    ensures
      var m := Meta(id, d.repository.head);
      RunToEnd(id, d, Recover, git, commit) == (d.(metadata := Some(m), intent := None), Ok(m))
  {
    hide RunToEnd, ValidCommit;
    var m := Meta(id, d.repository.head);
    Unfold(id, d, Recover, git, commit);
    Unfold(id, d, RecoverHead, git, commit);
    Unfold(id, d, RecoverMeta(d.repository.head), git, commit);
    Unfold(id, d.(metadata := Some(m)), RecoverClear(m), git, commit);
    RunDone(id, d.(metadata := Some(m), intent := None), Ok(m), git, commit);
  }

  /** What a caller can see on the disk before a run that will succeed. */
  predicate Recoverable(d: Disk, id: Identity) {
    if d.metadata.Some? then
      Recorded(d.metadata.value) == id && !d.repository.Absent? && !d.repository.NotADirectory?
    else if id.url == "" then d.repository.Absent? || d.repository.EmptyDir?
    else if d.intent.Some? then
      && d.intent.value == id
      && (d.repository.Absent? || (d.repository.Clone? && d.repository.origin == id.url && ValidCommit(d.repository.head)))
    else d.repository.Absent? || d.repository.EmptyDir?
  }

  /** On any disk whatever, one uninterrupted run with working git succeeds exactly when the disk is recoverable for
      its identity; it then leaves metadata for that identity, and fetches only if there was nothing to recover. */
  lemma RunSucceedsExactly(id: Identity, d: Disk, git: Command -> bool, commit: string)
    requires Working(git) && ValidCommit(commit)
    ensures
      var (d', r) := RunToEnd(id, d, ReadMetadata, git, commit);
      && (r.Ok? <==> Recoverable(d, id))
      && (r.Ok? ==> d'.metadata == Some(r.value) && (id.revision != "" ==> Recorded(r.value) == id))
      && (r.Ok? && d.repository.Clone? ==> d'.fetches == d.fetches && d'.repository == d.repository)
      && (r.Err? ==> d'.metadata == d.metadata)
  {
    hide RunToEnd, ValidCommit;
    Unfold(id, d, ReadMetadata, git, commit);
    if d.metadata.Some? {
      var pc := Step(id, d, ReadMetadata, git(Head), commit).1;
      RunDone(id, d, pc.result, git, commit);
    } else if id.url == "" {
      EmptyRun(id, d, git, commit);
    } else {
      NamedRun(id, d, git, commit);
    }
  }

  lemma EmptyRun(id: Identity, d: Disk, git: Command -> bool, commit: string)
    ensures
      var (d', r) := RunToEnd(id, d, EmptyDirectory, git, commit);
      && (r.Ok? <==> d.repository.Absent? || d.repository.EmptyDir?)
      && (r.Ok? ==> d' == d.(repository := EmptyDir, metadata := Some(Meta(id, ""))) && r.value == Meta(id, ""))
      && (r.Err? ==> d' == d)
  {
    hide RunToEnd;
    Unfold(id, d, EmptyDirectory, git, commit);
    var (d1, pc) := Step(id, d, EmptyDirectory, git(Head), commit);
    if pc.Done? {
      RunDone(id, d, pc.result, git, commit);
    } else {
      Unfold(id, d1, WriteEmptyMeta, git, commit);
      RunDone(id, d1.(metadata := Some(Meta(id, ""))), Ok(Meta(id, "")), git, commit);
    }
  }

  lemma NamedRun(id: Identity, d: Disk, git: Command -> bool, commit: string)
    requires Working(git) && ValidCommit(commit) && d.metadata.None? && id.url != ""
    ensures
      var (d', r) := RunToEnd(id, d, ReadIntent, git, commit);
      && (r.Ok? <==> Recoverable(d, id))
      && (r.Ok? ==> d'.metadata == Some(r.value) && r.value.id == id)
      && (r.Ok? && d.repository.Clone? ==> d'.fetches == d.fetches && d'.repository == d.repository)
      && (r.Err? ==> d'.metadata == d.metadata)
  {
    hide RunToEnd, ValidCommit;
    Unfold(id, d, ReadIntent, git, commit);
    if d.intent.None? {
      Unfold(id, d, WriteIntent, git, commit);
      Destination(id, d.(intent := Some(id)), git, commit);
    } else if d.intent.value != id {
      RunDone(id, d, Err(IdentityMismatch), git, commit);
    } else if d.repository.Absent? {
      Unfold(id, d, Recover, git, commit);
      Destination(id, d, git, commit);
    } else if d.repository.Clone? && d.repository.origin == id.url && ValidCommit(d.repository.head) {
      RecoverWithoutFetch(id, d, git, commit);
    } else {
      NothingToRecover(id, d, git, commit);
    }
  }

  lemma Destination(id: Identity, d: Disk, git: Command -> bool, commit: string)
    requires Working(git) && ValidCommit(commit) && d.metadata.None?
    ensures
      var (d', r) := RunToEnd(id, d, CheckDestination, git, commit);
      && (r.Ok? <==> d.repository.Absent? || d.repository.EmptyDir?)
      && (r.Ok? ==> d'.metadata == Some(r.value) && r.value.id == id)
      && (r.Err? ==> d' == d)
  {
    hide RunToEnd, ValidCommit;
    if d.repository.Absent? || d.repository.EmptyDir? {
      FetchAndCommit(id, d, git, commit);
    } else {
      Unfold(id, d, CheckDestination, git, commit);
      var code := if d.repository.NotADirectory? then Unsafe else NotEmpty;
      RunDone(id, d, Err(code), git, commit);
    }
  }

  /** An intent next to anything but a finished clone of its repository ends the run without touching the disk. */
  lemma NothingToRecover(id: Identity, d: Disk, git: Command -> bool, commit: string)
    requires Working(git) && !d.repository.Absent?
    requires !(d.repository.Clone? && d.repository.origin == id.url && ValidCommit(d.repository.head))
    ensures RunToEnd(id, d, Recover, git, commit).0 == d && RunToEnd(id, d, Recover, git, commit).1.Err?
  {
    hide RunToEnd, ValidCommit;
    Unfold(id, d, Recover, git, commit);
    var pc := Step(id, d, Recover, git(Origin), commit).1;
    if pc.Done? {
      RunDone(id, d, pc.result, git, commit);
    } else {
      Unfold(id, d, RecoverHead, git, commit);
      RunDone(id, d, Err(CommitInvalid), git, commit);
    }
  }

  /** What a run answers, told from the disk before it, the git commands that work, and what a checkout resolves to. */
  function Verdict(id: Identity, d: Disk, git: Command -> bool, commit: string): Result<Meta, Code> {
    var free := d.repository.Absent? || d.repository.EmptyDir?;
    if d.metadata.Some? then
      if Recorded(d.metadata.value) != id then Err(IdentityMismatch)
      else if d.repository.Absent? then Err(Incomplete)
      else if d.repository.NotADirectory? then Err(Unsafe)
      else Ok(d.metadata.value)
    else if id.url != "" && d.intent.Some? && d.intent.value != id then Err(IdentityMismatch)
    else if d.repository.NotADirectory? then Err(Unsafe)
    else if id.url == "" then if free then Ok(Meta(id, "")) else Err(NotEmpty)
    else if d.intent.Some? && !d.repository.Absent? then
      if !git(Origin) || !d.repository.Clone? || d.repository.origin != id.url then Err(IdentityMismatch)
      else if !git(Head) then Err(RepositoryFailed)
      else if !ValidCommit(d.repository.head) then Err(CommitInvalid)
      else Ok(Meta(id, d.repository.head))
    else if !free then Err(NotEmpty)
    else Fetching(id, git, commit)
  }

  function Fetching(id: Identity, git: Command -> bool, commit: string): Result<Meta, Code> {
    if !git(Init) || !git(Config) || !git(Fetch) || !git(Checkout) || !git(Head) then Err(RepositoryFailed)
    else if !ValidCommit(commit) then Err(CommitInvalid)
    else Ok(Meta(id, commit))
  }

  /** A failed run leaves metadata and clone alone; it may have claimed the workspace and cleared an empty destination. */
  predicate FailedRun(id: Identity, d: Disk, d': Disk) {
    && d'.metadata == d.metadata
    && (d'.intent == d.intent || (d.intent.None? && d'.intent == Some(id)))
    && (d'.repository == d.repository || (d.repository.EmptyDir? && d'.repository.Absent?))
  }

  lemma FetchingAnswers(id: Identity, d: Disk, git: Command -> bool, commit: string)
    requires d.repository.Absent?
    ensures
      var (d', r) := RunToEnd(id, d, ResetStaging, git, commit);
      && r == Fetching(id, git, commit)
      && (r.Err? ==> d' == d.(staging := NoStaging, fetches := d'.fetches))
      && (r.Ok? ==> d' == Disk(Some(r.value), None, Clone(id.url, id.revision, commit), NoStaging, d'.fetches))
      && d'.fetches == d.fetches + (if git(Init) && git(Config) then 1 else 0)
  {
    hide RunToEnd, ValidCommit;
    Unfold(id, d, ResetStaging, git, commit);
    var d0 := d.(staging := NoStaging);
    Unfold(id, d0, GitInit, git, commit);
    if !git(Init) {
      CleanedUp(id, d0.(staging := Leftover), RepositoryFailed, git, commit);
    } else {
      var d1 := d0.(staging := Initialised);
      Unfold(id, d1, GitConfig, git, commit);
      if !git(Config) {
        CleanedUp(id, d1.(staging := Leftover), RepositoryFailed, git, commit);
      } else {
        ConfiguredAnswers(id, d1.(staging := Configured(id.url)), git, commit);
      }
    }
  }

  lemma ConfiguredAnswers(id: Identity, d: Disk, git: Command -> bool, commit: string)
    requires d.repository.Absent? && git(Init) && git(Config)
    ensures
      var (d', r) := RunToEnd(id, d, GitFetch, git, commit);
      && r == Fetching(id, git, commit)
      && (r.Err? ==> d' == d.(staging := NoStaging, fetches := d.fetches + 1))
      && (r.Ok? ==> d' == Disk(Some(r.value), None, Clone(id.url, id.revision, commit), NoStaging, d.fetches + 1))
  {
    hide RunToEnd, ValidCommit;
    Unfold(id, d, GitFetch, git, commit);
    var d1 := d.(fetches := d.fetches + 1);
    if !git(Fetch) {
      CleanedUp(id, d1.(staging := Leftover), RepositoryFailed, git, commit);
    } else {
      var d2 := d1.(staging := Fetched(id.url, id.revision));
      Unfold(id, d2, GitCheckout, git, commit);
      if !git(Checkout) {
        CleanedUp(id, d2.(staging := Leftover), RepositoryFailed, git, commit);
      } else {
        CheckedOutAnswers(id, d2.(staging := CheckedOut(id.url, id.revision, commit)), git, commit);
      }
    }
  }

  lemma CheckedOutAnswers(id: Identity, d: Disk, git: Command -> bool, commit: string)
    requires d.repository.Absent? && git(Init) && git(Config) && git(Fetch) && git(Checkout)
    requires d.staging == CheckedOut(id.url, id.revision, commit)
    ensures
      var (d', r) := RunToEnd(id, d, RevParse, git, commit);
      && r == Fetching(id, git, commit)
      && (r.Err? ==> d' == d.(staging := NoStaging))
      && (r.Ok? ==> d' == Disk(Some(r.value), None, Clone(id.url, id.revision, commit), NoStaging, d.fetches))
  {
    hide RunToEnd, ValidCommit;
    Unfold(id, d, RevParse, git, commit);
    if !git(Head) {
      CleanedUp(id, d, RepositoryFailed, git, commit);
    } else if !ValidCommit(commit) {
      CleanedUp(id, d, CommitInvalid, git, commit);
    } else {
      Unfold(id, d, RenameIn(commit), git, commit);
      RecordMetadata(id, d.(staging := NoStaging, repository := Clone(id.url, id.revision, commit)), git, commit);
    }
  }

  lemma CleanedUp(id: Identity, d: Disk, code: Code, git: Command -> bool, commit: string)
    ensures RunToEnd(id, d, Cleanup(Err(code)), git, commit) == (d.(staging := NoStaging), Err(code))
  {
    hide RunToEnd;
    Unfold(id, d, Cleanup(Err(code)), git, commit);
    RunDone(id, d.(staging := NoStaging), Err(code), git, commit);
  }

  lemma DestinationAnswers(id: Identity, d: Disk, git: Command -> bool, commit: string)
    requires d.metadata.None?
    ensures
      var (d', r) := RunToEnd(id, d, CheckDestination, git, commit);
      && r == (if d.repository.NotADirectory? then Err(Unsafe)
               else if !d.repository.Absent? && !d.repository.EmptyDir? then Err(NotEmpty)
               else Fetching(id, git, commit))
      && (r.Err? ==> d'.metadata == d.metadata && d'.intent == d.intent &&
                     (d'.repository == d.repository || (d.repository.EmptyDir? && d'.repository.Absent?)))
      && (r.Ok? ==> d'.metadata == Some(r.value))
  {
    hide RunToEnd, Fetching;
    Unfold(id, d, CheckDestination, git, commit);
    if d.repository.Absent? || d.repository.EmptyDir? {
      FetchingAnswers(id, d.(repository := Absent), git, commit);
    } else {
      RunDone(id, d, Err(if d.repository.NotADirectory? then Unsafe else NotEmpty), git, commit);
    }
  }

  lemma RecoverAnswers(id: Identity, d: Disk, git: Command -> bool, commit: string)
    requires d.metadata.None? && d.intent == Some(id) && id.url != ""
    ensures
      var (d', r) := RunToEnd(id, d, Recover, git, commit);
      && r == Verdict(id, d, git, commit)
      && (r.Err? ==> FailedRun(id, d, d'))
      && (r.Ok? ==> d'.metadata == Some(r.value))
  {
    hide RunToEnd, ValidCommit, Fetching;
    Unfold(id, d, Recover, git, commit);
    if d.repository.Absent? {
      DestinationAnswers(id, d, git, commit);
    } else if d.repository.NotADirectory? {
      RunDone(id, d, Err(Unsafe), git, commit);
    } else if !git(Origin) || !d.repository.Clone? || d.repository.origin != id.url {
      RunDone(id, d, Err(IdentityMismatch), git, commit);
    } else {
      Unfold(id, d, RecoverHead, git, commit);
      var head := d.repository.head;
      if git(Head) && ValidCommit(head) {
        Unfold(id, d, RecoverMeta(head), git, commit);
        Unfold(id, d.(metadata := Some(Meta(id, head))), RecoverClear(Meta(id, head)), git, commit);
        RunDone(id, d.(metadata := Some(Meta(id, head)), intent := None), Ok(Meta(id, head)), git, commit);
      } else {
        RunDone(id, d, Err(if git(Head) then CommitInvalid else RepositoryFailed), git, commit);
      }
    }
  }

  /** On any disk, with any git, an uninterrupted run answers exactly its verdict; it records what it returns, and a failed one
      leaves metadata and clone alone. */
  lemma RunAnswersVerdict(id: Identity, d: Disk, git: Command -> bool, commit: string)
    ensures
      var (d', r) := RunToEnd(id, d, ReadMetadata, git, commit);
      && r == Verdict(id, d, git, commit)
      && (r.Err? ==> FailedRun(id, d, d'))
      && (r.Ok? ==> d'.metadata == Some(r.value))
  {
    hide RunToEnd, ValidCommit, Fetching;
    Unfold(id, d, ReadMetadata, git, commit);
    if d.metadata.Some? {
      RunDone(id, d, Verdict(id, d, git, commit), git, commit);
    } else if id.url == "" {
      EmptyAnswers(id, d, git, commit);
    } else {
      Unfold(id, d, ReadIntent, git, commit);
      if d.intent.None? {
        Unfold(id, d, WriteIntent, git, commit);
        DestinationAnswers(id, d.(intent := Some(id)), git, commit);
      } else if d.intent.value != id {
        RunDone(id, d, Err(IdentityMismatch), git, commit);
      } else {
        RecoverAnswers(id, d, git, commit);
      }
    }
  }

  lemma EmptyAnswers(id: Identity, d: Disk, git: Command -> bool, commit: string)
    requires d.metadata.None? && id.url == ""
    ensures
      var (d', r) := RunToEnd(id, d, EmptyDirectory, git, commit);
      && r == Verdict(id, d, git, commit)
      && (r.Err? ==> FailedRun(id, d, d'))
      && (r.Ok? ==> d'.metadata == Some(r.value))
  {
    hide RunToEnd, Fetching;
    EmptyRun(id, d, git, commit);
    Unfold(id, d, EmptyDirectory, git, commit);
    if !d.repository.Absent? && !d.repository.EmptyDir? {
      RunDone(id, d, Err(if d.repository.NotADirectory? then Unsafe else NotEmpty), git, commit);
    }
  }

  /** A second run for the same identity returns what the first one recorded, without git and without touching the disk; one for
      another identity is refused. */
  lemma RerunReturnsTheSame(id: Identity, d: Disk, git: Command -> bool, commit: string, other: Identity, again: Command -> bool)
    requires id.revision != "" && other.revision != "" && RunToEnd(id, d, ReadMetadata, git, commit).1.Ok?
    ensures
      var (d', r) := RunToEnd(id, d, ReadMetadata, git, commit);
      && RunToEnd(id, d', ReadMetadata, again, "") == (d', r)
      && (other != id ==> RunToEnd(other, d', ReadMetadata, again, "") == (d', Err(IdentityMismatch)))
  {
    hide RunToEnd, ValidCommit;
    var (d', r) := RunToEnd(id, d, ReadMetadata, git, commit);
    RunAnswersVerdict(id, d, git, commit);
    SucceededIsThere(id, d, git, commit);
    Unfold(id, d', ReadMetadata, again, "");
    RunDone(id, d', r, again, "");
    Unfold(other, d', ReadMetadata, again, "");
    RunDone(other, d', Err(IdentityMismatch), again, "");
  }

  /** After a successful run the directory is there, and the metadata stands for the identity. */
  lemma SucceededIsThere(id: Identity, d: Disk, git: Command -> bool, commit: string)
    requires id.revision != "" && RunToEnd(id, d, ReadMetadata, git, commit).1.Ok?
    ensures
      var (d', r) := RunToEnd(id, d, ReadMetadata, git, commit);
      && d'.metadata == Some(r.value) && Recorded(r.value) == id
      && !d'.repository.Absent? && !d'.repository.NotADirectory?
  {
    hide RunToEnd, ValidCommit, Fetching;
    RunAnswersVerdict(id, d, git, commit);
    Unfold(id, d, ReadMetadata, git, commit);
    if d.metadata.Some? {
      RunDone(id, d, Verdict(id, d, git, commit), git, commit);
    } else if id.url == "" {
      EmptyRun(id, d, git, commit);
    } else {
      Unfold(id, d, ReadIntent, git, commit);
      if d.intent.None? {
        Unfold(id, d, WriteIntent, git, commit);
        ClonedIsThere(id, d.(intent := Some(id)), git, commit);
      } else if d.intent.value != id {
        RunDone(id, d, Err(IdentityMismatch), git, commit);
      } else {
        RecoveredIsThere(id, d, git, commit);
      }
    }
  }

  lemma ClonedIsThere(id: Identity, d: Disk, git: Command -> bool, commit: string)
    requires d.metadata.None? && RunToEnd(id, d, CheckDestination, git, commit).1.Ok?
    ensures
      var (d', r) := RunToEnd(id, d, CheckDestination, git, commit);
      d'.repository.Clone? && r.value.id == id
  {
    hide RunToEnd, ValidCommit;
    DestinationAnswers(id, d, git, commit);
    Unfold(id, d, CheckDestination, git, commit);
    FetchingAnswers(id, d.(repository := Absent), git, commit);
  }

  lemma RecoveredIsThere(id: Identity, d: Disk, git: Command -> bool, commit: string)
    requires d.metadata.None? && d.intent == Some(id) && id.url != "" && RunToEnd(id, d, Recover, git, commit).1.Ok?
    ensures
      var (d', r) := RunToEnd(id, d, Recover, git, commit);
      d'.repository.Clone? && r.value.id == id
  {
    hide RunToEnd, ValidCommit, Fetching;
    RecoverAnswers(id, d, git, commit);
    Unfold(id, d, Recover, git, commit);
    if d.repository.Absent? {
      ClonedIsThere(id, d, git, commit);
    } else {
      var head := d.repository.head;
      Unfold(id, d, RecoverHead, git, commit);
      Unfold(id, d, RecoverMeta(head), git, commit);
      Unfold(id, d.(metadata := Some(Meta(id, head))), RecoverClear(Meta(id, head)), git, commit);
      RunDone(id, d.(metadata := Some(Meta(id, head)), intent := None), Ok(Meta(id, head)), git, commit);
    }
  }

  /** An empty workspace whose metadata names no revision is one for HEAD. */
  lemma OldEmptyIsHead(d: Disk, m: Meta, git: Command -> bool, commit: string)
    requires d.metadata == Some(m) && m.id == Identity("", "") && d.repository.EmptyDir?
    ensures RunToEnd(Identity("", "HEAD"), d, ReadMetadata, git, commit) == (d, Ok(m))
  {
    hide RunToEnd;
    Unfold(Identity("", "HEAD"), d, ReadMetadata, git, commit);
    RunDone(Identity("", "HEAD"), d, Ok(m), git, commit);
  }

  /** Who the workspace belongs to, if it belongs to anyone yet. */
  function Owner(d: Disk): Option<Identity> {
    if d.metadata.Some? then Some(d.metadata.value.id) else d.intent
  }

  /** Whatever happened to a fresh workspace, an uninterrupted run that names a repository finishes exactly when the
      workspace is unclaimed or claimed by the same identity, and never fetches again once the clone is in place. */
  lemma {:induction false} CrashesAreRecoverable(acts: seq<Act>, id: Identity, git: Command -> bool, commit: string)
    requires (forall i :: 0 <= i < |acts| ==> NamesRepository(acts[i])) && Runs(World(FRESH, None), acts).Some?
    requires id.url != "" && Working(git) && ValidCommit(commit)
    ensures
      var d := Runs(World(FRESH, None), acts).value.disk;
      var (d', r) := RunToEnd(id, d, ReadMetadata, git, commit);
      && (r.Ok? <==> Owner(d).None? || Owner(d) == Some(id))
      && (r.Ok? ==> d'.metadata == Some(r.value))
      && (r.Ok? && d.repository.Clone? ==> d'.fetches == d.fetches && d'.repository == d.repository)
  {
    hide RunToEnd, Runs, ValidCommit;
    CrashConsistent(acts);
    var d := Runs(World(FRESH, None), acts).value.disk;
    RunSucceedsExactly(id, d, git, commit);
  }

  /** An intent for a repository beside an empty directory, and a run that has not got past the intent, if any. */
  predicate Stuck(w: World, id: Identity) {
    && w.disk.metadata.None? && w.disk.intent == Some(id) && w.disk.repository.EmptyDir?
    && (w.run.Some? ==>
          && w.run.value.id.url != ""
          && (w.run.value.pc in {ReadMetadata, ReadIntent, Recover} || (w.run.value.pc.Done? && w.run.value.pc.result.Err?)))
  }

  /** Such a workspace stays as it is: whatever runs naming a repository do, fail or crash, none of them ever succeeds. */
  lemma {:induction false} StuckForever(w: World, acts: seq<Act>, id: Identity)
    requires Stuck(w, id) && (forall i :: 0 <= i < |acts| ==> NamesRepository(acts[i])) && Runs(w, acts).Some?
    ensures Stuck(Runs(w, acts).value, id)
  {
    hide Do, Stuck;
    if acts == [] {
    } else {
      StuckForever(w, acts[..|acts| - 1], id);
      StuckStep(Runs(w, acts[..|acts| - 1]).value, acts[|acts| - 1], id);
    }
  }

  lemma StuckStep(w: World, a: Act, id: Identity)
    requires Stuck(w, id) && NamesRepository(a) && Do(w, a).Some?
    ensures Stuck(Do(w, a).value, id)
  {
    hide ValidCommit;
  }

  const EMPTY := Identity("", "HEAD")

  /** The way there: a run for an empty workspace that crashes behind its mkdir, and a run for a repository that crashes behind
      its intent. */
  function StuckActs(id: Identity): seq<Act> {
    [Start(EMPTY), Advance(true, ""), Advance(true, ""), Crash(false),
     Start(id), Advance(true, ""), Advance(true, ""), Advance(true, ""), Crash(false)]
  }

  /** The hypothesis is needed: from a fresh workspace these two crashes lead to a disk on which no run for any repository
      ever succeeds, whatever runs naming a repository come after. */
  lemma StuckWorkspace(id: Identity, acts: seq<Act>)
    requires id.url != "" && forall i :: 0 <= i < |acts| ==> NamesRepository(acts[i])
    ensures Runs(World(FRESH, None), StuckActs(id)).Some?
    ensures
      var w := Runs(World(FRESH, None), StuckActs(id)).value;
      Runs(w, acts).Some? ==>
        var w' := Runs(w, acts).value;
        && w'.disk.metadata.None?
        && (w'.run.Some? && w'.run.value.pc.Done? ==> w'.run.value.pc.result.Err?)
        && forall other: Identity :: other.url != "" ==> !Recoverable(w'.disk, other)
  {
    hide Runs;
    ReachStuck(id);
    var w := Runs(World(FRESH, None), StuckActs(id)).value;
    if Runs(w, acts).Some? {
      StuckForever(w, acts, id);
    }
  }

  lemma ReachStuck(id: Identity)
    requires id.url != ""
    ensures Runs(World(FRESH, None), StuckActs(id)).Some? && Stuck(Runs(World(FRESH, None), StuckActs(id)).value, id)
  {
    var acts := StuckActs(id);
    var e := FRESH.(repository := EmptyDir);
    ghost var w0 := World(FRESH, None);
    assert acts[..0] == [];
    RunsStep(w0, acts, 0);
    RunsStep(w0, acts, 1);
    RunsStep(w0, acts, 2);
    RunsStep(w0, acts, 3);
    assert Runs(w0, acts[..4]) == Some(World(e, None));
    RunsStep(w0, acts, 4);
    RunsStep(w0, acts, 5);
    RunsStep(w0, acts, 6);
    RunsStep(w0, acts, 7);
    RunsStep(w0, acts, 8);
    assert acts[..9] == acts;
    assert Runs(w0, acts) == Some(World(e.(intent := Some(id)), None));
  }

  lemma RunsStep(w: World, acts: seq<Act>, n: nat)
    requires n < |acts| && Runs(w, acts[..n]).Some?
    ensures Runs(w, acts[..n + 1]) == Do(Runs(w, acts[..n]).value, acts[n])
  {
    assert acts[..n + 1][..n] == acts[..n];
  }

  // ---------- the workspace object ----------

  /** The durable files of a workspace, changed in place by one run. */
  class Workspace {
    var metadata: Option<Meta>
    var intent: Option<Identity>
    var repository: Tree
    var staging: Staging
    var fetches: nat

    ghost function OnDisk(): Disk
      reads this
    {
      Disk(metadata, intent, repository, staging, fetches)
    }

    constructor ()
      ensures OnDisk() == FRESH
    {
      metadata, intent, repository, staging, fetches := None, None, Absent, NoStaging, 0;
    }

    /** Execute: one whole run, command by command. It leaves what the steps run to their end leave. */
    method Execute(id: Identity, git: Command -> bool, commit: string) returns (r: Result<Meta, Code>)
      modifies this
      ensures (OnDisk(), r) == RunToEnd(id, old(OnDisk()), ReadMetadata, git, commit)
    {
      hide RunToEnd, ValidCommit;
      Unfold(id, OnDisk(), ReadMetadata, git, commit);
      if metadata.Some? {
        if Recorded(metadata.value) != id {
          r := Err(IdentityMismatch);
        } else if repository.Absent? {
          r := Err(Incomplete);
        } else if repository.NotADirectory? {
          r := Err(Unsafe);
        } else {
          r := Ok(metadata.value);
        }
        RunDone(id, OnDisk(), r, git, commit);
        return;
      }
      if id.url == "" {
        r := InitialiseEmpty(id, git, commit);
        return;
      }
      Unfold(id, OnDisk(), ReadIntent, git, commit);
      if intent.Some? {
        if intent.value != id {
          RunDone(id, OnDisk(), Err(IdentityMismatch), git, commit);
          return Err(IdentityMismatch);
        }
        r := RecoverOrClone(id, git, commit);
      } else {
        Unfold(id, OnDisk(), WriteIntent, git, commit);
        intent := Some(id);
        r := CloneInto(id, git, commit);
      }
    }

    method InitialiseEmpty(id: Identity, git: Command -> bool, commit: string) returns (r: Result<Meta, Code>)
      modifies this
      ensures (OnDisk(), r) == RunToEnd(id, old(OnDisk()), EmptyDirectory, git, commit)
    {
      hide RunToEnd;
      Unfold(id, OnDisk(), EmptyDirectory, git, commit);
      if !repository.Absent? && !repository.EmptyDir? {
        r := Err(if repository.NotADirectory? then Unsafe else NotEmpty);
        RunDone(id, OnDisk(), r, git, commit);
        return;
      }
      repository := EmptyDir;
      Unfold(id, OnDisk(), WriteEmptyMeta, git, commit);
      metadata, r := Some(Meta(id, "")), Ok(Meta(id, ""));
      RunDone(id, OnDisk(), r, git, commit);
    }

    method RecoverOrClone(id: Identity, git: Command -> bool, commit: string) returns (r: Result<Meta, Code>)
      modifies this
      ensures (OnDisk(), r) == RunToEnd(id, old(OnDisk()), Recover, git, commit)
    {
      hide RunToEnd, ValidCommit;
      Unfold(id, OnDisk(), Recover, git, commit);
      if repository.Absent? {
        r := CloneInto(id, git, commit);
        return;
      }
      if repository.NotADirectory? {
        RunDone(id, OnDisk(), Err(Unsafe), git, commit);
        return Err(Unsafe);
      }
      if !git(Origin) || !repository.Clone? || repository.origin != id.url {
        RunDone(id, OnDisk(), Err(IdentityMismatch), git, commit);
        return Err(IdentityMismatch);
      }
      Unfold(id, OnDisk(), RecoverHead, git, commit);
      var head := repository.head;
      if !git(Head) || !ValidCommit(head) {
        r := Err(if git(Head) then CommitInvalid else RepositoryFailed);
        RunDone(id, OnDisk(), r, git, commit);
        return;
      }
      Unfold(id, OnDisk(), RecoverMeta(head), git, commit);
      metadata := Some(Meta(id, head));
      Unfold(id, OnDisk(), RecoverClear(Meta(id, head)), git, commit);
      intent := None;
      r := Ok(Meta(id, head));
      RunDone(id, OnDisk(), r, git, commit);
    }

    /** The staging directory is removed on every way out. */
    method CleanUp(id: Identity, result: Result<Meta, Code>, git: Command -> bool, commit: string) returns (r: Result<Meta, Code>)
      modifies this`staging
      ensures (OnDisk(), r) == RunToEnd(id, old(OnDisk()), Cleanup(result), git, commit)
    {
      hide RunToEnd;
      Unfold(id, OnDisk(), Cleanup(result), git, commit);
      staging, r := NoStaging, result;
      RunDone(id, OnDisk(), r, git, commit);
    }

    method CloneInto(id: Identity, git: Command -> bool, commit: string) returns (r: Result<Meta, Code>)
      modifies this
      ensures (OnDisk(), r) == RunToEnd(id, old(OnDisk()), CheckDestination, git, commit)
    {
      hide RunToEnd, ValidCommit;
      Unfold(id, OnDisk(), CheckDestination, git, commit);
      if !repository.Absent? && !repository.EmptyDir? {
        r := Err(if repository.NotADirectory? then Unsafe else NotEmpty);
        RunDone(id, OnDisk(), r, git, commit);
        return;
      }
      repository := Absent;
      Unfold(id, OnDisk(), ResetStaging, git, commit);
      staging := NoStaging;
      r := RunCommands(id, git, commit);
    }

    /** The git commands in order; the first failure ends them. */
    method RunCommands(id: Identity, git: Command -> bool, commit: string) returns (r: Result<Meta, Code>)
      modifies this
      ensures (OnDisk(), r) == RunToEnd(id, old(OnDisk()), GitInit, git, commit)
    {
      hide RunToEnd, ValidCommit;
      ghost var d := OnDisk();
      var pcs := [GitInit, GitConfig, GitFetch, GitCheckout];
      var results := [Initialised, Configured(id.url), Fetched(id.url, id.revision), CheckedOut(id.url, id.revision, commit)];
      var i := 0;
      while i < 4
        invariant 0 <= i <= 4
        invariant RunToEnd(id, d, GitInit, git, commit) ==
          RunToEnd(id, OnDisk(), if i < 4 then pcs[i] else RevParse, git, commit)
        invariant i == 4 ==> staging == CheckedOut(id.url, id.revision, commit)
      {
        Unfold(id, OnDisk(), pcs[i], git, commit);
        if i == 2 {
          fetches := fetches + 1;
        }
        if !git(CommandOf(pcs[i])) {
          staging := Leftover;
          r := CleanUp(id, Err(RepositoryFailed), git, commit);
          return;
        }
        staging := results[i];
        i := i + 1;
      }
      Unfold(id, OnDisk(), RevParse, git, commit);
      if !git(Head) || !ValidCommit(commit) {
        r := CleanUp(id, Err(if git(Head) then CommitInvalid else RepositoryFailed), git, commit);
        return;
      }
      r := CommitClone(id, git, commit);
    }

    /** The atomic rename and the records that follow it. */
    method CommitClone(id: Identity, git: Command -> bool, commit: string) returns (r: Result<Meta, Code>)
      requires staging == CheckedOut(id.url, id.revision, commit)
      modifies this
      ensures (OnDisk(), r) == RunToEnd(id, old(OnDisk()), RenameIn(commit), git, commit)
    {
      hide RunToEnd;
      Unfold(id, OnDisk(), RenameIn(commit), git, commit);
      if !repository.Absent? && !repository.EmptyDir? {
        r := CleanUp(id, Err(CommitFailed), git, commit);
        return;
      }
      repository, staging := Clone(id.url, id.revision, commit), NoStaging;
      Unfold(id, OnDisk(), WriteMeta(commit), git, commit);
      metadata := Some(Meta(id, commit));
      Unfold(id, OnDisk(), ClearIntent(Meta(id, commit)), git, commit);
      intent := None;
      r := CleanUp(id, Ok(Meta(id, commit)), git, commit);
    }
  }
}
