/** What holds of an FTP session over every sequence of commands and every behaviour of the world. */
module FtpSafety {
  import opened Common
  import opened Vfs
  import opened Ftp

  // ---------- login ----------

  /** The user name a PASS now would be checked with, read off the commands alone. */
  function Pending(ins: seq<Input>): string {
    if ins == [] then ""
    else
      match Last(ins).cmd
      case User(name) => name
      case Pass(_) => ""
      case _ => Pending(Init(ins))
  }

  /** Command `i` is a PASS with the right password, following a USER with the right name, in a session still open. */
  predicate LoginAt(c: Config, ins: seq<Input>, i: nat) {
    && i < |ins|
    && ins[i].cmd == Pass(c.password) && Pending(ins[..i]) == c.username
    && !Run(c, ins[..i]).ended
  }

  lemma {:induction false} PendingIsPending(c: Config, ins: seq<Input>)
    ensures !Run(c, ins).ended ==> OrEmpty(Run(c, ins).pendingUser) == Pending(ins)
  {
    if ins != [] {
      PendingIsPending(c, Init(ins));
    }
  }

  lemma LoginPrefix(c: Config, ins: seq<Input>, k: nat, i: nat)
    requires i < k <= |ins|
    ensures LoginAt(c, ins[..k], i) <==> LoginAt(c, ins, i)
  {
    TakeOfTake(ins, i, k);
  }

  lemma LastIsLogin(c: Config, ins: seq<Input>)
    requires ins != []
    ensures Run(c, ins).authed <==> Run(c, Init(ins)).authed || LoginAt(c, ins, |ins| - 1)
  {
    PendingIsPending(c, Init(ins));
  }

  /** A session is logged in exactly when some command was a login; nothing logs it out. */
  lemma {:induction false} AuthedIff(c: Config, ins: seq<Input>)
    ensures Run(c, ins).authed <==> exists i: nat :: LoginAt(c, ins, i)
  {
    if ins != [] {
      var n := |ins| - 1;
      AuthedIff(c, Init(ins));
      LastIsLogin(c, ins);
      forall i: nat | i < n
        ensures LoginAt(c, Init(ins), i) <==> LoginAt(c, ins, i)
      {
        LoginPrefix(c, ins, n, i);
      }
    }
  }

  /** A command touches the filesystem or a data port only after a login. */
  lemma TouchNeedsLogin(c: Config, ins: seq<Input>, k: nat)
    requires k < |ins| && Run(c, ins[..k + 1]).log != Run(c, ins[..k]).log
    ensures exists i: nat | i < k :: LoginAt(c, ins, i)
  {
    InitOfTake(ins, k);
    AuthedIff(c, ins[..k]);
    var i: nat :| LoginAt(c, ins[..k], i);
    LoginPrefix(c, ins, k, i);
  }

  // ---------- read-only ----------

  predicate NoChanges(log: seq<Touch>) {
    forall i | 0 <= i < |log| :: !Changes(log[i])
  }

  lemma UsePortNoChanges(s: State, before: seq<Touch>, moves: seq<Touch>, env: Env)
    requires NoChanges(before) && NoChanges(moves)
    ensures NoChanges(UsePort(s, before, moves, env).touches)
  {
  }

  lemma ListNoChanges(c: Config, s: State, option: Option<string>, env: Env)
    ensures NoChanges(ListDir(c, s, option, env).touches)
  {
    UsePortNoChanges(s, [ReadDir(c.paths.toReal(s.cwd), env.dir)], [Send], env);
    if option.Some? && c.paths.resolve(s.cwd, option.value).Some? {
      UsePortNoChanges(s, [ReadDir(c.paths.toReal(c.paths.resolve(s.cwd, option.value).value), env.dir)], [Send], env);
    }
  }

  lemma InspectNoChanges(c: Config, s: State, cmd: Command, env: Env)
    requires cmd.Retr? || cmd.Size?
    ensures NoChanges(Inspect(c, s, cmd, env).touches)
  {
    var r := c.paths.resolve(s.cwd, cmd.arg);
    if r.Some? {
      var looked := [ReadDir(c.paths.toReal(c.paths.splitParent(r.value).0), env.dir)];
      var read := [ReadFile(c.paths.toReal(r.value))];
      UsePortNoChanges(s, looked + read, [Send], env);
    }
  }

  lemma EffectReadOnly(c: Config, s: State, cmd: Command, env: Env)
    requires c.readOnly && s.renameFrom.None?
    ensures AfterLogin(c, s, cmd, env).renameFrom.None? && NoChanges(AfterLogin(c, s, cmd, env).touches)
  {
    if cmd.List? || cmd.Nlst? {
      ListNoChanges(c, s, cmd.option, env);
    } else if cmd.Retr? || cmd.Size? {
      InspectNoChanges(c, s, cmd, env);
    }
  }

  /** A read-only session never changes the filesystem, RNTO included: no rename can ever be pending. */
  lemma {:induction false} ReadOnlyNeverChanges(c: Config, ins: seq<Input>)
    requires c.readOnly
    ensures Run(c, ins).renameFrom.None? && NoChanges(Run(c, ins).log)
  {
    if ins != [] {
      ReadOnlyNeverChanges(c, Init(ins));
      EffectReadOnly(c, Run(c, Init(ins)), Last(ins).cmd, Last(ins).env);
    }
  }

  // ---------- the jail ----------

  /** Every path that resolves is good, and so are the start and the parent of a good path. */
  ghost predicate Sound(p: Paths, good: string -> bool) {
    && good("/")
    && (forall cwd, arg :: p.resolve(cwd, arg).Some? ==> good(p.resolve(cwd, arg).value))
    && (forall v :: good(v) ==> good(p.splitParent(v).0))
  }

  /** The real path of some good virtual path. */
  ghost predicate RealOf(p: Paths, good: string -> bool, path: string) {
    exists v :: good(v) && path == p.toReal(v)
  }

  /** The temporary file of an upload to such a path. */
  ghost predicate PartialOf(p: Paths, good: string -> bool, path: string) {
    exists target, id: nat :: RealOf(p, good, target) && path == p.partial(target, id)
  }

  /** Every path of a touch is the real path of a good one, or where `part` allows the temporary file of an upload. */
  ghost predicate Inside(p: Paths, good: string -> bool, part: string -> bool, t: Touch) {
    match t
    case ReadDir(path, _) => RealOf(p, good, path)
    case ReadFile(path) => RealOf(p, good, path)
    case MakeDir(path) => RealOf(p, good, path)
    case WriteFile(path) => part(path)
    case Remove(path) => RealOf(p, good, path) || part(path)
    case Rename(path, to, _) => (RealOf(p, good, path) || part(path)) && RealOf(p, good, to)
    case _ => true
  }

  ghost predicate AllInside(p: Paths, good: string -> bool, part: string -> bool, log: seq<Touch>) {
    forall i | 0 <= i < |log| :: Inside(p, good, part, log[i])
  }

  ghost predicate GoodRename(good: string -> bool, o: Option<string>) {
    o.Some? ==> good(o.value)
  }

  ghost predicate GoodState(good: string -> bool, s: State) {
    good(s.cwd) && GoodRename(good, s.renameFrom)
  }

  ghost predicate JailedEffect(p: Paths, good: string -> bool, part: string -> bool, e: Effect) {
    good(e.cwd) && GoodRename(good, e.renameFrom) && AllInside(p, good, part, e.touches)
  }

  /** The temporary file a command would upload to is allowed. */
  ghost predicate PartAllowed(c: Config, part: string -> bool, s: State, cmd: Command, env: Env) {
    cmd.Stor? ==>
      var r := c.paths.resolve(s.cwd, cmd.arg);
      r.Some? ==> part(c.paths.partial(c.paths.toReal(r.value), env.uploadId))
  }

  lemma UploadInside(c: Config, good: string -> bool, part: string -> bool, v: string, env: Env)
    requires good(v) && part(c.paths.partial(c.paths.toReal(v), env.uploadId))
    ensures AllInside(c.paths, good, part, Upload(c, c.paths.toReal(v), env))
  {
    assert RealOf(c.paths, good, c.paths.toReal(v));
  }

  lemma UsePortJailed(p: Paths, good: string -> bool, part: string -> bool, s: State, before: seq<Touch>,
                      moves: seq<Touch>, env: Env)
    requires GoodState(good, s) && AllInside(p, good, part, before) && AllInside(p, good, part, moves)
    ensures JailedEffect(p, good, part, UsePort(s, before, moves, env))
  {
  }

  lemma OnPathJailed(c: Config, good: string -> bool, part: string -> bool, s: State, cmd: Command, env: Env)
    requires Sound(c.paths, good) && GoodState(good, s) && NeedsWrite(cmd) && PartAllowed(c, part, s, cmd, env)
    ensures JailedEffect(c.paths, good, part, OnPath(c, s, cmd, env))
  {
    var r := c.paths.resolve(s.cwd, cmd.arg);
    if r.Some? {
      assert RealOf(c.paths, good, c.paths.toReal(r.value));
      if cmd.Stor? {
        UploadInside(c, good, part, r.value, env);
        UsePortJailed(c.paths, good, part, s, [], Upload(c, c.paths.toReal(r.value), env), env);
      }
    }
  }

  lemma FetchJailed(c: Config, good: string -> bool, part: string -> bool, s: State, v: string, env: Env)
    requires Sound(c.paths, good) && GoodState(good, s) && good(v)
    ensures JailedEffect(c.paths, good, part, Fetch(c, s, v, env))
  {
    assert RealOf(c.paths, good, c.paths.toReal(v));
    assert RealOf(c.paths, good, c.paths.toReal(c.paths.splitParent(v).0));
    var looked, read := [ReadDir(c.paths.toReal(c.paths.splitParent(v).0), env.dir)], [ReadFile(c.paths.toReal(v))];
    UsePortJailed(c.paths, good, part, s, looked + read, [Send], env);
  }

  lemma ListedJailed(c: Config, good: string -> bool, part: string -> bool, s: State, v: string, env: Env)
    requires GoodState(good, s) && good(v)
    ensures JailedEffect(c.paths, good, part, Listed(c, s, v, env))
  {
    assert RealOf(c.paths, good, c.paths.toReal(v));
    UsePortJailed(c.paths, good, part, s, [ReadDir(c.paths.toReal(v), env.dir)], [Send], env);
  }

  lemma ListDirJailed(c: Config, good: string -> bool, part: string -> bool, s: State, option: Option<string>, env: Env)
    requires Sound(c.paths, good) && GoodState(good, s)
    ensures JailedEffect(c.paths, good, part, ListDir(c, s, option, env))
  {
    ListedJailed(c, good, part, s, s.cwd, env);
    if option.Some? && c.paths.resolve(s.cwd, option.value).Some? {
      ListedJailed(c, good, part, s, c.paths.resolve(s.cwd, option.value).value, env);
    }
  }

  lemma ChangeDirJailed(c: Config, good: string -> bool, part: string -> bool, s: State, arg: string, env: Env)
    requires Sound(c.paths, good) && GoodState(good, s)
    ensures JailedEffect(c.paths, good, part, ChangeDir(c, s, arg, env))
  {
    var r := c.paths.resolve(s.cwd, arg);
    if r.Some? {
      assert RealOf(c.paths, good, c.paths.toReal(r.value));
    }
  }

  lemma RenameJailed(c: Config, good: string -> bool, part: string -> bool, s: State, arg: string, env: Env)
    requires Sound(c.paths, good) && GoodState(good, s)
    ensures JailedEffect(c.paths, good, part, RenameTo(c, s, arg, env))
  {
    var r := c.paths.resolve(s.cwd, arg);
    if s.renameFrom.Some? && r.Some? {
      assert RealOf(c.paths, good, c.paths.toReal(r.value));
      assert RealOf(c.paths, good, c.paths.toReal(s.renameFrom.value));
    }
  }

  lemma InspectJailed(c: Config, good: string -> bool, part: string -> bool, s: State, cmd: Command, env: Env)
    requires Sound(c.paths, good) && GoodState(good, s) && (cmd.Retr? || cmd.Size?)
    ensures JailedEffect(c.paths, good, part, Inspect(c, s, cmd, env))
  {
    var r := c.paths.resolve(s.cwd, cmd.arg);
    if r.Some? {
      FetchJailed(c, good, part, s, r.value, env);
      assert RealOf(c.paths, good, c.paths.toReal(c.paths.splitParent(r.value).0));
    }
  }

  lemma EffectJailed(c: Config, good: string -> bool, part: string -> bool, s: State, cmd: Command, env: Env)
    requires Sound(c.paths, good) && GoodState(good, s) && PartAllowed(c, part, s, cmd, env)
    ensures JailedEffect(c.paths, good, part, AfterLogin(c, s, cmd, env))
  {
    if cmd.Cwd? {
      ChangeDirJailed(c, good, part, s, cmd.arg, env);
    } else if cmd.Cdup? {
      ChangeDirJailed(c, good, part, s, "..", env);
    } else if cmd.List? || cmd.Nlst? {
      ListDirJailed(c, good, part, s, cmd.option, env);
    } else if cmd.Retr? || cmd.Size? {
      InspectJailed(c, good, part, s, cmd, env);
    } else if NeedsWrite(cmd) {
      OnPathJailed(c, good, part, s, cmd, env);
    } else if cmd.Rnto? {
      RenameJailed(c, good, part, s, cmd.arg, env);
    }
  }

  /** The temporary file of an upload to the real path of a good path. */
  ghost function Uploads(p: Paths, good: string -> bool): string -> bool {
    path => PartialOf(p, good, path)
  }

  ghost predicate Jailed(p: Paths, good: string -> bool, s: State) {
    GoodState(good, s) && AllInside(p, good, Uploads(p, good), s.log)
  }

  lemma ApplyJailed(p: Paths, good: string -> bool, s: State, e: Effect)
    requires Jailed(p, good, s) && JailedEffect(p, good, Uploads(p, good), e)
    ensures Jailed(p, good, Apply(s, e))
  {
  }

  lemma UploadsAllowed(c: Config, good: string -> bool, s: State, cmd: Command, env: Env)
    requires Sound(c.paths, good)
    ensures PartAllowed(c, Uploads(c.paths, good), s, cmd, env)
  {
    if cmd.Stor? && c.paths.resolve(s.cwd, cmd.arg).Some? {
      var target := c.paths.toReal(c.paths.resolve(s.cwd, cmd.arg).value);
      assert RealOf(c.paths, good, target);
      assert PartialOf(c.paths, good, c.paths.partial(target, env.uploadId));
    }
  }

  /**
  Whatever makes resolved paths good makes the directory good in every session,
  and every touched path that of a good one or of an upload next to one.
  */
  lemma {:induction false} EveryRunJailed(c: Config, good: string -> bool, ins: seq<Input>)
    requires Sound(c.paths, good)
    ensures Jailed(c.paths, good, Run(c, ins))
  {
    if ins != [] {
      var s, cmd, env := Run(c, Init(ins)), Last(ins).cmd, Last(ins).env;
      EveryRunJailed(c, good, Init(ins));
      UploadsAllowed(c, good, s, cmd, env);
      EffectJailed(c, good, Uploads(c.paths, good), s, cmd, env);
      ApplyJailed(c.paths, good, s, AfterLogin(c, s, cmd, env));
    }
  }

  /** The root of a jail followed by normal segments. */
  ghost predicate UnderRoot(jail: Jail, path: string) {
    exists segs: Segments :: Normal(segs) && path == jail.root + Render(segs)
  }

  /** Every path of a touch is under the root. */
  ghost predicate Confined(jail: Jail, t: Touch) {
    match t
    case ReadDir(path, _) => UnderRoot(jail, path)
    case ReadFile(path) => UnderRoot(jail, path)
    case MakeDir(path) => UnderRoot(jail, path)
    case WriteFile(path) => UnderRoot(jail, path)
    case Remove(path) => UnderRoot(jail, path)
    case Rename(path, to, _) => UnderRoot(jail, path) && UnderRoot(jail, to)
    case _ => true
  }

  ghost predicate AllConfined(jail: Jail, log: seq<Touch>) {
    forall i | 0 <= i < |log| :: Confined(jail, log[i])
  }

  lemma RootIsNormal()
    ensures NormalPath("/")
  {
    assert Normal([]) && Path([]) == "/";
  }

  lemma ParentIsNormal(v: string)
    requires NormalPath(v)
    ensures NormalPath(SplitParent(v).0)
  {
    if v == "/" {
      RootIsNormal();
    } else {
      ParentThenName(v);
    }
  }

  lemma JailIsSound(jail: Jail)
    ensures Sound(VfsPaths(jail), v => NormalPath(v))
  {
    RootIsNormal();
    forall cwd: string, arg: string | Resolve(cwd, arg).Some?
      ensures NormalPath(Resolve(cwd, arg).value)
    {
      ResolveIsNormal(cwd, arg);
    }
    forall v: string | NormalPath(v)
      ensures NormalPath(SplitParent(v).0)
    {
      ParentIsNormal(v);
    }
  }

  lemma RealIsUnder(jail: Jail, path: string)
    requires !jail.allowDevicePaths && RealOf(VfsPaths(jail), v => NormalPath(v), path)
    ensures UnderRoot(jail, path)
  {
    var v :| NormalPath(v) && path == ToReal(jail, v);
    var segs: Segments :| Normal(segs) && v == Path(segs);
    RealOfPath(jail, segs);
  }

  lemma SuffixStarts(id: nat)
    ensures |UploadSuffix(id)| > 2 && UploadSuffix(id)[0] == '.' && '/' !in UploadSuffix(id)
  {
  }

  lemma BesideRoot(root: string, id: nat, segs: Segments)
    ensures root + UploadSuffix(id) != root + Render(segs)
  {
    SuffixStarts(id);
    var a, b := root + UploadSuffix(id), root + Render(segs);
    assert a[|root|] == '.';
    if segs != [] {
      RenderStarts(segs);
      assert b[|root|] == '/';
    }
  }

  lemma LongerName(segs: Segments, id: nat)
    requires Normal(segs) && segs != []
    ensures var longer := Init(segs) + [Last(segs) + UploadSuffix(id)];
            Normal(longer) && Render(longer) == Render(segs) + UploadSuffix(id)
  {
    SuffixStarts(id);
    var name := Last(segs) + UploadSuffix(id);
    var longer := Init(segs) + [name];
    assert Plain(name) && Init(longer) == Init(segs);
    Assoc("/", Last(segs), UploadSuffix(id));
    Assoc(Render(Init(segs)), "/" + Last(segs), UploadSuffix(id));
  }

  /** The temporary file of an upload is under the root if and only if the upload is not to the root itself. */
  lemma PartialUnderIff(jail: Jail, segs: Segments, id: nat)
    requires Normal(segs)
    ensures UnderRoot(jail, jail.root + Render(segs) + UploadSuffix(id)) <==> segs != []
  {
    if segs == [] {
      Empty(jail.root);
      forall other: Segments
        ensures jail.root + UploadSuffix(id) != jail.root + Render(other)
      {
        BesideRoot(jail.root, id, other);
      }
    } else {
      LongerName(segs, id);
      Assoc(jail.root, Render(segs), UploadSuffix(id));
    }
  }

  /** A command that uploads to the virtual root, when it gets as far as receiving. */
  predicate UploadsToRoot(c: Config, s: State, cmd: Command, env: Env) {
    && cmd.Stor? && c.paths.resolve(s.cwd, cmd.arg) == Some("/")
    && !c.readOnly && s.pasv && env.opens && env.caller.ControlPeer?
  }

  lemma InsideIsConfined(jail: Jail, part: string -> bool, t: Touch)
    requires !jail.allowDevicePaths && Inside(VfsPaths(jail), v => NormalPath(v), part, t)
    requires forall path | part(path) :: UnderRoot(jail, path)
    ensures Confined(jail, t)
  {
    var p, good := VfsPaths(jail), v => NormalPath(v);
    if !t.Bind? && !t.Accept? && !t.Send? && RealOf(p, good, t.path) {
      RealIsUnder(jail, t.path);
    }
    if t.Rename? {
      RealIsUnder(jail, t.to);
    }
  }

  lemma AllInsideIsConfined(jail: Jail, part: string -> bool, log: seq<Touch>)
    requires !jail.allowDevicePaths && AllInside(VfsPaths(jail), v => NormalPath(v), part, log)
    requires forall path | part(path) :: UnderRoot(jail, path)
    ensures AllConfined(jail, log)
  {
    forall i | 0 <= i < |log|
      ensures Confined(jail, log[i])
    {
      InsideIsConfined(jail, part, log[i]);
    }
  }

  /** An upload to anything but the root keeps its temporary file under the root. */
  lemma PartIsUnder(jail: Jail, v: string, id: nat)
    requires !jail.allowDevicePaths && NormalPath(v)
    ensures UnderRoot(jail, ToReal(jail, v) + UploadSuffix(id)) <==> v != "/"
  {
    var segs: Segments :| Normal(segs) && v == Path(segs);
    RealOfPath(jail, segs);
    PartialUnderIff(jail, segs, id);
    if segs != [] {
      RenderIsLong(segs);
    }
  }

  /** What a command touches after login is all under the root, unless it uploads to the root. */
  lemma EffectConfined(c: Config, jail: Jail, s: State, cmd: Command, env: Env)
    requires c.paths == VfsPaths(jail) && !jail.allowDevicePaths && GoodState(v => NormalPath(v), s)
    requires !(cmd.Stor? && c.paths.resolve(s.cwd, cmd.arg) == Some("/"))
    ensures AllConfined(jail, AfterLogin(c, s, cmd, env).touches)
  {
    var part: string -> bool := path => UnderRoot(jail, path);
    JailIsSound(jail);
    if cmd.Stor? && Resolve(s.cwd, cmd.arg).Some? {
      var v := Resolve(s.cwd, cmd.arg).value;
      ResolveIsNormal(s.cwd, cmd.arg);
      PartIsUnder(jail, v, env.uploadId);
      assert c.paths.resolve(s.cwd, cmd.arg) == Some(v);
      assert c.paths.partial(c.paths.toReal(v), env.uploadId) == ToReal(jail, v) + UploadSuffix(env.uploadId);
    }
    EffectJailed(c, v => NormalPath(v), part, s, cmd, env);
    AllInsideIsConfined(jail, part, AfterLogin(c, s, cmd, env).touches);
  }

  /** An upload to the root touches a path outside it exactly if it gets as far as receiving. */
  lemma RootUploadConfinedIff(c: Config, jail: Jail, s: State, cmd: Command, env: Env)
    requires c.paths == VfsPaths(jail) && !jail.allowDevicePaths
    requires cmd.Stor? && c.paths.resolve(s.cwd, cmd.arg) == Some("/")
    ensures AllConfined(jail, AfterLogin(c, s, cmd, env).touches) <==> !UploadsToRoot(c, s, cmd, env)
  {
    var touches := AfterLogin(c, s, cmd, env).touches;
    if UploadsToRoot(c, s, cmd, env) {
      RootIsNormal();
      PartIsUnder(jail, "/", env.uploadId);
      var path := c.paths.partial(c.paths.toReal("/"), env.uploadId);
      assert path == ToReal(jail, "/") + UploadSuffix(env.uploadId);
      assert touches[1] == WriteFile(path);
      assert !Confined(jail, touches[1]);
    }
  }

  /** Command `k` of a session is an upload to the virtual root that receives. */
  predicate UploadsToRootAt(c: Config, ins: seq<Input>, k: nat) {
    && k < |ins|
    && var s := Run(c, ins[..k]);
       s.authed && !s.ended && UploadsToRoot(c, s, ins[k].cmd, ins[k].env)
  }

  lemma AppendConfined(jail: Jail, a: seq<Touch>, b: seq<Touch>)
    ensures AllConfined(jail, a + b) <==> AllConfined(jail, a) && AllConfined(jail, b)
  {
    if AllConfined(jail, a + b) {
      assert forall i | 0 <= i < |a| :: a[i] == (a + b)[i];
      assert forall i | 0 <= i < |b| :: b[i] == (a + b)[|a| + i];
    }
  }

  /** What one command adds to the log. */
  function NewTouches(c: Config, s: State, cmd: Command, env: Env): seq<Touch> {
    if !s.ended && s.authed && !AnyTime(cmd) then AfterLogin(c, s, cmd, env).touches else []
  }

  lemma StepLog(c: Config, s: State, cmd: Command, env: Env)
    ensures Step(c, s, cmd, env).log == s.log + NewTouches(c, s, cmd, env)
  {
    Empty(s.log);
  }

  lemma CommandConfinedIff(c: Config, jail: Jail, s: State, cmd: Command, env: Env)
    requires c.paths == VfsPaths(jail) && !jail.allowDevicePaths && GoodState(v => NormalPath(v), s)
    ensures AllConfined(jail, NewTouches(c, s, cmd, env)) <==>
            !(s.authed && !s.ended && UploadsToRoot(c, s, cmd, env))
  {
    if cmd.Stor? && c.paths.resolve(s.cwd, cmd.arg) == Some("/") {
      RootUploadConfinedIff(c, jail, s, cmd, env);
    } else {
      EffectConfined(c, jail, s, cmd, env);
    }
  }

  lemma StepConfinedIff(c: Config, jail: Jail, s: State, cmd: Command, env: Env)
    requires c.paths == VfsPaths(jail) && !jail.allowDevicePaths && GoodState(v => NormalPath(v), s)
    ensures AllConfined(jail, Step(c, s, cmd, env).log) <==>
            AllConfined(jail, s.log) && !(s.authed && !s.ended && UploadsToRoot(c, s, cmd, env))
  {
    CommandConfinedIff(c, jail, s, cmd, env);
    StepLog(c, s, cmd, env);
    AppendConfined(jail, s.log, NewTouches(c, s, cmd, env));
  }

  lemma SessionIsGood(c: Config, jail: Jail, ins: seq<Input>)
    requires c.paths == VfsPaths(jail)
    ensures GoodState(v => NormalPath(v), Run(c, ins))
  {
    JailIsSound(jail);
    EveryRunJailed(c, v => NormalPath(v), ins);
  }

  ghost predicate SomeRootUpload(c: Config, ins: seq<Input>) {
    exists k: nat :: UploadsToRootAt(c, ins, k)
  }

  lemma RootUploadsGrow(c: Config, ins: seq<Input>)
    requires ins != []
    ensures SomeRootUpload(c, ins) <==> SomeRootUpload(c, Init(ins)) || UploadsToRootAt(c, ins, |ins| - 1)
  {
    forall k: nat | k < |ins| - 1
      ensures UploadsToRootAt(c, Init(ins), k) <==> UploadsToRootAt(c, ins, k)
    {
      TakeOfInit(ins, k);
    }
  }

  /**
  With device paths off, everything a session touches lies under the root if and
  only if none of its commands is an upload to the virtual root that receives:
  its temporary file is then a sibling of the root.
  */
  lemma {:induction false} EveryTouchConfinedIff(c: Config, jail: Jail, ins: seq<Input>)
    requires c.paths == VfsPaths(jail) && !jail.allowDevicePaths
    ensures AllConfined(jail, Run(c, ins).log) <==> !SomeRootUpload(c, ins)
  {
    if ins != [] {
      EveryTouchConfinedIff(c, jail, Init(ins));
      SessionIsGood(c, jail, Init(ins));
      StepConfinedIff(c, jail, Run(c, Init(ins)), Last(ins).cmd, Last(ins).env);
      RootUploadsGrow(c, ins);
    }
  }

  /** Each command by itself: what it touches is under the root if and only if it is no such upload. */
  lemma EveryCommandConfinedIff(c: Config, jail: Jail, ins: seq<Input>, k: nat)
    requires c.paths == VfsPaths(jail) && !jail.allowDevicePaths && k < |ins|
    ensures var s := Run(c, ins[..k]);
            var touches := NewTouches(c, s, ins[k].cmd, ins[k].env);
            && Run(c, ins[..k + 1]).log == s.log + touches
            && (AllConfined(jail, touches) <==> !UploadsToRootAt(c, ins, k))
  {
    InitOfTake(ins, k);
    SessionIsGood(c, jail, ins[..k]);
    CommandConfinedIff(c, jail, Run(c, ins[..k]), ins[k].cmd, ins[k].env);
    StepLog(c, Run(c, ins[..k]), ins[k].cmd, ins[k].env);
  }

  lemma StorRootTouches(c: Config, jail: Jail, s: State, env: Env)
    requires c.paths == VfsPaths(jail) && !jail.allowDevicePaths
    requires !c.readOnly && s.pasv && env.opens && env.caller.ControlPeer?
    ensures var touches := AfterLogin(c, s, Stor("/"), env).touches;
            |touches| > 1 && touches[1] == WriteFile(jail.root + UploadSuffix(env.uploadId))
  {
    RootIsNormal();
    NormalIsFixed(s.cwd, "/");
    assert c.paths.resolve(s.cwd, "/") == Some("/") && c.paths.toReal("/") == jail.root;
    assert c.paths.partial(jail.root, env.uploadId) == jail.root + UploadSuffix(env.uploadId);
  }

  /** From every open, logged-in, writable session with a data port pending, `STOR /` writes beside the root. */
  lemma StorRootWritesBeside(c: Config, jail: Jail, s: State, env: Env)
    requires c.paths == VfsPaths(jail) && !jail.allowDevicePaths
    requires s.authed && !s.ended && !c.readOnly && s.pasv && env.opens && env.caller.ControlPeer?
    ensures var path := jail.root + UploadSuffix(env.uploadId);
            !UnderRoot(jail, path) && WriteFile(path) in Step(c, s, Stor("/"), env).log
  {
    StorRootTouches(c, jail, s, env);
    PartialUnderIff(jail, [], env.uploadId);
    Empty(jail.root);
    var touches := AfterLogin(c, s, Stor("/"), env).touches;
    assert (s.log + touches)[|s.log| + 1] == touches[1];
  }

  // ---------- each command does what it says ----------

  /** A session that is open and logged in. */
  predicate Serving(s: State) {
    !s.ended && s.authed
  }

  /**
  What the commands that change something touch: DELE removes the file it names,
  MKD makes the directory, RNFR only remembers the path. A path that does not
  resolve is not touched, nor anything in a read-only session.
  */
  lemma PathCommandsTouch(c: Config, s: State, arg: string, env: Env)
    requires Serving(s)
    ensures var v := c.paths.resolve(s.cwd, arg);
            var allowed := v.Some? && !c.readOnly;
            && Step(c, s, Dele(arg), env).log == s.log + (if allowed then [Remove(c.paths.toReal(v.value))] else [])
            && Step(c, s, Mkd(arg), env).log == s.log + (if allowed then [MakeDir(c.paths.toReal(v.value))] else [])
            && Step(c, s, Rnfr(arg), env).log == s.log
            && (allowed ==> Step(c, s, Rnfr(arg), env).renameFrom == v)
  {
    Empty(s.log);
  }

  /** CWD looks at the directory it names and goes there if that is found. */
  lemma CwdGoes(c: Config, s: State, arg: string, env: Env)
    requires Serving(s)
    ensures var v, t := c.paths.resolve(s.cwd, arg), Step(c, s, Cwd(arg), env);
            && t.log == s.log + (if v.Some? then [ReadDir(c.paths.toReal(v.value), env.dir)] else [])
            && t.cwd == (if v.Some? && env.dir.Some? then v.value else s.cwd)
  {
    Empty(s.log);
  }

  /** SIZE looks for the file in the directory that holds it. */
  lemma SizeLooks(c: Config, s: State, arg: string, env: Env)
    requires Serving(s)
    ensures var v := c.paths.resolve(s.cwd, arg);
            Step(c, s, Size(arg), env).log ==
            s.log + if v.Some? then [ReadDir(c.paths.toReal(c.paths.splitParent(v.value).0), env.dir)] else []
  {
    Empty(s.log);
  }

  /** An upload that is received and renamed puts its file where its path leads, by way of the temporary name. */
  lemma StorStores(c: Config, s: State, arg: string, env: Env)
    requires Serving(s) && !c.readOnly && s.pasv && env.opens && env.caller.ControlPeer? && env.receives && env.renames
    requires c.paths.resolve(s.cwd, arg).Some?
    ensures var file := c.paths.toReal(c.paths.resolve(s.cwd, arg).value);
            var part := c.paths.partial(file, env.uploadId);
            Step(c, s, Stor(arg), env).log == s.log + [Accept(ControlPeer), WriteFile(part), Rename(part, file, true)]
  {
    assert [] + [Accept(ControlPeer)] + Upload(c, c.paths.toReal(c.paths.resolve(s.cwd, arg).value), env) ==
           [Accept(ControlPeer)] + Upload(c, c.paths.toReal(c.paths.resolve(s.cwd, arg).value), env);
  }

  /** A download that finds its file within the limit reads it where its path leads and sends it to the client. */
  lemma RetrSends(c: Config, s: State, arg: string, env: Env, v: string, size: nat)
    requires Serving(s) && s.pasv && env.opens && env.caller.ControlPeer? && env.readable && env.dir.Some?
    requires c.paths.resolve(s.cwd, arg) == Some(v)
    requires FindFile(env.dir.value, c.paths.splitParent(v).1) == Some(size) && size <= c.maxTransferBytes
    ensures Step(c, s, Retr(arg), env).log ==
            s.log + [ReadDir(c.paths.toReal(c.paths.splitParent(v).0), env.dir), ReadFile(c.paths.toReal(v)),
                     Accept(ControlPeer), Send]
  {
    var looked, read := ReadDir(c.paths.toReal(c.paths.splitParent(v).0), env.dir), ReadFile(c.paths.toReal(v));
    assert [looked] + [read] + [Accept(ControlPeer)] + [Send] == [looked, read, Accept(ControlPeer), Send];
  }

  /** Otherwise it uses no data connection: the pending port stays, and the file is at most looked at. */
  lemma RetrRefuses(c: Config, s: State, arg: string, env: Env, v: string)
    requires Serving(s) && c.paths.resolve(s.cwd, arg) == Some(v)
    requires env.dir.None? || FindFile(env.dir.value, c.paths.splitParent(v).1).None? || !env.readable
             || FindFile(env.dir.value, c.paths.splitParent(v).1).value > c.maxTransferBytes
    ensures var t, looked := Step(c, s, Retr(arg), env), ReadDir(c.paths.toReal(c.paths.splitParent(v).0), env.dir);
            t.pasv == s.pasv && (t.log == s.log + [looked] || t.log == s.log + [looked, ReadFile(c.paths.toReal(v))])
  {
    var looked, file := ReadDir(c.paths.toReal(c.paths.splitParent(v).0), env.dir), ReadFile(c.paths.toReal(v));
    assert [looked] + [file] == [looked, file];
  }

  /** A directory that cannot be read is not listed, and the pending port stays. */
  lemma ListRefuses(c: Config, s: State, option: Option<string>, env: Env)
    requires Serving(s) && env.dir.None?
    ensures var t := Step(c, s, List(option), env); t.pasv == s.pasv && |t.log| <= |s.log| + 1 && s.log <= t.log
    ensures var t := Step(c, s, List(option), env); t.log != s.log ==> Last(t.log).ReadDir?
  {
  }

  /** A listing looks at the directory asked for, or the current one, and is sent to the client. */
  lemma ListSends(c: Config, s: State, option: Option<string>, env: Env)
    requires Serving(s) && s.pasv && env.opens && env.caller.ControlPeer? && env.dir.Some?
    ensures var named := option.Some? && option.value != "" && option.value[0] != '-';
            var v := if named then c.paths.resolve(s.cwd, option.value) else Some(s.cwd);
            var log := Step(c, s, List(option), env).log;
            && log == Step(c, s, Nlst(option), env).log
            && log == s.log + if v.None? then []
                              else [ReadDir(c.paths.toReal(v.value), env.dir), Accept(ControlPeer), Send]
  {
    Empty(s.log);
    var named := option.Some? && option.value != "" && option.value[0] != '-';
    var v := if named then c.paths.resolve(s.cwd, option.value) else Some(s.cwd);
    if v.Some? {
      var looked := ReadDir(c.paths.toReal(v.value), env.dir);
      assert [looked] + [Accept(ControlPeer)] + [Send] == [looked, Accept(ControlPeer), Send];
    }
  }

  /** In a jailed session CDUP leads to the parent of the current directory, and back after a CWD into a name there. */
  lemma CdupGoesUp(c: Config, jail: Jail, s: State, env: Env)
    requires c.paths == VfsPaths(jail) && Serving(s) && NormalPath(s.cwd) && env.dir.Some?
    ensures s.cwd != "/" ==> Step(c, s, Cdup, env).cwd == SplitParent(s.cwd).0
  {
    if s.cwd != "/" {
      UpIsParent(s.cwd);
    }
  }

  lemma CwdThenCdup(c: Config, jail: Jail, s: State, name: string, env: Env)
    requires c.paths == VfsPaths(jail) && Serving(s) && NormalPath(s.cwd) && Plain(name) && env.dir.Some? && env.replies
    ensures Step(c, Step(c, s, Cwd(name), env), Cdup, env).cwd == s.cwd
  {
    var segs: Segments :| Normal(segs) && s.cwd == Path(segs);
    var down := segs + [name];
    assert Init(down) == segs && Last(down) == name && Normal(down);
    WalkPath(segs);
    SplitOne(name);
    WalkConcat([], Split(s.cwd), [name]);
    WalkOne(segs, name);
    assert Resolve(s.cwd, name) == Some(Path(down));
    SplitParentOf(down);
    RenderIsLong(down);
    UpIsParent(Path(down));
  }

  /**
  PASV opens a data port if the server knows its address, EPSV unless it is EPSV ALL; both
  give up the earlier one.
  */
  lemma PortCommandsOpen(c: Config, s: State, option: Option<string>, env: Env)
    requires Serving(s)
    ensures var t := Step(c, s, Pasv, env);
            if env.addressKnown then t.log == s.log + [Bind(env.binds)] && t.pasv == env.binds
            else t.log == s.log && t.pasv == s.pasv
    ensures var t := Step(c, s, Epsv(option), env);
            if SaysAll(option) then t.log == s.log && t.pasv == s.pasv
            else t.log == s.log + [Bind(env.binds)] && t.pasv == env.binds
  {
    Empty(s.log);
  }

  /** The three letters of ALL, in either case. */
  predicate SaysAll(option: Option<string>) {
    && option.Some? && |option.value| == 3 && option.value[0] in {'A', 'a'}
    && option.value[1] in {'L', 'l'} && option.value[2] in {'L', 'l'}
  }

  /** Commands that use a data connection. */
  predicate UsesData(cmd: Command) {
    cmd.List? || cmd.Nlst? || cmd.Retr? || cmd.Stor?
  }

  lemma EffectEnds(c: Config, s: State, cmd: Command, env: Env)
    ensures AfterLogin(c, s, cmd, env).ended ==> UsesData(cmd) && s.pasv && !env.opens
  {
  }

  /** A session ends at QUIT or when a reply cannot be delivered, before a transfer included, and at nothing else. */
  lemma SessionEnds(c: Config, s: State, cmd: Command, env: Env)
    requires !s.ended
    ensures cmd.Quit? || !env.replies ==> Step(c, s, cmd, env).ended
    ensures Step(c, s, cmd, env).ended ==>
              cmd.Quit? || !env.replies || (s.authed && UsesData(cmd) && s.pasv && !env.opens)
  {
    EffectEnds(c, s, cmd, env);
  }

  // ---------- data connections ----------

  /** Bytes move only over a connection just accepted from the control peer. */
  predicate OnlyToClient(log: seq<Touch>) {
    forall i | 0 <= i < |log| :: log[i].Send? || log[i].WriteFile? ==> i > 0 && log[i - 1] == Accept(ControlPeer)
  }

  /** A file is read right after a look at its directory that listed it with a size within the limit. */
  ghost predicate Allowed(c: Config, look: Touch, path: string) {
    && look.ReadDir? && look.found.Some?
    && exists v ::
         && path == c.paths.toReal(v) && look.path == c.paths.toReal(c.paths.splitParent(v).0)
         && FindFile(look.found.value, c.paths.splitParent(v).1).Some?
         && FindFile(look.found.value, c.paths.splitParent(v).1).value <= c.maxTransferBytes
  }

  ghost predicate ReadsAllowed(c: Config, log: seq<Touch>) {
    forall i | 0 <= i < |log| :: log[i].ReadFile? ==> i > 0 && Allowed(c, log[i - 1], log[i].path)
  }

  ghost predicate IsUpload(c: Config, path: string, target: string) {
    exists id: nat :: path == c.paths.partial(target, id)
  }

  /** The temporary file of an upload is renamed to the target it was made for, or removed. */
  ghost predicate SettledAt(c: Config, log: seq<Touch>, i: nat) {
    && i + 1 < |log| && log[i].WriteFile?
    && (|| log[i + 1] == Remove(log[i].path)
        || (&& log[i + 1].Rename? && log[i + 1].path == log[i].path
            && IsUpload(c, log[i].path, log[i + 1].to)
            && (log[i + 1].ok || (i + 2 < |log| && log[i + 2] == Remove(log[i].path)))))
  }

  ghost predicate UploadsSettled(c: Config, log: seq<Touch>) {
    forall i | 0 <= i < |log| :: log[i].WriteFile? ==> SettledAt(c, log, i)
  }

  /** What the touches of a session, or of one command, always look like. */
  ghost predicate Tidy(c: Config, log: seq<Touch>) {
    OnlyToClient(log) && ReadsAllowed(c, log) && UploadsSettled(c, log)
  }

  lemma AppendOnlyToClient(a: seq<Touch>, b: seq<Touch>)
    requires OnlyToClient(a) && OnlyToClient(b)
    ensures OnlyToClient(a + b)
  {
    forall i | 0 <= i < |a + b| && ((a + b)[i].Send? || (a + b)[i].WriteFile?)
      ensures i > 0 && (a + b)[i - 1] == Accept(ControlPeer)
    {
      if i >= |a| {
        assert b[i - |a|] == (a + b)[i];
      }
    }
  }

  lemma AppendReadsAllowed(c: Config, a: seq<Touch>, b: seq<Touch>)
    requires ReadsAllowed(c, a) && ReadsAllowed(c, b)
    ensures ReadsAllowed(c, a + b)
  {
    forall i | 0 <= i < |a + b| && (a + b)[i].ReadFile?
      ensures i > 0 && Allowed(c, (a + b)[i - 1], (a + b)[i].path)
    {
      if i >= |a| {
        assert b[i - |a|] == (a + b)[i];
      }
    }
  }

  lemma AppendSettled(c: Config, a: seq<Touch>, b: seq<Touch>)
    requires UploadsSettled(c, a) && UploadsSettled(c, b)
    ensures UploadsSettled(c, a + b)
  {
    forall i | 0 <= i < |a + b| && (a + b)[i].WriteFile?
      ensures SettledAt(c, a + b, i)
    {
      if i < |a| {
        assert SettledAt(c, a, i);
      } else {
        assert b[i - |a|] == (a + b)[i];
        assert SettledAt(c, b, i - |a|);
      }
    }
  }

  lemma AppendTidy(c: Config, a: seq<Touch>, b: seq<Touch>)
    requires Tidy(c, a) && Tidy(c, b)
    ensures Tidy(c, a + b)
  {
    AppendOnlyToClient(a, b);
    AppendReadsAllowed(c, a, b);
    AppendSettled(c, a, b);
  }

  /** Touches that move no bytes are tidy by themselves. */
  lemma PlainTidy(c: Config, log: seq<Touch>)
    requires forall i | 0 <= i < |log| :: !log[i].Send? && !log[i].WriteFile? && !log[i].ReadFile?
    ensures Tidy(c, log)
  {
  }

  lemma SendTidy(c: Config, s: State, before: seq<Touch>, env: Env)
    requires Tidy(c, before)
    ensures Tidy(c, UsePort(s, before, [Send], env).touches)
  {
    var tail := [Accept(env.caller)] + if env.caller.ControlPeer? then [Send] else [];
    assert Tidy(c, tail);
    AppendTidy(c, before, tail);
    Assoc(before, [Accept(env.caller)], if env.caller.ControlPeer? then [Send] else []);
  }

  lemma UploadTidy(c: Config, s: State, target: string, env: Env)
    ensures Tidy(c, UsePort(s, [], Upload(c, target, env), env).touches)
  {
    var tail := [Accept(env.caller)] + if env.caller.ControlPeer? then Upload(c, target, env) else [];
    Empty(tail);
    Assoc([], [Accept(env.caller)], if env.caller.ControlPeer? then Upload(c, target, env) else []);
    if env.caller.ControlPeer? {
      UploadSettles(c, target, env);
    }
  }

  lemma UploadSettles(c: Config, target: string, env: Env)
    ensures var log := [Accept(ControlPeer)] + Upload(c, target, env);
            OnlyToClient(log) && ReadsAllowed(c, log) && UploadsSettled(c, log)
  {
    var log, partial := [Accept(ControlPeer)] + Upload(c, target, env), c.paths.partial(target, env.uploadId);
    assert log[1] == WriteFile(partial);
    assert IsUpload(c, partial, target);
    assert SettledAt(c, log, 1);
  }

  lemma ListTidy(c: Config, s: State, option: Option<string>, env: Env)
    ensures Tidy(c, ListDir(c, s, option, env).touches)
  {
    PlainTidy(c, [ReadDir(c.paths.toReal(s.cwd), env.dir)]);
    SendTidy(c, s, [ReadDir(c.paths.toReal(s.cwd), env.dir)], env);
    if option.Some? && c.paths.resolve(s.cwd, option.value).Some? {
      var look := [ReadDir(c.paths.toReal(c.paths.resolve(s.cwd, option.value).value), env.dir)];
      PlainTidy(c, look);
      SendTidy(c, s, look, env);
    }
  }

  lemma FetchTidy(c: Config, s: State, v: string, env: Env)
    ensures Tidy(c, Fetch(c, s, v, env).touches)
  {
    var (parent, name) := c.paths.splitParent(v);
    var look := ReadDir(c.paths.toReal(parent), env.dir);
    PlainTidy(c, [look]);
    if env.dir.Some? && FindFile(env.dir.value, name).Some?
       && FindFile(env.dir.value, name).value <= c.maxTransferBytes {
      var touched := [look] + [ReadFile(c.paths.toReal(v))];
      assert Allowed(c, look, c.paths.toReal(v));
      assert Tidy(c, touched);
      SendTidy(c, s, touched, env);
    }
  }

  lemma InspectTidy(c: Config, s: State, cmd: Command, env: Env)
    requires cmd.Retr? || cmd.Size?
    ensures Tidy(c, Inspect(c, s, cmd, env).touches)
  {
    var r := c.paths.resolve(s.cwd, cmd.arg);
    if r.Some? {
      FetchTidy(c, s, r.value, env);
      PlainTidy(c, [ReadDir(c.paths.toReal(c.paths.splitParent(r.value).0), env.dir)]);
    }
  }

  lemma OnPathTidy(c: Config, s: State, cmd: Command, env: Env)
    requires NeedsWrite(cmd)
    ensures Tidy(c, OnPath(c, s, cmd, env).touches)
  {
    var r := c.paths.resolve(s.cwd, cmd.arg);
    if r.Some? {
      UploadTidy(c, s, c.paths.toReal(r.value), env);
      PlainTidy(c, [Remove(c.paths.toReal(r.value))]);
      PlainTidy(c, [MakeDir(c.paths.toReal(r.value))]);
    }
  }

  lemma EffectTidy(c: Config, s: State, cmd: Command, env: Env)
    ensures Tidy(c, AfterLogin(c, s, cmd, env).touches)
  {
    if cmd.List? || cmd.Nlst? {
      ListTidy(c, s, cmd.option, env);
    } else if cmd.Retr? || cmd.Size? {
      InspectTidy(c, s, cmd, env);
    } else if NeedsWrite(cmd) {
      OnPathTidy(c, s, cmd, env);
    } else {
      PlainTidy(c, AfterLogin(c, s, cmd, env).touches);
    }
  }

  lemma {:induction false} EveryRunTidy(c: Config, ins: seq<Input>)
    ensures Tidy(c, Run(c, ins).log)
  {
    if ins != [] {
      var s, cmd, env := Run(c, Init(ins)), Last(ins).cmd, Last(ins).env;
      EveryRunTidy(c, Init(ins));
      EffectTidy(c, s, cmd, env);
      AppendTidy(c, s.log, AfterLogin(c, s, cmd, env).touches);
    }
  }

  /** In every session bytes are sent or received only right after accepting a connection from the control peer. */
  lemma EveryRunOnlyToClient(c: Config, ins: seq<Input>, i: nat)
    requires i < |Run(c, ins).log| && (Run(c, ins).log[i].Send? || Run(c, ins).log[i].WriteFile?)
    ensures i > 0 && Run(c, ins).log[i - 1] == Accept(ControlPeer)
  {
    EveryRunTidy(c, ins);
  }

  /** In every session a file is read only if its directory was just listed and gave it a size within the limit. */
  lemma EveryReadWithinLimit(c: Config, ins: seq<Input>, i: nat)
    requires i < |Run(c, ins).log| && Run(c, ins).log[i].ReadFile?
    ensures i > 0 && Allowed(c, Run(c, ins).log[i - 1], Run(c, ins).log[i].path)
  {
    EveryRunTidy(c, ins);
  }

  /** In every session each upload's temporary file is renamed to the target it was made for or removed, at once. */
  lemma EveryUploadSettled(c: Config, ins: seq<Input>, i: nat)
    requires i < |Run(c, ins).log| && Run(c, ins).log[i].WriteFile?
    ensures SettledAt(c, Run(c, ins).log, i)
  {
    EveryRunTidy(c, ins);
  }

  function Worth(t: Touch): int {
    if t == Bind(true) then 1 else if t.Accept? then -1 else 0
  }

  /** Data ports opened less connections waited for. */
  function Credit(log: seq<Touch>): int {
    if log == [] then 0 else Credit(Init(log)) + Worth(Last(log))
  }

  lemma {:induction false} CreditAppend(a: seq<Touch>, b: seq<Touch>)
    ensures Credit(a + b) == Credit(a) + Credit(b)
    decreases |b|
  {
    if b == [] {
      Empty(a);
    } else {
      assert Init(a + b) == a + Init(b);
      CreditAppend(a, Init(b));
    }
  }

  lemma CreditOne(t: Touch)
    ensures Credit([t]) == Worth(t)
  {
    assert Init([t]) == [];
  }

  lemma {:induction false} CreditNone(log: seq<Touch>)
    requires forall i | 0 <= i < |log| :: Worth(log[i]) == 0
    ensures Credit(log) == 0
  {
    if log != [] {
      CreditNone(Init(log));
    }
  }

  function One(b: bool): int { if b then 1 else 0 }

  /** Whatever a command gains on the pending port it has paid for. */
  predicate Paid(s: State, e: Effect) {
    Credit(e.touches) >= One(e.pasv) - One(s.pasv)
  }

  lemma UsePortPaid(s: State, before: seq<Touch>, moves: seq<Touch>, env: Env)
    requires forall i | 0 <= i < |before| :: Worth(before[i]) == 0
    requires forall i | 0 <= i < |moves| :: Worth(moves[i]) == 0
    ensures Paid(s, UsePort(s, before, moves, env))
  {
    var taken := [Accept(env.caller)];
    var moved := if env.caller.ControlPeer? then moves else [];
    CreditAppend(before + taken, moved);
    CreditAppend(before, taken);
    CreditOne(Accept(env.caller));
    CreditNone(before);
    CreditNone(moved);
  }

  lemma InspectPaid(c: Config, s: State, cmd: Command, env: Env)
    requires cmd.Retr? || cmd.Size?
    ensures Paid(s, Inspect(c, s, cmd, env))
  {
    var r := c.paths.resolve(s.cwd, cmd.arg);
    if r.Some? {
      FetchPaid(c, s, r.value, env);
      CreditOne(ReadDir(c.paths.toReal(c.paths.splitParent(r.value).0), env.dir));
    }
  }

  lemma OnPathPaid(c: Config, s: State, cmd: Command, env: Env)
    requires NeedsWrite(cmd)
    ensures Paid(s, OnPath(c, s, cmd, env))
  {
    var r := c.paths.resolve(s.cwd, cmd.arg);
    if r.Some? {
      UsePortPaid(s, [], Upload(c, c.paths.toReal(r.value), env), env);
      CreditOne(Remove(c.paths.toReal(r.value)));
      CreditOne(MakeDir(c.paths.toReal(r.value)));
    }
  }

  lemma EffectPaid(c: Config, s: State, cmd: Command, env: Env)
    ensures Paid(s, AfterLogin(c, s, cmd, env))
  {
    if cmd.Cwd? {
      ChangeDirPaid(c, s, cmd.arg, env);
    } else if cmd.Cdup? {
      ChangeDirPaid(c, s, "..", env);
    } else if cmd.Pasv? || cmd.Epsv? {
      CreditOne(Bind(env.binds));
    } else if cmd.List? || cmd.Nlst? {
      ListPaid(c, s, cmd.option, env);
    } else if cmd.Retr? || cmd.Size? {
      InspectPaid(c, s, cmd, env);
    } else if NeedsWrite(cmd) {
      OnPathPaid(c, s, cmd, env);
    } else if cmd.Rnto? {
      RenamePaid(c, s, cmd.arg, env);
    }
  }

  lemma ChangeDirPaid(c: Config, s: State, arg: string, env: Env)
    ensures Paid(s, ChangeDir(c, s, arg, env))
  {
    if c.paths.resolve(s.cwd, arg).Some? {
      CreditOne(ReadDir(c.paths.toReal(c.paths.resolve(s.cwd, arg).value), env.dir));
    }
  }

  lemma RenamePaid(c: Config, s: State, arg: string, env: Env)
    ensures Paid(s, RenameTo(c, s, arg, env))
  {
    var r := c.paths.resolve(s.cwd, arg);
    if s.renameFrom.Some? && r.Some? {
      CreditOne(Rename(c.paths.toReal(s.renameFrom.value), c.paths.toReal(r.value), env.renames));
    }
  }

  lemma ListPaid(c: Config, s: State, option: Option<string>, env: Env)
    ensures Paid(s, ListDir(c, s, option, env))
  {
    ListedPaid(c, s, s.cwd, env);
    if option.Some? && c.paths.resolve(s.cwd, option.value).Some? {
      ListedPaid(c, s, c.paths.resolve(s.cwd, option.value).value, env);
    }
  }

  lemma ListedPaid(c: Config, s: State, v: string, env: Env)
    ensures Paid(s, Listed(c, s, v, env))
  {
    CreditOne(ReadDir(c.paths.toReal(v), env.dir));
    UsePortPaid(s, [ReadDir(c.paths.toReal(v), env.dir)], [Send], env);
  }

  lemma FetchPaid(c: Config, s: State, v: string, env: Env)
    ensures Paid(s, Fetch(c, s, v, env))
  {
    var looked, read := [ReadDir(c.paths.toReal(c.paths.splitParent(v).0), env.dir)], [ReadFile(c.paths.toReal(v))];
    CreditNone(looked);
    CreditNone(looked + read);
    UsePortPaid(s, looked + read, [Send], env);
  }

  lemma ApplyPaid(s: State, e: Effect)
    requires Paid(s, e) && Credit(s.log) >= One(s.pasv)
    ensures Credit(Apply(s, e).log) >= One(Apply(s, e).pasv)
  {
    CreditAppend(s.log, e.touches);
  }

  lemma StepPaid(c: Config, s: State, cmd: Command, env: Env)
    requires Credit(s.log) >= One(s.pasv)
    ensures Credit(Step(c, s, cmd, env).log) >= One(Step(c, s, cmd, env).pasv)
  {
    EffectPaid(c, s, cmd, env);
    ApplyPaid(s, AfterLogin(c, s, cmd, env));
  }

  /** Every data connection uses up a data port of its own: never more waits than ports opened and not still pending. */
  lemma {:induction false} EveryAcceptHasItsPort(c: Config, ins: seq<Input>)
    ensures Credit(Run(c, ins).log) >= One(Run(c, ins).pasv)
  {
    if ins != [] {
      EveryAcceptHasItsPort(c, Init(ins));
      StepPaid(c, Run(c, Init(ins)), Last(ins).cmd, Last(ins).env);
    }
  }

  predicate PortTouch(t: Touch) {
    t.Bind? || t.Accept?
  }

  /** The last thing done with a data port was opening one. */
  predicate OpenedLast(log: seq<Touch>) {
    log != [] && if PortTouch(Last(log)) then Last(log) == Bind(true) else OpenedLast(Init(log))
  }

  predicate NoPorts(log: seq<Touch>) {
    forall i | 0 <= i < |log| :: !PortTouch(log[i])
  }

  lemma {:induction false} OpenedBefore(a: seq<Touch>, b: seq<Touch>)
    requires NoPorts(b)
    ensures OpenedLast(a + b) == OpenedLast(a)
    decreases |b|
  {
    if b == [] {
      Empty(a);
    } else {
      assert Init(a + b) == a + Init(b) && Last(a + b) == Last(b);
      OpenedBefore(a, Init(b));
    }
  }

  /** A command leaves a port pending exactly if the log then says so, unless the session ended with it. */
  ghost predicate PortTold(s: State, e: Effect) {
    if e.ended then !e.pasv
    else forall log | OpenedLast(log) == s.pasv :: OpenedLast(log + e.touches) == e.pasv
  }

  lemma NoPortsTold(s: State, e: Effect)
    requires NoPorts(e.touches) && e.pasv == s.pasv && !e.ended
    ensures PortTold(s, e)
  {
    forall log | OpenedLast(log) == s.pasv
      ensures OpenedLast(log + e.touches) == e.pasv
    {
      OpenedBefore(log, e.touches);
    }
  }

  lemma UsePortTold(s: State, before: seq<Touch>, moves: seq<Touch>, env: Env)
    requires NoPorts(before) && NoPorts(moves)
    ensures PortTold(s, UsePort(s, before, moves, env))
  {
    var moved := if env.caller.ControlPeer? then moves else [];
    if !s.pasv {
      NoPortsTold(s, UsePort(s, before, moves, env));
    } else if env.opens {
      forall log | OpenedLast(log)
        ensures !OpenedLast(log + (before + [Accept(env.caller)] + moved))
      {
        Assoc(log, before + [Accept(env.caller)], moved);
        Assoc(log, before, [Accept(env.caller)]);
        OpenedBefore(log + (before + [Accept(env.caller)]), moved);
        assert Last(log + before + [Accept(env.caller)]) == Accept(env.caller);
      }
    }
  }

  lemma PortCommandTold(s: State, cmd: Command, env: Env)
    requires cmd.Pasv? || cmd.Epsv?
    ensures PortTold(s, PortCommand(s, cmd, env))
  {
    NoPortsTold(s, Only(s, []));
    forall log
      ensures OpenedLast(log + [Bind(env.binds)]) == env.binds
    {
      assert Last(log + [Bind(env.binds)]) == Bind(env.binds);
    }
  }

  lemma ListTold(c: Config, s: State, option: Option<string>, env: Env)
    ensures PortTold(s, ListDir(c, s, option, env))
  {
    NoPortsTold(s, Only(s, []));
    ListedTold(c, s, s.cwd, env);
    if option.Some? && c.paths.resolve(s.cwd, option.value).Some? {
      ListedTold(c, s, c.paths.resolve(s.cwd, option.value).value, env);
    }
  }

  lemma ListedTold(c: Config, s: State, v: string, env: Env)
    ensures PortTold(s, Listed(c, s, v, env))
  {
    var look := [ReadDir(c.paths.toReal(v), env.dir)];
    NoPortsTold(s, Only(s, look));
    UsePortTold(s, look, [Send], env);
  }

  lemma InspectTold(c: Config, s: State, cmd: Command, env: Env)
    requires cmd.Retr? || cmd.Size?
    ensures PortTold(s, Inspect(c, s, cmd, env))
  {
    NoPortsTold(s, Only(s, []));
    var r := c.paths.resolve(s.cwd, cmd.arg);
    if r.Some? {
      var looked := [ReadDir(c.paths.toReal(c.paths.splitParent(r.value).0), env.dir)];
      var read := [ReadFile(c.paths.toReal(r.value))];
      NoPortsTold(s, Only(s, looked));
      NoPortsTold(s, Only(s, looked + read));
      UsePortTold(s, looked + read, [Send], env);
    }
  }

  lemma OnPathTold(c: Config, s: State, cmd: Command, env: Env)
    requires NeedsWrite(cmd)
    ensures PortTold(s, OnPath(c, s, cmd, env))
  {
    NoPortsTold(s, Only(s, []));
    var r := c.paths.resolve(s.cwd, cmd.arg);
    if r.Some? {
      UsePortTold(s, [], Upload(c, c.paths.toReal(r.value), env), env);
      NoPortsTold(s, Only(s, [Remove(c.paths.toReal(r.value))]));
      NoPortsTold(s, Only(s, [MakeDir(c.paths.toReal(r.value))]));
      NoPortsTold(s, Only(s.(renameFrom := r), []));
    }
  }

  lemma EffectTold(c: Config, s: State, cmd: Command, env: Env)
    ensures PortTold(s, AfterLogin(c, s, cmd, env))
  {
    if cmd.Pasv? || cmd.Epsv? {
      PortCommandTold(s, cmd, env);
    } else if cmd.List? || cmd.Nlst? {
      ListTold(c, s, cmd.option, env);
    } else if cmd.Retr? || cmd.Size? {
      InspectTold(c, s, cmd, env);
    } else if NeedsWrite(cmd) {
      OnPathTold(c, s, cmd, env);
    } else {
      NoPortsTold(s, AfterLogin(c, s, cmd, env));
    }
  }

  /**
  While a session is open, a data port is pending exactly if the last thing done with one was
  opening it, and that worked.
  */
  lemma {:induction false} PortPendingIff(c: Config, ins: seq<Input>)
    ensures !Run(c, ins).ended ==> (Run(c, ins).pasv <==> OpenedLast(Run(c, ins).log))
  {
    if ins != [] && !Run(c, ins).ended {
      var s, cmd, env := Run(c, Init(ins)), Last(ins).cmd, Last(ins).env;
      PortPendingIff(c, Init(ins));
      EffectTold(c, s, cmd, env);
    }
  }

  // ---------- the current directory ----------

  /** The directory is the virtual root, or its real path was listed in the log. */
  ghost predicate WasListed(c: Config, cwd: string, log: seq<Touch>) {
    cwd == "/" || exists i | 0 <= i < |log| ::
      log[i].ReadDir? && log[i].path == c.paths.toReal(cwd) && log[i].found.Some?
  }

  lemma StaysListed(c: Config, cwd: string, a: seq<Touch>, b: seq<Touch>)
    requires WasListed(c, cwd, a) || WasListed(c, cwd, b)
    ensures WasListed(c, cwd, a + b)
  {
    if cwd != "/" {
      if i :| 0 <= i < |a| && a[i].ReadDir? && a[i].path == c.paths.toReal(cwd) && a[i].found.Some? {
        assert (a + b)[i] == a[i];
      } else {
        var i :| 0 <= i < |b| && b[i].ReadDir? && b[i].path == c.paths.toReal(cwd) && b[i].found.Some?;
        assert (a + b)[|a| + i] == b[i];
      }
    }
  }

  lemma EffectListed(c: Config, s: State, cmd: Command, env: Env)
    ensures var e := AfterLogin(c, s, cmd, env);
            e.cwd == s.cwd || ((cmd.Cwd? || cmd.Cdup?) && WasListed(c, e.cwd, e.touches))
  {
    if cmd.Cwd? || cmd.Cdup? {
      var e := AfterLogin(c, s, cmd, env);
      assert e.touches != [] ==> e.touches[0].ReadDir?;
    }
  }

  /** In every session the current directory is the virtual root or one that the server found and listed. */
  lemma {:induction false} EveryDirectoryWasListed(c: Config, ins: seq<Input>)
    ensures WasListed(c, Run(c, ins).cwd, Run(c, ins).log)
  {
    if ins != [] {
      var s, cmd, env := Run(c, Init(ins)), Last(ins).cmd, Last(ins).env;
      EveryDirectoryWasListed(c, Init(ins));
      EffectListed(c, s, cmd, env);
      StaysListed(c, AfterLogin(c, s, cmd, env).cwd, s.log, AfterLogin(c, s, cmd, env).touches);
    }
  }

  // ---------- renames ----------

  /** Command `m` sets or uses up the pending rename. */
  predicate Rearms(c: Config, ins: seq<Input>, m: nat)
    requires m < |ins|
  {
    var s := Run(c, ins[..m]);
    !s.ended && (ins[m].cmd.Rnto? || (ins[m].cmd.Rnfr? && c.paths.resolve(s.cwd, ins[m].cmd.arg).Some?))
  }

  /** Command `j` is an RNFR that named `f`, and nothing since has named another file or used it up. */
  predicate ArmedBy(c: Config, ins: seq<Input>, j: nat, f: string) {
    && j < |ins| && ins[j].cmd.Rnfr? && c.paths.resolve(Run(c, ins[..j]).cwd, ins[j].cmd.arg) == Some(f)
    && forall m | j < m < |ins| :: !Rearms(c, ins, m)
  }

  lemma ArmedGrows(c: Config, ins: seq<Input>, j: nat, f: string)
    requires ins != [] && ArmedBy(c, Init(ins), j, f) && !Rearms(c, ins, |ins| - 1)
    ensures ArmedBy(c, ins, j, f)
  {
    TakeOfInit(ins, j);
    forall m | j < m < |ins| - 1
      ensures !Rearms(c, ins, m)
    {
      TakeOfInit(ins, m);
      assert !Rearms(c, Init(ins), m);
    }
  }

  /** Only an RNFR that resolves and an RNTO change the pending rename. */
  lemma RenameFrame(c: Config, s: State, cmd: Command, env: Env)
    requires !cmd.Rnto? && (cmd.Rnfr? ==> c.paths.resolve(s.cwd, cmd.arg).None?)
    ensures AfterLogin(c, s, cmd, env).renameFrom == s.renameFrom
  {
  }

  lemma EffectNeedsWrite(c: Config, s: State, cmd: Command, env: Env)
    requires s.renameFrom.None? && AfterLogin(c, s, cmd, env).renameFrom.Some?
    ensures !c.readOnly && cmd.Rnfr? && AfterLogin(c, s, cmd, env).renameFrom == c.paths.resolve(s.cwd, cmd.arg)
  {
    if !cmd.Rnto? && !cmd.Rnfr? {
      RenameFrame(c, s, cmd, env);
    }
  }

  lemma {:induction false} PendingNeedsLogin(c: Config, ins: seq<Input>)
    ensures Run(c, ins).renameFrom.Some? ==> Run(c, ins).authed && !c.readOnly
  {
    if ins != [] {
      var s, cmd, env := Run(c, Init(ins)), Last(ins).cmd, Last(ins).env;
      PendingNeedsLogin(c, Init(ins));
      if s.renameFrom.None? && AfterLogin(c, s, cmd, env).renameFrom.Some? {
        EffectNeedsWrite(c, s, cmd, env);
      }
    }
  }

  lemma {:induction false} PendingRenameWasNamed(c: Config, ins: seq<Input>)
    ensures Run(c, ins).renameFrom.Some? ==> exists j: nat :: ArmedBy(c, ins, j, Run(c, ins).renameFrom.value)
  {
    if ins != [] && Run(c, ins).renameFrom.Some? {
      var pre, n := Init(ins), |ins| - 1;
      if Rearms(c, ins, n) {
        PendingNeedsLogin(c, ins);
        PendingNeedsLogin(c, pre);
        JustNamed(c, ins);
      } else {
        StillNamed(c, ins);
        PendingRenameWasNamed(c, pre);
        var j: nat :| ArmedBy(c, pre, j, Run(c, ins).renameFrom.value);
        ArmedGrows(c, ins, j, Run(c, ins).renameFrom.value);
      }
    }
  }

  lemma NamesOnResolve(c: Config, s: State, cmd: Command, env: Env)
    requires !c.readOnly && (cmd.Rnto? || (cmd.Rnfr? && c.paths.resolve(s.cwd, cmd.arg).Some?))
    ensures AfterLogin(c, s, cmd, env).renameFrom == if cmd.Rnto? then None else c.paths.resolve(s.cwd, cmd.arg)
  {
  }

  lemma JustNamed(c: Config, ins: seq<Input>)
    requires ins != [] && Rearms(c, ins, |ins| - 1) && Run(c, ins).renameFrom.Some?
    requires Run(c, ins).authed && !c.readOnly
    ensures ArmedBy(c, ins, |ins| - 1, Run(c, ins).renameFrom.value)
  {
    NamesOnResolve(c, Run(c, Init(ins)), Last(ins).cmd, Last(ins).env);
  }

  lemma StillNamed(c: Config, ins: seq<Input>)
    requires ins != [] && !Rearms(c, ins, |ins| - 1)
    ensures Run(c, ins).renameFrom == Run(c, Init(ins)).renameFrom
  {
    var s := Run(c, Init(ins));
    if !s.ended {
      RenameFrame(c, s, Last(ins).cmd, Last(ins).env);
    }
  }

  /** An RNTO renames what the last RNFR named, to what it names itself, and does nothing else. */
  lemma RenamesAsAsked(c: Config, ins: seq<Input>, k: nat)
    requires k < |ins| && ins[k].cmd.Rnto? && Run(c, ins[..k + 1]).log != Run(c, ins[..k]).log
    ensures var s := Run(c, ins[..k]);
            exists j: nat, f, t ::
              && ArmedBy(c, ins[..k], j, f) && c.paths.resolve(s.cwd, ins[k].cmd.arg) == Some(t)
              && Run(c, ins[..k + 1]).log == s.log + [Rename(c.paths.toReal(f), c.paths.toReal(t), ins[k].env.renames)]
  {
    InitOfTake(ins, k);
    PendingRenameWasNamed(c, ins[..k]);
    var s := Run(c, ins[..k]);
    var f := s.renameFrom.value;
    var j: nat :| ArmedBy(c, ins[..k], j, f);
    var t := c.paths.resolve(s.cwd, ins[k].cmd.arg).value;
    assert Run(c, ins[..k + 1]).log == s.log + [Rename(c.paths.toReal(f), c.paths.toReal(t), ins[k].env.renames)];
  }

  // ---------- uploads ----------

  function Pow16(w: nat): nat {
    if w == 0 then 1 else 16 * Pow16(w - 1)
  }

  lemma DigitInjective(x: nat, y: nat)
    requires x < 16 && y < 16 && HEX[x] == HEX[y]
    ensures x == y
  {
  }

  lemma {:induction false} HexInjective(a: nat, b: nat, w: nat)
    requires a < Pow16(w) && b < Pow16(w) && Hex(a, w) == Hex(b, w)
    ensures a == b
  {
    if w > 0 {
      var x, y := Hex(a, w), Hex(b, w);
      assert Init(x) == Hex(a / 16, w - 1) && Init(y) == Hex(b / 16, w - 1);
      DigitInjective(a % 16, b % 16);
      HexInjective(a / 16, b / 16, w - 1);
    }
  }

  lemma WordIsPow16()
    ensures Pow16(16) == 0x1_0000_0000_0000_0000
  {
    assert Pow16(4) == 0x1_0000;
    assert Pow16(8) == 0x1_0000_0000;
    assert Pow16(12) == 0x1_0000_0000_0000;
  }

  /** The temporary file of an upload names its target and its number: no two uploads with different ones share it. */
  lemma UploadNamesDiffer(t1: string, t2: string, a: nat, b: nat)
    requires a < 0x1_0000_0000_0000_0000 && b < 0x1_0000_0000_0000_0000
    requires t1 + UploadSuffix(a) == t2 + UploadSuffix(b)
    ensures t1 == t2 && a == b
  {
    var x, y := t1 + UploadSuffix(a), t2 + UploadSuffix(b);
    assert |x| == |t1| + 32 && |y| == |t2| + 32;
    assert x[..|t1|] == t1 && y[..|t1|] == t2;
    assert x[|t1| + 1..|t1| + 17] == Hex(a, 16);
    assert y[|t1| + 1..|t1| + 17] == Hex(b, 16);
    WordIsPow16();
    HexInjective(a, b, 16);
  }
}
