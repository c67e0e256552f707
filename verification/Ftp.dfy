/**
One FTP control session: login, the current directory, the pending data port,
the pending rename, and every touch of the filesystem and of the network.

The filesystem, the data connections and the delivery of replies are the
environment's choice, given with each command. What a command touches is kept
in a log, in order.
*/
module Ftp {
  import opened Common
  import opened ByteStream
  import opened Vfs

  /** How the session turns client paths into real ones. */
  datatype Paths = Paths(
    resolve: (string, string) -> Option<string>,
    toReal: string -> string,
    splitParent: string -> (string, string),
    partial: (string, nat) -> string)

  datatype Config = Config(paths: Paths, username: string, password: string, readOnly: bool, maxTransferBytes: nat)

  const HEX := "0123456789abcdef"

  function Hex(n: nat, width: nat): (h: string)
    ensures |h| == width && '/' !in h
  {
    if width == 0 then "" else Hex(n / 16, width - 1) + [HEX[n % 16]]
  }

  function UploadSuffix(id: nat): string {
    "." + Hex(id, 16) + ".upload.partial"
  }

  /** The paths of a session jailed in a directory. */
  function VfsPaths(jail: Jail): Paths {
    Paths(
      (cwd: string, arg: string) => Resolve(cwd, arg),
      (v: string) => ToReal(jail, v),
      (v: string) => SplitParent(v),
      (target: string, id: nat) => target + UploadSuffix(id))
  }

  datatype Command =
    | User(name: string)
    | Pass(password: string)
    | Syst
    | Feat
    | Type(arg: string)
    | Pwd
    | Cwd(arg: string)
    | Cdup
    | Pasv
    | Epsv(option: Option<string>)
    | List(option: Option<string>)
    | Nlst(option: Option<string>)
    | Retr(arg: string)
    | Stor(arg: string)
    | Size(arg: string)
    | Dele(arg: string)
    | Mkd(arg: string)
    | Rmd(arg: string)
    | Rnfr(arg: string)
    | Rnto(arg: string)
    | Quit
    | Noop
    | Unknown(line: string)

  datatype DirEntry = DirEntry(name: string, isDir: bool, size: nat)

  /** Who opened the data connection, if anyone did in time. */
  datatype Caller = ControlPeer | SomeoneElse | Nobody

  /** What the world answers while one command is served. */
  datatype Env = Env(
    addressKnown: bool,
    binds: bool,
    dir: Option<seq<DirEntry>>,
    readable: bool,
    opens: bool,
    caller: Caller,
    receives: bool,
    renames: bool,
    uploadId: nat,
    replies: bool)

  datatype Touch =
    | ReadDir(path: string, found: Option<seq<DirEntry>>)
    | ReadFile(path: string)
    | WriteFile(path: string)
    | MakeDir(path: string)
    | Remove(path: string)
    | Rename(path: string, to: string, ok: bool)
    | Bind(ok: bool)
    | Accept(caller: Caller)
    | Send

  predicate Changes(t: Touch) {
    t.WriteFile? || t.MakeDir? || t.Remove? || t.Rename?
  }

  datatype State = State(
    cwd: string,
    authed: bool,
    pendingUser: Option<string>,
    pasv: bool,
    renameFrom: Option<string>,
    ended: bool,
    log: seq<Touch>)

  datatype Input = Input(cmd: Command, env: Env)

  function Start(): State {
    State("/", false, None, false, None, false, [])
  }

  // ---------- what each command does ----------

  function OrEmpty(o: Option<string>): string {
    if o.Some? then o.value else ""
  }

  function Login(c: Config, s: State, password: string): State {
    var ok := OrEmpty(s.pendingUser) == c.username && password == c.password;
    s.(pendingUser := None, authed := s.authed || ok)
  }

  /** What a command after login leaves of the session, whether it ended it, and what it touched, in order. */
  datatype Effect = Effect(cwd: string, pasv: bool, renameFrom: Option<string>, ended: bool, touches: seq<Touch>)

  function Apply(s: State, e: Effect): State {
    s.(cwd := e.cwd, pasv := e.pasv, renameFrom := e.renameFrom, ended := s.ended || e.ended, log := s.log + e.touches)
  }

  function Only(s: State, touches: seq<Touch>): Effect {
    Effect(s.cwd, s.pasv, s.renameFrom, false, touches)
  }

  function ChangeDir(c: Config, s: State, arg: string, env: Env): Effect {
    match c.paths.resolve(s.cwd, arg)
    case None => Only(s, [])
    case Some(v) => Only(if env.dir.Some? then s.(cwd := v) else s, [ReadDir(c.paths.toReal(v), env.dir)])
  }

  function OpenPort(s: State, env: Env): Effect {
    Only(s.(pasv := env.binds), [Bind(env.binds)])
  }

  /** Give the pending data port away; over the connection that comes in, if it is the client's, `moves` happen. */
  function UsePort(s: State, before: seq<Touch>, moves: seq<Touch>, env: Env): Effect {
    if !s.pasv then Only(s, before)
    else if !env.opens then Only(s, before).(pasv := false, ended := true)
    else Only(s.(pasv := false), before + [Accept(env.caller)] + if env.caller.ControlPeer? then moves else [])
  }

  function Listed(c: Config, s: State, v: string, env: Env): Effect {
    var touched := [ReadDir(c.paths.toReal(v), env.dir)];
    if env.dir.Some? then UsePort(s, touched, [Send], env) else Only(s, touched)
  }

  function ListDir(c: Config, s: State, option: Option<string>, env: Env): Effect {
    if option.Some? && option.value != "" && option.value[0] != '-' then
      match c.paths.resolve(s.cwd, option.value)
      case None => Only(s, [])
      case Some(v) => Listed(c, s, v, env)
    else Listed(c, s, s.cwd, env)
  }

  function FindFile(entries: seq<DirEntry>, name: string): (r: Option<nat>)
    ensures r.Some? <==> exists i | 0 <= i < |entries| :: entries[i].name == name && !entries[i].isDir
    ensures r.Some? ==> exists i | 0 <= i < |entries| ::
                          && entries[i].name == name && !entries[i].isDir && entries[i].size == r.value
                          && forall j | 0 <= j < i :: entries[j].name != name || entries[j].isDir
  {
    if entries == [] then None
    else if entries[0].name == name && !entries[0].isDir then Some(entries[0].size)
    else FindFile(entries[1..], name)
  }

  function Fetch(c: Config, s: State, v: string, env: Env): Effect {
    var (parent, name) := c.paths.splitParent(v);
    var looked := [ReadDir(c.paths.toReal(parent), env.dir)];
    if env.dir.None? then Only(s, looked)
    else
      match FindFile(env.dir.value, name)
      case None => Only(s, looked)
      case Some(size) =>
        if size > c.maxTransferBytes then Only(s, looked)
        else
          var touched := looked + [ReadFile(c.paths.toReal(v))];
          if env.readable then UsePort(s, touched, [Send], env) else Only(s, touched)
  }

  function Upload(c: Config, target: string, env: Env): seq<Touch> {
    var partial := c.paths.partial(target, env.uploadId);
    if !env.receives then [WriteFile(partial), Remove(partial)]
    else if env.renames then [WriteFile(partial), Rename(partial, target, env.renames)]
    else [WriteFile(partial), Rename(partial, target, env.renames), Remove(partial)]
  }

  function RenameTo(c: Config, s: State, arg: string, env: Env): Effect {
    if s.renameFrom.None? then Only(s, [])
    else
      var s1 := s.(renameFrom := None);
      match c.paths.resolve(s.cwd, arg)
      case None => Only(s1, [])
      case Some(v) => Only(s1, [Rename(c.paths.toReal(s.renameFrom.value), c.paths.toReal(v), env.renames)])
  }

  function Upper(ch: char): char {
    if 'a' <= ch <= 'z' then ((ch as int - 32) as char) else ch
  }

  predicate IsAll(option: Option<string>) {
    option.Some? && |option.value| == 3
    && Upper(option.value[0]) == 'A' && Upper(option.value[1]) == 'L' && Upper(option.value[2]) == 'L'
  }

  /** Commands on one path that are allowed only when the session may write. */
  function OnPath(c: Config, s: State, cmd: Command, env: Env): Effect
    requires cmd.Stor? || cmd.Dele? || cmd.Mkd? || cmd.Rnfr?
  {
    if c.readOnly then Only(s, [])
    else
      match c.paths.resolve(s.cwd, cmd.arg)
      case None => Only(s, [])
      case Some(v) =>
        if cmd.Stor? then UsePort(s, [], Upload(c, c.paths.toReal(v), env), env)
        else if cmd.Dele? then Only(s, [Remove(c.paths.toReal(v))])
        else if cmd.Mkd? then Only(s, [MakeDir(c.paths.toReal(v))])
        else Only(s.(renameFrom := Some(v)), [])
  }

  /** Commands that open a data port, when they do. */
  function PortCommand(s: State, cmd: Command, env: Env): Effect
    requires cmd.Pasv? || cmd.Epsv?
  {
    if (if cmd.Pasv? then env.addressKnown else !IsAll(cmd.option)) then OpenPort(s, env) else Only(s, [])
  }

  /** Commands that look at one path. */
  function Inspect(c: Config, s: State, cmd: Command, env: Env): Effect
    requires cmd.Retr? || cmd.Size?
  {
    match c.paths.resolve(s.cwd, cmd.arg)
    case None => Only(s, [])
    case Some(v) =>
      if cmd.Retr? then Fetch(c, s, v, env) else Only(s, [ReadDir(c.paths.toReal(c.paths.splitParent(v).0), env.dir)])
  }

  predicate NeedsWrite(cmd: Command) {
    cmd.Stor? || cmd.Dele? || cmd.Mkd? || cmd.Rnfr?
  }

  /** Commands that move around, open ports and list. */
  predicate Browses(cmd: Command) {
    cmd.Cwd? || cmd.Cdup? || cmd.Pasv? || cmd.Epsv? || cmd.List? || cmd.Nlst?
  }

  function AfterLogin(c: Config, s: State, cmd: Command, env: Env): Effect {
    if cmd.Cwd? then ChangeDir(c, s, cmd.arg, env)
    else if cmd.Cdup? then ChangeDir(c, s, "..", env)
    else if cmd.Pasv? || cmd.Epsv? then PortCommand(s, cmd, env)
    else if cmd.List? || cmd.Nlst? then ListDir(c, s, cmd.option, env)
    else if cmd.Retr? || cmd.Size? then Inspect(c, s, cmd, env)
    else if NeedsWrite(cmd) then OnPath(c, s, cmd, env)
    else if cmd.Rnto? then RenameTo(c, s, cmd.arg, env)
    else Only(s, [])
  }

  /** Commands answered whether or not the client has logged in. */
  predicate AnyTime(cmd: Command) {
    cmd.User? || cmd.Pass? || cmd.Quit? || cmd.Syst? || cmd.Feat? || cmd.Noop?
  }

  function Greet(c: Config, s: State, cmd: Command): State {
    match cmd
    case User(name) => s.(pendingUser := Some(name))
    case Pass(password) => Login(c, s, password)
    case Quit => s.(ended := true)
    case _ => s
  }

  function Act(c: Config, s: State, cmd: Command, env: Env): State {
    if AnyTime(cmd) then Greet(c, s, cmd)
    else if s.authed then Apply(s, AfterLogin(c, s, cmd, env))
    else s
  }

  /** One command; a reply that cannot be delivered ends the session. */
  function Step(c: Config, s: State, cmd: Command, env: Env): State {
    if s.ended then s
    else
      var s1 := Act(c, s, cmd, env);
      s1.(ended := s1.ended || !env.replies)
  }

  function Run(c: Config, ins: seq<Input>): State {
    if ins == [] then Start() else Step(c, Run(c, Init(ins)), Last(ins).cmd, Last(ins).env)
  }

  // ---------- receiving an upload ----------

  datatype Received = Whole | TooLarge | DiskFailed | StreamFailed

  /** A peer that sends everything it has and closes. */
  predicate SendsAndCloses(script: seq<Choice>, bytes: nat) {
    |script| > bytes && forall c | c in script :: c == Close
  }

  /**
  Receive a body into a temporary file, a piece at a time. `room` is how many
  pieces the disk takes. The file never grows past the limit and is always what
  came first; it is the whole body when that is what is reported. Each failure
  has its own cause, and with a peer that sends and closes and a disk that takes
  everything the size alone decides.
  */
  method StreamToFile(data: Stream, maxBytes: nat, room: Option<nat>) returns (file: seq<byte>, r: Received)
    modifies data
    ensures file <= old(data.incoming) && |file| <= maxBytes
    ensures r.Whole? ==> file == old(data.incoming)
    ensures r.TooLarge? ==> |old(data.incoming)| > maxBytes
    ensures r.DiskFailed? ==> room.Some?
    ensures r.StreamFailed? ==>
              Break in old(data.script) || TimeOut in old(data.script) || data.incoming == [] || data.script == []
    ensures room.None? && SendsAndCloses(old(data.script), |old(data.incoming)|) ==>
              r == if |old(data.incoming)| <= maxBytes then Whole else TooLarge
  {
    file := [];
    var total, pieces := 0, 0;
    while true
      invariant total == |file| <= maxBytes
      invariant old(data.incoming) == file + data.incoming
      invariant Later(old(data.script), data.script)
      invariant |old(data.script)| <= |file| + |data.script|
      decreases |data.incoming|
    {
      assert data.script != [] ==> data.script[0] in data.script;
      var got := data.Read(8192);
      match got {
        case Eof =>
          Empty(file);
          return file, Whole;
        case Data(bytes) =>
          total := total + |bytes|;
          if total > maxBytes {
            return file, TooLarge;
          }
          if room == Some(pieces) {
            return file, DiskFailed;
          }
          pieces := pieces + 1;
          Assoc(file, bytes, data.incoming);
          file := file + bytes;
        case _ =>
          return file, StreamFailed;
      }
    }
  }

  // ---------- the session object ----------

  lemma NothingTouched(s: State)
    ensures Apply(s, Only(s, [])) == s
  {
    Empty(s.log);
  }

  lemma ThreeParts(log: seq<Touch>, a: seq<Touch>, b: seq<Touch>, c: seq<Touch>)
    ensures log + a + b + c == log + (a + b + c) && log + a + b == log + (a + b)
    ensures a + b + [] == a + b && log + [] == log
    ensures [] + a == a
  {
  }

  class Session {
    const config: Config
    var cwd: string
    var authed: bool
    var pendingUser: Option<string>
    var pasv: bool
    var renameFrom: Option<string>
    var ended: bool
    var log: seq<Touch>

    ghost function Model(): State
      reads this
    {
      State(cwd, authed, pendingUser, pasv, renameFrom, ended, log)
    }

    constructor (c: Config)
      ensures config == c && Model() == Start()
    {
      config := c;
      cwd, authed, pendingUser, pasv, renameFrom, ended, log := "/", false, None, false, None, false, [];
    }

    method Note(t: Touch)
      modifies this`log
      ensures log == old(log) + [t]
    {
      log := log + [t];
    }

    method DoCwd(arg: string, env: Env)
      modifies this
      ensures Model() == Apply(old(Model()), ChangeDir(config, old(Model()), arg, env))
    {
      NothingTouched(Model());
      var v := config.paths.resolve(cwd, arg);
      if v.None? {
        return;
      }
      Note(ReadDir(config.paths.toReal(v.value), env.dir));
      if env.dir.Some? {
        cwd := v.value;
      }
    }

    method BindPassive(env: Env)
      modifies this
      ensures Model() == Apply(old(Model()), OpenPort(old(Model()), env))
      ensures pasv <==> env.binds
    {
      pasv := false;
      Note(Bind(env.binds));
      if env.binds {
        pasv := true;
      }
    }

    method TakeDataPort(env: Env) returns (accepted: bool)
      modifies this
      ensures accepted <==> old(pasv) && env.opens
      ensures Model() == old(Model()).(pasv := false,
                                       ended := old(ended) || (old(pasv) && !env.opens),
                                       log := old(log) + if accepted then [Accept(env.caller)] else [])
    {
      accepted := false;
      if !pasv {
        return;
      }
      pasv := false;
      if !env.opens {
        ended := true;
        return;
      }
      Note(Accept(env.caller));
      accepted := true;
    }

    method DoSend(ghost s: State, ghost before: seq<Touch>, env: Env)
      requires Model() == Apply(s, Only(s, before))
      modifies this
      ensures Model() == Apply(s, UsePort(s, before, [Send], env))
    {
      var accepted := TakeDataPort(env);
      if accepted && env.caller.ControlPeer? {
        Note(Send);
      }
      ThreeParts(s.log, before, [Accept(env.caller)], [Send]);
    }

    method DoList(option: Option<string>, env: Env)
      modifies this
      ensures Model() == Apply(old(Model()), ListDir(config, old(Model()), option, env))
    {
      ghost var s := Model();
      NothingTouched(s);
      var v := cwd;
      if option.Some? && option.value != "" && option.value[0] != '-' {
        var r := config.paths.resolve(cwd, option.value);
        if r.None? {
          return;
        }
        v := r.value;
      }
      Note(ReadDir(config.paths.toReal(v), env.dir));
      if env.dir.Some? {
        DoSend(s, [ReadDir(config.paths.toReal(v), env.dir)], env);
      }
    }

    method DoRetr(arg: string, env: Env)
      modifies this
      ensures Model() == Apply(old(Model()), match config.paths.resolve(old(cwd), arg)
                                             case None => Only(old(Model()), [])
                                             case Some(v) => Fetch(config, old(Model()), v, env))
    {
      ghost var s := Model();
      NothingTouched(s);
      var r := config.paths.resolve(cwd, arg);
      if r.None? {
        return;
      }
      var (parent, name) := config.paths.splitParent(r.value);
      ghost var looked := [ReadDir(config.paths.toReal(parent), env.dir)];
      Note(ReadDir(config.paths.toReal(parent), env.dir));
      if env.dir.None? {
        return;
      }
      var size := FindFile(env.dir.value, name);
      if size.None? || size.value > config.maxTransferBytes {
        return;
      }
      ghost var read := [ReadFile(config.paths.toReal(r.value))];
      Note(ReadFile(config.paths.toReal(r.value)));
      Assoc(s.log, looked, read);
      if env.readable {
        DoSend(s, looked + read, env);
      }
    }

    method Receive(target: string, env: Env)
      modifies this`log
      ensures log == old(log) + Upload(config, target, env)
    {
      ghost var start := log;
      var partial := config.paths.partial(target, env.uploadId);
      var name := WriteFile(partial);
      Note(name);
      if !env.receives {
        Note(Remove(partial));
        ThreeParts(start, [name], [Remove(partial)], []);
        return;
      }
      Note(Rename(partial, target, env.renames));
      ThreeParts(start, [name], [Rename(partial, target, env.renames)], [Remove(partial)]);
      if !env.renames {
        Note(Remove(partial));
      }
    }

    method DoStor(arg: string, env: Env)
      modifies this
      ensures Model() == Apply(old(Model()), OnPath(config, old(Model()), Stor(arg), env))
    {
      ghost var s := Model();
      NothingTouched(s);
      if config.readOnly {
        return;
      }
      var r := config.paths.resolve(cwd, arg);
      if r.None? {
        return;
      }
      var target := config.paths.toReal(r.value);
      ThreeParts(log, [], [Accept(env.caller)], Upload(config, target, env));
      Empty([Accept(env.caller)]);
      var accepted := TakeDataPort(env);
      if accepted && env.caller.ControlPeer? {
        Receive(target, env);
      }
    }

    method DoRnto(arg: string, env: Env)
      modifies this
      ensures Model() == Apply(old(Model()), RenameTo(config, old(Model()), arg, env))
      ensures renameFrom.None?
    {
      NothingTouched(Model());
      if renameFrom.None? {
        return;
      }
      var from := renameFrom.value;
      renameFrom := None;
      var r := config.paths.resolve(cwd, arg);
      if r.None? {
        return;
      }
      Note(Rename(config.paths.toReal(from), config.paths.toReal(r.value), env.renames));
    }

    method DoOnPath(cmd: Command, env: Env)
      requires cmd.Dele? || cmd.Mkd? || cmd.Rnfr?
      modifies this
      ensures Model() == Apply(old(Model()), OnPath(config, old(Model()), cmd, env))
    {
      NothingTouched(Model());
      if config.readOnly {
        return;
      }
      var r := config.paths.resolve(cwd, cmd.arg);
      if r.None? {
        return;
      }
      if cmd.Dele? {
        Note(Remove(config.paths.toReal(r.value)));
      } else if cmd.Mkd? {
        Note(MakeDir(config.paths.toReal(r.value)));
      } else {
        renameFrom := r;
      }
    }

    method DoBrowse(cmd: Command, env: Env)
      requires Browses(cmd)
      modifies this
      ensures Model() == Apply(old(Model()), AfterLogin(config, old(Model()), cmd, env))
    {
      NothingTouched(Model());
      match cmd
      case Cwd(arg) => DoCwd(arg, env);
      case Cdup => DoCwd("..", env);
      case Pasv =>
        if env.addressKnown {
          BindPassive(env);
        }
      case Epsv(option) =>
        if !IsAll(option) {
          BindPassive(env);
        }
      case List(option) => DoList(option, env);
      case Nlst(option) => DoList(option, env);
    }

    method DoFiles(cmd: Command, env: Env)
      requires !Browses(cmd)
      modifies this
      ensures Model() == Apply(old(Model()), AfterLogin(config, old(Model()), cmd, env))
    {
      NothingTouched(Model());
      match cmd
      case Retr(arg) => DoRetr(arg, env);
      case Size(arg) =>
        var r := config.paths.resolve(cwd, arg);
        if r.Some? {
          Note(ReadDir(config.paths.toReal(config.paths.splitParent(r.value).0), env.dir));
        }
      case Stor(arg) => DoStor(arg, env);
      case Dele(_) => DoOnPath(cmd, env);
      case Mkd(_) => DoOnPath(cmd, env);
      case Rnfr(_) => DoOnPath(cmd, env);
      case Rnto(arg) => DoRnto(arg, env);
      case _ =>
    }

    method DoAfterLogin(cmd: Command, env: Env)
      modifies this
      ensures Model() == Apply(old(Model()), AfterLogin(config, old(Model()), cmd, env))
    {
      if Browses(cmd) {
        DoBrowse(cmd, env);
      } else {
        DoFiles(cmd, env);
      }
    }

    method DoGreet(cmd: Command)
      modifies this
      ensures Model() == Greet(config, old(Model()), cmd)
    {
      match cmd
      case User(name) => pendingUser := Some(name);
      case Pass(password) =>
        var user := OrEmpty(pendingUser);
        pendingUser := None;
        if user == config.username && password == config.password {
          authed := true;
        }
      case Quit => ended := true;
      case _ =>
    }

    method DoAct(cmd: Command, env: Env)
      modifies this
      ensures Model() == Act(config, old(Model()), cmd, env)
    {
      if AnyTime(cmd) {
        DoGreet(cmd);
      } else if authed {
        DoAfterLogin(cmd, env);
      }
    }

    method Dispatch(cmd: Command, env: Env)
      requires !ended
      modifies this
      ensures Model() == Step(config, old(Model()), cmd, env)
    {
      DoAct(cmd, env);
      ended := ended || !env.replies;
    }

    /** The whole session: commands until one ends it. */
    method Serve(ins: seq<Input>)
      requires Model() == Start()
      modifies this
      ensures Model() == Run(config, ins)
    {
      for i := 0 to |ins|
        invariant Model() == Run(config, ins[..i])
      {
        InitOfTake(ins, i);
        if !ended {
          Dispatch(ins[i].cmd, ins[i].env);
        }
      }
      TakeAll(ins);
    }
  }
}
