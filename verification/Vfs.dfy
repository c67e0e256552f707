/**
The path jail of the FTP server.

Client paths are text. They are split at slashes, walked from the virtual root
or from the current directory, and either escape above the root or give a
normal path. A normal path is then mapped to a real one.
*/
module Vfs {
  import opened Common

  datatype Jail = Jail(root: string, allowDevicePaths: bool)

  type Segments = seq<string>

  // ---------- text and segments ----------

  /** The pieces of a text between its slashes; one more than there are slashes. */
  function Split(s: string): (segs: Segments)
    ensures |segs| > 0
  {
    if s == "" then [""]
    else
      var rest := Split(s[1..]);
      if s[0] == '/' then [""] + rest else [[s[0]] + rest[0]] + rest[1..]
  }

  /** The segments, each after a slash. */
  function Render(segs: Segments): string {
    if segs == [] then "" else Render(Init(segs)) + ("/" + Last(segs))
  }

  function Path(segs: Segments): (v: string)
    ensures v != ""
  {
    if segs == [] then "/" else Render(segs)
  }

  predicate Plain(seg: string) {
    seg != "" && seg != "." && seg != ".." && '/' !in seg
  }

  predicate Normal(segs: Segments) {
    forall i | 0 <= i < |segs| :: Plain(segs[i])
  }

  /** A path in normal form: absolute, with nothing left to resolve. */
  ghost predicate NormalPath(v: string) {
    exists segs: Segments :: Normal(segs) && v == Path(segs)
  }

  predicate IsAbsolute(s: string) {
    s != "" && s[0] == '/'
  }

  // ---------- resolving ----------

  /** What one segment does to the segments walked so far; `None` if it would leave the root. */
  function Enter(stack: Segments, seg: string): Option<Segments> {
    if seg == "" || seg == "." then Some(stack)
    else if seg == ".." then (if stack == [] then None else Some(Init(stack)))
    else Some(stack + [seg])
  }

  function Walk(stack: Segments, segs: Segments): Option<Segments>
    decreases |segs|
  {
    if segs == [] then Some(stack)
    else
      match Enter(stack, segs[0])
      case None => None
      case Some(next) => Walk(next, segs[1..])
  }

  function Resolve(cwd: string, arg: string): Option<string> {
    match Walk([], Split(if IsAbsolute(arg) then "/" else cwd) + Split(arg))
    case None => None
    case Some(segs) => Some(Path(segs))
  }

  method ResolvePath(cwd: string, arg: string) returns (r: Option<string>)
    ensures r == Resolve(cwd, arg)
  {
    var todo := Split(if IsAbsolute(arg) then "/" else cwd) + Split(arg);
    ghost var all := todo;
    var segs: Segments := [];
    while todo != []
      invariant Walk([], all) == Walk(segs, todo)
      decreases |todo|
    {
      var seg := todo[0];
      todo := todo[1..];
      if seg == "" || seg == "." {
      } else if seg == ".." {
        if segs == [] {
          return None;
        }
        segs := Init(segs);
      } else {
        segs := segs + [seg];
      }
    }
    return Some(Path(segs));
  }

  // ---------- to real paths ----------

  /** A root without the slashes at its end, and only without those. */
  function TrimSlashes(s: string): (t: string)
    ensures t <= s && (t == "" || Last(t) != '/')
    ensures forall i | |t| <= i < |s| :: s[i] == '/'
  {
    if s != "" && Last(s) == '/' then TrimSlashes(Init(s)) else s
  }

  function NewJail(root: string, allowDevicePaths: bool): Jail {
    Jail(TrimSlashes(root), allowDevicePaths)
  }

  /** A device name: one colon, at the end, with something before it. */
  predicate IsDevice(seg: string) {
    |seg| >= 2 && Last(seg) == ':' && ':' !in Init(seg)
  }

  function ToReal(jail: Jail, v: string): string {
    if IsAbsolute(v) && jail.allowDevicePaths && IsDevice(Split(v[1..])[0]) then v[1..]
    else if v == "/" then jail.root
    else jail.root + v
  }

  function LastSlash(s: string): (r: Option<nat>)
    ensures r.Some? ==> r.value < |s| && s[r.value] == '/' && '/' !in s[r.value + 1..]
    ensures r.None? ==> '/' !in s
  {
    if s == "" then None else if Last(s) == '/' then Some(|s| - 1) else LastSlash(Init(s))
  }

  /** A path's directory and its last name. */
  function SplitParent(v: string): (string, string) {
    match LastSlash(v)
    case Some(i) => if i == 0 then ("/", v[1..]) else (v[..i], v[i + 1..])
    case None => ("/", v)
  }

  // ---------- splitting and walking ----------

  lemma {:induction false} SplitJoin(a: string, b: string)
    ensures Split(a + "/" + b) == Split(a) + Split(b)
  {
    if a == "" {
      assert (a + "/" + b)[1..] == b;
    } else {
      assert (a + "/" + b)[1..] == a[1..] + "/" + b;
      SplitJoin(a[1..], b);
    }
  }

  lemma {:induction false} SplitOne(seg: string)
    requires '/' !in seg
    ensures Split(seg) == [seg]
  {
    if seg != "" {
      SplitOne(seg[1..]);
      assert [seg[0]] + seg[1..] == seg;
    }
  }

  lemma {:induction false} SplitRender(segs: Segments)
    requires Normal(segs)
    ensures Split(Render(segs)) == [""] + segs
  {
    if segs != [] {
      SplitRender(Init(segs));
      SplitJoin(Render(Init(segs)), Last(segs));
      Assoc(Render(Init(segs)), "/", Last(segs));
      SplitOne(Last(segs));
      assert [""] + Init(segs) + [Last(segs)] == [""] + segs;
    }
  }

  lemma {:induction false} WalkConcat(stack: Segments, a: Segments, b: Segments)
    ensures Walk(stack, a + b) ==
            (match Walk(stack, a) case None => None case Some(next) => Walk(next, b))
    decreases |a|
  {
    if a == [] {
      Empty(b);
    } else {
      assert (a + b)[1..] == a[1..] + b;
      match Enter(stack, a[0])
      case None =>
      case Some(next) => WalkConcat(next, a[1..], b);
    }
  }

  lemma {:induction false} WalkPlain(stack: Segments, segs: Segments)
    requires Normal(segs)
    ensures Walk(stack, segs) == Some(stack + segs)
    decreases |segs|
  {
    if segs == [] {
      Empty(stack);
    } else {
      WalkPlain(stack + [segs[0]], segs[1..]);
      assert stack + [segs[0]] + segs[1..] == stack + segs;
    }
  }

  lemma WalkPath(segs: Segments)
    requires Normal(segs)
    ensures Walk([], Split(Path(segs))) == Some(segs)
  {
    if segs == [] {
      assert Split("/") == ["", ""];
    } else {
      SplitRender(segs);
      assert ([""] + segs)[1..] == segs;
      WalkPlain([], segs);
      Empty(segs);
    }
  }

  lemma {:induction false} SplitHasNoSlash(s: string)
    ensures forall i | 0 <= i < |Split(s)| :: '/' !in Split(s)[i]
  {
    if s != "" {
      SplitHasNoSlash(s[1..]);
    }
  }

  lemma {:induction false} WalkStaysNormal(stack: Segments, segs: Segments)
    requires Normal(stack) && forall i | 0 <= i < |segs| :: '/' !in segs[i]
    ensures Walk(stack, segs).Some? ==> Normal(Walk(stack, segs).value)
    decreases |segs|
  {
    if segs != [] {
      match Enter(stack, segs[0])
      case None =>
      case Some(next) => WalkStaysNormal(next, segs[1..]);
    }
  }

  // ---------- what resolving promises ----------

  /** Every path that resolves is in normal form, whatever the directory and the argument were. */
  lemma ResolveIsNormal(cwd: string, arg: string)
    ensures Resolve(cwd, arg).Some? ==> NormalPath(Resolve(cwd, arg).value)
  {
    var base := if IsAbsolute(arg) then "/" else cwd;
    SplitHasNoSlash(base);
    SplitHasNoSlash(arg);
    WalkStaysNormal([], Split(base) + Split(arg));
  }

  lemma PathIsAbsolute(segs: Segments)
    ensures IsAbsolute(Path(segs))
  {
    if segs != [] {
      RenderStarts(segs);
    }
  }

  lemma {:induction false} RenderStarts(segs: Segments)
    requires segs != []
    ensures IsAbsolute(Render(segs))
  {
    if |segs| > 1 {
      RenderStarts(Init(segs));
    }
  }

  /** A normal path resolves to itself from anywhere, and a normal directory stays where it is on "" and ".". */
  lemma NormalIsFixed(cwd: string, v: string)
    requires NormalPath(v)
    ensures Resolve(cwd, v) == Some(v)
    ensures Resolve(v, "") == Some(v) == Resolve(v, ".")
  {
    var segs: Segments :| Normal(segs) && v == Path(segs);
    PathIsAbsolute(segs);
    WalkPath(segs);
    assert Split("/") == ["", ""] && Split("") == [""];
    SplitOne(".");
    WalkConcat([], Split("/"), Split(v));
    WalkConcat([], Split(v), Split(""));
    WalkConcat([], Split(v), Split("."));
    assert Walk([], ["", ""]) == Some([]);
    assert Walk(segs, [""]) == Some(segs) == Walk(segs, ["."]);
  }

  /** Resolving a joined path is resolving its two parts, one after the other, failures included. */
  lemma ResolveJoin(cwd: string, a: string, b: string)
    requires a != "" && !IsAbsolute(b)
    ensures Resolve(cwd, a + "/" + b) == (match Resolve(cwd, a) case None => None case Some(v) => Resolve(v, b))
  {
    var base := if IsAbsolute(a) then "/" else cwd;
    SplitJoin(a, b);
    Assoc(Split(base), Split(a), Split(b));
    WalkConcat([], Split(base) + Split(a), Split(b));
    match Walk([], Split(base) + Split(a))
    case None =>
    case Some(segs) =>
      SplitHasNoSlash(base);
      SplitHasNoSlash(a);
      WalkStaysNormal([], Split(base) + Split(a));
      WalkPath(segs);
      WalkConcat([], Split(Path(segs)), Split(b));
  }

  // ---------- what ".." takes off ----------

  /** A name and a ".." right after it take each other away, anywhere in a walk. */
  lemma UpUndoesName(stack: Segments, a: Segments, name: string, b: Segments)
    requires Plain(name)
    ensures Walk(stack, a + [name, ".."] + b) == Walk(stack, a + b)
  {
    WalkConcat(stack, a + [name, ".."], b);
    WalkConcat(stack, a, [name, ".."]);
    WalkConcat(stack, a, b);
    if Walk(stack, a).Some? {
      var here := Walk(stack, a).value;
      assert [name, ".."] == [name] + [".."] && Init(here + [name]) == here;
      WalkConcat(here, [name], [".."]);
      WalkOne(here, name);
      WalkOne(here + [name], "..");
    }
  }

  /** An empty segment and a "." change nothing, anywhere in a walk. */
  lemma StayingPut(stack: Segments, a: Segments, dot: string, b: Segments)
    requires dot == "" || dot == "."
    ensures Walk(stack, a + [dot] + b) == Walk(stack, a + b)
  {
    WalkConcat(stack, a + [dot], b);
    WalkConcat(stack, a, [dot]);
    WalkConcat(stack, a, b);
    if Walk(stack, a).Some? {
      WalkOne(Walk(stack, a).value, dot);
    }
  }

  /** Going up from a directory leads to its parent, the path without its last name. */
  lemma UpIsParent(v: string)
    requires NormalPath(v) && v != "/"
    ensures Resolve(v, "..") == Some(SplitParent(v).0)
  {
    var segs: Segments :| Normal(segs) && v == Path(segs);
    SplitParentOf(segs);
    WalkPath(segs);
    SplitOne("..");
    WalkConcat([], Split(v), [".."]);
    WalkOne(segs, "..");
  }

  /** Going into a directory and up again is staying, whatever the path before it was. */
  lemma UpUndoesDown(cwd: string, a: string, name: string)
    requires a != "" && Plain(name)
    ensures Resolve(cwd, a + "/" + name + "/..") == Resolve(cwd, a)
  {
    var base := Split(if IsAbsolute(a) then "/" else cwd);
    SplitJoin(a + "/" + name, "..");
    assert a + "/" + name + "/" + ".." == a + "/" + name + "/..";
    SplitJoin(a, name);
    SplitOne(name);
    SplitOne("..");
    assert base + (Split(a) + [name] + [".."]) == base + Split(a) + [name, ".."] + [];
    UpUndoesName([], base + Split(a), name, []);
    Empty(base + Split(a));
  }

  /** An absolute path resolves the same from everywhere, a relative one as its directory with it behind. */
  lemma WhereItStarts(cwd: string, arg: string)
    ensures IsAbsolute(arg) ==> Resolve(cwd, arg) == Resolve("/", arg)
    ensures !IsAbsolute(arg) && IsAbsolute(cwd) ==> Resolve(cwd, arg) == Resolve("/", cwd + "/" + arg)
  {
    if !IsAbsolute(arg) && IsAbsolute(cwd) {
      SplitJoin(cwd, arg);
      var all := Split(cwd) + Split(arg);
      WalkConcat([], Split("/"), all);
      assert Split("/") == ["", ""] && Walk([], ["", ""]) == Some([]);
    }
  }

  // ---------- when it escapes ----------

  /** How many levels further down the segments end than they began, counting each name and each "..". */
  function Descent(segs: Segments): int {
    if segs == [] then 0
    else
      Descent(Init(segs)) +
      (if Last(segs) == "" || Last(segs) == "." then 0 else if Last(segs) == ".." then -1 else 1)
  }

  /** Some prefix of the segments ends above where depth zero is. */
  ghost predicate Surfaces(depth: int, segs: Segments) {
    exists k | 0 <= k <= |segs| :: DescentTo(segs, k) < -depth
  }

  function DescentTo(segs: Segments, k: nat): int
    requires k <= |segs|
  {
    Descent(segs[..k])
  }

  /**
  A walk fails exactly when some prefix of it goes up more often than down; otherwise it ends
  as deep as it counts.
  */
  lemma {:induction false} WalkFailsIff(stack: Segments, segs: Segments)
    ensures Walk(stack, segs).None? <==> Surfaces(|stack|, segs)
    ensures Walk(stack, segs).Some? ==> |Walk(stack, segs).value| == |stack| + Descent(segs)
  {
    if segs != [] {
      var pre := Init(segs);
      assert segs == pre + [Last(segs)];
      WalkFailsIff(stack, pre);
      WalkConcat(stack, pre, [Last(segs)]);
      SurfacesStep(|stack|, segs);
      if Walk(stack, pre).Some? {
        WalkOne(Walk(stack, pre).value, Last(segs));
      }
    } else {
      assert DescentTo(segs, 0) == 0;
    }
  }

  lemma WalkOne(stack: Segments, seg: string)
    ensures Walk(stack, [seg]) == Enter(stack, seg)
  {
    assert [seg][1..] == [];
  }

  lemma DescentPrefix(segs: Segments, k: nat)
    requires k < |segs|
    ensures DescentTo(segs, k) == DescentTo(Init(segs), k)
  {
    TakeOfInit(segs, k);
  }

  lemma SurfacesStep(depth: int, segs: Segments)
    requires segs != []
    ensures Surfaces(depth, segs) <==> Surfaces(depth, Init(segs)) || depth + Descent(segs) < 0
  {
    TakeAll(segs);
    assert DescentTo(segs, |segs|) == Descent(segs);
    forall k | 0 <= k < |segs|
      ensures DescentTo(segs, k) == DescentTo(Init(segs), k)
    {
      DescentPrefix(segs, k);
    }
  }

  /** A path is refused exactly when, read from its start, it climbs above the virtual root. */
  lemma EscapeIff(cwd: string, arg: string)
    ensures Resolve(cwd, arg).None? <==> Surfaces(0, Split(if IsAbsolute(arg) then "/" else cwd) + Split(arg))
  {
    WalkFailsIff([], Split(if IsAbsolute(arg) then "/" else cwd) + Split(arg));
  }

  // ---------- real paths ----------

  /** A device is a name without a colon, followed by one. */
  lemma DeviceIff(seg: string)
    ensures IsDevice(seg) <==> exists name: string :: name != "" && ':' !in name && seg == name + ":"
  {
    if IsDevice(seg) {
      assert seg == Init(seg) + ":";
    }
    forall name: string | name != "" && ':' !in name && seg == name + ":"
      ensures IsDevice(seg)
    {
      assert Init(seg) == name;
    }
  }

  /** With device paths off, every resolved path maps to the root followed by normal segments. */
  lemma RealIsUnderRoot(root: string, cwd: string, arg: string)
    requires Resolve(cwd, arg).Some?
    ensures var jail := NewJail(root, false);
            exists segs: Segments :: Normal(segs) && ToReal(jail, Resolve(cwd, arg).value) == jail.root + Render(segs)
  {
    ResolveIsNormal(cwd, arg);
    var v := Resolve(cwd, arg).value;
    var segs: Segments :| Normal(segs) && v == Path(segs);
    var jail := NewJail(root, false);
    RealOfPath(jail, segs);
    assert ToReal(jail, v) == jail.root + Render(segs);
  }

  lemma {:induction false} RenderIsLong(segs: Segments)
    requires Normal(segs)
    ensures |Render(segs)| >= 2 * |segs|
  {
    if segs != [] {
      RenderIsLong(Init(segs));
    }
  }

  /** A normal path goes to its device when device paths are on and it names one first, and under the root otherwise. */
  lemma RealOfPath(jail: Jail, segs: Segments)
    requires Normal(segs)
    ensures ToReal(jail, Path(segs)) ==
            if jail.allowDevicePaths && segs != [] && IsDevice(segs[0]) then Render(segs)[1..]
            else jail.root + Render(segs)
  {
    PathIsAbsolute(segs);
    if segs == [] {
      assert Path(segs)[1..] == "";
      Empty(jail.root);
    } else {
      SplitRender(segs);
      RenderIsLong(segs);
      assert ([""] + Split(Render(segs)[1..]))[1..] == ([""] + segs)[1..] == segs;
    }
  }

  /** With device paths off, different normal paths are different real paths. */
  lemma RealIsInjective(jail: Jail, v: string, w: string)
    requires !jail.allowDevicePaths && NormalPath(v) && NormalPath(w) && ToReal(jail, v) == ToReal(jail, w)
    ensures v == w
  {
    var a: Segments :| Normal(a) && v == Path(a);
    var b: Segments :| Normal(b) && w == Path(b);
    RealOfPath(jail, a);
    RealOfPath(jail, b);
    assert (jail.root + Render(a))[|jail.root|..] == Render(a);
    assert (jail.root + Render(b))[|jail.root|..] == Render(b);
    SplitRender(a);
    SplitRender(b);
    assert ([""] + a)[1..] == a && ([""] + b)[1..] == b;
  }

  // ---------- parent and name ----------

  lemma {:induction false} LastSlashOf(pre: string, name: string)
    requires '/' !in name
    ensures LastSlash(pre + ("/" + name)) == Some(|pre|)
    decreases |name|
  {
    if name != "" {
      assert Init(pre + ("/" + name)) == pre + ("/" + Init(name));
      LastSlashOf(pre, Init(name));
    }
  }

  /** Splitting a normal path takes off exactly its last segment. */
  lemma SplitParentOf(segs: Segments)
    requires Normal(segs) && segs != []
    ensures SplitParent(Path(segs)) == (Path(Init(segs)), Last(segs))
  {
    var pre, name := Render(Init(segs)), Last(segs);
    LastSlashOf(pre, name);
    RenderIsLong(Init(segs));
    var v := pre + ("/" + name);
    assert v[..|pre|] == pre && v[|pre| + 1..] == name;
  }

  /** The name resolved in the parent is the path again, so a looked-up file is the file that was named. */
  lemma ParentThenName(v: string)
    requires NormalPath(v) && v != "/"
    ensures var (parent, name) := SplitParent(v); NormalPath(parent) && Plain(name) && Resolve(parent, name) == Some(v)
  {
    var segs: Segments :| Normal(segs) && v == Path(segs);
    SplitParentOf(segs);
    var pre, name := Init(segs), Last(segs);
    assert Normal(pre);
    WalkPath(pre);
    SplitOne(name);
    WalkConcat([], Split(Path(pre)), [name]);
    WalkOne(pre, name);
    assert pre + [name] == segs;
  }
}
