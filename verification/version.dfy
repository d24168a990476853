/**
 * Error aggregation and version-override bookkeeping (cmd/nbe/version.go):
 * MultiErr, the find-and-replace of dependency versions in files, the
 * per-client wrappers, the client-to-field mapping of a job and the job
 * enumeration and result keying of the test matrix.
 *
 * The file system is a value (`Disk`) holding the files and the failures
 * the operating system would report for a path; a regular expression is an
 * abstract matcher with Go's two operations, FindAll and ReplaceAll.
 */
module Version {
  import opened Wrappers
  import opened Strs

  /** A Go error: a plain message (fmt.Errorf and the operating system's errors) or a *MultiErr. */
  datatype Error = Fail(msg: string) | Multi(errs: seq<Option<Error>>)

  /** MultiErr: a list of errors, any of which may be nil. */
  type MultiErr = seq<Option<Error>>

  /** What Error() returns. */
  function Message(e: Error): string
    decreases e, 0
  {
    match e
    case Fail(msg) => msg
    case Multi(errs) => Join(Messages(errs), "\n")
  }

  /** The message of an entry of a MultiErr: none for nil. */
  function EntryMessage(o: Option<Error>): seq<string>
    decreases o, 1
  {
    match o
    case None => []
    case Some(e) => [Message(e)]
  }

  /** The messages of the non-nil entries, in order. */
  function Messages(m: MultiErr): seq<string>
    decreases m, 2
  {
    if |m| == 0 then [] else EntryMessage(m[0]) + Messages(m[1..])
  }

  predicate AllNil(m: MultiErr) {
    forall i | 0 <= i < |m| :: m[i].None?
  }

  /** MultiErr.Empty: true when no entry is an error, the empty list included. */
  method Empty(m: MultiErr) returns (b: bool)
    ensures b <==> AllNil(m)
  {
    for i := 0 to |m|
      invariant forall j | 0 <= j < i :: m[j].None?
    {
      if m[i].Some? {
        return false;
      }
    }
    return true;
  }

  /** MultiErr.Error: the messages of the non-nil entries, in order, one per line. */
  method ErrorString(m: MultiErr) returns (s: string)
    ensures s == Join(Messages(m), "\n")
  {
    var toks: seq<string> := [];
    for i := 0 to |m|
      invariant toks + Messages(m[i..]) == Messages(m)
    {
      assert m[i..][1..] == m[i + 1..];
      assert Messages(m[i..]) == EntryMessage(m[i]) + Messages(m[i + 1..]);
      if m[i].Some? {
        toks := toks + [Message(m[i].value)];
      }
    }
    assert m[|m|..] == [];
    assert toks == Messages(m);
    if |toks| > 0 {
      s := Join(toks, "\n");
    } else {
      s := "";
    }
  }

  /**
   * There is a message exactly for each non-nil entry, in order: none at
   * all when the list is empty of errors, so Error() is then "".
   */
  lemma {:induction false} MessagesSpec(m: MultiErr)
    ensures |Messages(m)| <= |m|
    ensures |Messages(m)| == 0 <==> AllNil(m)
    ensures forall i | 0 <= i < |m| && m[i].Some? :: Message(m[i].value) in Messages(m)
  {
    if |m| > 0 {
      MessagesSpec(m[1..]);
      forall i | 1 <= i < |m| && m[i].Some? ensures Message(m[i].value) in Messages(m) {
        assert m[1..][i - 1] == m[i];
      }
      if AllNil(m[1..]) && m[0].None? {
        forall i | 0 <= i < |m| ensures m[i].None? {
          if i > 0 {
            assert m[1..][i - 1] == m[i];
          }
        }
      }
    }
  }

  /** The error the version wrappers return: nil when the list holds no error, the list itself otherwise. */
  function Wrap(m: MultiErr): (r: Option<Error>)
    ensures r.None? <==> AllNil(m)
    ensures r.Some? ==> Message(r.value) == Join(Messages(m), "\n") && Messages(m) != []
  {
    MessagesSpec(m);
    if AllNil(m) then None else Some(Multi(m))
  }

  // The file system

  datatype File = File(content: string, perm: nat)

  /** A failure the operating system reports for a path: of os.Stat, ioutil.ReadFile or ioutil.WriteFile. */
  datatype Fault = StatFault(msg: string) | ReadFault(msg: string) | WriteFault(msg: string)

  datatype Disk = Disk(files: map<string, File>, faults: map<string, Fault>)

  /** A compiled regular expression, reduced to the two operations the program uses. */
  datatype Regexp = Regexp(findAll: string -> seq<string>, replaceAll: (string, string) -> string)

  datatype StatResult = Found | NotExist | StatError(err: Error)

  /** os.Stat: a failure other than "does not exist", or whether the file is there. */
  function Stat(disk: Disk, path: string): StatResult {
    if path in disk.faults && disk.faults[path].StatFault? then StatError(Fail(disk.faults[path].msg))
    else if path in disk.files then Found
    else NotExist
  }

  /**
   * findAndReplace: a missing file is no error and no change; a file with no
   * match is left alone; otherwise every match is replaced and the file is
   * written back with its permissions. Only `path` can change.
   */
  function FindAndReplace(disk: Disk, re: Regexp, rep: string, path: string): (r: (Option<Error>, Disk))
    ensures r.1.faults == disk.faults && r.1.files.Keys == disk.files.Keys
    ensures forall p | p in disk.files && p != path :: r.1.files[p] == disk.files[p]
    ensures path !in disk.files && path !in disk.faults ==> r == (None, disk)
    ensures path in disk.files && path !in disk.faults && |re.findAll(disk.files[path].content)| == 0 ==> r == (None, disk)
    ensures path in disk.files && path !in disk.faults && |re.findAll(disk.files[path].content)| > 0 ==>
      r.0 == None && r.1.files[path] == File(re.replaceAll(disk.files[path].content, rep), disk.files[path].perm)
    ensures r.1 != disk ==> r.0 == None && path in disk.files && |re.findAll(disk.files[path].content)| > 0
    ensures r.0.Some? ==> path in disk.faults && r.0.value == Fail(disk.faults[path].msg)
  {
    match Stat(disk, path)
    case StatError(err) => (Some(err), disk)
    case NotExist => (None, disk)
    case Found =>
      if path in disk.faults && disk.faults[path].ReadFault? then (Some(Fail(disk.faults[path].msg)), disk)
      else
        var f := disk.files[path];
        if |re.findAll(f.content)| == 0 then (None, disk)
        else if path in disk.faults && disk.faults[path].WriteFault? then (Some(Fail(disk.faults[path].msg)), disk)
        else (None, disk.(files := disk.files[path := File(re.replaceAll(f.content, rep), f.perm)]))
  }

  /** The error findAndReplaceMulti returns for a failing path: the path, then the cause. */
  function Wrapped(path: string, e: Error): Error {
    Fail(path + ": " + Message(e))
  }

  /** findAndReplaceMulti: the paths in order, stopping at the first failure. */
  function ReplaceInOrder(disk: Disk, re: Regexp, rep: string, paths: seq<string>): (Option<Error>, Disk)
    decreases |paths|
  {
    if |paths| == 0 then (None, disk)
    else
      var (e, d) := FindAndReplace(disk, re, rep, paths[0]);
      if e.Some? then (Some(Wrapped(paths[0], e.value)), d)
      else ReplaceInOrder(d, re, rep, paths[1..])
  }

  method FindAndReplaceMulti(disk: Disk, re: Regexp, rep: string, paths: seq<string>) returns (err: Option<Error>, after: Disk)
    ensures (err, after) == ReplaceInOrder(disk, re, rep, paths)
  {
    after := disk;
    for i := 0 to |paths|
      invariant ReplaceInOrder(after, re, rep, paths[i..]) == ReplaceInOrder(disk, re, rep, paths)
    {
      assert paths[i..][1..] == paths[i + 1..];
      var e;
      e, after := FindAndReplace(after, re, rep, paths[i]).0, FindAndReplace(after, re, rep, paths[i]).1;
      if e.Some? {
        return Some(Wrapped(paths[i], e.value)), after;
      }
    }
    assert paths[|paths|..] == [];
    err := None;
  }

  /** Running two path lists is running the first, then the second unless the first failed. */
  lemma {:induction false} ReplaceInOrderAppend(disk: Disk, re: Regexp, rep: string, a: seq<string>, b: seq<string>)
    decreases |a|
    ensures ReplaceInOrder(disk, re, rep, a + b) ==
      var (e, d) := ReplaceInOrder(disk, re, rep, a);
      if e.Some? then (e, d) else ReplaceInOrder(d, re, rep, b)
  {
    if |a| > 0 {
      assert (a + b)[1..] == a[1..] + b;
      ReplaceInOrderAppend(FindAndReplace(disk, re, rep, a[0]).1, re, rep, a[1..], b);
    } else {
      assert a + b == b;
    }
  }

  /**
   * The first failing path ends the run: its error, wrapped with the path,
   * is returned, and no later path is touched.
   */
  lemma StopsAtFirstFailure(disk: Disk, re: Regexp, rep: string, paths: seq<string>, k: nat)
    requires k < |paths|
    requires ReplaceInOrder(disk, re, rep, paths[..k]).0.None?
    requires FindAndReplace(ReplaceInOrder(disk, re, rep, paths[..k]).1, re, rep, paths[k]).0.Some?
    ensures var mid := ReplaceInOrder(disk, re, rep, paths[..k]).1;
      var (e, d) := FindAndReplace(mid, re, rep, paths[k]);
      ReplaceInOrder(disk, re, rep, paths) == (Some(Wrapped(paths[k], e.value)), d) && d == mid
  {
    assert paths == paths[..k] + paths[k..];
    ReplaceInOrderAppend(disk, re, rep, paths[..k], paths[k..]);
  }

  /** findAndReplaceMulti changes only the listed paths and never adds or removes a file. */
  lemma {:induction false} ReplaceInOrderFrame(disk: Disk, re: Regexp, rep: string, paths: seq<string>)
    decreases |paths|
    ensures ReplaceInOrder(disk, re, rep, paths).1.faults == disk.faults
    ensures ReplaceInOrder(disk, re, rep, paths).1.files.Keys == disk.files.Keys
    ensures forall p | p in disk.files && p !in paths :: ReplaceInOrder(disk, re, rep, paths).1.files[p] == disk.files[p]
    ensures ReplaceInOrder(disk, re, rep, paths).0.Some? ==> exists i | 0 <= i < |paths| :: paths[i] in disk.faults
  {
    if |paths| > 0 {
      var d := FindAndReplace(disk, re, rep, paths[0]).1;
      ReplaceInOrderFrame(d, re, rep, paths[1..]);
      if ReplaceInOrder(disk, re, rep, paths).0.Some? && FindAndReplace(disk, re, rep, paths[0]).0.None? {
        var i :| 0 <= i < |paths[1..]| && paths[1..][i] in d.faults;
        assert paths[i + 1] in disk.faults;
      }
    }
  }

  // The per-client wrappers

  /** The dependency each regular expression of version.go matches. */
  datatype Dep = ComposeImage | NatsServerGo | NatsCliGo | GoModule | PythonPackage
               | NodePackage | DenoModule | RustCrate | JavaPackage | DotNetPackage

  /** The replacement text for a dependency at a version (the `...T` templates). */
  function Template(d: Dep, v: string): string {
    match d
    case ComposeImage => "image: docker.io/nats:" + v
    case NatsServerGo => "nats-server/v2@v" + v
    case NatsCliGo => "natscli/nats@v" + v
    case GoModule => "nats.go v" + v
    case PythonPackage => "nats-py[nkeys]==" + v
    case NodePackage => "\"nats\": \"^" + v + "\""
    case DenoModule => "x/nats@v" + v
    case RustCrate => "async-nats = \"" + v + "\""
    case JavaPackage => "io.nats:jnats:" + v
    case DotNetPackage => "Version=\"" + v + "\""
  }

  /** filepath.Join of a directory and a file name; the directories used carry no trailing '/'. */
  function PathJoin(base: string, name: string): string {
    if base == "" then name else base + "/" + name
  }

  /**
   * The outside world the wrappers consult besides the files: the regular
   * expressions, what `go get` returns and what the glob for Deno modules
   * finds.
   */
  datatype Env = Env(re: Dep -> Regexp, goGet: Option<Error>, denoGlob: Result<seq<string>, Error>)

  /** One findAndReplaceMulti call of a wrapper: a dependency's pattern and template over some files. */
  function Replace(disk: Disk, env: Env, d: Dep, v: string, paths: seq<string>): (Option<Error>, Disk) {
    ReplaceInOrder(disk, env.re(d), Template(d, v), paths)
  }

  /** The wrappers with a single findAndReplaceMulti call: compose, Python, Node, Deno, Rust, Java and .NET. */
  function SetOne(disk: Disk, env: Env, d: Dep, v: string, paths: seq<string>): (r: (Option<Error>, Disk))
    ensures r.0.None? <==> Replace(disk, env, d, v, paths).0.None?
    ensures r.1 == Replace(disk, env, d, v, paths).1
  {
    var (e, after) := Replace(disk, env, d, v, paths);
    assert AllNil([e]) <==> e.None? by {
      assert [e][0] == e;
    }
    (Wrap([e]), after)
  }

  function SetComposeServerVersion(disk: Disk, env: Env, v: string, base: string): (Option<Error>, Disk) {
    SetOne(disk, env, ComposeImage, v, [PathJoin(base, "docker-compose.yaml"), PathJoin(base, "docker-compose.cluster.yaml")])
  }

  /** setCLIVersion: both Dockerfile replacements run; the error is nil only when both succeed. */
  function SetCLIVersion(disk: Disk, env: Env, cli: string, server: string, base: string): (r: (Option<Error>, Disk))
    ensures var (e1, d1) := Replace(disk, env, NatsCliGo, cli, [PathJoin(base, "Dockerfile")]);
      var (e2, d2) := Replace(d1, env, NatsServerGo, server, [PathJoin(base, "Dockerfile")]);
      (r.0.None? <==> e1.None? && e2.None?) && r.1 == d2
  {
    var (e1, d1) := Replace(disk, env, NatsCliGo, cli, [PathJoin(base, "Dockerfile")]);
    var (e2, d2) := Replace(d1, env, NatsServerGo, server, [PathJoin(base, "Dockerfile")]);
    assert AllNil([e1, e2]) <==> e1.None? && e2.None? by {
      assert [e1, e2][0] == e1 && [e1, e2][1] == e2;
    }
    (Wrap([e1, e2]), d2)
  }

  /**
   * setGoVersion: nothing to do without a go.mod; a failed replacement is
   * returned before `go get` runs; otherwise the result of `go get`.
   */
  function SetGoVersion(disk: Disk, env: Env, v: string, base: string): (r: (Option<Error>, Disk))
    ensures Stat(disk, PathJoin(base, "go.mod")) == NotExist ==> r == (None, disk)
    ensures Stat(disk, PathJoin(base, "go.mod")).StatError? ==> r == (Some(Stat(disk, PathJoin(base, "go.mod")).err), disk)
    ensures Stat(disk, PathJoin(base, "go.mod")) == Found ==>
      var (e, after) := Replace(disk, env, GoModule, v, [PathJoin(base, "go.mod")]);
      r.1 == after
      && (e.Some? ==> r.0.Some? && r.0 == Wrap([e]))
      && (e.None? ==> r.0 == env.goGet)
    ensures r.0.None? <==>
      Stat(disk, PathJoin(base, "go.mod")) == NotExist
      || (Stat(disk, PathJoin(base, "go.mod")) == Found
          && Replace(disk, env, GoModule, v, [PathJoin(base, "go.mod")]).0.None? && env.goGet.None?)
  {
    var mod := PathJoin(base, "go.mod");
    match Stat(disk, mod)
    case StatError(err) => (Some(err), disk)
    case NotExist => (None, disk)
    case Found =>
      var (e, after) := Replace(disk, env, GoModule, v, [mod]);
      var m := Wrap([e]);
      assert AllNil([e]) <==> e.None? by {
        assert [e][0] == e;
      }
      if m.Some? then (m, after) else (env.goGet, after)
  }

  /** The loop of setDenoAllVersion: one findAndReplaceMulti per globbed file, all of them run. */
  function DenoAll(disk: Disk, env: Env, v: string, matches: seq<string>): (r: (MultiErr, Disk))
    ensures |r.0| == |matches|
  {
    if |matches| == 0 then ([], disk)
    else
      var (errs, d) := DenoAll(disk, env, v, matches[..|matches| - 1]);
      var (e, d') := Replace(d, env, DenoModule, v, [matches[|matches| - 1]]);
      (errs + [e], d')
  }

  /** setDenoAllVersion: a failed glob is wrapped with the base directory; otherwise every globbed file is rewritten. */
  function DenoStep(disk: Disk, env: Env, v: string, base: string): (r: (Option<Error>, Disk))
    ensures env.denoGlob.Err? ==> r == (Some(Wrapped(base, env.denoGlob.error)), disk)
    ensures env.denoGlob.Ok? ==> var (errs, d) := DenoAll(disk, env, v, env.denoGlob.value); (r.0.None? <==> AllNil(errs)) && r.1 == d
  {
    match env.denoGlob
    case Err(e) => (Some(Wrapped(base, e)), disk)
    case Ok(matches) =>
      var (errs, d) := DenoAll(disk, env, v, matches);
      (Wrap(errs), d)
  }

  method SetDenoAllVersion(disk: Disk, env: Env, v: string, base: string) returns (err: Option<Error>, after: Disk)
    ensures (err, after) == DenoStep(disk, env, v, base)
  {
    if env.denoGlob.Err? {
      return Some(Wrapped(base, env.denoGlob.error)), disk;
    }
    var matches := env.denoGlob.value;
    var errs: MultiErr := [];
    after := disk;
    for i := 0 to |matches|
      invariant (errs, after) == DenoAll(disk, env, v, matches[..i])
    {
      assert matches[..i + 1][..i] == matches[..i];
      var e, d := Replace(after, env, DenoModule, v, [matches[i]]).0, Replace(after, env, DenoModule, v, [matches[i]]).1;
      errs, after := errs + [e], d;
    }
    assert matches[..|matches|] == matches;
    err := Wrap(errs);
  }

  datatype Versions = Versions(server: string, cli: string, go: string, python: string, deno: string,
                               node: string, websocket: string, rust: string, java: string, dotnet: string)

  /** The wrappers replaceVersions runs, in order, on one example directory. */
  function ReplaceSteps(disk: Disk, env: Env, dir: string, vs: Versions): (r: (MultiErr, Disk))
    ensures |r.0| == 9
  {
    var (e1, d1) := SetComposeServerVersion(disk, env, vs.server, dir);
    var (e2, d2) := SetCLIVersion(d1, env, vs.cli, vs.server, dir);
    var (e3, d3) := SetGoVersion(d2, env, vs.go, dir);
    var (e4, d4) := SetOne(d3, env, PythonPackage, vs.python, [PathJoin(dir, "requirements.txt")]);
    var (e5, d5) := SetOne(d4, env, NodePackage, vs.node, [PathJoin(dir, "package.json")]);
    var (e6, d6) := SetOne(d5, env, DenoModule, vs.deno, [PathJoin(dir, "main.deno")]);
    var (e7, d7) := SetOne(d6, env, RustCrate, vs.rust, [PathJoin(dir, "Cargo.toml")]);
    var (e8, d8) := SetOne(d7, env, JavaPackage, vs.java, [PathJoin(dir, "build.gradle")]);
    var (e9, d9) := SetOne(d8, env, DotNetPackage, vs.dotnet, [PathJoin(dir, "example.csproj")]);
    ([e1, e2, e3, e4, e5, e6, e7, e8, e9], d9)
  }

  /** replaceVersions: nil exactly when every wrapper returned nil. */
  function ReplaceVersions(disk: Disk, env: Env, dir: string, vs: Versions): (r: (Option<Error>, Disk))
    ensures r.0.None? <==> forall i | 0 <= i < 9 :: ReplaceSteps(disk, env, dir, vs).0[i].None?
  {
    var (errs, after) := ReplaceSteps(disk, env, dir, vs);
    (Wrap(errs), after)
  }

  /** The nine wrappers of setVersions, over the shared docker directories and the examples. */
  function SetVersionsSteps(disk: Disk, env: Env, vs: Versions): (r: (MultiErr, Disk))
    ensures |r.0| == 9
  {
    var (e1, d1) := SetComposeServerVersion(disk, env, vs.server, "");
    var (e2, d2) := SetCLIVersion(d1, env, vs.cli, vs.server, "docker/cli");
    var (e3, d3) := SetGoVersion(d2, env, vs.go, "docker/go");
    var (e4, d4) := SetOne(d3, env, PythonPackage, vs.python, ["docker/python/requirements.txt"]);
    var (e5, d5) := SetOne(d4, env, NodePackage, vs.node, ["docker/node/package.json"]);
    var (e6, d6) := DenoStep(d5, env, vs.deno, "examples");
    var (e7, d7) := SetOne(d6, env, RustCrate, vs.rust, ["docker/rust/Cargo.toml"]);
    var (e8, d8) := SetOne(d7, env, JavaPackage, vs.java, ["docker/java/build.gradle"]);
    var (e9, d9) := SetOne(d8, env, DotNetPackage, vs.dotnet, ["docker/dotnet/example.csproj"]);
    ([e1, e2, e3, e4, e5, e6, e7, e8, e9], d9)
  }

  /**
   * setVersions: a versions file that cannot be read is returned as is;
   * otherwise the result is nil exactly when every wrapper returned nil.
   */
  function SetVersions(disk: Disk, env: Env, file: Result<Versions, Error>): (r: (Option<Error>, Disk))
    ensures file.Err? ==> r == (Some(file.error), disk)
    ensures file.Ok? ==> (r.0.None? <==> forall i | 0 <= i < 9 :: SetVersionsSteps(disk, env, file.value).0[i].None?)
  {
    match file
    case Err(e) => (Some(e), disk)
    case Ok(vs) =>
      var (errs, after) := SetVersionsSteps(disk, env, vs);
      (Wrap(errs), after)
  }

  // Jobs of the test matrix

  /** The nine clients of the test matrix, in languageOrder. */
  const ClientNames: seq<string> := ["go", "python", "deno", "node", "rust", "dotnet", "java", "websocket", "cli"]

  /** The field of Versions a client's version is stored in. */
  function ClientField(vs: Versions, client: string): string
    requires client in ClientNames
  {
    match client
    case "cli" => vs.cli
    case "go" => vs.go
    case "python" => vs.python
    case "deno" => vs.deno
    case "node" => vs.node
    case "websocket" => vs.websocket
    case "rust" => vs.rust
    case "java" => vs.java
    case _ => vs.dotnet
  }

  datatype Job = Job(repo: string, example: string, client: string, clientVersion: string, serverVersion: string)

  /**
   * The Versions a job builds with: the server version, and the client
   * version in the one field of the job's client; an unknown client sets
   * no client field.
   */
  function JobVersions(j: Job): (vs: Versions)
    ensures vs.server == j.serverVersion
    ensures forall c | c in ClientNames :: ClientField(vs, c) == if c == j.client then j.clientVersion else ""
  {
    var empty := Versions(j.serverVersion, "", "", "", "", "", "", "", "", "");
    match j.client
    case "cli" => empty.(cli := j.clientVersion)
    case "go" => empty.(go := j.clientVersion)
    case "python" => empty.(python := j.clientVersion)
    case "deno" => empty.(deno := j.clientVersion)
    case "node" => empty.(node := j.clientVersion)
    case "websocket" => empty.(websocket := j.clientVersion)
    case "rust" => empty.(rust := j.clientVersion)
    case "java" => empty.(java := j.clientVersion)
    case "dotnet" => empty.(dotnet := j.clientVersion)
    case _ => empty
  }

  datatype Matrix = Matrix(server: seq<string>, cli: seq<string>, go: seq<string>, python: seq<string>,
                           deno: seq<string>, node: seq<string>, websocket: seq<string>, rust: seq<string>,
                           java: seq<string>, dotnet: seq<string>)

  /** The client versions the matrix lists for a client; None for a name that is not a client. */
  function MatrixVersions(m: Matrix, client: string): Option<seq<string>> {
    match client
    case "cli" => Some(m.cli)
    case "go" => Some(m.go)
    case "python" => Some(m.python)
    case "deno" => Some(m.deno)
    case "node" => Some(m.node)
    case "websocket" => Some(m.websocket)
    case "rust" => Some(m.rust)
    case "java" => Some(m.java)
    case "dotnet" => Some(m.dotnet)
    case _ => None
  }

  /** The matrix lists versions exactly for the client names. */
  lemma MatrixVersionsSpec(m: Matrix, client: string)
    ensures MatrixVersions(m, client).Some? <==> client in ClientNames
  {
  }

  /** The jobs of one server version, one per client version, in order. */
  function Row(repo: string, e: string, client: string, s: string, versions: seq<string>): seq<Job> {
    if |versions| == 0 then []
    else Row(repo, e, client, s, versions[..|versions| - 1]) + [Job(repo, e, client, versions[|versions| - 1], s)]
  }

  /** The jobs of one example: the rows of the server versions, in order. */
  function Grid(repo: string, e: string, client: string, servers: seq<string>, versions: seq<string>): seq<Job> {
    if |servers| == 0 then []
    else Grid(repo, e, client, servers[..|servers| - 1], versions) + Row(repo, e, client, servers[|servers| - 1], versions)
  }

  lemma {:induction false} RowSpec(repo: string, e: string, client: string, s: string, versions: seq<string>)
    ensures |Row(repo, e, client, s, versions)| == |versions|
    ensures forall j :: j in Row(repo, e, client, s, versions) <==>
      j.repo == repo && j.example == e && j.client == client && j.serverVersion == s && j.clientVersion in versions
  {
    if |versions| > 0 {
      var init := versions[..|versions| - 1];
      RowSpec(repo, e, client, s, init);
      assert versions == init + [versions[|versions| - 1]];
    }
  }

  lemma MulSucc(a: nat, b: nat)
    ensures (a + 1) * b == a * b + b
  {}

  /** One job per (server version, client version) pair: |servers| * |versions| jobs. */
  lemma {:induction false} GridLength(repo: string, e: string, client: string, servers: seq<string>, versions: seq<string>)
    ensures |Grid(repo, e, client, servers, versions)| == |servers| * |versions|
  {
    if |servers| > 0 {
      var init := servers[..|servers| - 1];
      GridLength(repo, e, client, init, versions);
      RowSpec(repo, e, client, servers[|servers| - 1], versions);
      MulSucc(|init|, |versions|);
    }
  }

  /** The grid holds exactly the jobs pairing a listed server version with a listed client version. */
  lemma {:induction false} GridMembers(repo: string, e: string, client: string, servers: seq<string>, versions: seq<string>)
    ensures forall j :: j in Grid(repo, e, client, servers, versions) <==>
      j.repo == repo && j.example == e && j.client == client && j.serverVersion in servers && j.clientVersion in versions
  {
    if |servers| > 0 {
      var init := servers[..|servers| - 1];
      var s := servers[|servers| - 1];
      GridMembers(repo, e, client, init, versions);
      RowSpec(repo, e, client, s, versions);
      assert servers == init + [s];
    }
  }

  /** The jobs of one example, enqueued in the nested loops over server and client versions. */
  method EnqueueExample(repo: string, e: string, client: string, servers: seq<string>, versions: seq<string>)
    returns (jobs: seq<Job>)
    ensures jobs == Grid(repo, e, client, servers, versions)
  {
    jobs := [];
    for si := 0 to |servers|
      invariant jobs == Grid(repo, e, client, servers[..si], versions)
    {
      assert servers[..si + 1][..si] == servers[..si];
      ghost var before := jobs;
      for ci := 0 to |versions|
        invariant jobs == before + Row(repo, e, client, servers[si], versions[..ci])
      {
        assert versions[..ci + 1][..ci] == versions[..ci];
        jobs := jobs + [Job(repo, e, client, versions[ci], servers[si])];
      }
      assert versions[..|versions|] == versions;
    }
    assert servers[..|servers|] == servers;
  }

  /** An example whose client, the last element of its path, is one the matrix has versions for. */
  predicate Known(m: Matrix, e: string) {
    MatrixVersions(m, Base(e)).Some?
  }

  /** The jobs of one example with a known client. */
  function ExampleGrid(repo: string, e: string, m: Matrix): seq<Job>
    requires Known(m, e)
  {
    Grid(repo, e, Base(e), m.server, MatrixVersions(m, Base(e)).value)
  }

  /** The jobs of examples with known clients, example by example. */
  function Grids(repo: string, examples: seq<string>, m: Matrix): seq<Job>
    requires forall i | 0 <= i < |examples| :: Known(m, examples[i])
  {
    if |examples| == 0 then []
    else Grids(repo, examples[..|examples| - 1], m) + ExampleGrid(repo, examples[|examples| - 1], m)
  }

  /** The index of the first example with an unknown client; |examples| when there is none. */
  function FirstUnknown(m: Matrix, examples: seq<string>): (k: nat)
    ensures k <= |examples| && (forall i | 0 <= i < k :: Known(m, examples[i]))
    ensures k < |examples| ==> !Known(m, examples[k])
  {
    FirstUnknownFrom(m, examples, 0)
  }

  /** The index of the first example from `i` on with an unknown client; |examples| when there is none. */
  function FirstUnknownFrom(m: Matrix, examples: seq<string>, i: nat): (k: nat)
    requires i <= |examples|
    ensures i <= k <= |examples| && (forall j | i <= j < k :: Known(m, examples[j]))
    ensures k < |examples| ==> !Known(m, examples[k])
    decreases |examples| - i
  {
    if i == |examples| || !Known(m, examples[i]) then i else FirstUnknownFrom(m, examples, i + 1)
  }

  /**
   * What runMatrix enqueues: the jobs of every example up to the first one
   * with an unknown client, which ends the enumeration with an error.
   */
  function Enumerate(repo: string, examples: seq<string>, m: Matrix): (seq<Job>, Option<string>) {
    var k := FirstUnknown(m, examples);
    (Grids(repo, examples[..k], m), if k < |examples| then Some("unknown client: " + Base(examples[k])) else None)
  }

  /** One example of the enumeration loop: its client, the client's versions and, for a known client, its jobs. */
  method EnqueueExampleOf(repo: string, e: string, m: Matrix) returns (client: string, versions: Option<seq<string>>, grid: seq<Job>)
    ensures client == Base(e) && versions == MatrixVersions(m, client)
    ensures versions.Some? ==> grid == ExampleGrid(repo, e, m)
  {
    client := Base(e);
    versions := MatrixVersions(m, client);
    grid := [];
    if versions.Some? {
      grid := EnqueueExample(repo, e, client, m.server, versions.value);
    }
  }

  /** The enumeration loop of runMatrix, with the client-to-versions map it records for the report. */
  method EnqueueJobs(repo: string, examples: seq<string>, m: Matrix)
    returns (jobs: seq<Job>, err: Option<string>, cm: map<string, seq<string>>)
    ensures (jobs, err) == Enumerate(repo, examples, m)
    ensures forall c | c in cm :: MatrixVersions(m, c) == Some(cm[c])
  {
    ghost var k := FirstUnknown(m, examples);
    jobs, cm := [], map[];
    for i := 0 to |examples|
      invariant i <= k
      invariant jobs == Grids(repo, examples[..i], m)
      invariant forall c | c in cm :: MatrixVersions(m, c) == Some(cm[c])
    {
      var client, versions, grid := EnqueueExampleOf(repo, examples[i], m);
      if versions.None? {
        assert !Known(m, examples[i]) && k == i;
        return jobs, Some("unknown client: " + client), cm;
      }
      assert Known(m, examples[i]);
      ghost var next := examples[..i + 1];
      assert next[..i] == examples[..i] && next[i] == examples[i];
      assert Grids(repo, next, m) == Grids(repo, examples[..i], m) + ExampleGrid(repo, examples[i], m);
      cm := cm[client := versions.value];
      jobs := jobs + grid;
    }
    assert examples[..|examples|] == examples && k == |examples|;
    err := None;
  }

  /** Every job enqueued pairs a listed server version with a listed version of its example's client. */
  lemma {:induction false} GridsSound(repo: string, examples: seq<string>, m: Matrix)
    requires forall i | 0 <= i < |examples| :: Known(m, examples[i])
    ensures forall j | j in Grids(repo, examples, m) ::
      j.repo == repo && j.example in examples && j.client == Base(j.example) && j.serverVersion in m.server
      && Known(m, j.example) && j.clientVersion in MatrixVersions(m, j.client).value
  {
    if |examples| > 0 {
      var init := examples[..|examples| - 1];
      var e := examples[|examples| - 1];
      GridsSound(repo, init, m);
      GridMembers(repo, e, Base(e), m.server, MatrixVersions(m, Base(e)).value);
      assert examples == init + [e];
    }
  }

  /** Every example contributes one job per (server version, client version) pair. */
  lemma {:induction false} GridsComplete(repo: string, examples: seq<string>, m: Matrix, i: nat, s: string, c: string)
    requires forall i | 0 <= i < |examples| :: Known(m, examples[i])
    requires i < |examples| && Known(m, examples[i]) && s in m.server && c in MatrixVersions(m, Base(examples[i])).value
    ensures Job(repo, examples[i], Base(examples[i]), c, s) in Grids(repo, examples, m)
  {
    var init := examples[..|examples| - 1];
    var e := examples[|examples| - 1];
    if i < |init| {
      GridsComplete(repo, init, m, i, s, c);
      assert init[i] == examples[i];
    } else {
      GridMembers(repo, e, Base(e), m.server, MatrixVersions(m, Base(e)).value);
    }
  }

  /** The enumeration fails exactly when some example has an unknown client. */
  lemma EnumerateError(repo: string, examples: seq<string>, m: Matrix)
    ensures Enumerate(repo, examples, m).1.None? <==> forall i | 0 <= i < |examples| :: Base(examples[i]) in ClientNames
    ensures Enumerate(repo, examples, m).1.Some? ==> exists i | 0 <= i < |examples| ::
      Enumerate(repo, examples, m).1 == Some("unknown client: " + Base(examples[i])) && Base(examples[i]) !in ClientNames
  {
    var k := FirstUnknown(m, examples);
    if k == |examples| {
      forall i | 0 <= i < |examples| ensures Base(examples[i]) in ClientNames {
        assert Known(m, examples[i]);
        MatrixVersionsSpec(m, Base(examples[i]));
      }
    } else {
      assert !Known(m, examples[k]);
      MatrixVersionsSpec(m, Base(examples[k]));
    }
  }

  // Results of the matrix

  /** A job's outcome as a worker reports it. */
  datatype Outcome = Outcome(example: string, serverVersion: string, client: string, clientVersion: string, error: Option<Error>)

  type Results = map<string, map<string, map<(string, string), Outcome>>>

  /** One iteration of the collection loop: the outcome is stored under client, example and [server, client version]. */
  function Record(results: Results, r: Outcome): Results {
    var byExample := if r.client in results then results[r.client] else map[];
    var byPair := if r.example in byExample then byExample[r.example] else map[];
    results[r.client := byExample[r.example := byPair[(r.serverVersion, r.clientVersion) := r]]]
  }

  function RecordAll(rs: seq<Outcome>): Results {
    if |rs| == 0 then map[] else Record(RecordAll(rs[..|rs| - 1]), rs[|rs| - 1])
  }

  method CollectResults(rs: seq<Outcome>) returns (results: Results)
    ensures results == RecordAll(rs)
  {
    results := map[];
    for i := 0 to |rs|
      invariant results == RecordAll(rs[..i])
    {
      assert rs[..i + 1][..i] == rs[..i];
      var r := rs[i];
      var e := if r.client in results then results[r.client] else map[];
      var m := if r.example in e then e[r.example] else map[];
      m := m[(r.serverVersion, r.clientVersion) := r];
      e := e[r.example := m];
      results := results[r.client := e];
    }
    assert rs[..|rs|] == rs;
  }

  /** Looking up a client, example and pair in the results. */
  function Lookup(results: Results, client: string, example: string, pair: (string, string)): Option<Outcome> {
    if client in results && example in results[client] && pair in results[client][example]
    then Some(results[client][example][pair])
    else None
  }

  /** The last outcome reported for a client, example and pair, if any. */
  function LastReported(rs: seq<Outcome>, client: string, example: string, pair: (string, string)): Option<Outcome> {
    if |rs| == 0 then None
    else
      var r := rs[|rs| - 1];
      if r.client == client && r.example == example && (r.serverVersion, r.clientVersion) == pair then Some(r)
      else LastReported(rs[..|rs| - 1], client, example, pair)
  }

  /** The results hold, for each client, example and pair, the last outcome reported for it, and nothing else. */
  lemma {:induction false} RecordAllLookup(rs: seq<Outcome>, client: string, example: string, pair: (string, string))
    ensures Lookup(RecordAll(rs), client, example, pair) == LastReported(rs, client, example, pair)
  {
    if |rs| > 0 {
      RecordAllLookup(rs[..|rs| - 1], client, example, pair);
    }
  }
}
