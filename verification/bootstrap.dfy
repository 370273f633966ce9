/** One bootstrap cycle: resolve the root (from MANDREL_ROOT or by walking up
    from the working directory), seed the state, and evaluate the bootstrap
    file if there is one. Each cycle returns a fresh state; nothing from an
    earlier cycle carries over. */
module Bootstrap {
  import opened Wrappers
  import opened Paths
  import opened Environment
  import opened Walker
  import opened Evaluator

  /** The existing files, each with the abstract content it would have if
      evaluated as a bootstrap file. */
  type FileSystem = map<Path, Script>

  /** The script at `file`, or the empty script when there is no such file. */
  function ScriptAt(fs: FileSystem, file: Path): Script {
    if file in fs then fs[file] else []
  }

  /** Seeds the state for `root` and evaluates the bootstrap file there when
      it exists; an absent file leaves the seeded defaults in place. */
  function Load(fs: FileSystem, root: Path, name: string): (r: Result<State, Error>)
    ensures r.Success? ==> r.value.rootPath == root && r.value.bootstrapFile == Join(root, name)
    ensures Join(root, name) !in fs ==> r == Success(Seed(root, Join(root, name)))
  {
    var file := Join(root, name);
    if file in fs then Evaluate(fs[file], Seed(root, file)) else Success(Seed(root, file))
  }

  /** Root resolution. With MANDREL_ROOT set there is no walk and the
      override is the root whether or not the file exists there. Without it
      the walk from `cwd` must find the file, or resolution fails with
      MissingBootstrap. */
  function Resolve(fs: FileSystem, env: Env, cwd: Path): (r: Result<Path, Error>)
    ensures env.root.Some? ==> r == Success(env.root.value)
    ensures r.Success? && env.root.None? ==> Nearest(fs.Keys, cwd, TargetName(env), r.value)
    ensures r.Failure? <==> env.root.None? && NoneAbove(fs.Keys, cwd, TargetName(env))
    ensures r.Failure? ==> r.error == MissingBootstrap(TargetName(env))
  {
    match env.root
    case Some(root) => Success(root)
    case None =>
      match Find(fs.Keys, cwd, TargetName(env))
      case None => Failure(MissingBootstrap(TargetName(env)))
      case Some(dir) => Success(dir)
  }

  /** A full bootstrap cycle from working directory `cwd`: resolve the root,
      then seed the state and evaluate the bootstrap file found there. */
  function Initialize(fs: FileSystem, env: Env, cwd: Path): (r: Result<State, Error>)
    ensures r.Success? ==> r.value.bootstrapFile == Join(r.value.rootPath, TargetName(env))
    ensures r.Success? && env.root.Some? ==> r.value.rootPath == env.root.value
    ensures r.Success? && env.root.None? ==> Nearest(fs.Keys, cwd, TargetName(env), r.value.rootPath)
    ensures r.Failure? && r.error.MissingBootstrap? <==> env.root.None? && NoneAbove(fs.Keys, cwd, TargetName(env))
    ensures r.Failure? && r.error.EvaluationError? <==>
      Resolve(fs, env, cwd).Success?
      && FirstRaise(ScriptAt(fs, Join(Resolve(fs, env, cwd).value, TargetName(env)))).Some?
  {
    var root :- Resolve(fs, env, cwd);
    Load(fs, root, TargetName(env))
  }

  /** An error raised by the bootstrap file's own code reaches the caller
      unchanged: it is the first error the file raises. */
  lemma EvaluationErrorPropagates(fs: FileSystem, env: Env, cwd: Path, m: string)
    requires Resolve(fs, env, cwd).Success?
    ensures Initialize(fs, env, cwd) == Failure(EvaluationError(m))
        <==> FirstRaise(ScriptAt(fs, Join(Resolve(fs, env, cwd).value, TargetName(env)))) == Some(m)
  {
  }

  /** Without MANDREL_ROOT, a start directory with the file in neither itself
      nor any ancestor fails with MissingBootstrap, and that is the only way
      MissingBootstrap arises. */
  lemma MissingBootstrapIff(fs: FileSystem, env: Env, cwd: Path)
    ensures Initialize(fs, env, cwd) == Failure(MissingBootstrap(TargetName(env)))
        <==> env.root.None? && NoneAbove(fs.Keys, cwd, TargetName(env))
  {
  }

  /** Without MANDREL_ROOT, a file found at `d` (the nearest holder) makes `d`
      the root and the file there the bootstrap file, and that file's script
      is what gets evaluated. */
  lemma WalkResolvesNearest(fs: FileSystem, env: Env, cwd: Path, d: Path)
    requires env.root.None?
    requires Nearest(fs.Keys, cwd, TargetName(env), d)
    ensures Initialize(fs, env, cwd)
         == Evaluate(fs[Join(d, TargetName(env))], Seed(d, Join(d, TargetName(env))))
  {
    FindIsNearest(fs.Keys, cwd, TargetName(env), d);
  }

  /** The file in the start directory itself: that directory is the root. */
  lemma RootImmediate(fs: FileSystem, env: Env, cwd: Path)
    requires env.root.None?
    requires Join(cwd, TargetName(env)) in fs
    requires FirstRaise(fs[Join(cwd, TargetName(env))]).None?
    ensures Initialize(fs, env, cwd).Success?
    ensures Initialize(fs, env, cwd).value.rootPath == cwd
    ensures Initialize(fs, env, cwd).value.bootstrapFile == Join(cwd, TargetName(env))
  {
    WalkResolvesNearest(fs, env, cwd, cwd);
  }

  /** Nested invariance: starting anywhere below the directory `d` that holds
      the file, with no closer directory holding it, gives exactly the same
      result as starting in `d`. */
  lemma NestedInvariance(fs: FileSystem, env: Env, cwd: Path, d: Path)
    requires env.root.None?
    requires Nearest(fs.Keys, cwd, TargetName(env), d)
    ensures Initialize(fs, env, cwd) == Initialize(fs, env, d)
  {
    var name := TargetName(env);
    WalkResolvesNearest(fs, env, cwd, d);
    assert d[..|d|] == d;
    WalkResolvesNearest(fs, env, d, d);
  }

  /** The search paths are the root followed by the bootstrap file's appends,
      verbatim and in order, and the logging base name is the file's last
      setting or the default; with no file, or a file that does neither,
      these are exactly `[root]` and "logging.cfg". Holds in both modes. */
  lemma SearchPathsAndLogging(fs: FileSystem, env: Env, cwd: Path)
    requires Initialize(fs, env, cwd).Success?
    ensures var s := Initialize(fs, env, cwd).value;
      && s.searchPaths == [s.rootPath] + Appends(ScriptAt(fs, s.bootstrapFile))
      && s.loggingConfigBasename
         == FinalBasename(ScriptAt(fs, s.bootstrapFile), DefaultLoggingConfigBasename)
  {
  }

  /** With MANDREL_ROOT = r and no file at r, the cycle succeeds with the
      defaults, whatever the working directory and the rest of the
      filesystem hold. */
  lemma ForcedRootWithoutFile(fs: FileSystem, env: Env, cwd: Path)
    requires env.root.Some?
    requires Join(env.root.value, TargetName(env)) !in fs
    ensures Initialize(fs, env, cwd) == Success(State(
      env.root.value,
      Join(env.root.value, TargetName(env)),
      [env.root.value],
      DefaultLoggingConfigBasename))
  {
  }

  /** With MANDREL_ROOT = r, only the file at r matters: the result is the
      same from any working directory and over any filesystem that agrees
      on that one file, so a file found elsewhere never wins. */
  lemma ForcedRootIgnoresRest(fs: FileSystem, fs': FileSystem, env: Env, cwd: Path, cwd': Path)
    requires env.root.Some?
    requires var file := Join(env.root.value, TargetName(env));
      (file in fs <==> file in fs') && (file in fs ==> fs[file] == fs'[file])
    ensures Initialize(fs, env, cwd) == Initialize(fs', env, cwd')
  {
  }

  /** A bootstrap file that appends X yields search paths [root, X], in
      forced-root mode and in walk mode alike. */
  lemma SingleAppend(fs: FileSystem, env: Env, cwd: Path, x: Path)
    requires Initialize(fs, env, cwd).Success?
    requires ScriptAt(fs, Initialize(fs, env, cwd).value.bootstrapFile) == [AppendSearchPath(x)]
    ensures Initialize(fs, env, cwd).value.searchPaths == [Initialize(fs, env, cwd).value.rootPath, x]
  {
    SearchPathsAndLogging(fs, env, cwd);
  }

  /** The bootstrap file always ends in the target name: MANDREL_BOOTSTRAP_NAME
      when set, "Mandrel.py" otherwise. */
  lemma BootstrapFileName(fs: FileSystem, env: Env, cwd: Path)
    requires Initialize(fs, env, cwd).Success?
    ensures var f := Initialize(fs, env, cwd).value.bootstrapFile;
      f != Root && BaseName(f) == TargetName(env)
      && (env.bootstrapName.None? ==> BaseName(f) == "Mandrel.py")
  {
  }
}
