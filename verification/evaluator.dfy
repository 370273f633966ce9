/** The bootstrap state and the abstract effect of evaluating a bootstrap file.
    A file is modelled as the sequence of state operations it performs, in
    the order it performs them. */
module Evaluator {
  import opened Wrappers
  import opened Paths

  /** The logging configuration base name used unless a bootstrap file sets one. */
  const DefaultLoggingConfigBasename: string := "logging.cfg"

  /** The settings a bootstrap cycle produces: ROOT_PATH, BOOTSTRAP_FILE,
      SEARCH_PATHS and LOGGING_CONFIG_BASENAME. */
  datatype State = State(
    rootPath: Path,
    bootstrapFile: Path,
    searchPaths: seq<Path>,
    loggingConfigBasename: string)

  /** One effect a bootstrap file can have on the state. `Raise` stands for
      any error the file's own code raises while it is evaluated. */
  datatype Op =
    | AppendSearchPath(path: Path)
    | SetLoggingConfigBasename(basename: string)
    | Raise(message: string)

  /** The abstract content of a bootstrap file. */
  type Script = seq<Op>

  /** Why a bootstrap cycle fails. */
  datatype Error =
    | MissingBootstrap(name: string)
    | EvaluationError(message: string)

  /** The state right after root resolution, before any file is evaluated:
      the search paths are seeded with the root alone. */
  function Seed(root: Path, file: Path): (s: State)
    ensures s.rootPath == root && s.bootstrapFile == file
    ensures |s.searchPaths| == 1 && s.searchPaths[0] == s.rootPath
    ensures s.loggingConfigBasename == DefaultLoggingConfigBasename
  {
    State(root, file, [root], DefaultLoggingConfigBasename)
  }

  /** The paths a script appends, in the order it appends them. */
  function Appends(script: Script): seq<Path> {
    if script == [] then []
    else if script[0].AppendSearchPath? then [script[0].path] + Appends(script[1..])
    else Appends(script[1..])
  }

  /** The logging base name after a script has run, starting from `current`:
      the last one the script sets wins. */
  function FinalBasename(script: Script, current: string): string {
    if script == [] then current
    else if script[0].SetLoggingConfigBasename? then FinalBasename(script[1..], script[0].basename)
    else FinalBasename(script[1..], current)
  }

  /** The message of the first error a script raises, if it raises one. */
  function FirstRaise(script: Script): Option<string> {
    if script == [] then None
    else if script[0].Raise? then Some(script[0].message)
    else FirstRaise(script[1..])
  }

  /** Runs a script against a state, one operation at a time. The first
      raised error aborts the whole evaluation and no state survives it. */
  function Evaluate(script: Script, s: State): (r: Result<State, Error>)
    ensures r.Failure? <==> FirstRaise(script).Some?
    ensures r.Failure? ==> r.error == EvaluationError(FirstRaise(script).value)
    ensures r.Success? ==> r.value == s.(
      searchPaths := s.searchPaths + Appends(script),
      loggingConfigBasename := FinalBasename(script, s.loggingConfigBasename))
  {
    if script == [] then
      assert s.searchPaths + [] == s.searchPaths;
      Success(s)
    else
      match script[0]
      case AppendSearchPath(p) =>
        var next := s.(searchPaths := s.searchPaths + [p]);
        assert next.searchPaths + Appends(script[1..]) == s.searchPaths + Appends(script);
        Evaluate(script[1..], next)
      case SetLoggingConfigBasename(b) =>
        Evaluate(script[1..], s.(loggingConfigBasename := b))
      case Raise(m) =>
        Failure(EvaluationError(m))
  }

  /** Appends keep their order across concatenated scripts. */
  lemma {:induction false} AppendsConcat(a: Script, b: Script)
    ensures Appends(a + b) == Appends(a) + Appends(b)
  {
    if a == [] {
      assert a + b == b;
    } else {
      assert (a + b)[1..] == a[1..] + b;
      AppendsConcat(a[1..], b);
    }
  }

  /** Evaluating a script in two pieces is evaluating the first piece and
      then, if it did not raise, the second piece on its result. */
  lemma {:induction false} EvaluateConcat(a: Script, b: Script, s: State)
    ensures Evaluate(a + b, s) ==
      match Evaluate(a, s)
      case Success(t) => Evaluate(b, t)
      case Failure(e) => Failure(e)
  {
    if a == [] {
      assert a + b == b;
    } else {
      assert (a + b)[0] == a[0];
      assert (a + b)[1..] == a[1..] + b;
      match a[0]
      case AppendSearchPath(p) =>
        EvaluateConcat(a[1..], b, s.(searchPaths := s.searchPaths + [p]));
      case SetLoggingConfigBasename(n) =>
        EvaluateConcat(a[1..], b, s.(loggingConfigBasename := n));
      case Raise(m) =>
    }
  }
}
