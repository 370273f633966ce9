# Mandrel bootstrap discovery, modelled in Dafny

Mandrel finds a project's root by looking for a bootstrap file, `Mandrel.py` by
default, in the working directory and then in each directory above it. It
then evaluates that file to fill in four process-wide settings:

- `ROOT_PATH`
- `BOOTSTRAP_FILE`
- `SEARCH_PATHS`
- `LOGGING_CONFIG_BASENAME`

Two environment variables change this:

- `MANDREL_ROOT` fixes the root and turns the walk off.
- `MANDREL_BOOTSTRAP_NAME` changes the file name looked for.

The behaviour is pinned down by the test module
`mandrel/test/bootstrap/bootstrap_file_test.py`. The implementation module it
exercises (`mandrel.bootstrap`) is not part of this model. So this model is
built from the tests, and every citation below points at them.

The model is pure functions over explicit inputs:

- **Paths** (`paths.dfy`): a path is a sequence of components. The root is
  `[]`. `Parent` drops the last component. `Join(dir, name)` appends one.
- **Environment** (`environment.dfy`): `Env` holds the two variables as
  options. `TargetName` picks the file name.
- **Walker** (`walker.dfy`): `Find` is the upward walk as a recursive function.
  `Walk` is the same walk as a loop. `Nearest` is an independent definition of
  the right answer, and lemmas prove that both the function and the loop meet
  it exactly.
- **Evaluator** (`evaluator.dfy`): the bootstrap `State`. A bootstrap file is
  abstracted as a `Script`, the sequence of operations it performs: append a
  search path, set the logging base name, or raise an error. `Evaluate` runs
  a script.
- **Bootstrap** (`bootstrap.dfy`): the filesystem is a map from existing file
  paths to their scripts. `Resolve` decides the root. `Load` seeds and
  evaluates. `Initialize` is one whole bootstrap cycle. The lemmas here state
  the tested behaviour for all inputs.
- **Scenarios** (`scenarios.dfy`): the situations the individual tests set up,
  as concrete instances.

Search paths are appended verbatim, with no de-duplication. A failure returns
no state at all, so initialization is all-or-nothing.

## Model

| member | source | states |
|---|---|---|
| Environment.TargetName | mandrel/test/bootstrap/bootstrap_file_test.py:86-97 | the name looked for is MANDREL_BOOTSTRAP_NAME when set and "Mandrel.py" otherwise |
| Walker.Find | mandrel/test/bootstrap/bootstrap_file_test.py:9-25 | the walk returns a directory that is the nearest ancestor-or-self of the start holding the file, and returns nothing exactly when no directory from the start up to the root holds it |
| Walker.NearestUnique | mandrel/test/bootstrap/bootstrap_file_test.py:19-25 | at most one directory is the nearest holder of the file, so the walk's answer is determined |
| Walker.FindIsNearest | mandrel/test/bootstrap/bootstrap_file_test.py:13-25 | the walk returns d if and only if d is the nearest ancestor-or-self of the start holding the file |
| Walker.FindFromBetween | mandrel/test/bootstrap/bootstrap_file_test.py:19-25 | starting the walk anywhere between the start and the directory it found gives that same directory |
| Walker.SoleHolderIsNearest | mandrel/test/bootstrap/bootstrap_file_test.py:19-25 | when the only file is the one in d, d is the nearest holder for every start directory below d |
| Walker.Walk | mandrel/test/bootstrap/bootstrap_file_test.py:134-142 | the step-by-step loop up the parents finds the nearest holder, or reports not-found exactly when no ancestor holds the file |
| Walker.WalkAgreesWithFind | mandrel/test/bootstrap/bootstrap_file_test.py:134-142 | any answer meeting the loop's contract equals the recursive walk's answer |
| Evaluator.Seed | mandrel/test/bootstrap/bootstrap_file_test.py:37-45 | before evaluation the search paths are exactly [root] and the logging base name is "logging.cfg" |
| Evaluator.Evaluate | mandrel/test/bootstrap/bootstrap_file_test.py:71-84 | evaluation adds the file's appends after the existing search paths in order, keeps the root and file, applies the last logging setting, and fails exactly when the file raises, with its first error |
| Evaluator.AppendsConcat | mandrel/test/bootstrap/bootstrap_file_test.py:77-84 | the appends of two consecutive pieces of a file are the first piece's appends followed by the second's |
| Evaluator.EvaluateConcat | mandrel/test/bootstrap/bootstrap_file_test.py:27-29 | evaluating a file in two pieces is evaluating the first and, unless it raised, the second on its result |
| Bootstrap.Load | mandrel/test/bootstrap/bootstrap_file_test.py:57-69 | the root and the constructed file path are kept, and an absent file leaves exactly the seeded defaults |
| Bootstrap.Resolve | mandrel/test/bootstrap/bootstrap_file_test.py:111-119 | MANDREL_ROOT is the root when set; otherwise the root is the nearest holder, and resolution fails with MissingBootstrap exactly when no ancestor holds the file |
| Bootstrap.Initialize | mandrel/test/bootstrap/bootstrap_file_test.py:57-84 | a successful cycle has the bootstrap file at root joined with the name, the override as root when set, the nearest holder as root otherwise; MissingBootstrap exactly when unforced and nothing is found; an evaluation error exactly when the resolved file raises |
| Bootstrap.EvaluationErrorPropagates | mandrel/test/bootstrap/bootstrap_file_test.py:27-29 | an error raised by the evaluated file reaches the caller unchanged |
| Bootstrap.MissingBootstrapIff | mandrel/test/bootstrap/bootstrap_file_test.py:111-119 | the cycle fails with MissingBootstrap if and only if MANDREL_ROOT is unset and no directory from the start up holds the file |
| Bootstrap.WalkResolvesNearest | mandrel/test/bootstrap/bootstrap_file_test.py:121-132 | without MANDREL_ROOT the nearest holder's file is the one evaluated, on a state rooted there |
| Bootstrap.RootImmediate | mandrel/test/bootstrap/bootstrap_file_test.py:13-17 | a file in the start directory makes it the root and the file there the bootstrap file |
| Bootstrap.NestedInvariance | mandrel/test/bootstrap/bootstrap_file_test.py:19-25 | starting below the nearest holder gives exactly the result of starting in it |
| Bootstrap.SearchPathsAndLogging | mandrel/test/bootstrap/bootstrap_file_test.py:37-45 | the search paths are the root followed by the file's appends, and the logging base name is the file's last setting or "logging.cfg", in both modes |
| Bootstrap.ForcedRootWithoutFile | mandrel/test/bootstrap/bootstrap_file_test.py:57-69 | with MANDREL_ROOT = r and no file at r the cycle succeeds with root r, file r joined with the name, search paths [r] and "logging.cfg", whatever else exists |
| Bootstrap.ForcedRootIgnoresRest | mandrel/test/bootstrap/bootstrap_file_test.py:99-109 | with MANDREL_ROOT set the result depends only on the file at the override, not on the working directory or any other file |
| Bootstrap.SingleAppend | mandrel/test/bootstrap/bootstrap_file_test.py:127-132 | a bootstrap file that appends X yields search paths [root, X] in either mode |
| Bootstrap.BootstrapFileName | mandrel/test/bootstrap/bootstrap_file_test.py:121-132 | the bootstrap file's base name is the target name, "Mandrel.py" when no override is set |
| Scenarios.NoFile | mandrel/test/bootstrap/bootstrap_file_test.py:9-11 | with no file anywhere above the home directory the cycle fails with MissingBootstrap, for the default or an overridden name |
| Scenarios.BothOverridesFileAbsent | mandrel/test/bootstrap/bootstrap_file_test.py:57-69 | MANDREL_ROOT=/blah and name bootstrapper.py with no such file give root /blah, file /blah/bootstrapper.py, search paths [/blah] |
| Scenarios.RootOverrideDefaultNameAbsent | mandrel/test/bootstrap/bootstrap_file_test.py:86-97 | MANDREL_ROOT=/blah without Mandrel.py there gives root /blah, file /blah/Mandrel.py, search paths [/blah] |
| Scenarios.NestedNamedFile | mandrel/test/bootstrap/bootstrap_file_test.py:134-142 | a named file three levels above the working directory that appends /blah/myconf is found and gives [root, /blah/myconf] |
| Scenarios.RootOverrideFilePresent | mandrel/test/bootstrap/bootstrap_file_test.py:99-109 | MANDREL_ROOT at a directory whose Mandrel.py appends /blah/myconf gives that root and [root, /blah/myconf] |

## Left out

- Evaluating the bootstrap file as Python code is not modelled. The file's
  effect is abstracted as a sequence of operations. So the check that the file
  runs with `bootstrap` and `config` bound to the live modules (test lines
  27-34) is not modelled: object identity has no counterpart here.
- Reading the real environment and filesystem is left out. The two variables
  and the set of existing files are parameters. The same goes for `~`
  expansion and the test helpers that create directories.
- The `MANDREL_ROOT` value is taken as an already-split path. Parsing the
  string into components and `os.path.join` normalisation are not modelled.
- The process-wide singleton and its reset are left out. Each cycle returns a
  fresh `State`, which also gives "re-initialisation replaces every field".
- The `config` module and logging setup are left out. They consume the state
  and are not part of this model.
- Error messages are not modelled. `MissingBootstrap` carries only the name
  looked for.
- Evaluator.Evaluate: on an error it returns no state. Python's `exec` would
  keep any appends made before the error. The model follows the
  all-or-nothing failure contract instead.
