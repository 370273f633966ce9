/** The concrete situations the bootstrap tests set up, as instances of the
    general model. A home directory stands in for `~`. */
module Scenarios {
  import opened Wrappers
  import opened Paths
  import opened Environment
  import opened Walker
  import opened Evaluator
  import opened Bootstrap

  const Home: Path := ["home", "user"]
  const Blah: Path := ["blah"]
  const MyConf: Path := ["blah", "myconf"]

  /** No bootstrap file anywhere above `~`: MissingBootstrap for the default
      name and for an overridden one alike. */
  lemma NoFile(name: Option<string>)
    ensures Initialize(map[], Env(None, name), Home)
         == Failure(MissingBootstrap(TargetName(Env(None, name))))
  {
    MissingBootstrapIff(map[], Env(None, name), Home);
  }

  /** MANDREL_ROOT=/blah, MANDREL_BOOTSTRAP_NAME=bootstrapper.py, no such file:
      the defaults rooted at /blah, over any filesystem without that file. */
  lemma BothOverridesFileAbsent(fs: FileSystem, cwd: Path)
    requires Join(Blah, "bootstrapper.py") !in fs
    ensures Initialize(fs, Env(Some(Blah), Some("bootstrapper.py")), cwd)
         == Success(State(Blah, ["blah", "bootstrapper.py"], [Blah], "logging.cfg"))
  {
    ForcedRootWithoutFile(fs, Env(Some(Blah), Some("bootstrapper.py")), cwd);
    assert Join(Blah, "bootstrapper.py") == ["blah", "bootstrapper.py"];
  }

  /** MANDREL_ROOT=/blah only, no Mandrel.py there: defaults, and the
      bootstrap file is the constructed /blah/Mandrel.py. */
  lemma RootOverrideDefaultNameAbsent(fs: FileSystem, cwd: Path)
    requires Join(Blah, "Mandrel.py") !in fs
    ensures Initialize(fs, Env(Some(Blah), None), cwd)
         == Success(State(Blah, ["blah", "Mandrel.py"], [Blah], "logging.cfg"))
  {
    ForcedRootWithoutFile(fs, Env(Some(Blah), None), cwd);
    assert Join(Blah, "Mandrel.py") == ["blah", "Mandrel.py"];
  }

  /** MANDREL_BOOTSTRAP_NAME=bootstrapper.py only, the file three levels above
      the working directory appends /blah/myconf: it is found and evaluated. */
  lemma NestedNamedFile(project: Path, a: string, b: string, c: string)
    requires Home <= project
    ensures var fs := map[Join(project, "bootstrapper.py") := [AppendSearchPath(MyConf)]];
      Initialize(fs, Env(None, Some("bootstrapper.py")), project + [a, b, c])
      == Success(State(project, Join(project, "bootstrapper.py"), [project, MyConf], "logging.cfg"))
  {
    var name := "bootstrapper.py";
    var file := Join(project, name);
    var script := [AppendSearchPath(MyConf)];
    var fs := map[file := script];
    var env := Env(None, Some(name));
    var cwd := project + [a, b, c];
    assert TargetName(env) == name;
    assert fs.Keys == {file};
    assert IsAncestor(project, cwd);
    SoleHolderIsNearest(fs.Keys, cwd, name, project);
    WalkResolvesNearest(fs, env, cwd, project);
    assert Appends(script) == [MyConf];
    assert FinalBasename(script, DefaultLoggingConfigBasename) == DefaultLoggingConfigBasename;
    assert [project] + [MyConf] == [project, MyConf];
  }

  /** MANDREL_ROOT set to a directory whose Mandrel.py appends /blah/myconf:
      the root is the override and the search paths are [root, /blah/myconf]. */
  lemma RootOverrideFilePresent(fs: FileSystem, root: Path, cwd: Path)
    requires Join(root, "Mandrel.py") in fs
    requires fs[Join(root, "Mandrel.py")] == [AppendSearchPath(MyConf)]
    ensures Initialize(fs, Env(Some(root), None), cwd)
         == Success(State(root, Join(root, "Mandrel.py"), [root, MyConf], "logging.cfg"))
  {
    var env := Env(Some(root), None);
    assert TargetName(env) == "Mandrel.py";
    SearchPathsAndLogging(fs, env, cwd);
    assert Appends([AppendSearchPath(MyConf)]) == [MyConf];
    assert [root] + [MyConf] == [root, MyConf];
  }
}
