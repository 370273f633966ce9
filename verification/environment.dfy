/** The two optional environment overrides consulted before any search. */
module Environment {
  import opened Wrappers
  import opened Paths

  /** The bootstrap file name looked for when no override is set. */
  const DefaultBootstrapName: string := "Mandrel.py"

  /** The values of MANDREL_ROOT and MANDREL_BOOTSTRAP_NAME, each possibly unset. */
  datatype Env = Env(root: Option<Path>, bootstrapName: Option<string>)

  /** The file name the bootstrapper looks for. */
  function TargetName(env: Env): (name: string)
    ensures env.bootstrapName.None? ==> name == DefaultBootstrapName
    ensures env.bootstrapName.Some? ==> name == env.bootstrapName.value
  {
    env.bootstrapName.GetOr(DefaultBootstrapName)
  }
}
