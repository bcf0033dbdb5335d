/** `resolve_config_value` (src/utils/resolve_config_value.py): a setting is
    taken from the command line, else from the environment, else from the
    configuration file. The process environment is passed in as a map. */
module ConfigResolve {
  import opened Wrappers

  /** `env_var and os.getenv(env_var)`: a non-empty variable name whose
      value in the environment is non-empty. */
  predicate EnvUsable(envVar: Option<string>, env: map<string, string>)
  {
    envVar.Some? && envVar.value != "" && envVar.value in env && env[envVar.value] != ""
  }

  /** CLI over environment over configuration; None when none of them applies. */
  function ResolveConfigValue(cliValue: Option<string>, configValue: Option<string>,
                              envVar: Option<string>, env: map<string, string>): (r: Option<string>)
    ensures cliValue.Some? ==> r == cliValue
    ensures cliValue.None? && EnvUsable(envVar, env) ==> r == Some(env[envVar.value])
    ensures cliValue.None? && !EnvUsable(envVar, env) ==> r == configValue
    ensures r == cliValue || r == configValue
         || (envVar.Some? && envVar.value in env && r == Some(env[envVar.value]))
    ensures r == None <==> cliValue == None && !EnvUsable(envVar, env) && configValue == None
  {
    if cliValue.Some? then cliValue
    else if envVar.Some? && envVar.value != "" && envVar.value in env && env[envVar.value] != "" then
      Some(env[envVar.value])
    else if configValue.Some? then configValue
    else None
  }
}
