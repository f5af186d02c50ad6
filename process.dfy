/**
 * The parts of the Node.js `process` object the core changes: the environment, the
 * working directory and the exit code, plus the version string it reads.
 */
module NodeProcess {
  import opened Wrappers
  import opened Rpc

  class Process {
    var env: map<string, string>
    var cwd: string
    var exitCode: Option<int>
    const version: string

    constructor(env: map<string, string>, cwd: string, version: string)
      ensures this.env == env && this.cwd == cwd && exitCode.None? && this.version == version
    {
      this.env := env;
      this.cwd := cwd;
      exitCode := None;
      this.version := version;
    }

    /** `delete process.env[key]` for every key present: the environment ends up empty. */
    method DeleteAllVariables()
      modifies this
      ensures env == map[]
      ensures cwd == old(cwd) && exitCode == old(exitCode)
    {
      var keys := env.Keys;
      while keys != {}
        invariant env.Keys == keys
        invariant cwd == old(cwd) && exitCode == old(exitCode)
        decreases |keys|
      {
        var k :| k in keys;
        env := env - {k};
        keys := keys - {k};
      }
      assert env == map[];
    }

    /** `Object.assign(process.env, vars)`: each variable is set, overriding any earlier value. */
    method AssignVariables(vars: map<string, string>)
      modifies this
      ensures env == old(env) + vars
      ensures cwd == old(cwd) && exitCode == old(exitCode)
    {
      var pending := vars.Keys;
      while pending != {}
        invariant pending <= vars.Keys
        invariant env == old(env) + map k | k in vars.Keys - pending :: vars[k]
        invariant cwd == old(cwd) && exitCode == old(exitCode)
        decreases |pending|
      {
        var k :| k in pending;
        env := env[k := vars[k]];
        pending := pending - {k};
      }
      assert vars == map k | k in vars.Keys - {} :: vars[k];
    }

    /** Deleting every variable, then assigning the given ones: the environment becomes exactly `vars`. */
    method ReplaceEnvironment(vars: map<string, string>)
      modifies this
      ensures env == vars
      ensures cwd == old(cwd) && exitCode == old(exitCode)
    {
      DeleteAllVariables();
      AssignVariables(vars);
      assert map[] + vars == vars;
    }

    /** `process.chdir(dir)`; `error` is what the file system answers, if it refuses. */
    method Chdir(dir: string, error: Option<Exception>) returns (o: Outcome<Exception>)
      modifies this
      ensures error.None? ==> o == Pass && cwd == dir
      ensures error.Some? ==> o == Fail(error.value) && cwd == old(cwd)
      ensures env == old(env) && exitCode == old(exitCode)
    {
      if error.Some? {
        return Fail(error.value);
      }
      cwd := dir;
      o := Pass;
    }

    /** `process.exit(code)`. */
    method Exit(code: int)
      modifies this
      ensures exitCode == Some(code)
      ensures env == old(env) && cwd == old(cwd)
    {
      exitCode := Some(code);
    }
  }
}
