/**
 * `load_valid_envs` (backend/src/core/paths.py): which env files it hands to
 * `load_dotenv`, in order, for a given `ENV` variable. The effect of loading a file on
 * the process environment is not modelled; the loader only records the paths it is given.
 */
module EnvPaths {
  import opened Wrappers
  import opened Strings

  /** `PROJECT_DIR / rel` for a relative `rel`. */
  function Join(dir: string, rel: string): string
  {
    dir + "/" + rel
  }

  /** `PROJECT_DIR / ".envs/<env>/<name>"`. */
  function EnvFile(dir: string, env: string, name: string): string
  {
    Join(dir, ".envs/" + env + "/" + name)
  }

  /** `load_dotenv`, recording each path it is called with. */
  class DotEnv {
    var loaded: seq<string>

    constructor()
      ensures loaded == []
    {
      loaded := [];
    }

    method LoadDotenv(path: string)
      modifies this
      ensures loaded == old(loaded) + [path]
    {
      loaded := loaded + [path];
    }
  }

  /** How `load_valid_envs` ends: normally, or with `ValueError(f"Invalid environment: {ENV}")`. */
  datatype Outcome = Loaded | InvalidEnvironment(message: string)

  /** `os.getenv("ENV", "dev")`. */
  function EffectiveEnv(env: Option<string>): string
  {
    env.GetOr("dev")
  }

  /** The files of one environment, or `None` for a name the function rejects. */
  function EnvironmentFiles(projectDir: string, env: string): (r: Option<seq<string>>)
    ensures r.Some? <==> env in {"dev", "prod", "test"}
    ensures r.Some? ==> |r.value| == (if env == "dev" then 3 else 1)
    ensures r.Some? ==> r.value[0] == EnvFile(projectDir, env, "django.env")
  {
    if env == "dev" then
      Some([EnvFile(projectDir, "dev", "django.env"), EnvFile(projectDir, "dev", "postgres.env"),
            EnvFile(projectDir, "dev", "minio.env")])
    else if env == "prod" then Some([EnvFile(projectDir, "prod", "django.env")])
    else if env == "test" then Some([EnvFile(projectDir, "test", "django.env")])
    else None
  }

  /** Every path one call loads: the main `.env` when it exists, then the environment's files. */
  function LoadedFiles(projectDir: string, mainEnvExists: bool, env: Option<string>): seq<string>
  {
    var files := EnvironmentFiles(projectDir, EffectiveEnv(env));
    (if mainEnvExists then [Join(projectDir, ".env")] else []) + (if files.Some? then files.value else [])
  }

  method LoadValidEnvs(dotenv: DotEnv, projectDir: string, mainEnvExists: bool, env: Option<string>)
    returns (outcome: Outcome)
    modifies dotenv
    ensures dotenv.loaded == old(dotenv.loaded) + LoadedFiles(projectDir, mainEnvExists, env)
    ensures outcome == if EnvironmentFiles(projectDir, EffectiveEnv(env)).Some? then Loaded
      else InvalidEnvironment("Invalid environment: " + EffectiveEnv(env))
  {
    var mainEnv := Join(projectDir, ".env");
    if mainEnvExists {
      dotenv.LoadDotenv(mainEnv);
    }

    var name := env.GetOr("dev");

    outcome := Loaded;
    if name == "dev" {
      dotenv.LoadDotenv(EnvFile(projectDir, "dev", "django.env"));
      dotenv.LoadDotenv(EnvFile(projectDir, "dev", "postgres.env"));
      dotenv.LoadDotenv(EnvFile(projectDir, "dev", "minio.env"));
    } else if name == "prod" {
      dotenv.LoadDotenv(EnvFile(projectDir, "prod", "django.env"));
    } else if name == "test" {
      dotenv.LoadDotenv(EnvFile(projectDir, "test", "django.env"));
    } else {
      outcome := InvalidEnvironment("Invalid environment: " + name);
    }
  }

  /** The main `.env` comes first when it exists, and is loaded even when `ENV` is then rejected. */
  lemma MainEnvFirst(projectDir: string, mainEnvExists: bool, env: Option<string>)
    ensures var r := LoadedFiles(projectDir, mainEnvExists, env);
      (mainEnvExists ==> |r| > 0 && r[0] == Join(projectDir, ".env")) &&
      (Join(projectDir, ".env") in r <==> mainEnvExists)
    ensures EnvironmentFiles(projectDir, EffectiveEnv(env)).None? ==>
      LoadedFiles(projectDir, mainEnvExists, env) == if mainEnvExists then [Join(projectDir, ".env")] else []
  {
    var r := LoadedFiles(projectDir, mainEnvExists, env);
    var main := Join(projectDir, ".env");
    var files := EnvironmentFiles(projectDir, EffectiveEnv(env));
    if files.Some? {
      forall f | f in files.value ensures f != main {
        assert |f| > |main|;
      }
    }
  }

  /** An unset `ENV` loads what `ENV=dev` loads. */
  lemma UnsetIsDev(projectDir: string, mainEnvExists: bool)
    ensures LoadedFiles(projectDir, mainEnvExists, None) == LoadedFiles(projectDir, mainEnvExists, Some("dev"))
    ensures LoadedFiles(projectDir, false, None) ==
      [EnvFile(projectDir, "dev", "django.env"), EnvFile(projectDir, "dev", "postgres.env"), EnvFile(projectDir, "dev", "minio.env")]
  {
  }

  /** Each environment loads only files under its own directory. */
  lemma OwnDirectoryOnly(projectDir: string, env: string)
    ensures var r := EnvironmentFiles(projectDir, env);
      r.Some? ==> forall f | f in r.value :: StartsWith(f, Join(projectDir, ".envs/" + env + "/"))
  {
    var r := EnvironmentFiles(projectDir, env);
    if r.Some? {
      var pre := Join(projectDir, ".envs/" + env + "/");
      forall f | f in r.value ensures StartsWith(f, pre) {
        var i :| 0 <= i < |r.value| && r.value[i] == f;
        var rest := if env == "dev" then ["django.env", "postgres.env", "minio.env"][i] else "django.env";
        assert f == EnvFile(projectDir, env, rest);
        assert f == pre + rest;
        assert f[..|pre|] == pre;
      }
    }
  }
}
