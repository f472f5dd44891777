/** `fixDatabaseUrl`: under a Vercel deployment, rewrite the `postgresql://` scheme of the
    two database connection strings to `postgres://`, in the process environment.

    The environment is a map from variable names to values; an unset variable is absent. */
module FixPrismaEnv {
  import opened Js

  const PostgresScheme: string := "postgres://"
  const PostgresqlScheme: string := "postgresql://"

  /** The environment variable's value, `undefined` when unset. */
  function Lookup(env: map<string, string>, name: string): Option<string> {
    if name in env then Some(env[name]) else None
  }

  /** The rewrite applied to one connection string: a set value that does not start with
      `postgres://` but does start with `postgresql://` has its first `postgresql://` replaced;
      every other value is kept. */
  function FixUrl(url: string): (r: string)
    ensures StartsWith(url, PostgresqlScheme) ==> r == PostgresScheme + url[|PostgresqlScheme|..]
    ensures !StartsWith(url, PostgresqlScheme) ==> r == url
  {
    SchemesExclusive(url);
    if url != "" && !StartsWith(url, PostgresScheme) then
      if StartsWith(url, PostgresqlScheme) then
        ReplacePrefix(url, PostgresqlScheme, PostgresScheme);
        ReplaceFirst(url, PostgresqlScheme, PostgresScheme)
      else url
    else url
  }

  /** No value starts with both schemes: they differ in their ninth character. */
  lemma SchemesExclusive(url: string)
    ensures !(StartsWith(url, PostgresScheme) && StartsWith(url, PostgresqlScheme))
  {
    if StartsWith(url, PostgresScheme) && |url| >= |PostgresqlScheme| {
      assert url[8] == url[..|PostgresScheme|][8] == ':';
      assert url[..|PostgresqlScheme|][8] != PostgresqlScheme[8];
    }
  }

  /** A fixed value no longer carries the `postgresql://` scheme, so fixing is idempotent. */
  lemma FixUrlIdempotent(url: string)
    ensures FixUrl(FixUrl(url)) == FixUrl(url)
  {
    if StartsWith(url, PostgresqlScheme) {
      var r := FixUrl(url);
      assert StartsWith(r, PostgresScheme);
      SchemesExclusive(r);
    }
  }

  /** The variable `name` after the rewrite, the rest of the environment unchanged. */
  function FixVar(env: map<string, string>, name: string): map<string, string> {
    if name in env then env[name := FixUrl(env[name])] else env
  }

  /** The environment after `fixDatabaseUrl()`. */
  function FixedEnv(env: map<string, string>): (r: map<string, string>)
    ensures r.Keys == env.Keys
    ensures !Truthy(Lookup(env, "VERCEL")) ==> r == env
    ensures forall name :: name in env && name != "DATABASE_URL" && name != "DIRECT_URL" ==> r[name] == env[name]
    ensures Truthy(Lookup(env, "VERCEL")) ==>
      forall name :: name in env && (name == "DATABASE_URL" || name == "DIRECT_URL") ==> r[name] == FixUrl(env[name])
  {
    if Truthy(Lookup(env, "VERCEL")) then FixVar(FixVar(env, "DATABASE_URL"), "DIRECT_URL") else env
  }

  /** Running the script twice leaves the environment as running it once does. */
  lemma FixedEnvIdempotent(env: map<string, string>)
    ensures FixedEnv(FixedEnv(env)) == FixedEnv(env)
  {
    var once := FixedEnv(env);
    var twice := FixedEnv(once);
    if Truthy(Lookup(env, "VERCEL")) {
      assert Lookup(once, "VERCEL") == Lookup(env, "VERCEL");
      forall name | name in once ensures twice[name] == once[name] {
        if name == "DATABASE_URL" || name == "DIRECT_URL" {
          FixUrlIdempotent(env[name]);
        }
      }
    }
  }

  /** The process environment, updated in place. */
  class Environment {
    var vars: map<string, string>

    constructor (vars: map<string, string>)
      ensures this.vars == vars
    {
      this.vars := vars;
    }

    /** `fixDatabaseUrl()`: the two connection strings are rewritten one after the other. */
    method FixDatabaseUrl()
      modifies this
      ensures vars == FixedEnv(old(vars))
    {
      if Truthy(Lookup(vars, "VERCEL")) {
        var dbUrl := Lookup(vars, "DATABASE_URL");
        if Truthy(dbUrl) && !StartsWith(dbUrl.value, PostgresScheme) {
          if StartsWith(dbUrl.value, PostgresqlScheme) {
            vars := vars["DATABASE_URL" := ReplaceFirst(dbUrl.value, PostgresqlScheme, PostgresScheme)];
          }
        }
        var directUrl := Lookup(vars, "DIRECT_URL");
        if Truthy(directUrl) && !StartsWith(directUrl.value, PostgresScheme) {
          if StartsWith(directUrl.value, PostgresqlScheme) {
            vars := vars["DIRECT_URL" := ReplaceFirst(directUrl.value, PostgresqlScheme, PostgresScheme)];
          }
        }
      }
    }
  }
}
