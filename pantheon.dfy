/**
 * The Pantheon helpers of src/Tasks.php: `getPantheonSiteEnv`, and the two
 * decisions `pantheonDeploy` takes on the environment name it is given:
 * multidev names are limited to 11 characters, and the `dev` environment is
 * deployed from Pantheon's `master` branch.
 */
module Pantheon {
  import opened PhpValue
  import opened Environment
  import opened Configuration

  /** The environment part of `getPantheonSiteEnv($env)`: `$env` when truthy, `getenv('TERMINUS_ENV')` otherwise. */
  function SiteEnvPart(env: map<string, string>, siteEnv: Value): Value {
    if Truthy(siteEnv) then siteEnv else GetEnv(env, "TERMINUS_ENV")
  }

  /** `getPantheonSiteEnv($env)` (src/Tasks.php:681-689): `<site>.<env>`, where an unset variable joins as ''. */
  function PantheonSiteEnv(env: map<string, string>, siteEnv: Value): string {
    ToPhpString(GetEnv(env, "TERMINUS_SITE")) + "." + ToPhpString(SiteEnvPart(env, siteEnv))
  }

  /** The text before the first `.`, or all of it when there is none. */
  function BeforeDot(s: string): (r: string)
    ensures |r| <= |s| && r == s[..|r|]
    ensures '.' !in r
  {
    if s == [] || s[0] == '.' then [] else [s[0]] + BeforeDot(s[1..])
  }

  /** Joining a dot-free `a` to `b` with a dot can be undone at the first dot. */
  lemma {:induction false} BeforeDotJoin(a: string, b: string)
    requires '.' !in a
    ensures BeforeDot(a + "." + b) == a
    decreases |a|
  {
    if a == [] {
      assert a + "." + b == "." + b;
    } else {
      assert (a + "." + b)[0] == a[0];
      assert (a + "." + b)[1..] == a[1..] + "." + b;
      BeforeDotJoin(a[1..], b);
      assert [a[0]] + a[1..] == a;
    }
  }

  /**
   * When the site name holds no dot, the site is everything before the
   * first dot of `getPantheonSiteEnv`'s answer and the environment
   * everything after it; the environment is `$env` itself whenever that is
   * truthy.
   */
  lemma SiteEnvSplits(env: map<string, string>, siteEnv: Value)
    requires '.' !in ToPhpString(GetEnv(env, "TERMINUS_SITE"))
    ensures var site := ToPhpString(GetEnv(env, "TERMINUS_SITE"));
            var r := PantheonSiteEnv(env, siteEnv);
      && BeforeDot(r) == site
      && |site| < |r| && r[|site| + 1..] == ToPhpString(SiteEnvPart(env, siteEnv))
    ensures Truthy(siteEnv) ==> SiteEnvPart(env, siteEnv) == siteEnv
    ensures !Truthy(siteEnv) ==> SiteEnvPart(env, siteEnv) == GetEnv(env, "TERMINUS_ENV")
  {
    var site := ToPhpString(GetEnv(env, "TERMINUS_SITE"));
    var part := ToPhpString(SiteEnvPart(env, siteEnv));
    BeforeDotJoin(site, part);
    assert (site + "." + part)[|site| + 1..] == part;
  }

  /** The environment `pantheonDeploy` works on (src/Tasks.php:470): the `pantheon-branch` option when truthy, `TERMINUS_ENV` otherwise. */
  function DeployEnv(env: map<string, string>, pantheonBranch: Value): Value {
    if Truthy(pantheonBranch) then pantheonBranch else GetEnv(env, "TERMINUS_ENV")
  }

  /** Handing the deploy environment to `getPantheonSiteEnv` names the same environment. */
  lemma DeploySiteEnv(env: map<string, string>, pantheonBranch: Value)
    ensures SiteEnvPart(env, DeployEnv(env, pantheonBranch)) == DeployEnv(env, pantheonBranch)
  {
  }

  /** `strlen($terminus_env) > 11` refuses a multidev (src/Tasks.php:482): names of at most 11 characters pass. */
  predicate MultidevNameAllowed(terminusEnv: Value) {
    !(|ToPhpString(terminusEnv)| > 11)
  }

  /** The branch `pantheonDeploy` pushes to (src/Tasks.php:504): `master` for the `dev` environment, the environment's name otherwise. */
  function PantheonBranch(terminusEnv: Value): Value {
    if LooseEquals(terminusEnv, Str("dev")) then Str("master") else terminusEnv
  }

  /** No environment is deployed to a branch named `dev`, and mapping twice changes nothing. */
  lemma PantheonBranchNeverDev(terminusEnv: Value)
    ensures !LooseEquals(PantheonBranch(terminusEnv), Str("dev"))
    ensures PantheonBranch(PantheonBranch(terminusEnv)) == PantheonBranch(terminusEnv)
  {
  }

  /**
   * With `configure`'s `terminus_env`: the production branch becomes the
   * `dev` environment, a valid multidev name that deploys to `master`; any
   * other branch not loosely equal to 'dev' deploys to itself.
   */
  lemma TerminusEnvDeploy(branch: Value, prodBranch: Value)
    ensures LooseEquals(branch, prodBranch) ==>
      MultidevNameAllowed(TerminusEnv(branch, prodBranch)) && PantheonBranch(TerminusEnv(branch, prodBranch)) == Str("master")
    ensures !LooseEquals(branch, prodBranch) && !LooseEquals(branch, Str("dev")) ==>
      PantheonBranch(TerminusEnv(branch, prodBranch)) == branch
  {
  }

  /** A multidev name is allowed exactly when it has at most 11 characters; `false` (an unset variable) counts as ''. */
  lemma MultidevNames(s: string)
    ensures MultidevNameAllowed(Str(s)) <==> |s| <= 11
    ensures MultidevNameAllowed(Bool(false)) && MultidevNameAllowed(Null)
  {
  }
}
