/**
 * The settings the `Tailor` constructor derives: the project's provider settings
 * (root, assets and build directories, the user's config) and the paths of the
 * bundler binary and of the bundler configuration shipped with the package.
 */
module Settings {
  import opened Wrappers

  /** The user's project configuration (`<root>/tailor.js`); the core reads only its optional `deleteOnEnd` list. */
  datatype UserConfig = UserConfig(deleteOnEnd: Option<seq<string>>)

  /** A value stored under one key of the provider-settings object. */
  datatype Setting = PathSetting(path: string) | ConfigSetting(config: UserConfig)

  /** The provider settings once the constructor has built them. */
  datatype ProviderSettings = ProviderSettings(root: string, assetsDir: string, buildDir: string, config: UserConfig)

  /** An instance of the `Tailor` class after construction. */
  datatype Tailor = Tailor(
    name: string,
    packageRoot: string,
    provider: ProviderSettings,
    webpackCliPath: string,
    webpackConfigPath: string)

  /**
   * JavaScript object spread `{...first, ...second}`: every key of either object,
   * and on a key both hold, the value of the later one.
   */
  function Spread<K, V>(first: map<K, V>, second: map<K, V>): (r: map<K, V>)
    ensures r.Keys == first.Keys + second.Keys
    ensures forall k :: k in second ==> r[k] == second[k]
    ensures forall k :: k in first && k !in second ==> r[k] == first[k]
  {
    first + second
  }

  /** The defaults object of the constructor, derived from the first object's root; it never carries a root of its own. */
  function Defaults(root: string, config: UserConfig): (r: map<string, Setting>)
    ensures r.Keys == {"assetsDir", "buildDir", "config"} && "root" !in r
    ensures r["assetsDir"] == PathSetting(root + "/assets") && r["buildDir"] == PathSetting(root + "/dist")
    ensures root + "/" <= r["assetsDir"].path && root + "/" <= r["buildDir"].path
    ensures r["assetsDir"] != r["buildDir"]
    ensures r["config"] == ConfigSetting(config)
  {
    var assets := root + "/assets";
    var build := root + "/dist";
    assert assets[..|root| + 1] == root + "/" && build[..|root| + 1] == root + "/";
    assert assets[|root| + 1] == 'a' && build[|root| + 1] == 'd';
    map["assetsDir" := PathSetting(assets),
        "buildDir" := PathSetting(build),
        "config" := ConfigSetting(config)]
  }

  /**
   * The provider-settings object: first `{root: cwd}`, then the defaults derived
   * from that root spread before it, so the resolved root is spread last.
   */
  function ProviderObject(cwd: string, config: UserConfig): (r: map<string, Setting>)
    ensures r.Keys == {"root", "assetsDir", "buildDir", "config"}
    ensures r["root"] == PathSetting(cwd)
    ensures r["assetsDir"] == PathSetting(cwd + "/assets")
    ensures r["buildDir"] == PathSetting(cwd + "/dist")
    ensures r["config"] == ConfigSetting(config)
  {
    var first := map["root" := PathSetting(cwd)];
    Spread(Defaults(first["root"].path, config), first)
  }

  /** Reads the provider-settings object into its record form. */
  function Resolve(cwd: string, config: UserConfig): (s: ProviderSettings)
    ensures s.root == cwd
    ensures s.assetsDir == s.root + "/assets" && s.buildDir == s.root + "/dist"
    ensures s.config == config
  {
    var o := ProviderObject(cwd, config);
    ProviderSettings(o["root"].path, o["assetsDir"].path, o["buildDir"].path, o["config"].config)
  }

  /**
   * The constructor. `packageRoot` is the directory above the class's own file,
   * `cwd` the resolved working directory, `config` what `<cwd>/tailor.js` exports.
   */
  function Construct(packageRoot: string, cwd: string, config: UserConfig): (t: Tailor)
    ensures t.name == "Tailor" && t.packageRoot == packageRoot
    ensures t.provider == Resolve(cwd, config)
    ensures t.webpackCliPath == packageRoot + "/node_modules/.bin/webpack"
    ensures t.webpackConfigPath == packageRoot + "/webpack.config.js"
    ensures packageRoot + "/" <= t.webpackCliPath && packageRoot + "/" <= t.webpackConfigPath
    ensures t.webpackCliPath != t.webpackConfigPath
  {
    var cli := packageRoot + "/node_modules/.bin/webpack";
    var conf := packageRoot + "/webpack.config.js";
    assert cli[|packageRoot| + 1] == 'n' && conf[|packageRoot| + 1] == 'w';
    Tailor("Tailor", packageRoot, Resolve(cwd, config), cli, conf)
  }

  /** Whatever the defaults object holds, a key spread later wins: the root can never be overridden by a default. */
  lemma RootNeverOverridden(defaults: map<string, Setting>, cwd: string)
    ensures Spread(defaults, map["root" := PathSetting(cwd)])["root"] == PathSetting(cwd)
  {
  }

  /**
   * The tool paths depend on the package location only, and the project paths
   * on the working directory and config only.
   */
  lemma PathsSeparateConcerns(p1: string, p2: string, c1: string, c2: string, k1: UserConfig, k2: UserConfig)
    ensures p1 == p2 ==>
      Construct(p1, c1, k1).webpackCliPath == Construct(p2, c2, k2).webpackCliPath &&
      Construct(p1, c1, k1).webpackConfigPath == Construct(p2, c2, k2).webpackConfigPath
    ensures c1 == c2 && k1 == k2 ==> Construct(p1, c1, k1).provider == Construct(p2, c2, k2).provider
    ensures c1 != c2 ==> Construct(p1, c1, k1).provider.assetsDir != Construct(p2, c2, k2).provider.assetsDir
  {
    if c1 != c2 {
      var a1 := Construct(p1, c1, k1).provider.assetsDir;
      var a2 := Construct(p2, c2, k2).provider.assetsDir;
      if a1 == a2 {
        AppendSuffixInjective(c1, c2, "/assets");
      }
    }
  }

  /** Appending the same suffix keeps distinct strings distinct. */
  lemma AppendSuffixInjective(a: string, b: string, suffix: string)
    requires a + suffix == b + suffix
    ensures a == b
  {
    assert |a| == |b|;
    assert a == (a + suffix)[..|a|];
    assert b == (b + suffix)[..|b|];
  }
}
