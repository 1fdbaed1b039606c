/**
 * The packaging plan handed to the file-manager plugin when a build ends. In
 * development it only deletes; in production it deletes the stale package
 * directory, recreates it and copies the theme's files into it.
 *
 * The source pushes onto the user's own `deleteOnEnd` array when that array
 * exists, so a call changes the settings it reads. The model makes that explicit:
 * `FileManagerSettings` takes the provider settings and returns them, updated,
 * next to the plan.
 */
module FileManager {
  import opened Wrappers
  import Settings

  /** The placeholder delete list used when the user configured none. */
  const NothingToDelete: string := "| Nothing to delete."

  datatype CopyEntry = CopyEntry(source: string, destination: string)

  /** The `onEnd` actions; an absent key is `None`. */
  datatype OnEnd = OnEnd(delete: seq<string>, mkdir: Option<seq<string>>, copy: Option<seq<CopyEntry>>)

  datatype Plan = Plan(onEnd: OnEnd)

  /** A plan together with the provider settings as the call leaves them. */
  datatype Outcome = Outcome(plan: Plan, settings: Settings.ProviderSettings)

  /** The package directory the production plan assembles. */
  function ThemeDir(root: string): string {
    root + "/theme"
  }

  /** The directories copied into the package under their own names. */
  const MirroredDirs: seq<string> := ["dist", "includes", "src", "templates", "vendor"]

  /** The file patterns copied flat into the package directory. */
  const FlatFiles: seq<string> := ["*.php", "style.css", "screenshot.*"]

  /** `a` is a prefix of `a + b`. */
  lemma PrefixOfAppend(a: string, b: string)
    ensures a <= a + b
  {
    assert (a + b)[..|a|] == a;
  }

  /** A name under `root` whose first two characters are not "th" does not lie under the package directory. */
  lemma OutsideThemeDir(root: string, name: string, rest: string)
    requires |name| >= 2 && (name[0] != 't' || name[1] != 'h')
    ensures !(ThemeDir(root) <= root + "/" + name + rest)
  {
    var p := root + "/" + name + rest;
    assert p[|root| + 1] == name[0] && p[|root| + 2] == name[1];
    assert ThemeDir(root)[|root| + 1] == 't' && ThemeDir(root)[|root| + 2] == 'h';
  }

  /** A directory under `root` copied to the directory of the same name in the package. */
  function DirEntry(root: string, dir: string): CopyEntry {
    CopyEntry(root + "/" + dir + "/", ThemeDir(root) + "/" + dir)
  }

  /** A file pattern under `root` copied flat into the package directory. */
  function FileEntry(root: string, pattern: string): CopyEntry {
    CopyEntry(root + "/" + pattern, ThemeDir(root) + "/")
  }

  /** Every entry lands inside the package directory and reads from outside it. */
  predicate Packages(root: string, e: CopyEntry) {
    ThemeDir(root) <= e.destination && root + "/" <= e.source && !(ThemeDir(root) <= e.source)
  }

  lemma DirEntryPackages(root: string, dir: string)
    requires |dir| >= 2 && (dir[0] != 't' || dir[1] != 'h')
    ensures Packages(root, DirEntry(root, dir))
  {
    PrefixOfAppend(ThemeDir(root), "/" + dir);
    assert ThemeDir(root) + "/" + dir == ThemeDir(root) + ("/" + dir);
    PrefixOfAppend(root + "/", dir + "/");
    assert root + "/" + dir + "/" == root + "/" + (dir + "/");
    OutsideThemeDir(root, dir, "/");
  }

  lemma FileEntryPackages(root: string, pattern: string)
    requires |pattern| >= 2 && (pattern[0] != 't' || pattern[1] != 'h')
    ensures Packages(root, FileEntry(root, pattern))
  {
    PrefixOfAppend(ThemeDir(root), "/");
    PrefixOfAppend(root + "/", pattern);
    OutsideThemeDir(root, pattern, "");
    assert root + "/" + pattern + "" == root + "/" + pattern;
  }

  /** The eight copy entries of the production plan: five mirrored directories, then three flat file patterns. */
  function CopyEntries(root: string): (r: seq<CopyEntry>)
    ensures |r| == 8
    ensures forall i :: 0 <= i < |r| ==> Packages(root, r[i])
  {
    var dirs := [DirEntry(root, "dist"), DirEntry(root, "includes"), DirEntry(root, "src"),
                 DirEntry(root, "templates"), DirEntry(root, "vendor")];
    var files := [FileEntry(root, "*.php"), FileEntry(root, "style.css"), FileEntry(root, "screenshot.*")];
    forall i | 0 <= i < 5 ensures Packages(root, dirs[i]) {
      DirEntryPackages(root, MirroredDirs[i]);
    }
    forall i | 0 <= i < 3 ensures Packages(root, files[i]) {
      FileEntryPackages(root, FlatFiles[i]);
    }
    dirs + files
  }

  /** The copy sources, in order, are the five directories and then the three file patterns, under the root. */
  lemma CopySources(root: string)
    ensures var r := CopyEntries(root);
            && (forall i :: 0 <= i < 5 ==> r[i] == DirEntry(root, MirroredDirs[i]))
            && (forall i :: 5 <= i < 8 ==> r[i] == FileEntry(root, FlatFiles[i - 5]))
  {
  }

  /** The delete list the call starts from: the user's own list if any, else the placeholder. */
  function PriorDeletes(s: Settings.ProviderSettings): (r: seq<string>)
    ensures s.config.deleteOnEnd.Some? ==> r == s.config.deleteOnEnd.value
    ensures s.config.deleteOnEnd.None? ==> r == [NothingToDelete]
  {
    s.config.deleteOnEnd.GetOr([NothingToDelete])
  }

  /**
   * The file-manager settings for the given mode, with the provider settings as
   * the call leaves them: in production the package directory is pushed onto the
   * user's own delete list, which the returned plan and the settings then share.
   */
  function FileManagerSettings(s: Settings.ProviderSettings, isProduction: bool): (o: Outcome)
    ensures !isProduction ==> o.plan == Plan(OnEnd(PriorDeletes(s), None, None)) && o.settings == s
    ensures isProduction ==>
      && |o.plan.onEnd.delete| == |PriorDeletes(s)| + 1
      && o.plan.onEnd.delete[..|PriorDeletes(s)|] == PriorDeletes(s)
      && o.plan.onEnd.delete[|PriorDeletes(s)|] == ThemeDir(s.root)
      && o.plan.onEnd.mkdir == Some([ThemeDir(s.root)])
      && o.plan.onEnd.copy == Some(CopyEntries(s.root))
    ensures o.settings.root == s.root && o.settings.assetsDir == s.assetsDir && o.settings.buildDir == s.buildDir
    ensures s.config.deleteOnEnd.None? ==> o.settings == s
    ensures s.config.deleteOnEnd.Some? ==> o.settings.config.deleteOnEnd == Some(o.plan.onEnd.delete)
  {
    var toDelete := s.config.deleteOnEnd.GetOr([NothingToDelete]);
    if !isProduction then
      Outcome(Plan(OnEnd(toDelete, None, None)), s)
    else
      var pushed := toDelete + [ThemeDir(s.root)];
      var s' := if s.config.deleteOnEnd.Some? then s.(config := Settings.UserConfig(Some(pushed))) else s;
      Outcome(Plan(OnEnd(pushed, Some([ThemeDir(s.root)]), Some(CopyEntries(s.root)))), s')
  }

  /** The plan alone, for a caller that discards the updated settings. */
  function PlanFor(s: Settings.ProviderSettings, isProduction: bool): Plan {
    FileManagerSettings(s, isProduction).plan
  }

  /** How often `x` occurs in `xs`. */
  function Count(xs: seq<string>, x: string): (n: nat)
    ensures n == multiset(xs)[x]
  {
    if |xs| == 0 then 0
    else
      assert xs == [xs[0]] + xs[1..];
      (if xs[0] == x then 1 else 0) + Count(xs[1..], x)
  }

  /** Development plans copy nothing and create nothing. */
  lemma DevelopmentCopiesNothing(s: Settings.ProviderSettings)
    ensures PlanFor(s, false).onEnd.copy.None? && PlanFor(s, false).onEnd.mkdir.None?
    ensures s.config.deleteOnEnd.None? ==> PlanFor(s, false).onEnd.delete == [NothingToDelete]
  {
  }

  /**
   * With a user delete list, a second production call on the settings the first
   * one left lists the package directory once more: the builder is not idempotent.
   */
  lemma ProductionNotIdempotent(s: Settings.ProviderSettings)
    requires s.config.deleteOnEnd.Some?
    ensures var first := FileManagerSettings(s, true);
            var second := FileManagerSettings(first.settings, true);
            && Count(second.plan.onEnd.delete, ThemeDir(s.root)) == Count(s.config.deleteOnEnd.value, ThemeDir(s.root)) + 2
            && second.plan != first.plan
  {
    var first := FileManagerSettings(s, true);
    var second := FileManagerSettings(first.settings, true);
    var l := s.config.deleteOnEnd.value;
    var t := ThemeDir(s.root);
    assert first.plan.onEnd.delete == l + [t];
    assert second.plan.onEnd.delete == l + [t] + [t];
    assert |second.plan.onEnd.delete| != |first.plan.onEnd.delete|;
  }

  /** Without a user delete list the placeholder is fresh on every call, so repeated calls agree. */
  lemma IdempotentWithoutUserList(s: Settings.ProviderSettings, isProduction: bool)
    requires s.config.deleteOnEnd.None?
    ensures FileManagerSettings(FileManagerSettings(s, isProduction).settings, isProduction) == FileManagerSettings(s, isProduction)
  {
  }

  /** `n` copies of `x`. */
  function Repeat(x: string, n: nat): (r: seq<string>)
    ensures |r| == n && forall i :: 0 <= i < n ==> r[i] == x
  {
    if n == 0 then [] else Repeat(x, n - 1) + [x]
  }

  /** The settings after `n` production calls in a row. */
  function AfterProductionCalls(s: Settings.ProviderSettings, n: nat): Settings.ProviderSettings
    decreases n
  {
    if n == 0 then s else FileManagerSettings(AfterProductionCalls(s, n - 1), true).settings
  }

  /** After `n` production calls the user's delete list has grown by `n` copies of the package directory. */
  lemma {:induction false} ProductionCallsAccumulate(s: Settings.ProviderSettings, n: nat)
    requires s.config.deleteOnEnd.Some?
    ensures AfterProductionCalls(s, n).root == s.root
    ensures AfterProductionCalls(s, n).config.deleteOnEnd == Some(s.config.deleteOnEnd.value + Repeat(ThemeDir(s.root), n))
  {
    if n == 0 {
      assert s.config.deleteOnEnd.value + Repeat(ThemeDir(s.root), 0) == s.config.deleteOnEnd.value;
    } else {
      ProductionCallsAccumulate(s, n - 1);
      var prev := AfterProductionCalls(s, n - 1);
      var l := s.config.deleteOnEnd.value;
      var t := ThemeDir(s.root);
      assert FileManagerSettings(prev, true).settings.config.deleteOnEnd == Some(l + Repeat(t, n - 1) + [t]);
      assert l + Repeat(t, n - 1) + [t] == l + Repeat(t, n);
    }
  }

  /** The first copy entry packages the build directory of the provider settings. */
  lemma PackagesBuildDir(cwd: string, config: Settings.UserConfig)
    ensures var s := Settings.Resolve(cwd, config);
            FileManagerSettings(s, true).plan.onEnd.copy.value[0].source == s.buildDir + "/"
  {
  }

  /** The package directory is deleted, recreated and filled, and no copy reads from inside it. */
  lemma ProductionPackagesThemeDir(s: Settings.ProviderSettings)
    ensures var e := PlanFor(s, true).onEnd;
            && ThemeDir(s.root) in e.delete
            && e.mkdir == Some([ThemeDir(s.root)])
            && forall c :: c in e.copy.value ==> ThemeDir(s.root) <= c.destination && !(ThemeDir(s.root) <= c.source)
  {
  }

  /** A development call with the user list `['/tmp/x']` plans exactly that deletion. */
  lemma DevelopmentScenario(cwd: string)
    ensures PlanFor(Settings.Resolve(cwd, Settings.UserConfig(Some(["/tmp/x"]))), false) == Plan(OnEnd(["/tmp/x"], None, None))
  {
  }
}
