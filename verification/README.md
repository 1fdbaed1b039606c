# Tailor configuration core, modelled in Dafny

Tailor is a thin command-line wrapper around the webpack bundler for WordPress-style
theme projects. Apart from spawning the bundler, it has a small layer of pure
configuration logic, and this project models that layer:

- the `Tailor` constructor's path derivation. The project root is the working
  directory, the assets and build directories sit under it, and the bundler binary
  and bundler configuration sit under the package's own directory (`Settings`);
- the ordered argument list that each of `runDevelopment`, `runProduction`,
  `watchDevelopment` and `watchProduction` passes to the bundler, and whether the
  method registers an end banner (`Spawn`);
- `imageOptimisationSettings`, which lists the image-minimiser tools for a mode (`ImageOptimisation`);
- `fileManagerSettings`, the packaging plan for the file-manager plugin: delete, mkdir
  and copy lists (`FileManager`). The source pushes the package directory onto the
  user's own `deleteOnEnd` array in place. The model makes that state explicit:
  the function takes the provider settings and returns them, updated, next to the
  plan. This makes it provable that the builder is not idempotent;
- the entry point `tailor.js`, which maps the command-line tokens to the methods
  that fire, in order (`Cli`).

Files: `wrappers.dfy` (`Option`), `settings.dfy`, `spawn.dfy`, `image_optimisation.dfy`,
`file_manager.dfy`, `cli.dfy`.

The code checks nothing on disk. Every production plan deletes and creates `<root>/theme`
and lists all eight copy entries (src/Tailor.js:184-226), and the model does the same.
Development plans only delete (src/Tailor.js:177-181).

## Model

| member | source | states |
|---|---|---|
| Settings.Defaults | src/Tailor.js:15-19 | the defaults object has exactly the keys assetsDir, buildDir and config and never a root key; assetsDir is root + `/assets` and buildDir is root + `/dist`, two different paths under the root it was built from; config is the loaded user config |
| Settings.Spread | src/Tailor.js:14-21 | object spread keeps every key of both objects, and the later object wins on a clash |
| Settings.ProviderObject | src/Tailor.js:10-21 | the settings object has exactly the keys root, assetsDir, buildDir and config; root is the resolved working directory, assetsDir is root + `/assets`, buildDir is root + `/dist` |
| Settings.Resolve | src/Tailor.js:10-21 | the record form of the provider settings: root is cwd, and the assets and build directories are derived from root |
| Settings.RootNeverOverridden | src/Tailor.js:14-21 | whatever the defaults object holds, the root spread after it decides the result's root |
| Settings.Construct | src/Tailor.js:6-24 | the instance is named Tailor; the bundler binary is `<packageRoot>/node_modules/.bin/webpack` and the bundler config is `<packageRoot>/webpack.config.js`, two different paths under the package directory; the provider settings are the resolved ones |
| Settings.PathsSeparateConcerns | src/Tailor.js:8-24 | tool paths depend only on the package directory, and project paths only on cwd and config; different working directories give different assets directories |
| Spawn.ConfigFlagIsDistinct | src/Tailor.js:37 | a `--config=` argument never equals a mode flag or `--watch`, whatever the path |
| Spawn.Arguments | src/Tailor.js:32-98 | the mode flag is first and matches the method; `--watch` is present (and second) iff the method watches; `--config=<path>` is last; the other mode's flag never appears; the list has 2 entries, or 3 when watching |
| Spawn.Invoke | src/Tailor.js:32-98 | each method spawns the bundler binary with its argument list, and registers an end banner iff it is not a watch method |
| Spawn.Invocations | src/Tailor.js:32-98 | the set of exactly the four methods' invocations, four distinct elements; every member is some method's invocation and spawns the bundler binary |
| Spawn.InvokeDistinguishesCommands | src/Tailor.js:32-98 | two methods spawn the same invocation only if they are the same method |
| Spawn.WatchInsertsFlag | src/Tailor.js:32-98 | a watch method's list is its run counterpart's list with `--watch` inserted after the mode flag |
| Spawn.ArgumentsDistinguishCommands | src/Tailor.js:32-98 | different methods pass different argument lists |
| Spawn.ExactlyOneModeFlag | src/Tailor.js:32-98 | every argument list holds exactly one mode flag: the method's own, at position 0, and no mode flag anywhere else |
| ImageOptimisation.ImageOptimisationSettings | src/Tailor.js:131-166 | gifsicle, jpegtran and optipng come first, in that order and without options; production has 4 entries, the fourth being svgo with plugins; development has 3; an entry with options exists iff production |
| ImageOptimisation.DevelopmentIsPrefixOfProduction | src/Tailor.js:131-166 | the production list is the development list with one entry appended |
| ImageOptimisation.ToolNamesDistinct | src/Tailor.js:132-139 | no tool is listed twice, in either mode |
| ImageOptimisation.SvgoToggles | src/Tailor.js:139-162 | the five svgo plugins are in fixed order; removeViewBox is the only inactive one; minifyStyles, removeDoctype, collapseGroups and removeTitle are active |
| FileManager.OutsideThemeDir | src/Tailor.js:195-224 | a path under root whose name does not start with `th` is not under `<root>/theme` |
| FileManager.DirEntryPackages | src/Tailor.js:194-213 | a mirrored directory entry writes inside the package directory and reads from under root, outside the package directory |
| FileManager.FileEntryPackages | src/Tailor.js:214-225 | the same holds for a file-pattern entry copied flat into the package directory |
| FileManager.CopyEntries | src/Tailor.js:193-226 | exactly eight entries; each writes inside `<root>/theme` and reads from under root, never from inside `<root>/theme` |
| FileManager.CopySources | src/Tailor.js:193-226 | entries 0-4 copy dist, includes, src, templates and vendor to the same names in the package; entries 5-7 copy `*.php`, `style.css` and `screenshot.*` into the package directory itself |
| Wrappers.Option.GetOr | src/Tailor.js:175 | `value ?? default`: the held value when present, the default otherwise |
| FileManager.PriorDeletes | src/Tailor.js:175 | the delete list a call starts from is the user's `deleteOnEnd` list when set, and the placeholder list `['| Nothing to delete.']` otherwise |
| FileManager.FileManagerSettings | src/Tailor.js:174-232 | development plans only delete the user's list, or the placeholder when none is set; they have no mkdir or copy key and leave the settings alone. Production plans delete the prior list followed by `<root>/theme` (earlier entries unchanged), mkdir exactly `<root>/theme`, and copy the eight entries. A user list, when present, becomes the returned delete list (aliasing). Without a user list the settings are unchanged |
| FileManager.Count | src/Tailor.js:184 | the number of occurrences of a path in a delete list is its multiplicity in the list's multiset |
| FileManager.DevelopmentCopiesNothing | src/Tailor.js:175-181 | development plans have no copy and no mkdir, and without a user list the delete list is the placeholder alone |
| FileManager.ProductionNotIdempotent | src/Tailor.js:175-189 | with a user list, a second production call lists `<root>/theme` two more times than the user's original list; its plan differs from the first plan as it was returned |
| FileManager.IdempotentWithoutUserList | src/Tailor.js:175 | without a user list each call starts from a fresh placeholder, so a repeated call returns the same plan and settings |
| FileManager.ProductionCallsAccumulate | src/Tailor.js:175-184 | after n production calls the user's list is the original followed by n copies of `<root>/theme` |
| FileManager.PackagesBuildDir | src/Tailor.js:17 | the first copy source is the provider's build directory, with a trailing slash |
| FileManager.ProductionPackagesThemeDir | src/Tailor.js:184-226 | a production plan deletes `<root>/theme`, recreates exactly that directory, and copies only into it from outside it |
| FileManager.DevelopmentScenario | src/Tailor.js:175-181 | a development call with the user list `['/tmp/x']` plans exactly `{onEnd: {delete: ['/tmp/x']}}` |
| Cli.Tokens | tailor.js:9 | the tokens are argv without its first two entries, and empty when argv is shorter |
| Cli.Includes | tailor.js:15 | the membership test holds iff the token occurs in the list |
| Cli.Dispatch | tailor.js:15-32 | a method fires iff its token (dev, prod, watch-dev, watch-prod) is among the tokens; fired methods are in the fixed order dev, prod, watch-dev, watch-prod, each at most once |
| Cli.Run | tailor.js:9-32 | every spawned invocation is one of the instance's four method invocations; a method's invocation is spawned iff its token follows the script path in argv; no invocation is spawned twice; invocations come in the fixed order dev, prod, watch-dev, watch-prod |
| Cli.InvocationsFollowCommands | tailor.js:15-32 | invoking a list of methods in firing order gives distinct invocations, exactly those of the listed methods, in the same order |
| Cli.InvokedIffListed | tailor.js:15-32 | a method's invocation is among the invocations of a list iff the method is in the list |
| Cli.InvocationOrder | tailor.js:15-32 | in the invocations of a list in firing order, a method that fires earlier is invoked at an earlier position |
| Cli.EmptyTogether | tailor.js:15-32 | two method lists with the same members are empty together |
| Cli.HeadIsLeast | tailor.js:15-32 | the first method of a list in firing order has a firing rank no greater than any other member's |
| Cli.TailMembers | tailor.js:15-32 | the rest of a list in firing order holds every member except the first |
| Cli.InFiringOrderUnique | tailor.js:15-32 | two lists in firing order with the same members are equal |
| Cli.DispatchCharacterised | tailor.js:15-32 | any list in firing order that holds exactly the methods whose tokens were given equals the dispatch result |
| Cli.DispatchIgnoresOrderAndRepeats | tailor.js:15-32 | only which tokens occur matters; their order and repetition do not |
| Cli.UnknownTokenIgnored | tailor.js:15-32 | appending a token that names no method changes nothing |
| Cli.DispatchScenarios | tailor.js:15-32 | no tokens fire nothing; `dev prod` fires both builds, development first; `watch-prod dev dev build` fires the development build and then the production watch |
| Cli.WatchDevScenario | tailor.js:25-27 | `watch-dev` spawns one invocation, with the development mode flag and `--watch` and without the production mode flag |

## Left out

- Process spawning, inherited stdio and the spawn/close listeners of `executeCommand` (src/Tailor.js:105-123) are OS process plumbing. The model keeps only the binary, the argument list and whether an end banner is registered (`Spawn.Invocation`).
- Coloured banners and console output (src/Tailor.js:26-29 and the messages passed to `executeCommand`) are cosmetic.
- Loading `<root>/tailor.js` with `require` (src/Tailor.js:18) is file I/O. The loaded config is a parameter, and the model reads only its optional `deleteOnEnd` list. A missing or malformed file aborts the process, which is not modelled.
- `path.resolve` normalises two directories as strings: the package directory, which is the parent of the module's own directory (src/Tailor.js:8), and the working directory (src/Tailor.js:11). Both are given here as already-resolved parameters, and paths are opaque strings.
- FileManager.FileManagerSettings: the returned plan is a snapshot value. In the source every earlier plan, development or production, that was built from the user's `deleteOnEnd` array still holds that same array (src/Tailor.js:179, 189). A later production call's push (src/Tailor.js:184) therefore also shows up in those earlier plans, so after two production calls both returned objects hold the same list. Only the settings-side aliasing is modelled. FileManager.ProductionNotIdempotent compares the plans as they were when returned.
- The JavaScript default `isProduction = false` and the truthiness test `if (isProduction)` (src/Tailor.js:131, 138, 174, 183) become a Dafny `bool` parameter. webpack.config.js:42 passes a boolean (`options.mode == 'production'`) to `imageOptimisationSettings`; no caller of `fileManagerSettings` appears in the source.
- The order in which the file-manager plugin carries out the delete, mkdir and copy actions is behaviour of that plugin. So are glob expansion of `*.php` and `screenshot.*`, and what happens when a source is missing.
- webpack.config.js configures external plugins and loaders, and reads a `webpackSettings` property that the class never defines. It is not part of this model.
- `tailor.js` imports named functions that `src/Tailor.js` never exports (it exports the class). Dispatch is modelled as choosing which methods of one instance fire.
- The bundler itself, and the exit code of the spawned process, are foreign.
