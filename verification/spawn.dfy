/**
 * The four bundler invocations of the `Tailor` class: which binary each spawns,
 * the ordered argument list it passes, and whether it announces the end of the run.
 */
module Spawn {
  import Settings

  datatype Mode = Development | Production {
    function Other(): Mode {
      if Development? then Production else Development
    }
  }

  /** The class's run and watch methods. */
  datatype Command = RunDevelopment | RunProduction | WatchDevelopment | WatchProduction {

    function Mode(): Mode {
      match this
      case RunDevelopment | WatchDevelopment => Development
      case RunProduction | WatchProduction => Production
    }

    predicate Watches() {
      WatchDevelopment? || WatchProduction?
    }
  }

  /** One spawn of the bundler; `announcesEnd` says whether a close listener prints an end banner. */
  datatype Invocation = Invocation(binary: string, args: seq<string>, announcesEnd: bool)

  function ModeFlag(m: Mode): string {
    if m == Development then "--mode=development" else "--mode=production"
  }

  const WatchFlag: string := "--watch"

  function ConfigFlag(configPath: string): string {
    "--config=" + configPath
  }

  /** A `--config=` argument is neither a mode flag nor the watch flag, whatever the path. */
  lemma ConfigFlagIsDistinct(configPath: string)
    ensures ConfigFlag(configPath) != ModeFlag(Development)
    ensures ConfigFlag(configPath) != ModeFlag(Production)
    ensures ConfigFlag(configPath) != WatchFlag
  {
    assert ConfigFlag(configPath)[2] == 'c';
    assert ModeFlag(Development)[2] == 'm' && ModeFlag(Production)[2] == 'm';
    assert |ConfigFlag(configPath)| >= 9 > |WatchFlag|;
  }

  /** The argument list each method hands to the bundler. */
  function Arguments(cmd: Command, configPath: string): (args: seq<string>)
    ensures |args| == if cmd.Watches() then 3 else 2
    ensures args[0] == ModeFlag(cmd.Mode())
    ensures cmd.Watches() ==> args[1] == WatchFlag
    ensures args[|args| - 1] == ConfigFlag(configPath)
    ensures WatchFlag in args <==> cmd.Watches()
    ensures ModeFlag(cmd.Mode().Other()) !in args
  {
    ConfigFlagIsDistinct(configPath);
    match cmd
    case RunDevelopment => ["--mode=development", "--config=" + configPath]
    case RunProduction => ["--mode=production", "--config=" + configPath]
    case WatchDevelopment => ["--mode=development", "--watch", "--config=" + configPath]
    case WatchProduction => ["--mode=production", "--watch", "--config=" + configPath]
  }

  /** What calling the method `cmd` on the instance `t` spawns. */
  function Invoke(t: Settings.Tailor, cmd: Command): (inv: Invocation)
    ensures inv.binary == t.webpackCliPath
    ensures inv.args == Arguments(cmd, t.webpackConfigPath)
    ensures inv.announcesEnd <==> !cmd.Watches()
  {
    match cmd
    case RunDevelopment | RunProduction => Invocation(t.webpackCliPath, Arguments(cmd, t.webpackConfigPath), true)
    case WatchDevelopment | WatchProduction => Invocation(t.webpackCliPath, Arguments(cmd, t.webpackConfigPath), false)
  }

  /** Everything an instance can spawn: the invocation of each of its four methods. */
  function Invocations(t: Settings.Tailor): (s: set<Invocation>)
    ensures forall c :: Invoke(t, c) in s
    ensures forall x :: x in s ==> exists c :: x == Invoke(t, c)
    ensures forall x :: x in s ==> x.binary == t.webpackCliPath
    ensures |s| == 4
  {
    var rd, rp := Invoke(t, RunDevelopment), Invoke(t, RunProduction);
    var wd, wp := Invoke(t, WatchDevelopment), Invoke(t, WatchProduction);
    InvokeDistinguishesCommands(t, RunDevelopment, RunProduction);
    InvokeDistinguishesCommands(t, RunDevelopment, WatchDevelopment);
    InvokeDistinguishesCommands(t, RunDevelopment, WatchProduction);
    InvokeDistinguishesCommands(t, RunProduction, WatchDevelopment);
    InvokeDistinguishesCommands(t, RunProduction, WatchProduction);
    InvokeDistinguishesCommands(t, WatchDevelopment, WatchProduction);
    var s := {rd, rp, wd, wp};
    assert forall x :: x in s ==> x == rd || x == rp || x == wd || x == wp;
    assert |{rd, rp}| == 2 && |{rd, rp, wd}| == 3;
    s
  }

  /** A watch method passes exactly its run counterpart's arguments with the watch flag inserted after the mode. */
  lemma WatchInsertsFlag(m: Mode, configPath: string)
    ensures var run := if m == Development then RunDevelopment else RunProduction;
            var watch := if m == Development then WatchDevelopment else WatchProduction;
            Arguments(watch, configPath) == Arguments(run, configPath)[..1] + [WatchFlag] + Arguments(run, configPath)[1..]
  {
  }

  /** Distinct methods spawn distinct argument lists: the bundler can tell every method apart. */
  lemma ArgumentsDistinguishCommands(c1: Command, c2: Command, configPath: string)
    requires c1 != c2
    ensures Arguments(c1, configPath) != Arguments(c2, configPath)
  {
    var a1, a2 := Arguments(c1, configPath), Arguments(c2, configPath);
    if c1.Mode() == c2.Mode() {
      assert c1.Watches() != c2.Watches();
      assert |a1| != |a2|;
    } else {
      assert a1[0] != a2[0];
    }
  }

  /** Distinct methods spawn distinct invocations. */
  lemma InvokeDistinguishesCommands(t: Settings.Tailor, c1: Command, c2: Command)
    ensures Invoke(t, c1) == Invoke(t, c2) ==> c1 == c2
  {
    if c1 != c2 {
      ArgumentsDistinguishCommands(c1, c2, t.webpackConfigPath);
    }
  }

  /** Every argument list holds exactly one mode flag. */
  lemma ExactlyOneModeFlag(cmd: Command, configPath: string)
    ensures var args := Arguments(cmd, configPath);
            && args[0] == ModeFlag(cmd.Mode())
            && forall i :: 0 <= i < |args| && args[i] in {ModeFlag(Development), ModeFlag(Production)} ==> i == 0
  {
    ConfigFlagIsDistinct(configPath);
  }
}
