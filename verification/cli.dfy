/**
 * The command-line entry point: the tokens after the interpreter and script
 * path select which of the four bundler methods fire. Each known token is looked up
 * with a membership check, in a fixed order, so tokens are independent, repeats
 * are harmless and unknown tokens are ignored.
 */
module Cli {
  import Spawn
  import Settings

  /** `process.argv.slice(2)`: everything after the interpreter and the script path. */
  function Tokens(argv: seq<string>): (r: seq<string>)
    ensures |argv| >= 2 ==> argv == argv[..2] + r
    ensures |argv| < 2 ==> r == []
  {
    if |argv| < 2 then [] else argv[2..]
  }

  /** `Array.prototype.includes` on strings. */
  function Includes(xs: seq<string>, x: string): (b: bool)
    ensures b <==> x in xs
  {
    if |xs| == 0 then false
    else
      assert xs == [xs[0]] + xs[1..];
      xs[0] == x || Includes(xs[1..], x)
  }

  /** The token that fires each method. */
  function Token(c: Spawn.Command): string {
    match c
    case RunDevelopment => "dev"
    case RunProduction => "prod"
    case WatchDevelopment => "watch-dev"
    case WatchProduction => "watch-prod"
  }

  /** The position of each method's membership check in the entry point, which is the order methods fire in. */
  function FiringRank(c: Spawn.Command): nat {
    match c
    case RunDevelopment => 0
    case RunProduction => 1
    case WatchDevelopment => 2
    case WatchProduction => 3
  }

  /** A list of methods in strictly increasing firing order: the fixed order, each method at most once. */
  predicate InFiringOrder(cs: seq<Spawn.Command>) {
    forall i, j :: 0 <= i < j < |cs| ==> FiringRank(cs[i]) < FiringRank(cs[j])
  }

  /** The methods that fire, in firing order, for the tokens after the script path. */
  function Dispatch(tokens: seq<string>): (r: seq<Spawn.Command>)
    ensures forall c :: c in r <==> Token(c) in tokens
    ensures InFiringOrder(r)
  {
    (if Includes(tokens, "dev") then [Spawn.RunDevelopment] else []) +
    (if Includes(tokens, "prod") then [Spawn.RunProduction] else []) +
    (if Includes(tokens, "watch-dev") then [Spawn.WatchDevelopment] else []) +
    (if Includes(tokens, "watch-prod") then [Spawn.WatchProduction] else [])
  }

  /**
   * The invocations the entry point spawns for a full argument vector: one per
   * method whose token follows the script path, none twice, in firing order.
   */
  function Run(t: Settings.Tailor, argv: seq<string>): (r: seq<Spawn.Invocation>)
    ensures forall c :: Spawn.Invoke(t, c) in r <==> Token(c) in Tokens(argv)
    ensures forall x :: x in r ==> x in Spawn.Invocations(t)
    ensures forall i, j :: 0 <= i < j < |r| ==> r[i] != r[j]
    ensures forall i, j, c1, c2 ::
      (0 <= i < |r| && 0 <= j < |r| && r[i] == Spawn.Invoke(t, c1) && r[j] == Spawn.Invoke(t, c2) &&
       FiringRank(c1) < FiringRank(c2)) ==> i < j
  {
    var cs := Dispatch(Tokens(argv));
    var r := seq(|cs|, i requires 0 <= i < |cs| => Spawn.Invoke(t, cs[i]));
    InvocationsFollowCommands(t, cs, r);
    r
  }

  /** Invoking a list of methods in firing order yields distinct invocations in the same order. */
  lemma InvocationsFollowCommands(t: Settings.Tailor, cs: seq<Spawn.Command>, r: seq<Spawn.Invocation>)
    requires InFiringOrder(cs)
    requires |r| == |cs| && forall i :: 0 <= i < |cs| ==> r[i] == Spawn.Invoke(t, cs[i])
    ensures forall c :: Spawn.Invoke(t, c) in r <==> c in cs
    ensures forall x :: x in r ==> x in Spawn.Invocations(t)
    ensures forall i, j :: 0 <= i < j < |r| ==> r[i] != r[j]
    ensures forall i, j, c1, c2 ::
      (0 <= i < |r| && 0 <= j < |r| && r[i] == Spawn.Invoke(t, c1) && r[j] == Spawn.Invoke(t, c2) &&
       FiringRank(c1) < FiringRank(c2)) ==> i < j
  {
    forall x | x in r ensures x in Spawn.Invocations(t) {
      var i :| 0 <= i < |r| && r[i] == x;
      assert x == Spawn.Invoke(t, cs[i]);
    }
    forall c ensures Spawn.Invoke(t, c) in r <==> c in cs {
      InvokedIffListed(t, cs, r, c);
    }
    forall i, j | 0 <= i < j < |r| ensures r[i] != r[j] {
      Spawn.InvokeDistinguishesCommands(t, cs[i], cs[j]);
    }
    forall i, j, c1, c2 |
      (0 <= i < |r| && 0 <= j < |r| && r[i] == Spawn.Invoke(t, c1) && r[j] == Spawn.Invoke(t, c2) &&
       FiringRank(c1) < FiringRank(c2))
      ensures i < j
    {
      InvocationOrder(t, cs, r, i, j, c1, c2);
    }
  }

  lemma InvokedIffListed(t: Settings.Tailor, cs: seq<Spawn.Command>, r: seq<Spawn.Invocation>, c: Spawn.Command)
    requires |r| == |cs| && forall i :: 0 <= i < |cs| ==> r[i] == Spawn.Invoke(t, cs[i])
    ensures Spawn.Invoke(t, c) in r <==> c in cs
  {
    if Spawn.Invoke(t, c) in r {
      var i :| 0 <= i < |r| && r[i] == Spawn.Invoke(t, c);
      Spawn.InvokeDistinguishesCommands(t, c, cs[i]);
    }
    if c in cs {
      var i :| 0 <= i < |cs| && cs[i] == c;
      assert r[i] == Spawn.Invoke(t, c);
    }
  }

  lemma InvocationOrder(t: Settings.Tailor, cs: seq<Spawn.Command>, r: seq<Spawn.Invocation>,
                        i: int, j: int, c1: Spawn.Command, c2: Spawn.Command)
    requires InFiringOrder(cs)
    requires |r| == |cs| && forall k :: 0 <= k < |cs| ==> r[k] == Spawn.Invoke(t, cs[k])
    requires 0 <= i < |r| && 0 <= j < |r| && r[i] == Spawn.Invoke(t, c1) && r[j] == Spawn.Invoke(t, c2)
    requires FiringRank(c1) < FiringRank(c2)
    ensures i < j
  {
    Spawn.InvokeDistinguishesCommands(t, c1, cs[i]);
    Spawn.InvokeDistinguishesCommands(t, c2, cs[j]);
    assert FiringRank(cs[i]) < FiringRank(cs[j]);
  }

  /** Lists with the same members are empty together. */
  lemma EmptyTogether(a: seq<Spawn.Command>, b: seq<Spawn.Command>)
    requires forall c :: c in a <==> c in b
    ensures |a| == 0 <==> |b| == 0
  {
    if |a| > 0 {
      assert a[0] in b;
    }
    if |b| > 0 {
      assert b[0] in a;
    }
  }

  /** The head of a list in firing order has the least rank of its members. */
  lemma HeadIsLeast(a: seq<Spawn.Command>, c: Spawn.Command)
    requires InFiringOrder(a) && c in a
    ensures FiringRank(a[0]) <= FiringRank(c)
  {
    var k :| 0 <= k < |a| && a[k] == c;
    if k > 0 {
      assert FiringRank(a[0]) < FiringRank(a[k]);
    }
  }

  /** The tail of a list in firing order holds every member but the head. */
  lemma TailMembers(a: seq<Spawn.Command>, c: Spawn.Command)
    requires InFiringOrder(a) && |a| > 0
    ensures c in a[1..] <==> c in a && c != a[0]
  {
    if c in a[1..] {
      var k :| 0 <= k < |a[1..]| && a[1..][k] == c;
      assert a[k + 1] == c;
      assert FiringRank(a[0]) < FiringRank(a[k + 1]);
    }
    if c in a && c != a[0] {
      var k :| 0 <= k < |a| && a[k] == c;
      assert a[1..][k - 1] == c;
    }
  }

  /** Two lists in firing order with the same members are equal. */
  lemma {:induction false} InFiringOrderUnique(a: seq<Spawn.Command>, b: seq<Spawn.Command>)
    requires InFiringOrder(a) && InFiringOrder(b)
    requires forall c :: c in a <==> c in b
    ensures a == b
    decreases |a|
  {
    EmptyTogether(a, b);
    if |a| > 0 {
      HeadIsLeast(a, b[0]);
      HeadIsLeast(b, a[0]);
      assert a[0] == b[0];
      forall c ensures c in a[1..] <==> c in b[1..] {
        TailMembers(a, c);
        TailMembers(b, c);
      }
      InFiringOrderUnique(a[1..], b[1..]);
      assert a == [a[0]] + a[1..] && b == [b[0]] + b[1..];
    }
  }

  /**
   * Membership and the fixed order pin the firing list down completely: any list
   * of methods in firing order holding exactly the methods whose tokens were given
   * is the dispatch result.
   */
  lemma DispatchCharacterised(tokens: seq<string>, r: seq<Spawn.Command>)
    requires InFiringOrder(r)
    requires forall c :: c in r <==> Token(c) in tokens
    ensures r == Dispatch(tokens)
  {
    InFiringOrderUnique(r, Dispatch(tokens));
  }

  /** Only which tokens occur matters, not their order or repetition. */
  lemma DispatchIgnoresOrderAndRepeats(t1: seq<string>, t2: seq<string>)
    requires forall x :: x in t1 <==> x in t2
    ensures Dispatch(t1) == Dispatch(t2)
  {
    DispatchCharacterised(t2, Dispatch(t1));
  }

  /** A token that names no method changes nothing. */
  lemma UnknownTokenIgnored(tokens: seq<string>, x: string)
    requires x !in {"dev", "prod", "watch-dev", "watch-prod"}
    ensures Dispatch(tokens + [x]) == Dispatch(tokens)
  {
    forall c ensures c in Dispatch(tokens + [x]) <==> c in Dispatch(tokens) {
      assert Token(c) in tokens + [x] <==> Token(c) in tokens;
    }
    DispatchCharacterised(tokens, Dispatch(tokens + [x]));
  }

  /** No tokens, no methods; and `dev prod` fires both builds, development first. */
  lemma DispatchScenarios()
    ensures Dispatch([]) == []
    ensures Dispatch(["dev", "prod"]) == [Spawn.RunDevelopment, Spawn.RunProduction]
    ensures Dispatch(["watch-prod", "dev", "dev", "build"]) == [Spawn.RunDevelopment, Spawn.WatchProduction]
  {
  }

  /** Invoking `watch-dev` spawns a development watch and never a production build. */
  lemma WatchDevScenario(t: Settings.Tailor, node: string, script: string)
    ensures var r := Run(t, [node, script, "watch-dev"]);
            && |r| == 1
            && Spawn.ModeFlag(Spawn.Development) in r[0].args
            && Spawn.WatchFlag in r[0].args
            && Spawn.ModeFlag(Spawn.Production) !in r[0].args
  {
    assert Tokens([node, script, "watch-dev"]) == ["watch-dev"];
    assert Dispatch(["watch-dev"]) == [Spawn.WatchDevelopment];
  }
}
