/**
 * The option list handed to the image minimiser: baseline compressors in every
 * mode, and in production an SVG optimiser with a fixed set of plugin toggles.
 */
module ImageOptimisation {
  import opened Wrappers

  /** One SVG-optimiser plugin and whether it is switched on. */
  datatype SvgoPlugin = SvgoPlugin(name: string, active: bool)

  /** One tool entry: the tool's name and, for the SVG optimiser, its plugin list. */
  datatype ToolEntry = ToolEntry(name: string, plugins: Option<seq<SvgoPlugin>>)

  const SvgoPlugins: seq<SvgoPlugin> := [
    SvgoPlugin("removeViewBox", false),
    SvgoPlugin("minifyStyles", true),
    SvgoPlugin("removeDoctype", true),
    SvgoPlugin("collapseGroups", true),
    SvgoPlugin("removeTitle", true)
  ]

  function Names(entries: seq<ToolEntry>): (r: seq<string>)
    ensures |r| == |entries|
    ensures forall i :: 0 <= i < |entries| ==> r[i] == entries[i].name
  {
    if |entries| == 0 then [] else [entries[0].name] + Names(entries[1..])
  }

  /** The names of the plugins switched on (`active`) or off (`!active`). */
  function Toggled(ps: seq<SvgoPlugin>, active: bool): set<string>
  {
    set i | 0 <= i < |ps| && ps[i].active == active :: ps[i].name
  }

  /** The image-optimisation settings for the given mode. */
  function ImageOptimisationSettings(isProduction: bool): (r: seq<ToolEntry>)
    ensures |r| == if isProduction then 4 else 3
    ensures Names(r)[..3] == ["gifsicle", "jpegtran", "optipng"]
    ensures forall i :: 0 <= i < 3 ==> r[i].plugins.None?
    ensures isProduction ==> r[3].name == "svgo" && r[3].plugins.Some?
    ensures (exists i :: 0 <= i < |r| && r[i].plugins.Some?) <==> isProduction
  {
    var settings := [ToolEntry("gifsicle", None), ToolEntry("jpegtran", None), ToolEntry("optipng", None)];
    if isProduction then settings + [ToolEntry("svgo", Some(SvgoPlugins))] else settings
  }

  /** Development settings are exactly the first three production entries: production only appends. */
  lemma DevelopmentIsPrefixOfProduction()
    ensures ImageOptimisationSettings(false) == ImageOptimisationSettings(true)[..3]
    ensures ImageOptimisationSettings(true) == ImageOptimisationSettings(false) + [ImageOptimisationSettings(true)[3]]
  {
  }

  /** Every tool appears at most once, in either mode. */
  lemma ToolNamesDistinct(isProduction: bool)
    ensures var ns := Names(ImageOptimisationSettings(isProduction));
            forall i, j :: 0 <= i < j < |ns| ==> ns[i] != ns[j]
  {
  }

  /**
   * The production SVG optimiser lists its five plugins in fixed order, keeps the
   * view box (its only switched-off plugin) and switches the other four on.
   */
  lemma SvgoToggles()
    ensures var ps := ImageOptimisationSettings(true)[3].plugins.value;
            && seq(|ps|, i requires 0 <= i < |ps| => ps[i].name) == ["removeViewBox", "minifyStyles", "removeDoctype", "collapseGroups", "removeTitle"]
            && Toggled(ps, false) == {"removeViewBox"}
            && Toggled(ps, true) == {"minifyStyles", "removeDoctype", "collapseGroups", "removeTitle"}
  {
    var ps := ImageOptimisationSettings(true)[3].plugins.value;
    assert ps == SvgoPlugins;
    assert ps[0].name == "removeViewBox" && !ps[0].active;
    assert Toggled(ps, false) == {"removeViewBox"} by {
      forall n | n in Toggled(ps, false) ensures n == "removeViewBox" {
        var i :| 0 <= i < |ps| && ps[i].name == n && !ps[i].active;
        assert i == 0;
      }
    }
    assert Toggled(ps, true) == {"minifyStyles", "removeDoctype", "collapseGroups", "removeTitle"} by {
      assert ps[1].active && ps[2].active && ps[3].active && ps[4].active;
      assert ps[1].name == "minifyStyles" && ps[2].name == "removeDoctype";
      assert ps[3].name == "collapseGroups" && ps[4].name == "removeTitle";
    }
  }
}
