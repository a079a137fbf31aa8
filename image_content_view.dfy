/** `ImageContentView`: the pure geometry behind the view (centring the
    image, deciding which points are outside it, placing toolbar items) and
    the state its `Config` object and the view itself keep. */
module ImageContentView {
  import opened Options
  import opened Geometry
  import Colour

  // ---------------------------------------------------------------------------
  // Points

  /** `normalizePoint`: the image is centred in the view, so a view point is
      moved by half the difference of the two sizes on each axis. */
  function NormalizePoint(point: Point, viewSize: Size, imageSize: Size): (r: Point)
    ensures r.x + (viewSize.width - imageSize.width) / 2.0 == point.x
    ensures r.y + (viewSize.height - imageSize.height) / 2.0 == point.y
  {
    Point(point.x - (viewSize.width - imageSize.width) / 2.0,
          point.y - (viewSize.height - imageSize.height) / 2.0)
  }

  /** `ignorePoint`: never when the image view works in view points;
      otherwise exactly when the normalised point is outside the half-open
      box `[0, width) x [0, height)`. */
  function IgnorePoint(normalizedPoint: Point, imageSize: Size, viewPoints: bool): (r: bool)
    ensures viewPoints ==> !r
    ensures !viewPoints ==>
              (r <==> !(0.0 <= normalizedPoint.x < imageSize.width && 0.0 <= normalizedPoint.y < imageSize.height))
  {
    if viewPoints then false
    else normalizedPoint.x < 0.0 || normalizedPoint.x >= imageSize.width
         || normalizedPoint.y < 0.0 || normalizedPoint.y >= imageSize.height
  }

  /** Where the centred image lies in the view. */
  function ImageOrigin(viewSize: Size, imageSize: Size): Point {
    Point((viewSize.width - imageSize.width) / 2.0, (viewSize.height - imageSize.height) / 2.0)
  }

  /** A view point is kept exactly when it lies on the centred image (taken
      half-open): normalising and then testing is hit-testing against the
      image's rectangle in view coordinates. */
  lemma IgnoredExactlyOffImage(point: Point, viewSize: Size, imageSize: Size)
    ensures var o := ImageOrigin(viewSize, imageSize);
            !IgnorePoint(NormalizePoint(point, viewSize, imageSize), imageSize, false)
            <==> (o.x <= point.x < o.x + imageSize.width && o.y <= point.y < o.y + imageSize.height)
  {
  }

  /** The image's own origin normalises to the origin. */
  lemma OriginNormalizesToZero(viewSize: Size, imageSize: Size)
    ensures NormalizePoint(ImageOrigin(viewSize, imageSize), viewSize, imageSize) == Point(0.0, 0.0)
  {
  }

  // ---------------------------------------------------------------------------
  // Toolbar

  /** The three toolbar placements: leading, principal (a row) and trailing. */
  datatype Slots<T> = Slots(leading: Option<T>, principal: seq<T>, trailing: Option<T>)

  /** Every item shown, left to right. */
  function Shown<T>(s: Slots<T>): seq<T> {
    (match s.leading case Some(v) => [v] case None => [])
    + s.principal
    + (match s.trailing case Some(v) => [v] case None => [])
  }

  /** `toolBarView(hidden:_:)`: nothing when hidden; otherwise the first item
      leads, the last trails when there are at least two, and the ones between
      go in the middle when there are at least three. The first item is read
      without a check, so a shown toolbar must have an item. */
  function ToolBarSlots<T>(hidden: bool, items: seq<T>): (r: Slots<T>)
    requires hidden || 1 <= |items|
    ensures hidden ==> r == Slots(None, [], None)
    ensures !hidden ==> r.leading == Some(items[0])
    ensures !hidden ==> (r.trailing.Some? <==> |items| > 1)
    ensures !hidden && |items| > 1 ==> r.trailing == Some(items[|items| - 1])
    ensures !hidden && |items| <= 2 ==> r.principal == []
    ensures !hidden && |items| > 2 ==> r.principal == items[1..|items| - 1]
  {
    if hidden then Slots(None, [], None)
    else
      Slots(Some(items[0]),
            if |items| > 2 then items[1..|items| - 1] else [],
            if |items| > 1 then Some(items[|items| - 1]) else None)
  }

  /** A shown toolbar shows every item exactly once, in order; a hidden one
      shows nothing. */
  lemma {:induction false} ToolBarShowsEveryItem<T>(hidden: bool, items: seq<T>)
    requires hidden || 1 <= |items|
    ensures Shown(ToolBarSlots(hidden, items)) == if hidden then [] else items
  {
    if !hidden {
      var s := ToolBarSlots(hidden, items);
      if |items| == 1 {
        assert Shown(s) == [items[0]];
      } else if |items| == 2 {
        assert Shown(s) == [items[0], items[1]];
      } else {
        assert Shown(s) == [items[0]] + items[1..|items| - 1] + [items[|items| - 1]];
      }
    }
  }

  /** The view hides its toolbar when asked to or when it ignores the safe
      area. */
  function ToolBarHidden(hideToolBar: bool, ignoreSafeArea: bool): (r: bool)
    ensures r <==> hideToolBar || ignoreSafeArea
  {
    hideToolBar || ignoreSafeArea
  }

  /** `ToolBarViewable`: each builder applied to the configuration, in
      order. */
  function ToolBarViewable<C, V>(config: C, builders: seq<C -> V>): (r: seq<V>)
    ensures |r| == |builders|
    ensures forall i :: 0 <= i < |r| ==> r[i] == builders[i](config)
  {
    seq(|builders|, i requires 0 <= i < |builders| => builders[i](config))
  }

  /** Building the toolbar from a list joined from two lists is joining the
      two built lists. */
  lemma ToolBarViewableAppend<C, V>(config: C, a: seq<C -> V>, b: seq<C -> V>)
    ensures ToolBarViewable(config, a + b) == ToolBarViewable(config, a) + ToolBarViewable(config, b)
  {
    var l, r := ToolBarViewable(config, a + b), ToolBarViewable(config, a) + ToolBarViewable(config, b);
    assert |l| == |r|;
    forall i | 0 <= i < |l| ensures l[i] == r[i] {
      if i < |a| { assert (a + b)[i] == a[i]; } else { assert (a + b)[i] == b[i - |a|]; }
    }
  }

  // ---------------------------------------------------------------------------
  // State

  /** `Config`: the settings an application shares with the view, and three
      counters the view watches; bumping one makes the view reload the image,
      apply the settings or show the settings view. */
  class Config {
    var hideStatusBar: bool
    var hideToolBar: bool
    var ignoreSafeArea: bool
    var background: Colour.Colour
    var watchImage: int
    var watchSettings: int
    var watchSettingsView: int

    /** A missing background means black; the counters start at zero. */
    constructor(hideStatusBar: bool := false, hideToolBar: bool := false,
                ignoreSafeArea: bool := false, background: Option<Colour.Colour> := None)
      ensures this.hideStatusBar == hideStatusBar && this.hideToolBar == hideToolBar
      ensures this.ignoreSafeArea == ignoreSafeArea
      ensures this.background == background.GetOr(Colour.Black)
      ensures watchImage == 0 && watchSettings == 0 && watchSettingsView == 0
    {
      this.hideStatusBar := hideStatusBar;
      this.hideToolBar := hideToolBar;
      this.ignoreSafeArea := ignoreSafeArea;
      this.background := background.GetOr(Colour.Black);
      watchImage := 0;
      watchSettings := 0;
      watchSettingsView := 0;
    }

    /** `updateImage`. */
    method UpdateImage()
      modifies this
      ensures watchImage == old(watchImage) + 1
      ensures watchSettings == old(watchSettings) && watchSettingsView == old(watchSettingsView)
      ensures hideStatusBar == old(hideStatusBar) && hideToolBar == old(hideToolBar)
      ensures ignoreSafeArea == old(ignoreSafeArea) && background == old(background)
    {
      watchImage := watchImage + 1;
    }

    /** `applySettings`. */
    method ApplySettings()
      modifies this
      ensures watchSettings == old(watchSettings) + 1
      ensures watchImage == old(watchImage) && watchSettingsView == old(watchSettingsView)
      ensures hideStatusBar == old(hideStatusBar) && hideToolBar == old(hideToolBar)
      ensures ignoreSafeArea == old(ignoreSafeArea) && background == old(background)
    {
      watchSettings := watchSettings + 1;
    }

    /** `showSettingsView`. */
    method ShowSettingsView()
      modifies this
      ensures watchSettingsView == old(watchSettingsView) + 1
      ensures watchImage == old(watchImage) && watchSettings == old(watchSettings)
      ensures hideStatusBar == old(hideStatusBar) && hideToolBar == old(hideToolBar)
      ensures ignoreSafeArea == old(ignoreSafeArea) && background == old(background)
    {
      watchSettingsView := watchSettingsView + 1;
    }
  }

  /** The view's own copies of the settings, taken from its `Config` when it
      is created and again whenever the settings are applied. */
  class View {
    const config: Config
    var hideStatusBar: bool
    var hideToolBar: bool
    var ignoreSafeArea: bool
    var background: Colour.Colour

    /** The view agrees with its configuration. */
    predicate InSync()
      reads this, config
    {
      hideStatusBar == config.hideStatusBar && hideToolBar == config.hideToolBar
      && ignoreSafeArea == config.ignoreSafeArea && background == config.background
    }

    /** Whether the toolbar is drawn at all. */
    function ToolBarIsHidden(): (r: bool)
      reads this
      ensures r <==> hideToolBar || ignoreSafeArea
    {
      ToolBarHidden(hideToolBar, ignoreSafeArea)
    }

    /** `init(config:imageView:settingsView:toolBarViews:)`. */
    constructor(config: Config)
      ensures this.config == config && InSync()
    {
      this.config := config;
      hideStatusBar := config.hideStatusBar;
      hideToolBar := config.hideToolBar;
      ignoreSafeArea := config.ignoreSafeArea;
      background := config.background;
    }

    /** `applySettings`: copy the settings from the configuration again. */
    method ApplySettings()
      modifies this
      ensures InSync()
      ensures unchanged(config)
    {
      hideStatusBar := config.hideStatusBar;
      hideToolBar := config.hideToolBar;
      ignoreSafeArea := config.ignoreSafeArea;
      background := config.background;
    }
  }
}
