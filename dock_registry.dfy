/** The windows the layout saver reads and writes, and the registry that lists them. What the
    registry does inside `clear`, `isSane`, `mainWindowByName` and the morphing of floating dock
    widgets is kept abstract: each is modelled by the effect the layout saver relies on. */
module DockRegistry {
  import opened Geometry
  import opened Wrappers
  import opened DataStreams
  import opened LayoutFormat

  /** A top-level widget the layout saver handles: a main window, known by its unique name,
      or a floating window, whose parent widget is `parent` (null when it has none). */
  class Window {
    const name: string
    const parent: Window?
    var geometry: Rect
    var visible: bool
    var layout: Payload

    /** A main window registered under `name`. */
    constructor MainWindow(name: string, geometry: Rect, visible: bool, layout: Payload)
      ensures this.name == name && parent == null
      ensures State() == WindowState(geometry, visible, layout)
    {
      this.name, this.parent := name, null;
      this.geometry, this.visible, this.layout := geometry, visible, layout;
    }

    /** A new floating window: hidden, at the default geometry, with an empty layout. */
    constructor FloatingWindow(parent: Window?)
      ensures name == "" && this.parent == parent
      ensures State() == NewWindowState
    {
      this.name, this.parent := "", parent;
      geometry, visible, layout := DefaultRect, false, EmptyLayout;
    }

    /** What the layout saver records of this window. */
    function State(): WindowState
      reads this
    {
      WindowState(geometry, visible, layout)
    }

    method SetGeometry(r: Rect)
      modifies this
      ensures State() == old(State()).(geometry := r)
    {
      geometry := r;
    }

    method SetVisible(b: bool)
      modifies this
      ensures State() == old(State()).(visible := b)
    {
      visible := b;
    }

    /** Reads this window's layout from the stream; fails, keeping the layout, when the stream
        holds no layout at the cursor. */
    method FillFromDataStream(ds: DataStream) returns (ok: bool)
      requires ds.Valid()
      modifies this, ds
      ensures ds.Valid() && ds.tokens == old(ds.tokens)
      ensures Fill(ok, State(), ds.pos) == FillFromDataStreamAt(old(State()), ds.tokens, old(ds.pos))
    {
      var p := ds.ReadPayload();
      match p
      case Some(content) =>
        layout, ok := content, true;
      case None =>
        ok := false;
    }
  }

  /** The registry of main windows, floating windows and closed dock widgets. `sane` stands
      for the result of the registry's own consistency checks and `allMorphed` records that
      every floating dock widget has been morphed into a floating window. */
  class Registry {
    var mainWindows: seq<Window>
    var floatingWindows: seq<Window>
    var closedDockWidgets: seq<Payload>
    var sane: bool
    var allMorphed: bool

    /** No window is listed twice, none is both a main and a floating window, and a floating
        window's parent, when it has one, is a main window. */
    ghost predicate Valid()
      reads this
    {
      && Distinct(mainWindows)
      && Distinct(floatingWindows)
      && (forall i, j :: 0 <= i < |mainWindows| && 0 <= j < |floatingWindows| ==>
            mainWindows[i] != floatingWindows[j])
      && forall j :: 0 <= j < |floatingWindows| ==>
           floatingWindows[j].parent == null || floatingWindows[j].parent in mainWindows
    }

    /** A registry holding the given main windows and nothing else. */
    constructor (windows: seq<Window>)
      requires Distinct(windows)
      ensures Valid() && sane && !allMorphed
      ensures mainWindows == windows && floatingWindows == [] && closedDockWidgets == []
    {
      mainWindows, floatingWindows, closedDockWidgets := windows, [], [];
      sane, allMorphed := true, false;
    }

    /** Whether the registry is in a state worth saving. */
    function IsSane(): bool
      reads this
    {
      sane
    }

    /** The names of the main windows, in registry order. */
    function MainWindowNames(): (names: seq<string>)
      reads this
      ensures |names| == |mainWindows|
      ensures forall i :: 0 <= i < |mainWindows| ==> names[i] == mainWindows[i].name
    {
      var ws := mainWindows;
      seq(|ws|, i requires 0 <= i < |ws| => ws[i].name)
    }

    /** The position of a floating window's parent in the main-window list, or -1 when its
        parent is not a registered main window. */
    function ParentIndex(w: Window): (r: int)
      reads this
      ensures -1 <= r < |mainWindows|
      ensures r >= 0 <==> w.parent != null && w.parent in mainWindows
      ensures r >= 0 ==> mainWindows[r] == w.parent
    {
      if w.parent == null then -1 else IndexOf(mainWindows, w.parent)
    }

    ghost function MainWindowViews(): (r: seq<MainWindowView>)
      reads this, mainWindows
      ensures |r| == |mainWindows| && Names(r) == MainWindowNames()
      ensures forall i :: 0 <= i < |mainWindows| ==> r[i] == MainWindowView(mainWindows[i].name, mainWindows[i].State())
    {
      var ws := mainWindows;
      seq(|ws|, i reads ws requires 0 <= i < |ws| => MainWindowView(ws[i].name, ws[i].State()))
    }

    ghost function FloatingWindowViews(): (r: seq<FloatingWindowView>)
      reads this, floatingWindows
      ensures |r| == |floatingWindows|
      ensures forall j :: 0 <= j < |floatingWindows| ==>
        r[j] == FloatingWindowView(ParentIndex(floatingWindows[j]), floatingWindows[j].State())
    {
      var ws := floatingWindows;
      seq(|ws|, j reads this, ws requires 0 <= j < |ws| => FloatingWindowView(ParentIndex(ws[j]), ws[j].State()))
    }

    /** The registry as the layout saver sees it. */
    ghost function View(): LayoutView
      reads this, mainWindows, floatingWindows
    {
      LayoutView(MainWindowViews(), FloatingWindowViews(), closedDockWidgets)
    }

    /** A registry whose main windows have unique names records a layout the restore can
        read back: every recorded parent index is -1 or a main window's position. */
    lemma ViewWellFormed()
      requires Distinct(MainWindowNames())
      ensures WellFormed(View())
    {
    }

    /** The view depends only on the registry and its windows. */
    twostate lemma ViewFramed()
      requires unchanged(this) && unchanged(mainWindows) && unchanged(floatingWindows)
      ensures View() == old(View())
    {
    }

    /** Changing the state of main window `k` alone changes only its entry in the view. */
    twostate lemma MainWindowChanged(k: int)
      requires mainWindows == old(mainWindows) && 0 <= k < |mainWindows|
      requires forall i :: 0 <= i < |mainWindows| && i != k ==> unchanged(mainWindows[i])
      ensures MainWindowViews() == old(MainWindowViews())[k := old(MainWindowViews())[k].(state := mainWindows[k].State())]
    {
      var views := old(MainWindowViews());
      assert forall i :: 0 <= i < |mainWindows| && i != k ==> MainWindowViews()[i] == views[i];
    }

    /** Untouched main windows keep their view. */
    twostate lemma MainWindowsFramed()
      requires mainWindows == old(mainWindows) && unchanged(mainWindows)
      ensures MainWindowViews() == old(MainWindowViews())
    {
      assert forall i :: 0 <= i < |mainWindows| ==> MainWindowViews()[i] == old(MainWindowViews())[i];
    }

    /** Untouched windows keep their views. */
    twostate lemma WindowsFramed()
      requires mainWindows == old(mainWindows) && floatingWindows == old(floatingWindows)
      requires unchanged(mainWindows) && unchanged(floatingWindows)
      ensures MainWindowViews() == old(MainWindowViews()) && FloatingWindowViews() == old(FloatingWindowViews())
    {
      assert forall i :: 0 <= i < |mainWindows| ==> MainWindowViews()[i] == old(MainWindowViews())[i];
      assert forall j :: 0 <= j < |floatingWindows| ==> FloatingWindowViews()[j] == old(FloatingWindowViews())[j];
    }

    /** A floating window appended, with the earlier ones untouched, extends the view by one. */
    twostate lemma FloatingWindowAdded()
      requires mainWindows == old(mainWindows)
      requires |floatingWindows| == |old(floatingWindows)| + 1
      requires floatingWindows[..|floatingWindows| - 1] == old(floatingWindows)
      requires unchanged(old(floatingWindows))
      ensures var w := floatingWindows[|floatingWindows| - 1];
        FloatingWindowViews() == old(FloatingWindowViews()) + [FloatingWindowView(ParentIndex(w), w.State())]
    {
      var views := old(FloatingWindowViews());
      assert forall j :: 0 <= j < |views| ==> FloatingWindowViews()[j] == views[j];
    }

    /** Hides and unparents everything before a restore: floating windows and closed dock
        widgets are dropped and every main window's layout is emptied. */
    method Clear()
      requires Valid()
      modifies this, mainWindows
      ensures Valid() && mainWindows == old(mainWindows)
      ensures sane == old(sane) && allMorphed == old(allMorphed)
      ensures View() == Cleared(old(View()))
    {
      forall w | w in mainWindows {
        w.layout := EmptyLayout;
      }
      floatingWindows, closedDockWidgets := [], [];
    }

    /** The first main window called `name`, or null when there is none. */
    method MainWindowByName(name: string) returns (w: Window?)
      ensures var k := IndexOf(MainWindowNames(), name);
        (k < 0 ==> w == null) && (k >= 0 ==> w == mainWindows[k])
    {
      var i := 0;
      while i < |mainWindows|
        invariant i <= |mainWindows|
        invariant forall j :: 0 <= j < i ==> mainWindows[j].name != name
      {
        if mainWindows[i].name == name {
          IndexOfFirst(MainWindowNames(), name, i);
          return mainWindows[i];
        }
        i := i + 1;
      }
      return null;
    }

    /** A floating window created with `parent` registers itself at the end of the list. */
    method CreateFloatingWindow(parent: Window?) returns (fw: Window)
      requires Valid() && (parent == null || parent in mainWindows)
      modifies this
      ensures Valid() && fresh(fw) && fw.parent == parent && fw.State() == NewWindowState
      ensures floatingWindows == old(floatingWindows) + [fw]
      ensures mainWindows == old(mainWindows) && closedDockWidgets == old(closedDockWidgets)
      ensures sane == old(sane) && allMorphed == old(allMorphed)
    {
      fw := new Window.FloatingWindow(parent);
      floatingWindows := floatingWindows + [fw];
    }

    /** A closed dock widget is created from the payload at the cursor, when there is one. */
    method CreateDockWidgetFromDataStream(ds: DataStream)
      requires ds.Valid()
      modifies this, ds
      ensures ds.Valid() && ds.tokens == old(ds.tokens)
      ensures var p := ReadPayloadAt(ds.tokens, old(ds.pos));
        && ds.pos == p.next
        && closedDockWidgets == old(closedDockWidgets) + (if p.value.Some? then [p.value.value] else [])
      ensures mainWindows == old(mainWindows) && floatingWindows == old(floatingWindows)
      ensures sane == old(sane) && allMorphed == old(allMorphed)
    {
      var p := ds.ReadPayload();
      if p.Some? {
        closedDockWidgets := closedDockWidgets + [p.value];
      }
    }

    /** Morphs every floating dock widget into a floating window. */
    method EnsureAllFloatingWidgetsAreMorphed()
      modifies this
      ensures allMorphed
      ensures mainWindows == old(mainWindows) && floatingWindows == old(floatingWindows)
      ensures closedDockWidgets == old(closedDockWidgets) && sane == old(sane)
      ensures View() == old(View())
    {
      allMorphed := true;
    }
  }

  /** The first index holding `x` is the first `i` with `s[i] == x`. */
  lemma IndexOfFirst<T>(s: seq<T>, x: T, i: nat)
    requires i < |s| && s[i] == x
    requires forall j :: 0 <= j < i ==> s[j] != x
    ensures IndexOf(s, x) == i
  {
  }
}
