/** The layout saver: writes the registry's layout to a stream and restores it from one, and
    keeps that stream in the application's settings. */
module SaveRestore {
  import opened Geometry
  import opened Wrappers
  import opened DataStreams
  import opened LayoutFormat
  import opened DockRegistry

  /** Where a value is kept in the settings store: the application's organization and name,
      the settings group, and the key inside that group. */
  datatype SettingsKey = SettingsKey(organization: string, application: string, group: string, key: string)

  const LayoutGroup := "KDDockWidgets::LayoutSaver"
  const LayoutDataKey := "data"

  /** The key the layout is saved under for the given application. */
  function LayoutKey(organization: string, application: string): (k: SettingsKey)
    ensures k.organization == organization && k.application == application
    ensures k.group == LayoutGroup && k.key == LayoutDataKey
  {
    SettingsKey(organization, application, LayoutGroup, LayoutDataKey)
  }

  /** The persistent settings store. */
  class Settings {
    var store: map<SettingsKey, seq<Token>>

    constructor ()
      ensures store == map[]
    {
      store := map[];
    }

    /** The bytes stored under `k`; an absent key reads as an empty byte array. */
    function Value(k: SettingsKey): (data: seq<Token>)
      reads this
      ensures k !in store ==> data == []
      ensures k in store ==> data == store[k]
    {
      if k in store then store[k] else []
    }

    method SetValue(k: SettingsKey, data: seq<Token>)
      modifies this
      ensures store == old(store)[k := data]
    {
      store := store[k := data];
    }
  }

  /** The restore-in-progress flag, shared by every layout saver. */
  class RestoreFlag {
    var inProgress: bool

    constructor ()
      ensures !inProgress
    {
      inProgress := false;
    }
  }

  class LayoutSaver {
    const registry: Registry
    const settings: Settings
    const flag: RestoreFlag

    constructor (registry: Registry, settings: Settings, flag: RestoreFlag)
      ensures this.registry == registry && this.settings == settings && this.flag == flag
    {
      this.registry, this.settings, this.flag := registry, settings, flag;
    }

    /** True exactly while a restore started by RestoreFromDisk runs. */
    function RestoreInProgress(): bool
      reads flag
    {
      flag.inProgress
    }

    /** Stores the serialized layout under the application's layout key; refuses, writing
        nothing, when the organization or application name is empty. */
    method SaveToDisk(organization: string, application: string) returns (saved: bool)
      requires registry.Valid()
      modifies registry, settings
      ensures registry.Valid()
      ensures saved <==> organization != "" && application != ""
      ensures !saved ==> settings.store == old(settings.store) && unchanged(registry)
      ensures saved ==>
        settings.store == old(settings.store)[LayoutKey(organization, application) :=
          if old(registry.sane) then Encode(old(registry.View())) else []]
      ensures registry.View() == old(registry.View())
      ensures registry.mainWindows == old(registry.mainWindows) && registry.floatingWindows == old(registry.floatingWindows)
      ensures registry.closedDockWidgets == old(registry.closedDockWidgets) && registry.sane == old(registry.sane)
    {
      if organization == "" || application == "" {
        return false;
      }
      var data := SerializeLayout();
      settings.SetValue(LayoutKey(organization, application), data);
      return true;
    }

    /** Restores the layout stored under the application's layout key, with the
        restore-in-progress flag raised for the duration of the restore: `flagSeen` is the flag
        as RestoreLayout itself observed it. The outcome is the restore's own. */
    method RestoreFromDisk(organization: string, application: string)
        returns (outcome: RestoreOutcome, ghost flagSeen: bool)
      requires registry.Valid()
      modifies registry, registry.mainWindows, flag
      ensures registry.Valid() && registry.mainWindows == old(registry.mainWindows)
      ensures Restoration(outcome, registry.View())
        == RestoreLayoutSpec(old(registry.View()), settings.Value(LayoutKey(organization, application)))
      ensures registry.sane == old(registry.sane) && registry.allMorphed == old(registry.allMorphed)
      ensures flagSeen && !RestoreInProgress()
    {
      var data := settings.Value(LayoutKey(organization, application));
      flag.inProgress := true;
      outcome, flagSeen := RestoreLayout(data);
      flag.inProgress := false;
    }

    /** Reads a geometry, then a visibility, and applies both to the window. */
    method DeserializeWindowGeometry(ds: DataStream, topLevel: Window)
      requires ds.Valid()
      modifies ds, topLevel
      ensures ds.Valid() && ds.tokens == old(ds.tokens)
      ensures Read(topLevel.State(), ds.pos) == DeserializeWindowGeometryAt(old(topLevel.State()), ds.tokens, old(ds.pos))
    {
      var geo := ds.ReadRect();
      var visible := ds.ReadBool();
      topLevel.SetGeometry(geo);
      topLevel.SetVisible(visible);
    }

    /** The registry's layout as a stream: nothing for a registry that fails its own checks;
        otherwise floating dock widgets are first morphed into floating windows, then the main
        windows, the floating windows and the closed dock widgets are written in order. */
    method SerializeLayout() returns (data: seq<Token>)
      requires registry.Valid()
      modifies registry
      ensures registry.Valid() && registry.View() == old(registry.View())
      ensures registry.mainWindows == old(registry.mainWindows) && registry.floatingWindows == old(registry.floatingWindows)
      ensures registry.closedDockWidgets == old(registry.closedDockWidgets) && registry.sane == old(registry.sane)
      ensures !old(registry.sane) ==> data == [] && unchanged(registry)
      ensures old(registry.sane) ==> registry.allMorphed && data == Encode(registry.View())
    {
      if !registry.IsSane() {
        return [];
      }
      registry.EnsureAllFloatingWidgetsAreMorphed();
      label morphed:
      var mainWindows := registry.mainWindows;
      data := [IntValue(|mainWindows|)];
      var mainRecords := WriteMainWindows(mainWindows, registry.MainWindowViews());
      data := data + mainRecords;
      var floatingWindows := registry.floatingWindows;
      data := data + [IntValue(|floatingWindows|)];
      var floatingRecords := WriteFloatingWindows(mainWindows, floatingWindows, registry.FloatingWindowViews());
      data := data + floatingRecords;
      var closedDockWidgets := registry.closedDockWidgets;
      data := data + [IntValue(|closedDockWidgets|)];
      var closedRecords := WriteClosedDockWidgets(closedDockWidgets);
      data := data + closedRecords;
      registry.ViewFramed@morphed();
    }

    /** The main-window records of serializeLayout: each main window's name, geometry and
        layout, in registry order. */
    method WriteMainWindows(mainWindows: seq<Window>, ghost views: seq<MainWindowView>) returns (ds: seq<Token>)
      requires |views| == |mainWindows|
      requires forall i :: 0 <= i < |views| ==> views[i] == MainWindowView(mainWindows[i].name, mainWindows[i].State())
      ensures ds == Concat(views, EncodeMainWindow)
    {
      ds := [];
      for i := 0 to |mainWindows|
        invariant ds == Concat(views[..i], EncodeMainWindow)
      {
        var mainWindow := mainWindows[i];
        ds := ds + [StringValue(mainWindow.name)];
        ds := ds + EncodeWindowGeometry(mainWindow.State());
        ds := ds + [PayloadValue(mainWindow.layout)];
        ConcatSnoc(views[..i], views[i], EncodeMainWindow);
        assert views[..i + 1] == views[..i] + [views[i]];
      }
      assert views[..|mainWindows|] == views;
    }

    /** The floating-window records of serializeLayout: each floating window's parent index,
        geometry and layout. The parent index is the position of the window's parent in the
        main-window list, or -1 when its parent is not a main window. */
    method WriteFloatingWindows(mainWindows: seq<Window>, floatingWindows: seq<Window>, ghost views: seq<FloatingWindowView>)
        returns (ds: seq<Token>)
      requires |views| == |floatingWindows|
      requires forall j :: 0 <= j < |views| ==>
        var w := floatingWindows[j];
        views[j] == FloatingWindowView(if w.parent == null then -1 else IndexOf(mainWindows, w.parent), w.State())
      ensures ds == Concat(views, EncodeFloatingWindow)
    {
      ds := [];
      for j := 0 to |floatingWindows|
        invariant ds == Concat(views[..j], EncodeFloatingWindow)
      {
        var floatingWindow := floatingWindows[j];
        var parentIndex := if floatingWindow.parent != null then IndexOf(mainWindows, floatingWindow.parent) else -1;
        ds := ds + [IntValue(parentIndex)];
        ds := ds + EncodeWindowGeometry(floatingWindow.State());
        ds := ds + [PayloadValue(floatingWindow.layout)];
        ConcatSnoc(views[..j], views[j], EncodeFloatingWindow);
        assert views[..j + 1] == views[..j] + [views[j]];
      }
      assert views[..|floatingWindows|] == views;
    }

    /** The closed-dock-widget records of serializeLayout: each closed dock widget's content. */
    method WriteClosedDockWidgets(closedDockWidgets: seq<Payload>) returns (ds: seq<Token>)
      ensures ds == Concat(closedDockWidgets, EncodeClosedDockWidget)
    {
      ds := [];
      for k := 0 to |closedDockWidgets|
        invariant ds == Concat(closedDockWidgets[..k], EncodeClosedDockWidget)
      {
        ds := ds + [PayloadValue(closedDockWidgets[k])];
        ConcatSnoc(closedDockWidgets[..k], closedDockWidgets[k], EncodeClosedDockWidget);
        assert closedDockWidgets[..k + 1] == closedDockWidgets[..k] + [closedDockWidgets[k]];
      }
      assert closedDockWidgets[..|closedDockWidgets|] == closedDockWidgets;
    }

    /** Restores the layout in `data`: empty data is refused untouched; otherwise the registry
        is cleared and the main windows, the floating windows and the closed dock widgets are
        read back in turn, as RestoreLayoutSpec says. Every floating window is
        parented to the main window its recorded index names, or to nothing for -1.
        `flagSeen` is the restore-in-progress flag as the restore observes it. */
    method RestoreLayout(data: seq<Token>) returns (outcome: RestoreOutcome, ghost flagSeen: bool)
      requires registry.Valid()
      modifies registry, registry.mainWindows
      ensures registry.Valid() && registry.mainWindows == old(registry.mainWindows)
      ensures registry.sane == old(registry.sane) && registry.allMorphed == old(registry.allMorphed)
      ensures flagSeen == RestoreInProgress()
      ensures Restoration(outcome, registry.View()) == RestoreLayoutSpec(old(registry.View()), data)
      ensures |data| > 0 ==> forall j :: 0 <= j < |registry.floatingWindows| ==>
        var index := registry.View().floatingWindows[j].parentIndex;
        registry.floatingWindows[j].parent == if index == -1 then null else registry.mainWindows[index]
    {
      flagSeen := RestoreInProgress();
      if |data| == 0 {
        return Failed, flagSeen;
      }
      ghost var before := registry.View();
      var ds := new DataStream.Reader(data);
      registry.Clear();
      assert |before.mainWindows| == |registry.mainWindows| by {
        assert |Names(before.mainWindows)| == |Names(registry.MainWindowViews())|;
      }
      outcome := RestoreClearedFrom(ds, before);
    }

    /** The three phases of restoreLayout, read from the start of non-empty data into a
        registry that has just been cleared from the view `before`. */
    method RestoreClearedFrom(ds: DataStream, ghost before: LayoutView) returns (outcome: RestoreOutcome)
      requires ds.Valid() && ds.pos == 0 && |ds.tokens| > 0
      requires registry.Valid() && registry.View() == Cleared(before)
      requires |before.mainWindows| == |registry.mainWindows|
      modifies ds, registry, registry.mainWindows
      ensures registry.Valid() && registry.mainWindows == old(registry.mainWindows)
      ensures registry.sane == old(registry.sane) && registry.allMorphed == old(registry.allMorphed)
      ensures Restoration(outcome, registry.View()) == RestoreLayoutSpec(before, old(ds.tokens))
    {
      ghost var data := ds.tokens;

      // 1. Main windows
      var complete := RestoreMainWindowsFrom(ds);
      ghost var mains := MainWindowsPhase(registry.MainWindowViews(), ds.pos, complete);
      if !complete {
        FailedByMainWindows(before, data, mains);
        return Failed;
      }

      // 2. Floating windows
      ghost var floatingAt := ds.pos;
      var invalidIndex := RestoreFloatingWindowsFrom(ds);
      ghost var floats := FloatingWindowsPhase(registry.FloatingWindowViews(), ds.pos, invalidIndex);
      if invalidIndex.Some? {
        return InvalidParentIndex(invalidIndex.value);
      }

      // 3. Closed dock widgets
      ghost var closedAt := ds.pos;
      label closing:
      RestoreClosedDockWidgetsFrom(ds);
      registry.WindowsFramed@closing();
      RestoredByPhases(before, data, mains, floats, registry.closedDockWidgets, ReadIntAt(data, floatingAt), ReadIntAt(data, closedAt));
      return Restored;
    }

    /** Phase 1 of restoreLayout: the main-window count, then that many main-window records;
        the first incomplete record stops the phase. */
    method RestoreMainWindowsFrom(ds: DataStream) returns (complete: bool)
      requires ds.Valid() && registry.Valid()
      modifies ds, registry.mainWindows
      ensures ds.Valid() && ds.tokens == old(ds.tokens)
      ensures var count := ReadIntAt(ds.tokens, old(ds.pos));
        RestoreMainWindows(old(registry.MainWindowViews()), ds.tokens, count.next, count.value)
          == MainWindowsPhase(registry.MainWindowViews(), ds.pos, complete)
    {
      ghost var views := registry.MainWindowViews();
      var numMainWindows := ds.ReadInt();
      registry.MainWindowsFramed();
      ghost var data := ds.tokens;
      ghost var mains := RestoreMainWindows(views, data, ds.pos, numMainWindows);
      var i := 0;
      while i < numMainWindows
        invariant ds.Valid() && ds.tokens == data
        invariant registry.MainWindowViews() == views
        invariant RestoreMainWindows(views, data, ds.pos, numMainWindows - i) == mains
        decreases numMainWindows - i
      {
        var ok := RestoreMainWindowFrom(ds);
        views := registry.MainWindowViews();
        if !ok {
          return false;
        }
        i := i + 1;
      }
      return true;
    }

    /** One main-window record: its name, which must name a live main window, then that
        window's geometry and its layout, which must fill. */
    method RestoreMainWindowFrom(ds: DataStream) returns (ok: bool)
      requires ds.Valid() && registry.Valid()
      modifies ds, registry.mainWindows
      ensures ds.Valid() && ds.tokens == old(ds.tokens)
      ensures ReadMainWindow(old(registry.MainWindowViews()), ds.tokens, old(ds.pos))
        == MainWindowsPhase(registry.MainWindowViews(), ds.pos, ok)
    {
      var name := ds.ReadString();
      var mainWindow := registry.MainWindowByName(name);
      if mainWindow == null {
        registry.MainWindowsFramed();
        return false;
      }
      ghost var k := IndexOf(registry.MainWindowNames(), name);
      DeserializeWindowGeometry(ds, mainWindow);
      ok := mainWindow.FillFromDataStream(ds);
      registry.MainWindowChanged(k);
    }

    /** Phase 2 of restoreLayout: the floating-window count, then that many floating-window
        records; an invalid parent index stops the phase. */
    method RestoreFloatingWindowsFrom(ds: DataStream) returns (invalidIndex: Option<int>)
      requires ds.Valid() && registry.Valid()
      modifies ds, registry
      ensures ds.Valid() && ds.tokens == old(ds.tokens)
      ensures registry.Valid() && registry.mainWindows == old(registry.mainWindows)
      ensures registry.closedDockWidgets == old(registry.closedDockWidgets)
      ensures registry.sane == old(registry.sane) && registry.allMorphed == old(registry.allMorphed)
      ensures registry.MainWindowViews() == old(registry.MainWindowViews())
      ensures var count := ReadIntAt(ds.tokens, old(ds.pos));
        RestoreFloatingWindows(|registry.mainWindows|, old(registry.FloatingWindowViews()), ds.tokens, count.next, count.value)
          == FloatingWindowsPhase(registry.FloatingWindowViews(), ds.pos, invalidIndex)
    {
      ghost var views := registry.FloatingWindowViews();
      var numFloating := ds.ReadInt();
      registry.WindowsFramed();
      ghost var data := ds.tokens;
      ghost var mainViews := registry.MainWindowViews();
      ghost var floats := RestoreFloatingWindows(|registry.mainWindows|, views, data, ds.pos, numFloating);
      var i := 0;
      while i < numFloating
        invariant ds.Valid() && ds.tokens == data
        invariant registry.Valid() && registry.mainWindows == old(registry.mainWindows)
        invariant registry.closedDockWidgets == old(registry.closedDockWidgets)
        invariant registry.sane == old(registry.sane) && registry.allMorphed == old(registry.allMorphed)
        invariant registry.MainWindowViews() == mainViews
        invariant registry.FloatingWindowViews() == views
        invariant RestoreFloatingWindows(|registry.mainWindows|, views, data, ds.pos, numFloating - i) == floats
        decreases numFloating - i
      {
        invalidIndex := RestoreFloatingWindowFrom(ds);
        views := registry.FloatingWindowViews();
        if invalidIndex.Some? {
          return;
        }
        i := i + 1;
      }
      return None;
    }

    /** One floating-window record: its parent index, which must be -1 or a main window's
        position, then a new floating window with that parent, its geometry and its layout. */
    method RestoreFloatingWindowFrom(ds: DataStream) returns (invalidIndex: Option<int>)
      requires ds.Valid() && registry.Valid()
      modifies ds, registry
      ensures ds.Valid() && ds.tokens == old(ds.tokens)
      ensures registry.Valid() && registry.mainWindows == old(registry.mainWindows)
      ensures registry.closedDockWidgets == old(registry.closedDockWidgets)
      ensures registry.sane == old(registry.sane) && registry.allMorphed == old(registry.allMorphed)
      ensures registry.MainWindowViews() == old(registry.MainWindowViews())
      ensures ReadFloatingWindow(|registry.mainWindows|, old(registry.FloatingWindowViews()), ds.tokens, old(ds.pos))
        == FloatingWindowsPhase(registry.FloatingWindowViews(), ds.pos, invalidIndex)
    {
      ghost var views := registry.FloatingWindowViews();
      var parentIndex := ds.ReadInt();
      ghost var data, placedAt := ds.tokens, ds.pos;
      if !(parentIndex == -1 || 0 <= parentIndex < |registry.mainWindows|) {
        registry.WindowsFramed();
        return Some(parentIndex);
      }
      var parent := if parentIndex == -1 then null else registry.mainWindows[parentIndex];
      if parentIndex != -1 {
        IndexOfDistinct(registry.mainWindows, parentIndex);
      }
      var fw := registry.CreateFloatingWindow(parent);
      DeserializeWindowGeometry(ds, fw);
      var _ := fw.FillFromDataStream(ds);
      ghost var placed := DeserializeWindowGeometryAt(NewWindowState, data, placedAt);
      assert fw.State() == FillFromDataStreamAt(placed.value, data, placed.next).state;
      registry.FloatingWindowAdded();
      registry.MainWindowsFramed();
      assert registry.ParentIndex(fw) == parentIndex;
      assert registry.FloatingWindowViews() == views + [FloatingWindowView(parentIndex, fw.State())];
      return None;
    }

    /** Phase 3 of restoreLayout: the closed-dock-widget count, then each closed dock widget. */
    method RestoreClosedDockWidgetsFrom(ds: DataStream)
      requires ds.Valid()
      modifies ds, registry
      ensures ds.Valid() && ds.tokens == old(ds.tokens)
      ensures registry.mainWindows == old(registry.mainWindows) && registry.floatingWindows == old(registry.floatingWindows)
      ensures registry.sane == old(registry.sane) && registry.allMorphed == old(registry.allMorphed)
      ensures var count := ReadIntAt(ds.tokens, old(ds.pos));
        registry.closedDockWidgets == RestoreClosedDockWidgets(old(registry.closedDockWidgets), ds.tokens, count.next, count.value)
    {
      var numClosedDockWidgets := ds.ReadInt();
      ghost var closed := RestoreClosedDockWidgets(old(registry.closedDockWidgets), ds.tokens, ds.pos, numClosedDockWidgets);
      var i := 0;
      while i < numClosedDockWidgets
        invariant ds.Valid() && ds.tokens == old(ds.tokens)
        invariant registry.mainWindows == old(registry.mainWindows) && registry.floatingWindows == old(registry.floatingWindows)
        invariant registry.sane == old(registry.sane) && registry.allMorphed == old(registry.allMorphed)
        invariant RestoreClosedDockWidgets(registry.closedDockWidgets, ds.tokens, ds.pos, numClosedDockWidgets - i) == closed
        decreases numClosedDockWidgets - i
      {
        registry.CreateDockWidgetFromDataStream(ds);
        i := i + 1;
      }
    }
  }
}
