/** The layout stream: what `LayoutSaver::serializeLayout` writes and how
    `LayoutSaver::restoreLayout` reads it back, stated over an abstract view of the dock
    registry. The imperative saver in module SaveRestore is proved to behave as these
    functions say; the lemmas here state what that behaviour guarantees. */
module LayoutFormat {
  import opened Geometry
  import opened Wrappers
  import opened DataStreams

  /** What the layout saver records of a top-level window: its geometry, its visibility and
      its own layout content. */
  datatype WindowState = WindowState(geometry: Rect, visible: bool, layout: Payload)

  /** A main window, identified across save and restore by its name. */
  datatype MainWindowView = MainWindowView(name: string, state: WindowState)

  /** A floating window; `parentIndex` is the position of its parent main window in the
      registry's main-window list, or -1 when it has none. */
  datatype FloatingWindowView = FloatingWindowView(parentIndex: int, state: WindowState)

  /** The registry as the layout saver sees it: the ordered main windows, the floating windows
      and the closed dock widgets. */
  datatype LayoutView = LayoutView(
    mainWindows: seq<MainWindowView>,
    floatingWindows: seq<FloatingWindowView>,
    closedDockWidgets: seq<Payload>)

  /** How a restore ends. `InvalidParentIndex` stands for the case the source leaves undefined:
      a recorded parent index that is neither -1 nor a position in the main-window list. */
  datatype RestoreOutcome = Restored | Failed | InvalidParentIndex(index: int)

  datatype Restoration = Restoration(outcome: RestoreOutcome, layout: LayoutView)

  /** The state a floating window is created with, before its geometry is read. */
  const NewWindowState := WindowState(DefaultRect, false, EmptyLayout)

  // ---------------------------------------------------------------------------------------
  // Sequences

  /** The position of the first occurrence of `x` in `s`, or -1 (the toolkit's indexOf). */
  function IndexOf<T(==)>(s: seq<T>, x: T): (r: int)
    ensures -1 <= r < |s|
    ensures r == -1 <==> x !in s
    ensures r >= 0 ==> s[r] == x && forall j :: 0 <= j < r ==> s[j] != x
  {
    if s == [] then -1
    else if s[0] == x then 0
    else
      var k := IndexOf(s[1..], x);
      if k == -1 then -1 else k + 1
  }

  ghost predicate Distinct<T>(s: seq<T>) {
    forall i, j :: 0 <= i < j < |s| ==> s[i] != s[j]
  }

  function Names(windows: seq<MainWindowView>): seq<string> {
    seq(|windows|, i requires 0 <= i < |windows| => windows[i].name)
  }

  /** The tokens of every element of `s`, in order. */
  function Concat<T>(s: seq<T>, encode: T -> seq<Token>): seq<Token> {
    if s == [] then [] else encode(s[0]) + Concat(s[1..], encode)
  }

  lemma {:induction false} ConcatAppend<T>(a: seq<T>, b: seq<T>, encode: T -> seq<Token>)
    ensures Concat(a + b, encode) == Concat(a, encode) + Concat(b, encode)
  {
    if a == [] {
      assert a + b == b;
    } else {
      assert (a + b)[1..] == a[1..] + b;
      ConcatAppend(a[1..], b, encode);
    }
  }

  /** Writing one more element appends its tokens. */
  lemma ConcatSnoc<T>(a: seq<T>, x: T, encode: T -> seq<Token>)
    ensures Concat(a + [x], encode) == Concat(a, encode) + encode(x)
  {
    ConcatAppend(a, [x], encode);
    assert [x][1..] == [];
  }

  /** When every element encodes to `width` tokens, element `i` sits at `width * i`. */
  lemma {:induction false} ConcatAt<T>(s: seq<T>, encode: T -> seq<Token>, width: nat, i: nat)
    requires forall x :: |encode(x)| == width
    requires i < |s|
    ensures |Concat(s, encode)| == width * |s|
    ensures width * i + width <= width * |s|
    ensures Concat(s, encode)[width * i .. width * i + width] == encode(s[i])
  {
    if i == 0 {
      ConcatLength(s[1..], encode, width);
    } else {
      ConcatAt(s[1..], encode, width, i - 1);
      assert width * i == width + width * (i - 1);
    }
  }

  lemma {:induction false} ConcatLength<T>(s: seq<T>, encode: T -> seq<Token>, width: nat)
    requires forall x :: |encode(x)| == width
    ensures |Concat(s, encode)| == width * |s|
  {
    if s != [] {
      ConcatLength(s[1..], encode, width);
    }
  }

  // ---------------------------------------------------------------------------------------
  // Writing (serializeLayout, serializeWindowGeometry)

  /** A window's geometry: two tokens, the rect and then the visibility. */
  function EncodeWindowGeometry(s: WindowState): (r: seq<Token>)
    ensures |r| == 2 && r[0].RectValue? && r[1].BoolValue?
  {
    [RectValue(s.geometry), BoolValue(s.visible)]
  }

  /** A main-window record: four tokens, led by the window's name. */
  function EncodeMainWindow(m: MainWindowView): (r: seq<Token>)
    ensures |r| == 4 && r[0] == StringValue(m.name) && r[3].PayloadValue?
  {
    [StringValue(m.name)] + EncodeWindowGeometry(m.state) + [PayloadValue(m.state.layout)]
  }

  /** A floating-window record: four tokens, led by the parent's index. */
  function EncodeFloatingWindow(f: FloatingWindowView): (r: seq<Token>)
    ensures |r| == 4 && r[0] == IntValue(f.parentIndex) && r[3].PayloadValue?
  {
    [IntValue(f.parentIndex)] + EncodeWindowGeometry(f.state) + [PayloadValue(f.state.layout)]
  }

  function EncodeClosedDockWidget(p: Payload): seq<Token> {
    [PayloadValue(p)]
  }

  /** The stream serializeLayout writes for a sane registry: three counts, four tokens per
      window and one per closed dock widget, starting with the main-window count. */
  function Encode(v: LayoutView): (r: seq<Token>)
    ensures |r| >= 3 && r[0] == IntValue(|v.mainWindows|)
  {
    [IntValue(|v.mainWindows|)] + Concat(v.mainWindows, EncodeMainWindow)
    + [IntValue(|v.floatingWindows|)] + Concat(v.floatingWindows, EncodeFloatingWindow)
    + [IntValue(|v.closedDockWidgets|)] + Concat(v.closedDockWidgets, EncodeClosedDockWidget)
  }

  /** `tokens` stand in `data` from position `pos` on. */
  ghost predicate At(data: seq<Token>, pos: nat, tokens: seq<Token>) {
    pos + |tokens| <= |data| && data[pos..pos + |tokens|] == tokens
  }

  lemma AtPrefix(data: seq<Token>, pos: nat, x: seq<Token>, y: seq<Token>)
    requires At(data, pos, x + y)
    ensures At(data, pos, x) && At(data, pos + |x|, y)
  {
    assert data[pos..pos + |x|] == (x + y)[..|x|];
    assert data[pos + |x|..pos + |x| + |y|] == (x + y)[|x|..];
  }

  lemma AtEnd(x: seq<Token>, y: seq<Token>)
    ensures At(x + y, |x|, y)
  {
    assert (x + y)[|x|..|x| + |y|] == y;
  }

  lemma AtGrow(data: seq<Token>, pos: nat, tokens: seq<Token>, more: seq<Token>)
    requires At(data, pos, tokens)
    ensures At(data + more, pos, tokens)
  {
    assert (data + more)[pos..pos + |tokens|] == data[pos..pos + |tokens|];
  }

  /** The first element's tokens, then the rest's. */
  lemma AtConcat<T>(data: seq<Token>, pos: nat, s: seq<T>, encode: T -> seq<Token>)
    requires s != [] && At(data, pos, Concat(s, encode))
    ensures At(data, pos, encode(s[0])) && At(data, pos + |encode(s[0])|, Concat(s[1..], encode))
  {
    AtPrefix(data, pos, encode(s[0]), Concat(s[1..], encode));
  }

  lemma PrefixGrows<T>(s: seq<T>, n: nat)
    requires n < |s|
    ensures s[..n] + [s[n]] == s[..n + 1]
  {
  }

  /** The element at `done`'s tokens, then the rest's, with the lengths adding up. */
  lemma AtConcatFrom<T>(data: seq<Token>, pos: nat, s: seq<T>, done: nat, encode: T -> seq<Token>)
    requires done < |s| && At(data, pos, Concat(s[done..], encode))
    ensures At(data, pos, encode(s[done])) && At(data, pos + |encode(s[done])|, Concat(s[done + 1..], encode))
    ensures |Concat(s[done..], encode)| == |encode(s[done])| + |Concat(s[done + 1..], encode)|
  {
    assert s[done..][1..] == s[done + 1..];
    AtConcat(data, pos, s[done..], encode);
  }

  lemma AtSlice(data: seq<Token>, pos: nat, tokens: seq<Token>, lo: nat, hi: nat)
    requires At(data, pos, tokens) && lo <= hi <= |tokens|
    ensures At(data, pos + lo, tokens[lo..hi])
  {
    forall i | 0 <= i < hi - lo
      ensures data[pos + lo..pos + hi][i] == tokens[lo..hi][i]
    {
      assert data[pos..pos + |tokens|][lo + i] == tokens[lo + i];
    }
  }

  lemma AtToken(data: seq<Token>, pos: nat, tokens: seq<Token>, i: nat)
    requires At(data, pos, tokens) && i < |tokens|
    ensures data[pos + i] == tokens[i]
  {
    assert data[pos..pos + |tokens|][i] == tokens[i];
  }

  /** Where each part of the stream stands: the main-window count at 0 with the main
      windows after it, then the floating-window count and the floating windows, then the
      closed count and the closed dock widgets, up to the end. */
  lemma EncodedLayout(v: LayoutView)
    ensures
      var ms := Concat(v.mainWindows, EncodeMainWindow);
      var fs := Concat(v.floatingWindows, EncodeFloatingWindow);
      var cs := Concat(v.closedDockWidgets, EncodeClosedDockWidget);
      var data := Encode(v);
      var floatingAt := 1 + |ms|;
      var closedAt := floatingAt + 1 + |fs|;
      && |data| == closedAt + 1 + |cs|
      && data[0] == IntValue(|v.mainWindows|) && At(data, 1, ms)
      && data[floatingAt] == IntValue(|v.floatingWindows|) && At(data, floatingAt + 1, fs)
      && data[closedAt] == IntValue(|v.closedDockWidgets|) && At(data, closedAt + 1, cs)
  {
    EncodedMainPart(v);
    EncodedFloatingPart(v);
    EncodedClosedPart(v);
  }

  // The three parts of EncodedLayout, each from the stream built up as prefixes p1 .. p4.

  lemma EncodedMainPart(v: LayoutView)
    ensures var data := Encode(v);
      && 0 < |data| && data[0] == IntValue(|v.mainWindows|)
      && At(data, 1, Concat(v.mainWindows, EncodeMainWindow))
  {
    var ms := Concat(v.mainWindows, EncodeMainWindow);
    var head := [IntValue(|v.mainWindows|)];
    var p1 := head + ms;
    var p2 := p1 + [IntValue(|v.floatingWindows|)];
    var p3 := p2 + Concat(v.floatingWindows, EncodeFloatingWindow);
    var p4 := p3 + [IntValue(|v.closedDockWidgets|)];
    var data := p4 + Concat(v.closedDockWidgets, EncodeClosedDockWidget);
    assert Encode(v) == data;
    AtEnd([], head);
    AtEnd(head, ms);
    assert At(p1, 0, head) by {
      AtGrow(head, 0, head, ms);
    }
    AtGrow(p1, 0, head, [IntValue(|v.floatingWindows|)]);
    AtGrow(p1, 1, ms, [IntValue(|v.floatingWindows|)]);
    AtGrow(p2, 0, head, Concat(v.floatingWindows, EncodeFloatingWindow));
    AtGrow(p2, 1, ms, Concat(v.floatingWindows, EncodeFloatingWindow));
    AtGrow(p3, 0, head, [IntValue(|v.closedDockWidgets|)]);
    AtGrow(p3, 1, ms, [IntValue(|v.closedDockWidgets|)]);
    AtGrow(p4, 0, head, Concat(v.closedDockWidgets, EncodeClosedDockWidget));
    AtGrow(p4, 1, ms, Concat(v.closedDockWidgets, EncodeClosedDockWidget));
    AtToken(data, 0, head, 0);
  }

  lemma EncodedFloatingPart(v: LayoutView)
    ensures var data := Encode(v);
      var at := 1 + |Concat(v.mainWindows, EncodeMainWindow)|;
      && at < |data| && data[at] == IntValue(|v.floatingWindows|)
      && At(data, at + 1, Concat(v.floatingWindows, EncodeFloatingWindow))
  {
    var fs := Concat(v.floatingWindows, EncodeFloatingWindow);
    var middle := [IntValue(|v.floatingWindows|)];
    var p1 := [IntValue(|v.mainWindows|)] + Concat(v.mainWindows, EncodeMainWindow);
    var p2 := p1 + middle;
    var p3 := p2 + fs;
    var p4 := p3 + [IntValue(|v.closedDockWidgets|)];
    var data := p4 + Concat(v.closedDockWidgets, EncodeClosedDockWidget);
    assert Encode(v) == data;
    AtEnd(p1, middle);
    AtEnd(p2, fs);
    AtGrow(p2, |p1|, middle, fs);
    AtGrow(p3, |p1|, middle, [IntValue(|v.closedDockWidgets|)]);
    AtGrow(p3, |p2|, fs, [IntValue(|v.closedDockWidgets|)]);
    AtGrow(p4, |p1|, middle, Concat(v.closedDockWidgets, EncodeClosedDockWidget));
    AtGrow(p4, |p2|, fs, Concat(v.closedDockWidgets, EncodeClosedDockWidget));
    AtToken(data, |p1|, middle, 0);
  }

  lemma EncodedClosedPart(v: LayoutView)
    ensures var data := Encode(v);
      var cs := Concat(v.closedDockWidgets, EncodeClosedDockWidget);
      var at := 1 + |Concat(v.mainWindows, EncodeMainWindow)| + 1 + |Concat(v.floatingWindows, EncodeFloatingWindow)|;
      && |data| == at + 1 + |cs| && data[at] == IntValue(|v.closedDockWidgets|)
      && At(data, at + 1, cs)
  {
    var cs := Concat(v.closedDockWidgets, EncodeClosedDockWidget);
    var tail := [IntValue(|v.closedDockWidgets|)];
    var p1 := [IntValue(|v.mainWindows|)] + Concat(v.mainWindows, EncodeMainWindow);
    var p2 := p1 + [IntValue(|v.floatingWindows|)];
    var p3 := p2 + Concat(v.floatingWindows, EncodeFloatingWindow);
    var p4 := p3 + tail;
    var data := p4 + cs;
    assert Encode(v) == data;
    AtEnd(p3, tail);
    AtEnd(p4, cs);
    AtGrow(p4, |p3|, tail, cs);
    AtToken(data, |p3|, tail, 0);
  }

  /** `part` stands in `data` where it stands in `tokens`. */
  lemma AtSliceAt(data: seq<Token>, start: nat, tokens: seq<Token>, lo: nat, part: seq<Token>)
    requires At(data, start, tokens) && lo + |part| <= |tokens| && tokens[lo..lo + |part|] == part
    ensures At(data, start + lo, part)
  {
    AtSlice(data, start, tokens, lo, lo + |part|);
  }

  /** The stream's length and its three counts, in terms of the numbers of windows. */
  lemma EncodedCounts(v: LayoutView)
    ensures
      var m, f, c := |v.mainWindows|, |v.floatingWindows|, |v.closedDockWidgets|;
      var data := Encode(v);
      && |data| == 3 + 4 * m + 4 * f + c
      && data[0] == IntValue(m)
      && data[1 + 4 * m] == IntValue(f)
      && data[2 + 4 * m + 4 * f] == IntValue(c)
  {
    EncodedLayout(v);
    ConcatLength(v.mainWindows, EncodeMainWindow, 4);
    ConcatLength(v.floatingWindows, EncodeFloatingWindow, 4);
    ConcatLength(v.closedDockWidgets, EncodeClosedDockWidget, 1);
  }

  /** Main window `i` is written as its name, rect, visibility and layout, after the count and
      the `i` main windows before it. */
  lemma EncodedMainWindowAt(v: LayoutView, i: nat)
    requires i < |v.mainWindows|
    ensures
      var w := v.mainWindows[i];
      At(Encode(v), 1 + 4 * i,
         [StringValue(w.name), RectValue(w.state.geometry), BoolValue(w.state.visible), PayloadValue(w.state.layout)])
  {
    var data := Encode(v);
    var w := v.mainWindows[i];
    assert At(data, 1 + 4 * i, EncodeMainWindow(w)) by {
      var ms := Concat(v.mainWindows, EncodeMainWindow);
      assert At(data, 1, ms) by {
        EncodedMainPart(v);
      }
      assert 4 * i + 4 <= |ms| && ms[4 * i..4 * i + 4] == EncodeMainWindow(w) by {
        ConcatAt(v.mainWindows, EncodeMainWindow, 4, i);
      }
      AtSliceAt(data, 1, ms, 4 * i, EncodeMainWindow(w));
    }
    assert EncodeMainWindow(w)
      == [StringValue(w.name), RectValue(w.state.geometry), BoolValue(w.state.visible), PayloadValue(w.state.layout)];
  }

  /** Floating window `j` is written as its parent index, rect, visibility and layout, after the
      main windows, the floating count and the `j` floating windows before it. */
  lemma EncodedFloatingWindowAt(v: LayoutView, j: nat)
    requires j < |v.floatingWindows|
    ensures
      var w := v.floatingWindows[j];
      At(Encode(v), 2 + 4 * |v.mainWindows| + 4 * j,
         [IntValue(w.parentIndex), RectValue(w.state.geometry), BoolValue(w.state.visible), PayloadValue(w.state.layout)])
  {
    var data := Encode(v);
    var w := v.floatingWindows[j];
    var start := 2 + 4 * |v.mainWindows|;
    assert At(data, start + 4 * j, EncodeFloatingWindow(w)) by {
      var fs := Concat(v.floatingWindows, EncodeFloatingWindow);
      assert At(data, start, fs) by {
        EncodedFloatingPart(v);
        ConcatLength(v.mainWindows, EncodeMainWindow, 4);
      }
      assert 4 * j + 4 <= |fs| && fs[4 * j..4 * j + 4] == EncodeFloatingWindow(w) by {
        ConcatAt(v.floatingWindows, EncodeFloatingWindow, 4, j);
      }
      AtSliceAt(data, start, fs, 4 * j, EncodeFloatingWindow(w));
    }
    assert EncodeFloatingWindow(w)
      == [IntValue(w.parentIndex), RectValue(w.state.geometry), BoolValue(w.state.visible), PayloadValue(w.state.layout)];
  }

  /** Closed dock widget `k` is written as its payload, last in the stream. */
  lemma EncodedClosedDockWidgetAt(v: LayoutView, k: nat)
    requires k < |v.closedDockWidgets|
    ensures 3 + 4 * |v.mainWindows| + 4 * |v.floatingWindows| + k < |Encode(v)|
    ensures Encode(v)[3 + 4 * |v.mainWindows| + 4 * |v.floatingWindows| + k] == PayloadValue(v.closedDockWidgets[k])
  {
    var data := Encode(v);
    var cs := Concat(v.closedDockWidgets, EncodeClosedDockWidget);
    var start := 3 + 4 * |v.mainWindows| + 4 * |v.floatingWindows|;
    assert At(data, start, cs) by {
      EncodedClosedPart(v);
      ConcatLength(v.mainWindows, EncodeMainWindow, 4);
      ConcatLength(v.floatingWindows, EncodeFloatingWindow, 4);
    }
    assert k < |cs| by {
      ConcatLength(v.closedDockWidgets, EncodeClosedDockWidget, 1);
    }
    AtToken(data, start, cs, k);
    assert cs[k] == PayloadValue(v.closedDockWidgets[k]) by {
      ConcatAt(v.closedDockWidgets, EncodeClosedDockWidget, 1, k);
      assert cs[k..k + 1][0] == cs[k];
    }
  }

  // ---------------------------------------------------------------------------------------
  // Reading (restoreLayout, deserializeWindowGeometry, fillFromDataStream)

  /** deserializeWindowGeometry: read a rect, then a visibility flag, and apply both. */
  function DeserializeWindowGeometryAt(s: WindowState, data: seq<Token>, pos: nat): Read<WindowState> {
    var geometry := ReadRectAt(data, pos);
    var visible := ReadBoolAt(data, geometry.next);
    Read(s.(geometry := geometry.value, visible := visible.value), visible.next)
  }

  /** deserializeWindowGeometry reads back what serializeWindowGeometry wrote: the saved rect
      and visibility, with everything else about the window kept. */
  lemma WindowGeometryRoundTrip(s: WindowState, saved: WindowState, data: seq<Token>, pos: nat)
    requires At(data, pos, EncodeWindowGeometry(saved))
    ensures DeserializeWindowGeometryAt(s, data, pos)
      == Read(s.(geometry := saved.geometry, visible := saved.visible), pos + 2)
  {
    AtToken(data, pos, EncodeWindowGeometry(saved), 0);
    AtToken(data, pos, EncodeWindowGeometry(saved), 1);
  }

  /** A window filling its layout from the stream: it fails when no payload is there. */
  datatype Fill = Fill(ok: bool, state: WindowState, next: nat)

  function FillFromDataStreamAt(s: WindowState, data: seq<Token>, pos: nat): Fill {
    var layout := ReadPayloadAt(data, pos);
    match layout.value
    case Some(p) => Fill(true, s.(layout := p), layout.next)
    case None => Fill(false, s, layout.next)
  }

  /** What `clear` leaves of the registry: every main window with an empty layout, no
      floating window and no closed dock widget. */
  function Cleared(v: LayoutView): (c: LayoutView)
    ensures Names(c.mainWindows) == Names(v.mainWindows)
    ensures c.floatingWindows == [] && c.closedDockWidgets == []
    ensures forall i :: 0 <= i < |v.mainWindows| ==>
      c.mainWindows[i].state == v.mainWindows[i].state.(layout := EmptyLayout)
  {
    var ms := v.mainWindows;
    LayoutView(
      seq(|ms|, i requires 0 <= i < |ms| => ms[i].(state := ms[i].state.(layout := EmptyLayout))),
      [], [])
  }

  datatype MainWindowsPhase = MainWindowsPhase(windows: seq<MainWindowView>, next: nat, complete: bool)

  /** One main-window record: look its name up (first match), apply its geometry, then let
      the window fill its layout. `complete` is false when the name is missing or the fill
      fails. */
  function ReadMainWindow(windows: seq<MainWindowView>, data: seq<Token>, pos: nat): (r: MainWindowsPhase)
    ensures Names(r.windows) == Names(windows)
    ensures var name := ReadStringAt(data, pos);
      var k := IndexOf(Names(windows), name.value);
      && (k < 0 ==> !r.complete && r.windows == windows)
      && (k >= 0 ==>
            (r.complete <==>
               ReadPayloadAt(data, DeserializeWindowGeometryAt(windows[k].state, data, name.next).next).value.Some?))
  {
    var name := ReadStringAt(data, pos);
    var k := IndexOf(Names(windows), name.value);
    if k < 0 then MainWindowsPhase(windows, name.next, false)
    else
      var placed := DeserializeWindowGeometryAt(windows[k].state, data, name.next);
      var fill := FillFromDataStreamAt(placed.value, data, placed.next);
      var updated := windows[k := windows[k].(state := fill.state)];
      assert Names(updated) == Names(windows) by {
        assert forall i :: 0 <= i < |windows| ==> updated[i].name == windows[i].name;
      }
      MainWindowsPhase(updated, fill.next, fill.ok)
  }

  /** Phase 1, with `remaining` main windows still to read; the first incomplete record ends
      the phase incomplete. */
  function RestoreMainWindows(windows: seq<MainWindowView>, data: seq<Token>, pos: nat, remaining: int): (r: MainWindowsPhase)
    ensures Names(r.windows) == Names(windows)
    decreases remaining
  {
    if remaining <= 0 then MainWindowsPhase(windows, pos, true)
    else
      var step := ReadMainWindow(windows, data, pos);
      if !step.complete then step
      else RestoreMainWindows(step.windows, data, step.next, remaining - 1)
  }

  datatype FloatingWindowsPhase = FloatingWindowsPhase(windows: seq<FloatingWindowView>, next: nat, invalidIndex: Option<int>)

  predicate ValidParentIndex(index: int, mainWindowCount: nat) {
    index == -1 || 0 <= index < mainWindowCount
  }

  /** One floating-window record: its parent index, which must be -1 or a main window's
      position, then a new window with that parent, placed and filled; the fill's result is
      ignored. */
  function ReadFloatingWindow(mainWindowCount: nat, windows: seq<FloatingWindowView>, data: seq<Token>, pos: nat): (r: FloatingWindowsPhase)
    ensures r.invalidIndex.None? ==>
      (|r.windows| == |windows| + 1 && r.windows[..|windows|] == windows
       && ValidParentIndex(r.windows[|windows|].parentIndex, mainWindowCount))
    ensures r.invalidIndex.Some? ==> r.windows == windows && !ValidParentIndex(r.invalidIndex.value, mainWindowCount)
  {
    var parentIndex := ReadIntAt(data, pos);
    if !ValidParentIndex(parentIndex.value, mainWindowCount) then
      FloatingWindowsPhase(windows, parentIndex.next, Some(parentIndex.value))
    else
      var placed := DeserializeWindowGeometryAt(NewWindowState, data, parentIndex.next);
      var fill := FillFromDataStreamAt(placed.value, data, placed.next);
      var created := windows + [FloatingWindowView(parentIndex.value, fill.state)];
      assert created[..|windows|] == windows;
      FloatingWindowsPhase(created, fill.next, None)
  }

  /** Phase 2, with `remaining` floating windows still to read; an invalid parent index ends
      the phase. */
  function RestoreFloatingWindows(mainWindowCount: nat, windows: seq<FloatingWindowView>, data: seq<Token>, pos: nat, remaining: int): (r: FloatingWindowsPhase)
    ensures r.invalidIndex.None? ==> |r.windows| == |windows| + (if remaining > 0 then remaining else 0)
    ensures r.invalidIndex.Some? ==> !ValidParentIndex(r.invalidIndex.value, mainWindowCount)
    ensures |windows| <= |r.windows| && r.windows[..|windows|] == windows
    ensures forall j :: |windows| <= j < |r.windows| ==> ValidParentIndex(r.windows[j].parentIndex, mainWindowCount)
    decreases remaining
  {
    if remaining <= 0 then FloatingWindowsPhase(windows, pos, None)
    else
      var step := ReadFloatingWindow(mainWindowCount, windows, data, pos);
      if step.invalidIndex.Some? then step
      else
        var r := RestoreFloatingWindows(mainWindowCount, step.windows, data, step.next, remaining - 1);
        assert r.windows[..|windows|] == r.windows[..|step.windows|][..|windows|];
        r
  }

  /** Phase 3, with `remaining` closed dock widgets still to read: each one is created from the
      stream; a missing payload creates nothing. */
  function RestoreClosedDockWidgets(closed: seq<Payload>, data: seq<Token>, pos: nat, remaining: int): (r: seq<Payload>)
    ensures |r| <= |closed| + (if remaining > 0 then remaining else 0)
    ensures |closed| <= |r| && r[..|closed|] == closed
    decreases remaining
  {
    if remaining <= 0 then closed
    else
      var widget := ReadPayloadAt(data, pos);
      var created := closed + (if widget.value.Some? then [widget.value.value] else []);
      var r := RestoreClosedDockWidgets(created, data, widget.next, remaining - 1);
      assert r[..|closed|] == r[..|created|][..|closed|];
      r
  }

  /** restoreLayout on the registry `v`: empty data is refused before anything is touched;
      otherwise the registry is cleared and the three phases run in order, the first of
      which can abort the rest. */
  function RestoreLayoutSpec(v: LayoutView, data: seq<Token>): (r: Restoration)
    ensures |data| == 0 ==> r == Restoration(Failed, v)
    ensures Names(r.layout.mainWindows) == Names(v.mainWindows)
    ensures r.outcome == Failed && |data| > 0 ==>
      r.layout.floatingWindows == [] && r.layout.closedDockWidgets == []
    ensures r.outcome != Failed ==>
      forall j :: 0 <= j < |r.layout.floatingWindows| ==>
        ValidParentIndex(r.layout.floatingWindows[j].parentIndex, |v.mainWindows|)
  {
    if |data| == 0 then Restoration(Failed, v)
    else
      var cleared := Cleared(v);
      var numMainWindows := ReadIntAt(data, 0);
      var mains := RestoreMainWindows(cleared.mainWindows, data, numMainWindows.next, numMainWindows.value);
      if !mains.complete then Restoration(Failed, cleared.(mainWindows := mains.windows))
      else
        var numFloating := ReadIntAt(data, mains.next);
        var floats := RestoreFloatingWindows(|v.mainWindows|, [], data, numFloating.next, numFloating.value);
        if floats.invalidIndex.Some? then
          Restoration(InvalidParentIndex(floats.invalidIndex.value), LayoutView(mains.windows, floats.windows, []))
        else
          var numClosed := ReadIntAt(data, floats.next);
          var closed := RestoreClosedDockWidgets([], data, numClosed.next, numClosed.value);
          Restoration(Restored, LayoutView(mains.windows, floats.windows, closed))
  }

  // ---------------------------------------------------------------------------------------
  // Round trip

  /** What the round trip needs of a saved layout: main-window names are unique and every
      recorded parent index is -1 or a position in the main-window list. */
  ghost predicate WellFormed(v: LayoutView) {
    && Distinct(Names(v.mainWindows))
    && forall j :: 0 <= j < |v.floatingWindows| ==>
         ValidParentIndex(v.floatingWindows[j].parentIndex, |v.mainWindows|)
  }

  lemma IndexOfDistinct<T>(s: seq<T>, i: nat)
    requires Distinct(s) && i < |s|
    ensures IndexOf(s, s[i]) == i
  {
  }

  /** Replacing a main window's state keeps the names. */
  lemma NamesKept(windows: seq<MainWindowView>, k: nat, w: MainWindowView)
    requires k < |windows| && w.name == windows[k].name
    ensures Names(windows[k := w]) == Names(windows)
  {
    assert forall i :: 0 <= i < |windows| ==> windows[k := w][i].name == windows[i].name;
  }

  /** Reading one main window from where its own tokens stand. */
  lemma MainWindowStep(windows: seq<MainWindowView>, data: seq<Token>, pos: nat, remaining: int, m: MainWindowView, k: int)
    requires remaining > 0 && At(data, pos, EncodeMainWindow(m))
    requires k == IndexOf(Names(windows), m.name)
    ensures k < 0 ==> RestoreMainWindows(windows, data, pos, remaining) == MainWindowsPhase(windows, pos + 1, false)
    ensures 0 <= k < |windows| ==>
      (RestoreMainWindows(windows, data, pos, remaining)
       == RestoreMainWindows(windows[k := windows[k].(state := m.state)], data, pos + 4, remaining - 1))
  {
    var tokens := EncodeMainWindow(m);
    AtToken(data, pos, tokens, 0);
    AtToken(data, pos, tokens, 1);
    AtToken(data, pos, tokens, 2);
    AtToken(data, pos, tokens, 3);
    assert ReadMainWindow(windows, data, pos) == if k < 0 then MainWindowsPhase(windows, pos + 1, false)
      else MainWindowsPhase(windows[k := windows[k].(state := m.state)], pos + 4, true);
  }

  /** Reading one floating window from where its own tokens stand. */
  lemma FloatingWindowStep(mainWindowCount: nat, windows: seq<FloatingWindowView>, data: seq<Token>, pos: nat, remaining: int, f: FloatingWindowView)
    requires remaining > 0 && At(data, pos, EncodeFloatingWindow(f))
    requires ValidParentIndex(f.parentIndex, mainWindowCount)
    ensures RestoreFloatingWindows(mainWindowCount, windows, data, pos, remaining)
      == RestoreFloatingWindows(mainWindowCount, windows + [f], data, pos + 4, remaining - 1)
  {
    var tokens := EncodeFloatingWindow(f);
    AtToken(data, pos, tokens, 0);
    AtToken(data, pos, tokens, 1);
    AtToken(data, pos, tokens, 2);
    AtToken(data, pos, tokens, 3);
  }

  /** Reading the next saved main window into a list that already carries the saved names. */
  lemma SavedMainWindowStep(windows: seq<MainWindowView>, saved: seq<MainWindowView>, done: nat, data: seq<Token>, pos: nat, remaining: int)
    requires done < |saved| == |windows| && remaining == |saved| - done
    requires Names(windows) == Names(saved) && Distinct(Names(saved))
    requires windows[..done] == saved[..done]
    requires At(data, pos, EncodeMainWindow(saved[done]))
    ensures RestoreMainWindows(windows, data, pos, remaining)
      == RestoreMainWindows(windows[done := saved[done]], data, pos + 4, remaining - 1)
    ensures Names(windows[done := saved[done]]) == Names(saved)
    ensures windows[done := saved[done]][..done + 1] == saved[..done + 1]
  {
    var m := saved[done];
    var names := Names(saved);
    IndexOfDistinct(names, done);
    assert names[done] == m.name;
    MainWindowStep(windows, data, pos, remaining, m, done);
    assert Names(windows)[done] == windows[done].name;
    assert windows[done].(state := m.state) == m;
    NamesKept(windows, done, m);
    assert windows[done := m][..done + 1] == windows[..done] + [m];
  }

  lemma {:induction false} RestoreEncodedMainWindows(windows: seq<MainWindowView>, saved: seq<MainWindowView>, done: nat, data: seq<Token>, pos: nat, remaining: int)
    requires done <= |saved| == |windows| && remaining == |saved| - done
    requires Names(windows) == Names(saved) && Distinct(Names(saved))
    requires windows[..done] == saved[..done]
    requires At(data, pos, Concat(saved[done..], EncodeMainWindow))
    ensures RestoreMainWindows(windows, data, pos, remaining)
      == MainWindowsPhase(saved, pos + |Concat(saved[done..], EncodeMainWindow)|, true)
    decreases |saved| - done
  {
    if done == |saved| {
      assert windows == windows[..done] && saved == saved[..done];
    } else {
      AtConcatFrom(data, pos, saved, done, EncodeMainWindow);
      SavedMainWindowStep(windows, saved, done, data, pos, remaining);
      RestoreEncodedMainWindows(windows[done := saved[done]], saved, done + 1, data, pos + 4, remaining - 1);
    }
  }

  lemma {:induction false} RestoreEncodedFloatingWindows(mainWindowCount: nat, restored: seq<FloatingWindowView>, saved: seq<FloatingWindowView>, done: nat, data: seq<Token>, pos: nat, remaining: int)
    requires done <= |saved| && restored == saved[..done] && remaining == |saved| - done
    requires forall j :: 0 <= j < |saved| ==> ValidParentIndex(saved[j].parentIndex, mainWindowCount)
    requires At(data, pos, Concat(saved[done..], EncodeFloatingWindow))
    ensures RestoreFloatingWindows(mainWindowCount, restored, data, pos, remaining)
      == FloatingWindowsPhase(saved, pos + |Concat(saved[done..], EncodeFloatingWindow)|, None)
    decreases |saved| - done
  {
    if done == |saved| {
      assert saved[..done] == saved;
    } else {
      var f := saved[done];
      AtConcatFrom(data, pos, saved, done, EncodeFloatingWindow);
      FloatingWindowStep(mainWindowCount, restored, data, pos, remaining, f);
      PrefixGrows(saved, done);
      RestoreEncodedFloatingWindows(mainWindowCount, restored + [f], saved, done + 1, data, pos + 4, remaining - 1);
    }
  }

  lemma {:induction false} RestoreEncodedClosedDockWidgets(restored: seq<Payload>, saved: seq<Payload>, done: nat, data: seq<Token>, pos: nat, remaining: int)
    requires done <= |saved| && restored == saved[..done] && remaining == |saved| - done
    requires At(data, pos, Concat(saved[done..], EncodeClosedDockWidget))
    ensures RestoreClosedDockWidgets(restored, data, pos, remaining) == saved
    decreases |saved| - done
  {
    if done == |saved| {
      assert saved[..done] == saved;
    } else {
      AtConcatFrom(data, pos, saved, done, EncodeClosedDockWidget);
      AtToken(data, pos, EncodeClosedDockWidget(saved[done]), 0);
      PrefixGrows(saved, done);
      RestoreEncodedClosedDockWidgets(restored + [saved[done]], saved, done + 1, data, pos + 1, remaining - 1);
    }
  }

  /** A restore whose three phases all complete. */
  lemma RestoredByPhases(v: LayoutView, data: seq<Token>, mains: MainWindowsPhase, floats: FloatingWindowsPhase, closed: seq<Payload>, numFloating: Read<int>, numClosed: Read<int>)
    requires |data| > 0
    requires mains == RestoreMainWindows(Cleared(v).mainWindows, data, ReadIntAt(data, 0).next, ReadIntAt(data, 0).value)
    requires mains.complete && numFloating == ReadIntAt(data, mains.next)
    requires floats == RestoreFloatingWindows(|v.mainWindows|, [], data, numFloating.next, numFloating.value)
    requires floats.invalidIndex.None? && numClosed == ReadIntAt(data, floats.next)
    requires closed == RestoreClosedDockWidgets([], data, numClosed.next, numClosed.value)
    ensures RestoreLayoutSpec(v, data) == Restoration(Restored, LayoutView(mains.windows, floats.windows, closed))
  {
  }

  /** Restoring what was serialized gives back exactly the saved layout, whatever the registry
      held before, provided the live main windows carry the saved names in the saved order:
      every main window gets its saved geometry, visibility and layout, every floating window
      is recreated with its positional parent, and every closed dock widget is recreated. */
  lemma RoundTrip(saved: LayoutView, live: LayoutView)
    requires WellFormed(saved)
    requires Names(live.mainWindows) == Names(saved.mainWindows)
    ensures RestoreLayoutSpec(live, Encode(saved)) == Restoration(Restored, saved)
  {
    EncodedLayout(saved);
    var floatingAt := 1 + |Concat(saved.mainWindows, EncodeMainWindow)|;
    RestoreLaidOut(saved, live, Encode(saved), floatingAt, floatingAt + 1 + |Concat(saved.floatingWindows, EncodeFloatingWindow)|);
  }

  /** The round trip over any token sequence laid out as `saved` is encoded, with the
      floating-window count at `floatingAt` and the closed-dock-widget count at `closedAt`. */
  lemma RestoreLaidOut(saved: LayoutView, live: LayoutView, data: seq<Token>, floatingAt: nat, closedAt: nat)
    requires WellFormed(saved)
    requires Names(live.mainWindows) == Names(saved.mainWindows)
    requires 0 < |data| && data[0] == IntValue(|saved.mainWindows|)
    requires At(data, 1, Concat(saved.mainWindows, EncodeMainWindow))
    requires floatingAt == 1 + |Concat(saved.mainWindows, EncodeMainWindow)|
    requires floatingAt < |data| && data[floatingAt] == IntValue(|saved.floatingWindows|)
    requires At(data, floatingAt + 1, Concat(saved.floatingWindows, EncodeFloatingWindow))
    requires closedAt == floatingAt + 1 + |Concat(saved.floatingWindows, EncodeFloatingWindow)|
    requires closedAt < |data| && data[closedAt] == IntValue(|saved.closedDockWidgets|)
    requires At(data, closedAt + 1, Concat(saved.closedDockWidgets, EncodeClosedDockWidget))
    ensures RestoreLayoutSpec(live, data) == Restoration(Restored, saved)
  {
    var m, f, c := saved.mainWindows, saved.floatingWindows, saved.closedDockWidgets;
    MainWindowsLaidOut(live, m, data);
    assert |live.mainWindows| == |m| by {
      assert |live.mainWindows| == |Names(live.mainWindows)|;
    }
    FloatingWindowsLaidOut(|live.mainWindows|, f, data, floatingAt);
    ClosedDockWidgetsLaidOut(c, data, closedAt);
    RestoredByPhases(live, data, MainWindowsPhase(m, floatingAt, true), FloatingWindowsPhase(f, closedAt, None), c,
      ReadIntAt(data, floatingAt), ReadIntAt(data, closedAt));
  }

  /** The main-window phase over the tokens of `m` restores exactly `m`. */
  lemma MainWindowsLaidOut(live: LayoutView, m: seq<MainWindowView>, data: seq<Token>)
    requires Names(live.mainWindows) == Names(m) && Distinct(Names(m))
    requires 0 < |data| && data[0] == IntValue(|m|) && At(data, 1, Concat(m, EncodeMainWindow))
    ensures RestoreMainWindows(Cleared(live).mainWindows, data, ReadIntAt(data, 0).next, ReadIntAt(data, 0).value)
      == MainWindowsPhase(m, 1 + |Concat(m, EncodeMainWindow)|, true)
  {
    assert m[0..] == m;
    var cleared := Cleared(live).mainWindows;
    assert |cleared| == |Names(cleared)| == |Names(m)| == |m|;
    RestoreEncodedMainWindows(cleared, m, 0, data, 1, |m|);
  }

  /** The floating-window phase over a count and the tokens of `f` restores exactly `f`. */
  lemma FloatingWindowsLaidOut(mainWindowCount: nat, f: seq<FloatingWindowView>, data: seq<Token>, at: nat)
    requires forall j :: 0 <= j < |f| ==> ValidParentIndex(f[j].parentIndex, mainWindowCount)
    requires at < |data| && data[at] == IntValue(|f|) && At(data, at + 1, Concat(f, EncodeFloatingWindow))
    ensures RestoreFloatingWindows(mainWindowCount, [], data, ReadIntAt(data, at).next, ReadIntAt(data, at).value)
      == FloatingWindowsPhase(f, at + 1 + |Concat(f, EncodeFloatingWindow)|, None)
  {
    assert f[0..] == f && f[..0] == [];
    RestoreEncodedFloatingWindows(mainWindowCount, [], f, 0, data, at + 1, |f|);
  }

  /** The closed-dock-widget phase over a count and the tokens of `c` restores exactly `c`. */
  lemma ClosedDockWidgetsLaidOut(c: seq<Payload>, data: seq<Token>, at: nat)
    requires at < |data| && data[at] == IntValue(|c|) && At(data, at + 1, Concat(c, EncodeClosedDockWidget))
    ensures RestoreClosedDockWidgets([], data, ReadIntAt(data, at).next, ReadIntAt(data, at).value) == c
  {
    assert c[0..] == c && c[..0] == [];
    RestoreEncodedClosedDockWidgets([], c, 0, data, at + 1, |c|);
  }

  lemma {:induction false} RestoreEncodedMissingName(windows: seq<MainWindowView>, saved: seq<MainWindowView>, done: nat, missing: nat, data: seq<Token>, pos: nat, remaining: int)
    requires done <= missing < |saved| && remaining == |saved| - done
    requires saved[missing].name !in Names(windows)
    requires At(data, pos, Concat(saved[done..], EncodeMainWindow))
    ensures !RestoreMainWindows(windows, data, pos, remaining).complete
    decreases missing - done
  {
    var m := saved[done];
    AtConcatFrom(data, pos, saved, done, EncodeMainWindow);
    var k := IndexOf(Names(windows), m.name);
    MainWindowStep(windows, data, pos, remaining, m, k);
    if k >= 0 {
      assert done < missing by {
        assert m.name in Names(windows);
      }
      var updated := windows[k := windows[k].(state := m.state)];
      NamesKept(windows, k, windows[k].(state := m.state));
      RestoreEncodedMissingName(updated, saved, done + 1, missing, data, pos + 4, remaining - 1);
    }
  }

  /** A restore whose main-window phase does not complete. */
  lemma FailedByMainWindows(v: LayoutView, data: seq<Token>, mains: MainWindowsPhase)
    requires |data| > 0
    requires mains == RestoreMainWindows(Cleared(v).mainWindows, data, ReadIntAt(data, 0).next, ReadIntAt(data, 0).value)
    requires !mains.complete
    ensures RestoreLayoutSpec(v, data) == Restoration(Failed, Cleared(v).(mainWindows := mains.windows))
  {
  }

  /** A first main-window record whose window is found but whose layout payload is missing
      makes the restore fail before any floating window or closed dock widget is read. */
  lemma FillFailureAborts(v: LayoutView, data: seq<Token>)
    requires |data| > 0 && ReadIntAt(data, 0).value > 0
    requires var windows := Cleared(v).mainWindows;
      var name := ReadStringAt(data, ReadIntAt(data, 0).next);
      var k := IndexOf(Names(windows), name.value);
      k >= 0 && ReadPayloadAt(data, DeserializeWindowGeometryAt(windows[k].state, data, name.next).next).value.None?
    ensures RestoreLayoutSpec(v, data).outcome == Failed
    ensures RestoreLayoutSpec(v, data).layout.floatingWindows == []
    ensures RestoreLayoutSpec(v, data).layout.closedDockWidgets == []
  {
    var count := ReadIntAt(data, 0);
    var mains := RestoreMainWindows(Cleared(v).mainWindows, data, count.next, count.value);
    FailedByMainWindows(v, data, mains);
  }

  /** A saved main-window name that no live main window carries makes the restore fail, and
      the floating-window and closed-dock-widget phases never run. */
  lemma MissingMainWindowAborts(saved: LayoutView, live: LayoutView, missing: nat)
    requires missing < |saved.mainWindows|
    requires saved.mainWindows[missing].name !in Names(live.mainWindows)
    ensures RestoreLayoutSpec(live, Encode(saved)).outcome == Failed
    ensures RestoreLayoutSpec(live, Encode(saved)).layout.floatingWindows == []
    ensures RestoreLayoutSpec(live, Encode(saved)).layout.closedDockWidgets == []
  {
    var data := Encode(saved);
    EncodedLayout(saved);
    assert saved.mainWindows[0..] == saved.mainWindows;
    var cleared := Cleared(live);
    RestoreEncodedMissingName(cleared.mainWindows, saved.mainWindows, 0, missing, data, 1, |saved.mainWindows|);
    FailedByMainWindows(live, data, RestoreMainWindows(cleared.mainWindows, data, 1, |saved.mainWindows|));
  }
}
