# KDDockWidgets layout saving and the QtQuick floating window, in Dafny

This project models two parts of KDDockWidgets, a Qt docking framework.

**The layout saver** (`LayoutSaver`). It writes the dock registry's layout to a stream and
restores it from one:
- the main windows, each by name, with its geometry, visibility and own layout content;
- the floating windows, each with the position of its parent main window;
- the closed dock widgets.

It also keeps that stream in the application's settings and raises a process-wide
"restore in progress" flag while a restore from disk runs.

The imperative code keeps its form:
- The registry, its windows, the stream, the settings store and the flag are classes. Their
  fields are updated in place.
- Serialization and restoration are methods with counted loops.

Each method is proved against a pure specification:
- `Encode` states what serialization writes.
- `RestoreLayoutSpec` states what restoration does, phase by phase, to an abstract view of
  the registry.

The lemmas about those functions state what the saver guarantees:
- the order and the positions of the stream's parts;
- the round trip: restoring what was saved gives back the saved layout;
- a restore aborts when a saved main-window name has no live match;
- the parent-index rules.

**The QtQuick floating window** (`FloatingWindowQuick`). Modelled are:
- its minimum size: the content minimum plus the title-bar height;
- the clamping of requested geometries to that minimum;
- the choice of its window's transient and cleanup parents in `init`;
- the visibility handler that schedules its deletion.

A behaviour worth knowing is modelled as the code has it. On a registry that fails its own
sanity check, `serializeLayout` returns empty data. `saveToDisk` then still stores that
empty data and reports success. A later `restoreFromDisk` therefore fails.
`SaveRestore.LayoutSaver.SaveToDisk` states this case.

Files:
- `geometry.dfy`: sizes and rectangles.
- `wrappers.dfy`: `Option`.
- `data_stream.dfy`: the token stream and its reads.
- `layout_format.dfy`: the stream format, the restore specification and the round-trip lemmas.
- `dock_registry.dfy`: windows and the registry.
- `layout_saver.dfy`: the saver and the settings.
- `floating_window_quick.dfy`: the QtQuick floating window.

## Model

| member | source | states |
|---|---|---|
| SaveRestore.LayoutKey | src/LayoutSaver.cpp:215-222 | The layout is kept under the application's organization and name, in group `KDDockWidgets::LayoutSaver`, key `data`. |
| SaveRestore.Settings.Value | src/LayoutSaver.cpp:90 | A key never written reads as empty data; a written key reads back what was stored. |
| SaveRestore.Settings.SetValue | src/LayoutSaver.cpp:84 | The data is stored under the key, and every other key keeps its value. |
| SaveRestore.LayoutSaver.SaveToDisk | src/LayoutSaver.cpp:75-86 | Saves exactly when both the organization and the application name are non-empty. When it refuses, the store and the registry are untouched. Otherwise the layout key, and only it, now holds the serialized layout (empty for an insane registry). The registry keeps its main-window, floating-window and closed-dock-widget objects and its sanity flag, so its modelled view is unchanged either way; this holds only because floating dock widgets are not modelled (see Left out). |
| SaveRestore.LayoutSaver.RestoreFromDisk | src/LayoutSaver.cpp:88-96 | The outcome and the new registry are those of restoring the data stored under the layout key. The restore-in-progress flag is raised when the restore runs: `RestoreLayout` itself observes it raised. It is lowered afterwards, whatever the outcome. |
| SaveRestore.LayoutSaver.SerializeLayout | src/LayoutSaver.cpp:98-143 | An insane registry yields empty data and is not touched. A sane one is morphed first, and the result is `Encode` of its view after morphing. The registry keeps its main-window, floating-window and closed-dock-widget objects and its sanity flag, so the modelled view does not change, because floating dock widgets are not modelled (see Left out). |
| SaveRestore.LayoutSaver.WriteMainWindows | src/LayoutSaver.cpp:111-117 | The loop writes, for every main window in registry order, its name, geometry, visibility and content. |
| SaveRestore.LayoutSaver.WriteFloatingWindows | src/LayoutSaver.cpp:119-131 | The loop writes, for every floating window, its parent's index in the main-window list (-1 for none), its geometry, visibility and content. |
| SaveRestore.LayoutSaver.WriteClosedDockWidgets | src/LayoutSaver.cpp:133-138 | The loop writes every closed dock widget's content in order. |
| SaveRestore.LayoutSaver.RestoreLayout | src/LayoutSaver.cpp:145-197 | The outcome and the new registry view are exactly `RestoreLayoutSpec` of the old view and the data. The main-window list, the sanity and morphed flags are kept and the registry stays valid. The restore-in-progress flag it observes is the caller's. After non-empty data, each floating window's parent is the main window its recorded index names, or none for -1. |
| SaveRestore.LayoutSaver.RestoreClearedFrom | src/LayoutSaver.cpp:155-196 | Reads the three phases from the start of non-empty data into a just-cleared registry. The outcome and the new view are `RestoreLayoutSpec` of the view before clearing. The main-window list and the sanity and morphed flags are kept. |
| SaveRestore.LayoutSaver.RestoreMainWindowsFrom | src/LayoutSaver.cpp:155-172 | Reads the count, then that many main-window records, as `RestoreMainWindows` says. It reports whether every record completed and leaves the cursor where the phase ends. |
| SaveRestore.LayoutSaver.RestoreMainWindowFrom | src/LayoutSaver.cpp:159-171 | One main-window record, as `ReadMainWindow` says: a name with no match stops; otherwise that window takes the geometry and visibility read, then fills its layout. |
| SaveRestore.LayoutSaver.RestoreFloatingWindowsFrom | src/LayoutSaver.cpp:174-187 | Reads the count, then that many floating-window records, as `RestoreFloatingWindows` says. The main windows and the closed dock widgets are untouched. |
| SaveRestore.LayoutSaver.RestoreFloatingWindowFrom | src/LayoutSaver.cpp:179-186 | One floating-window record, as `ReadFloatingWindow` says: an index that is neither -1 nor a main window's position stops; otherwise exactly one window is created with that parent, placed and filled. |
| SaveRestore.LayoutSaver.RestoreClosedDockWidgetsFrom | src/LayoutSaver.cpp:189-194 | Reads the count, then creates one closed dock widget per record whose content is present, as `RestoreClosedDockWidgets` says. |
| SaveRestore.LayoutSaver.DeserializeWindowGeometry | src/LayoutSaver.cpp:205-213 | Reads a rect and then a flag, and applies them as the window's geometry and visibility, as `DeserializeWindowGeometryAt` says. |
| DockRegistry.Window.FillFromDataStream | src/LayoutSaver.cpp:170 | The window takes the content at the cursor and succeeds; with no content there it fails and keeps its own. |
| DockRegistry.Window.SetGeometry | src/LayoutSaver.cpp:211 | The window takes the rect as its geometry; its visibility and content are kept. |
| DockRegistry.Window.SetVisible | src/LayoutSaver.cpp:212 | The window takes the flag as its visibility; its geometry and content are kept. |
| DockRegistry.Registry.ParentIndex | src/LayoutSaver.cpp:123-125 | The index is non-negative exactly when the window's parent is a registered main window, and then it is that main window's position. Otherwise it is -1. |
| DockRegistry.Registry.ViewWellFormed | src/LayoutSaver.cpp:119-131 | Every parent index a registry records is -1 or a main window's position, so unique main-window names make its view restorable. |
| DockRegistry.Registry.MainWindowByName | src/LayoutSaver.cpp:162 | The result is the first main window with the given name, or null when none has it. |
| DockRegistry.Registry.Clear | src/LayoutSaver.cpp:152-153 | Afterwards the view is `Cleared` of the old one: no floating windows, every main window with empty content, and an empty list of the closed dock widgets the restore recreates. The sanity and morphed flags are kept. |
| DockRegistry.Registry.CreateFloatingWindow | src/LayoutSaver.cpp:184 | A new floating window with the given parent and the initial state is appended to the floating-window list. Nothing else changes. |
| DockRegistry.Registry.CreateDockWidgetFromDataStream | src/LayoutSaver.cpp:193 | Appends the closed dock widget whose content is at the cursor, if there is one. |
| DockRegistry.Registry.EnsureAllFloatingWidgetsAreMorphed | src/LayoutSaver.cpp:108-109 | Records that the registry has been morphed. The modelled view is unchanged: floating dock widgets, which the program turns into floating windows here, are not modelled (see Left out). |
| DataStreams.DataStream.ReadInt | src/LayoutSaver.cpp:157 | Reads an integer at the cursor, as `ReadIntAt` says: the integer and one step on, or 0 and the end of the stream when none is there. The tokens are kept. |
| DataStreams.DataStream.ReadString | src/LayoutSaver.cpp:160 | Reads a string at the cursor, as `ReadStringAt` says, with the empty string as the default. |
| DataStreams.DataStream.ReadRect | src/LayoutSaver.cpp:209 | Reads a rect at the cursor, as `ReadRectAt` says, with the null rect as the default. |
| DataStreams.DataStream.ReadBool | src/LayoutSaver.cpp:210 | Reads a flag at the cursor, as `ReadBoolAt` says, with false as the default. |
| DataStreams.DataStream.ReadPayload | src/LayoutSaver.cpp:170 | Reads a window's content at the cursor, as `ReadPayloadAt` says; none there is reported as no content. |
| LayoutFormat.IndexOf | src/LayoutSaver.cpp:124 | The result is the first position holding the element, or -1 exactly when the element is absent. |
| LayoutFormat.EncodeWindowGeometry | src/LayoutSaver.cpp:199-203 | Shape only: a window geometry is two tokens, a rect token then a bool token. That they carry this window's rect and visibility is stated by `WindowGeometryRoundTrip` and the `Encoded…At` lemmas. |
| LayoutFormat.EncodeMainWindow | src/LayoutSaver.cpp:113-116 | Shape only: a main-window record is four tokens, led by the window's name and ended by a payload token. The geometry and layout values it carries are stated by `EncodedMainWindowAt`. |
| LayoutFormat.EncodeFloatingWindow | src/LayoutSaver.cpp:121-130 | Shape only: a floating-window record is four tokens, led by the parent's index and ended by a payload token. The geometry and layout values it carries are stated by `EncodedFloatingWindowAt`. |
| LayoutFormat.Encode | src/LayoutSaver.cpp:111-138 | The stream holds at least the three counts and starts with the main-window count. Its exact length and the positions of its parts are stated by `EncodedCounts` and `EncodedLayout`. |
| LayoutFormat.EncodedLayout | src/LayoutSaver.cpp:111-138 | The stream holds, in order: the main-window count and the main-window records, the floating count and the floating records, the closed count and the closed records, and nothing after them. |
| LayoutFormat.EncodedCounts | src/LayoutSaver.cpp:111-135 | The stream's length and where its three counts lie, given the numbers of windows. |
| LayoutFormat.EncodedMainWindowAt | src/LayoutSaver.cpp:113-117 | Main window `i` is recorded at `1 + 4i` as its name, rect, visibility and content. |
| LayoutFormat.EncodedFloatingWindowAt | src/LayoutSaver.cpp:121-131 | Floating window `j` is recorded after the main windows and the floating count, as its parent index, rect, visibility and content. |
| LayoutFormat.EncodedClosedDockWidgetAt | src/LayoutSaver.cpp:134-138 | Closed dock widget `k` is recorded after the floating windows and the closed count. |
| LayoutFormat.WindowGeometryRoundTrip | src/LayoutSaver.cpp:199-213 | Reading a window geometry restores the rect and visibility that were written, and keeps the window's content. |
| LayoutFormat.Cleared | src/LayoutSaver.cpp:152-153 | Clearing keeps the main-window names and their geometry, empties each main window's content, and drops all floating windows. The closed-dock-widget list, which stands for the closed dock widgets phase 3 recreates, starts empty. |
| LayoutFormat.ReadMainWindow | src/LayoutSaver.cpp:159-171 | A main-window record keeps the list of main-window names. A name with no match leaves the windows unchanged and the record incomplete. For a matching name, the record completes exactly when a layout payload follows the window's geometry. |
| LayoutFormat.RestoreMainWindows | src/LayoutSaver.cpp:155-172 | The main-window phase keeps the list of main-window names. |
| LayoutFormat.ReadFloatingWindow | src/LayoutSaver.cpp:179-186 | A floating-window record either stops on an invalid parent index, creating nothing, or appends exactly one window whose parent index is valid. |
| LayoutFormat.RestoreFloatingWindows | src/LayoutSaver.cpp:174-187 | The windows the phase creates extend the ones already there. Each has a valid parent index. A phase that is not stopped creates exactly the counted number. |
| LayoutFormat.RestoreClosedDockWidgets | src/LayoutSaver.cpp:189-194 | The phase extends the closed dock widgets by at most the counted number. |
| LayoutFormat.RestoreLayoutSpec | src/LayoutSaver.cpp:145-197 | Empty data fails and changes nothing. Main-window names are always kept. A failure on non-empty data leaves no floating windows and no recreated closed dock widgets. Whenever the main-window phase completes, every created floating window has a valid parent index. |
| LayoutFormat.RestoreEncodedMainWindows | src/LayoutSaver.cpp:158-172 | Reading the saved main-window records into main windows with the saved names, all distinct, completes and yields exactly the saved main windows. |
| LayoutFormat.RestoreEncodedFloatingWindows | src/LayoutSaver.cpp:177-187 | Reading saved floating-window records with valid parent indices recreates exactly the saved floating windows. |
| LayoutFormat.RestoreEncodedClosedDockWidgets | src/LayoutSaver.cpp:190-194 | Reading the saved closed-dock-widget records recreates exactly the saved closed dock widgets. |
| LayoutFormat.RestoredByPhases | src/LayoutSaver.cpp:174-196 | Once the main-window phase completes, the outcome is success whatever the floating and closed phases read, unless a parent index is invalid. |
| LayoutFormat.RoundTrip | src/LayoutSaver.cpp:98-197 | For every well-formed saved layout and live main windows with the saved names, restoring the serialized layout succeeds and yields exactly the saved layout. |
| LayoutFormat.RestoreLaidOut | src/LayoutSaver.cpp:145-197 | The same round trip, over any data laid out as the serializer writes it. |
| LayoutFormat.MainWindowsLaidOut | src/LayoutSaver.cpp:155-172 | The main-window phase over saved records restores exactly the saved main windows. |
| LayoutFormat.FloatingWindowsLaidOut | src/LayoutSaver.cpp:174-187 | The floating-window phase over saved records restores exactly the saved floating windows. |
| LayoutFormat.ClosedDockWidgetsLaidOut | src/LayoutSaver.cpp:189-194 | The closed-dock-widget phase over saved records restores exactly the saved closed dock widgets. |
| LayoutFormat.RestoreEncodedMissingName | src/LayoutSaver.cpp:158-166 | When a saved main window's name is missing from the live ones, the main-window phase does not complete. |
| LayoutFormat.FailedByMainWindows | src/LayoutSaver.cpp:163-171 | An incomplete main-window phase makes the whole restore fail. The later phases then never run. |
| LayoutFormat.FillFailureAborts | src/LayoutSaver.cpp:170-171 | When the first main-window record names a live window but no layout payload follows its geometry, the restore fails and creates no floating windows and no closed dock widgets. |
| LayoutFormat.MissingMainWindowAborts | src/LayoutSaver.cpp:162-166 | Restoring a saved layout with a main-window name no live window has fails and creates no floating windows and no closed dock widgets. |
| Geometry.Size.ExpandedTo | src/private/quick/FloatingWindowQuick.cpp:81 | The result is at least both sizes in each dimension, and each component is one of the two inputs. |
| FloatingWindowQuick.CandidateParentWindow | src/private/quick/FloatingWindowQuick.cpp:87-94 | There is a candidate parent window exactly when the QObject parent is a main window that is in a window; it is then that window. |
| FloatingWindowQuick.ClampedGeometry | src/private/quick/FloatingWindowQuick.cpp:78-81 | The position is kept. The size is at least both the request and the minimum, and each dimension is one of the two. A request already at the minimum or above is kept unchanged. |
| FloatingWindowQuick.ClampIsLeast | src/private/quick/FloatingWindowQuick.cpp:81 | Any size at least the request and the minimum is at least the clamped size, so the clamp is their component-wise maximum. |
| FloatingWindowQuick.ClampIdempotent | src/private/quick/FloatingWindowQuick.cpp:81 | Clamping twice gives the same geometry as clamping once. |
| FloatingWindowQuick.FloatingWindow.MinimumSize | src/private/quick/FloatingWindowQuick.cpp:71-76 | The minimum size has the content's minimum width, and its height plus the title-bar height. |
| FloatingWindowQuick.FloatingWindow.constructor | src/private/quick/FloatingWindowQuick.cpp:96-121 | The window and its root item are sized to the minimum size. The transient and cleanup parents are both the candidate parent window when there is one, and neither is set otherwise. The window's object name says which case holds. |
| FloatingWindowQuick.FloatingWindow.SetGeometry | src/private/quick/FloatingWindowQuick.cpp:78-85 | The window's new geometry is the clamped request, and the root item takes exactly its size, so the window is `Valid`. The parents and the name do not change. |
| FloatingWindowQuick.FloatingWindow.ScheduleDeleteLater | src/private/quick/FloatingWindowQuick.cpp:100 | One more deletion is scheduled and the visibility is kept; the being-deleted flag is left unconstrained (see Left out). |
| FloatingWindowQuick.FloatingWindow.OnVisibleChanged | src/private/quick/FloatingWindowQuick.cpp:98-102 | One deletion is scheduled exactly when the window is hidden and not already being deleted; otherwise none is and nothing changes. |
| FloatingWindowQuick.FloatingWindow.SetVisible | src/private/quick/FloatingWindowQuick.cpp:98 | A change of visibility runs the handler, so hiding a window that is not being deleted schedules exactly one deletion, and nothing else schedules one. Validity is unaffected. |

## Left out

- The binary encoding of `QDataStream`. The stream is a sequence of typed tokens. A read that finds no token of the kind it expects yields that kind's default value and leaves the cursor at the end. This stands for Qt's stream status, which makes every later read yield defaults.
- The `qWarning` diagnostics (src/LayoutSaver.cpp:78, 101 and 164). They only write to the log; the refusal, the empty serialization and the failed restore they accompany are modelled.
- Integer widths. The counts and indices written are unbounded integers, not 32-bit `int`s.
- A recorded parent index outside the main-window list. The source indexes the list with it, which is undefined behaviour. The model stops the restore there with the outcome `InvalidParentIndex`.
- `QSettings` and `qApp`. The store is a map from (organization, application, group, key) to data. The organization and application names are parameters.
- What a window or dock widget writes of itself and reads back (`<<` of a window, `fillFromDataStream`, `DockWidget::createFromDataStream`). Each is an opaque payload token. Filling fails exactly when no payload is at the cursor.
- The registry's internals: `isSane`, `ensureAllFloatingWidgetsAreMorphed`, `clear`, `mainWindowByName`, and self-registration of new floating windows. Each is modelled by its effect on the registry's lists and flags.
- EnsureAllFloatingWidgetsAreMorphed: floating dock widgets, which float on their own outside any floating window, are not modelled. In the program morphing wraps each in a new floating window, which serialization then writes. Here morphing only sets a flag. So the clauses of `SerializeLayout` and `SaveToDisk` that keep the view unchanged hold only because the model has no such dock widgets.
- Clear: in the program, clearing hides every dock widget and unparents it from its layout, so every dock widget is closed afterwards. The model's closed-dock-widget list stands only for the closed dock widgets that phase 3 recreates from the stream, so clearing empties it. A restore that fails after clearing therefore leaves every dock widget closed in the program, which the model does not show.
- Cleared: the same holds for the specification of clearing. Its empty closed-dock-widget list means that no closed dock widget has been recreated yet, not that no dock widget is closed.
- In-place update during restore. It holds for the windows themselves, but each loop body is a method of its own (`RestoreMainWindowFrom`, `RestoreFloatingWindowFrom`), and the three phases after clearing form the method `RestoreClearedFrom`.
- Serialization's stream object. It is written as a token sequence built in three loop methods.
- RestoreLayout (SaveRestore.LayoutSaver.RestoreLayout): does not state that the floating windows it creates are new objects; it states their parents and views only.
- The registry keeps a floating window's parent null or a main window, as an invariant. A floating window whose parent widget is of another kind is not modelled.
- The QtQuick window's focus-event override, its QML item creation, `setFlags`, `show`, `setResizeMode`, and the destructor. These are Qt plumbing with no behaviour stated here.
- `QWidgetAdapter::setParent` and `makeItemFillParent` (src/private/quick/FloatingWindowQuick.cpp:123-124). The floating window's parent item is taken to be its window's root content item, so `setGeometry` sizes that item.
- `scheduleDeleteLater` and `beingDeleted`. Their definitions are not part of this model. Scheduling is counted, `beingDeleted` is a flag, and the event-loop timing of `deleteLater` is not modelled.
- ScheduleDeleteLater: whether scheduling a deletion marks the window as being deleted is defined outside this model, so its contract leaves the flag unconstrained afterwards. Hence the model does not promise that hiding, showing and hiding again schedules only one deletion, which the `!beingDeleted()` guard at src/private/quick/FloatingWindowQuick.cpp:99 suggests.
- The value of `TitleBarHeight`. Its definition is not part of this model, so it is a constructor parameter. The multi-splitter's minimum size is fixed for the life of the model object.
- src/QWidgetAdapter.h: compile-time selection between the widget and QtQuick backends, plus a one-line minimized check.
