# Irrigation editor: the map editing session

The irrigation editor's browser script lets a user do two things on a Leaflet map:

- place draggable "water point" (`pointsEau`) markers;
- trace polygon "zones" by clicking vertices and double-clicking to close the trace.

This project models the editing state behind those gestures. The state is:

- the `drawing` flag;
- the pending trace `currentPolygon`, a list of `[lat, lng]` pairs;
- the committed `zones`, each `{id, coords}`;
- the `pointsEau` list of `{lat, lng}` records.

The model proves what each event handler does to that state, and what any sequence of events preserves.

Files:

- `coordinates.dfy` (module `Coordinates`) holds these pieces:
  - the `{lat, lng}` record and the `[lat, lng]` pair;
  - the pair-to-record conversion used when a zone is committed;
  - the `findIndex` lookup used by the drag handler.

  Latitudes and longitudes are only stored and compared with `===`. So the number type is a type parameter `N` that has equality and nothing else.
- `editor_model.dfy` (module `EditorModel`) models the session as a value, a `Snapshot`. It has one transition function per handler, and each function's contract states what that handler does. It also defines `Run`, which applies a sequence of events, and proves lemmas about runs.
- `editor_session.dfy` (module `EditorSession`) has the class `Session`. Its fields are the script's module-level variables. Its methods are the handlers, and they update those fields in place. Each method's contract says that the new state equals the matching `EditorModel` transition applied to the old state. A ghost flag `traceListeners` records whether the tracing click and double-click listeners are attached. `Valid()` ties that flag to `drawing` and requires the zone invariant.

A marker's `dragend` listener is a closure that captures the placement click's coordinates. It is modelled as a `Marker` value that holds only those coordinates. `PlacePoint` returns a `Marker`, and `DragEnd` takes one. So the lookup key is always the creation-time position and never the marker's current one.

## Model

| member | source | states |
|---|---|---|
| `Coordinates.ToRecords` | script.js:137-139 | the zone's records correspond one to one, in order, to the trace's `[lat, lng]` pairs, and there are as many of them |
| `Coordinates.ToRecordsAppend` | script.js:130-139 | converting a trace extended by the final double-click pair gives the converted trace followed by that position's record |
| `Coordinates.FindPoint` | script.js:80 | the result is -1 exactly when no point has the looked-up lat and lng; otherwise it is an index holding them with no earlier index holding them (the first match) |
| `EditorModel.Initial` | script.js:93-97 | the script starts idle, with an empty trace, no zones and no points, and the invariant holds |
| `EditorModel.StartDrawingZone` | script.js:99-101 | starting a trace sets `drawing`, empties the pending trace, leaves zones and points alone and keeps the invariant |
| `EditorModel.OnMapClickZone` | script.js:114-116 | a click while not drawing changes nothing; while drawing it appends exactly the clicked position to the end of the trace, with earlier vertices unchanged; zones and points never change |
| `EditorModel.OnMapDblClickZone` | script.js:125-151 | a double-click while not drawing changes nothing. While drawing, it always ends idle with an empty trace and the same points. If the trace plus the final position has 3 vertices or more, exactly one zone is appended, with id `old count + 1` and coords equal to the trace records followed by the final position. Otherwise the zones are unchanged. The invariant is kept |
| `EditorModel.PlacePoint` | script.js:70-74 | a placement click appends exactly the clicked position to the end of `pointsEau` and changes nothing else |
| `EditorModel.DragEnd` | script.js:77-84 | the length of `pointsEau` is kept. If no point equals the marker's placement position, nothing changes. Otherwise only the first equal point is overwritten with the new position, and every other entry is unchanged |
| `EditorModel.RunKeepsInv` | script.js:133-143 | every sequence of events keeps the invariant: zone `i` has id `i + 1` and 3 vertices or more, and a trace is pending only while drawing |
| `EditorModel.RunAppendsZones` | script.js:140-143 | zones are only ever appended: the zones before any run are a prefix of those after it, and the run adds at most one zone per double-click |
| `EditorModel.RunCountsPoints` | script.js:74-83 | over any run, `pointsEau` grows by exactly the number of placement clicks; drags never change its length |
| `EditorModel.SecondDragMissesOwnSlot` | script.js:80-82 | after a drag moves a marker off its placement position, a second drag of that marker leaves the slot the first drag overwrote (the first point at the placement position) holding the first drag's position. It changes nothing when no point is left at the placement position, and otherwise it overwrites a later slot |
| `EditorModel.SamePlacementSharesSlot` | script.js:74-82 | when two markers are placed at the same position, dragging the second one overwrites the first stored point and leaves the second one untouched |
| `EditorModel.FourVertexTraceCommitsZone` | script.js:99-151 | start, three clicks and a double-click from the initial state commit zone 1 with the four positions in order, and end idle with an empty trace |
| `EditorModel.TwoVertexTraceIsDiscarded` | script.js:99-151 | start, one click and a double-click from the initial state create no zone, and end idle with an empty trace |
| `EditorSession.Session.constructor` | script.js:93-97 | a new session is valid and equals the initial snapshot, with no tracing listeners attached |
| `EditorSession.Session.StartDrawingZone` | script.js:99-112 | the fields are updated in place to `EditorModel.StartDrawingZone` of the old state, and the tracing listeners are attached |
| `EditorSession.Session.OnMapClickZone` | script.js:114-123 | the fields are updated in place to `EditorModel.OnMapClickZone` of the old state; the listener flag is unchanged |
| `EditorSession.Session.OnMapDblClickZone` | script.js:125-156 | the fields are updated in place to `EditorModel.OnMapDblClickZone` of the old state, and the tracing listeners end up detached |
| `EditorSession.Session.PlacePoint` | script.js:70-75 | `pointsEau` grows in place as `EditorModel.PlacePoint` says; the returned marker's listener is keyed by the click position |
| `EditorSession.Session.DragEnd` | script.js:77-84 | `pointsEau` is overwritten in place, at the `findIndex` slot only, as `EditorModel.DragEnd` says |

## Left out

- Map set-up, the OpenStreetMap and IGN SCAN 25 tile layers, and the layer control (script.js:4-60). These only configure Leaflet.
- Rendering. The model does not create or remove markers, polylines or polygons (script.js:71, 104-108, 119-122, 134, 147-150). One effect of this: `startDrawingZone` removes the previous zone's polygon from the map (script.js:105), which is only visual, because the zone stays in `zones`.
- The arming step of `addPointEau` (`map.once`, script.js:70). It changes no data, so `PlacePoint` models the callback that the armed click runs. Leaflet's listener bookkeeping is also left out:
  - calling `addPointEau` several times arms several one-shot listeners;
  - on Leaflet versions that do not deduplicate listeners, calling `startDrawingZone` while already drawing registers the tracing listeners a second time;
  - one click can reach both a placement listener and the tracing listener.

  Every event is modelled as a direct call to one handler. The ghost `traceListeners` flag only says whether the tracing listeners are attached.
  One consequence: in a browser a double-click first delivers two `click` events, so the final position is pushed three times, and the discard branch for a trace of fewer than 3 vertices (`TwoVertexTraceIsDiscarded`) cannot be reached with a mouse.
- JavaScript number semantics. Coordinates are compared with plain equality, so the model does not cover `NaN !== NaN`. Leaflet does not produce NaN positions.
- A reset and a submission to a remote endpoint: script.js has no reset and no submission, so neither is modelled. main.py (the FastAPI endpoint that computes zone areas with pyproj and shapely) is not part of this model. Its logic is floating-point geometry in foreign libraries.
