# GuruGuruCapture core, modelled in Dafny

GuruGuruCapture is a macOS menu-bar tool. It watches the mouse for a
circular "swirl" gesture. When it sees one, it opens a full-screen overlay
where the user adjusts a capture rectangle with eight resize handles and a
move zone. The rectangle is confirmed with Enter or a double click, or the
session is cancelled with Escape or a right click. The confirmed rectangle is
then captured and sent to the clipboard, to a file, or to both.

This project models the sequential core of `Sources/GuruGuruCapture/main.swift`:

- `settings.dfy` (module `Settings`): the user-defaults store as two maps, in
  which an unset key reads as 0. It holds `Comparable.clamped(to:default:)`
  (`Clamped`), the five detection getters and setters, the reset to defaults,
  and the decoding of the save destination.
- `rotation.dfy` (module `Rotation`): the two angle-wrapping `while` loops and
  the `for` loop that adds up the wrapped steps, over `real`. `Pi` is the
  shortest decimal that rounds to `Double.pi`.
- `detector.dfy` (module `Detector`): `SwirlDetector` as a class with a
  `positions: seq<TimedPoint>` window and an `onCooldown` flag. It covers
  `addPoint`, `checkSwirl`, `startCooldown`, and the deferred cooldown reset as
  an explicit `CooldownExpired` event.
- `overlay.dfy` (module `Overlay`): `HandlePosition`, the handle squares,
  hit-testing, and the drag arithmetic with its 10-unit floor.
  `SelectionOverlayView` is a class with the fields `selectionRect`,
  `dragHandle`, `dragStart` and `rectAtDragStart`, and with the mouse and
  keyboard event methods.
- `capture.dfy` (module `Capture`): the padded bounding box of the gesture
  points, the screen to window-local translations, the flip into Quartz
  coordinates, and the routing of a captured image.
- `geometry.dfy` and `wrappers.dfy`: CoreGraphics points, sizes and
  rectangles, plus an `Option` type.

Rectangles keep their raw origin and size, as `CGRect` does. The accessors
`MinX`, `MaxX`, `Width` and the others are the *standardised* ones that
CoreGraphics provides: `Width()` is `|size.width|`. This matters in
`mouseDragged`. The floor `if r.width < 10` compares the standardised width.
So a left-side handle dragged more than 10 units past the right edge leaves a
negative raw width. The rectangle flips around the fixed edge instead of being
floored, and the standardised width stays at least 10.

The model follows the code in three places where a reader might expect otherwise:

- The wrapping loops leave a step in the closed range [-π, π]; both
  endpoints are possible, not only the half-open (-π, π].
- A top-left drag moves `origin.x` and grows `height`. It does not move
  `origin.y`, because y grows upward and the top edge is `origin.y + height`.
- `CheckSwirl` returns the snapshot as soon as it fires. The cooldown lasts
  until the `CooldownExpired` event, not for a modelled span of time.

## Model

| member | source | states |
|---|---|---|
| Settings.ClampedSelects | Sources/GuruGuruCapture/main.swift:89-94 | A value inside the closed range is returned unchanged; any value outside it is replaced by the default |
| Settings.ClampedInRange | Sources/GuruGuruCapture/main.swift:89-94 | The clamped value lies in the range whenever the default does |
| Settings.ClampedIdempotent | Sources/GuruGuruCapture/main.swift:89-94 | Clamping an already clamped value (in-range default) changes nothing |
| Settings.WindowDuration | Sources/GuruGuruCapture/main.swift:55-56 | Result lies in [0.5, 3.0]; it is the stored value when that is in range, otherwise 1.4 |
| Settings.MinPoints | Sources/GuruGuruCapture/main.swift:60-61 | Result lies in [10, 50]; it is the stored value when that is in range, otherwise 25 |
| Settings.TriggerAngle | Sources/GuruGuruCapture/main.swift:65-66 | Result lies in [0.5, 3.0] turns; it is the stored value when that is in range, otherwise 1.5 |
| Settings.MinRadius | Sources/GuruGuruCapture/main.swift:70-71 | Result lies in [10, 100]; it is the stored value when that is in range, otherwise 30 |
| Settings.Cooldown | Sources/GuruGuruCapture/main.swift:75-76 | Result lies in [0.5, 5.0]; it is the stored value when that is in range, otherwise 2.5 |
| Settings.UnsetKeysGiveDefaults | Sources/GuruGuruCapture/main.swift:11-17 | A store where no detection key was written (each reads 0) yields all five defaults |
| Settings.SetWindowDuration | Sources/GuruGuruCapture/main.swift:57 | After a write the getter returns the written value if in range, else the default; the other four getters are unchanged |
| Settings.SetMinPoints | Sources/GuruGuruCapture/main.swift:62 | After a write the getter returns the written value if in range, else the default; the other four getters are unchanged |
| Settings.SetTriggerAngle | Sources/GuruGuruCapture/main.swift:67 | After a write the getter returns the written value if in range, else the default; the other four getters are unchanged |
| Settings.SetMinRadius | Sources/GuruGuruCapture/main.swift:72 | After a write the getter returns the written value if in range, else the default; the other four getters are unchanged |
| Settings.SetCooldown | Sources/GuruGuruCapture/main.swift:77 | After a write the getter returns the written value if in range, else the default; the other four getters are unchanged |
| Settings.ResetDetectionToDefaults | Sources/GuruGuruCapture/main.swift:80-86 | Afterwards all five getters return their defaults, and the save destination is untouched |
| Settings.FromRawValue | Sources/GuruGuruCapture/main.swift:19-23 | A case exists exactly for raw values 0, 1 and 2, and its raw value is the input |
| Settings.RawValueRoundTrip | Sources/GuruGuruCapture/main.swift:19-23 | Decoding the raw value of any case gives that case back |
| Settings.SaveDestinationOf | Sources/GuruGuruCapture/main.swift:25-28 | A stored raw value 0..2 decodes to its case; any other value falls back to `both` |
| Settings.SetSaveDestination | Sources/GuruGuruCapture/main.swift:29-31 | Reading back after a write gives the written destination; the detection getters are unchanged |
| Settings.UnsetDestinationIsBoth | Sources/GuruGuruCapture/main.swift:27 | An unset destination (reads 0) means both clipboard and file |
| Rotation.WrapRange | Sources/GuruGuruCapture/main.swift:395-397 | Every wrapped step lies in [-π, π]; a step already in that range is left alone |
| Rotation.WrapTurns | Sources/GuruGuruCapture/main.swift:395-397 | Wrapping changes a step only by an integer number of full turns 2π |
| Rotation.WrapAngle | Sources/GuruGuruCapture/main.swift:395-397 | The two while loops end with the step in [-π, π], equal to the wrapping specification |
| Rotation.TotalRotationBound | Sources/GuruGuruCapture/main.swift:391-399 | The accumulated rotation of n bearings is at most (n-1)·π in absolute value, and 0 for fewer than two |
| Rotation.AccumulateRotation | Sources/GuruGuruCapture/main.swift:391-399 | The for loop computes the sum of the wrapped consecutive differences; it is 0 with fewer than two bearings |
| Rotation.TriggerNeedsBearings | Sources/GuruGuruCapture/main.swift:390-401 | Reaching a threshold of t turns needs at least 2t+1 bearings |
| Detector.Prune | Sources/GuruGuruCapture/main.swift:374 | The pruned window holds exactly the samples at most `windowDuration` old and is no longer than its input |
| Detector.PruneDistributes | Sources/GuruGuruCapture/main.swift:374 | Pruning a concatenation is the concatenation of the pruned parts, so survivors keep their insertion order |
| Detector.PruneIdempotent | Sources/GuruGuruCapture/main.swift:374 | Pruning again at the same instant removes nothing more |
| Detector.NewestSurvives | Sources/GuruGuruCapture/main.swift:371-375 | The sample just appended with time `now` survives pruning and stays last |
| Detector.ClassifiesNeedsPoints | Sources/GuruGuruCapture/main.swift:388-401 | A positive verdict needs a window of at least 2·triggerAngle+1 points (one bearing per point), so at least two |
| Detector.SwirlDetector.constructor | Sources/GuruGuruCapture/main.swift:365-366 | A new detector has an empty window and is not on cooldown |
| Detector.SwirlDetector.AddPoint | Sources/GuruGuruCapture/main.swift:371-376 | Window becomes prune(old + [sample]). It fires iff off cooldown with at least minPoints samples and a positive classifier verdict. Firing emits that window's points, empties it and sets cooldown; otherwise the window is kept with the new sample last and the flag unchanged. Under cooldown it never fires |
| Detector.SwirlDetector.CheckSwirl | Sources/GuruGuruCapture/main.swift:378-406 | Fires iff not on cooldown, the window has at least minPoints samples, the mean radius is at least minRadius and the rotation is at least triggerAngle·2π. The snapshot equals the window before firing and has at least 10 points; after firing the window is empty and cooldown is set. Otherwise nothing changes |
| Detector.SwirlDetector.StartCooldown | Sources/GuruGuruCapture/main.swift:408-410 | Sets the cooldown flag and empties the window |
| Detector.SwirlDetector.CooldownExpired | Sources/GuruGuruCapture/main.swift:411-413 | Clears the cooldown flag and leaves the window as it is |
| Overlay.HandleRects | Sources/GuruGuruCapture/main.swift:520-536 | Eight entries in the order topLeft … bottomRight, each a 10-unit square centred on its handle's corner or edge midpoint (top = maxY) |
| Overlay.FirstHit | Sources/GuruGuruCapture/main.swift:538-544 | Finds nothing iff no grown square holds the point; otherwise returns the handle of the first square that does |
| Overlay.HitTestChoice | Sources/GuruGuruCapture/main.swift:538-547 | hitTest returns the first handle in order whose square grown by 6 holds the point. It returns `.inside` iff no handle does and the rectangle holds the point, and `nil` iff neither holds it, so handles win over the interior |
| Overlay.HitAtAnchor | Sources/GuruGuruCapture/main.swift:520-547 | Pressing on a handle's own marker always selects a resize handle, never the interior |
| Overlay.FloorSize | Sources/GuruGuruCapture/main.swift:619-621 | Both standardised sides become at least 10. A side whose standardised length is under 10 becomes a raw +10, even when its raw size was negative, so a flipped short side then extends from the origin. The origin never moves, and a side already at least 10 is kept |
| Overlay.MoveByHandle | Sources/GuruGuruCapture/main.swift:591-617 | The per-handle switch moves exactly the raw edges that the handle table assigns to the handle, by the offset: left/bottom edges via origin and size, right/top edges via size alone |
| Overlay.DragInsideTranslates | Sources/GuruGuruCapture/main.swift:594-596 | Dragging the interior translates the origin by the offset and keeps the size |
| Overlay.DragSingleSide | Sources/GuruGuruCapture/main.swift:600-608 | `.right` changes only the width and `.top` only the height (by the offset unless floored); the origin stays |
| Overlay.DragKeepsOppositeEdge | Sources/GuruGuruCapture/main.swift:597-617 | Left-side handles keep origin.x + width and bottom-side handles keep origin.y + height when the floor does not apply; right/top-side handles never move that axis's origin |
| Overlay.DragZeroOffset | Sources/GuruGuruCapture/main.swift:586-623 | A drag back to the press point restores the rectangle at the press (for one meeting the floor) |
| Overlay.SelectionOverlayView.constructor | Sources/GuruGuruCapture/main.swift:436-443 | A new view holds the initial rectangle, no active handle, and zero press point and press rectangle |
| Overlay.SelectionOverlayView.MouseDown | Sources/GuruGuruCapture/main.swift:551-565 | Sets the handle to hitTest at the point and records the point and the current rectangle, which is unchanged. A double click confirms that rectangle |
| Overlay.SelectionOverlayView.RightMouseDown | Sources/GuruGuruCapture/main.swift:582-584 | A right click cancels the session |
| Overlay.SelectionOverlayView.MouseDragged | Sources/GuruGuruCapture/main.swift:586-624 | Without a handle the rectangle is unchanged. With one, it becomes the drag of the rectangle at press by the total offset from the press point (not cumulative), with both sides at least 10. The 10-unit invariant is preserved |
| Overlay.SelectionOverlayView.MouseUp | Sources/GuruGuruCapture/main.swift:626-627 | Clears the active handle |
| Overlay.SelectionOverlayView.KeyDown | Sources/GuruGuruCapture/main.swift:760-766 | Key codes 36 and 76 confirm the current rectangle, 53 cancels, every other key changes nothing |
| Overlay.SelectionOverlayView.Confirm | Sources/GuruGuruCapture/main.swift:768-770 | Delivers the current rectangle exactly as it stands |
| Capture.BoundingRectEnclosesPoints | Sources/GuruGuruCapture/main.swift:821-827 | Each side is the points' spread plus 2·padding, and every point lies at least `padding` inside every edge |
| Capture.BoundingRectIsTight | Sources/GuruGuruCapture/main.swift:821-827 | Every edge of the box is exactly `padding` from some point |
| Capture.ScreenLocalRoundTrip | Sources/GuruGuruCapture/main.swift:862-867 | Converting to window-local coordinates (lines 793-798) and back gives the standardised rectangle, in either order; a rectangle of non-negative size comes back unchanged |
| Capture.QuartzFlip | Sources/GuruGuruCapture/main.swift:812-817 | The flip keeps the x extent, mirrors the y extent about the screen height, and undoes itself |
| Capture.UntouchedSessionCapturesBoundingRect | Sources/GuruGuruCapture/main.swift:850-867 | A session confirmed without any drag captures exactly the padded bounding box, whose sides are at least 50 |
| Capture.DeliveryFor | Sources/GuruGuruCapture/main.swift:933-943 | Every destination delivers to clipboard or file. Both sinks are used iff `both`, clipboard alone iff `clipboardOnly`, file alone iff `fileOnly` |

## Left out

- Drawing, the size label, the help text, the handle markers and the custom cursor images (lines 459-516, 567-580, 634-754) are AppKit rendering. `mouseMoved`/`updateCursor` only pick a cursor from `hitTest` and change no state, so they are not modelled.
- `SettingsWindowController` (lines 98-355) is UI wiring of controls to the setters, which are modelled.
- Persistence mechanics of `UserDefaults`, the save directory, `FileManager`, PNG encoding, `NSPasteboard` and the timestamped file name (lines 34-51, 930-955) are I/O; only the decoded values and the routing decision are modelled.
- Pixel capture with `CGWindowListCreateImage` and the `NSScreen.main` lookup are foreign calls; the screen frame and screen height are parameters.
- `DispatchQueue` delays and weak-self closures (lines 411-413, 843, 869-879, 925-927) are timing. The cooldown reset is the explicit `CooldownExpired` event, and the callbacks `onSwirl`, `onConfirm` and `onCancel` are the values the methods return.
- Global and local event monitors, the accessibility prompt, the status-bar menu and the app entry point (lines 839-848, 898-916, 957-994) are platform plumbing. The app-level Escape monitor cancels the session just as `KeyDown(53)` does.
- Detector.SwirlDetector.CheckSwirl: the centroid, the `sqrt`/`pow` mean radius and the `atan2` bearings (lines 380-394) are floating-point. They come in as the `measure` parameter, which gives the mean radius and a bearing function; the model applies that function to each point of the window, one bearing per point, in order. The radius guard, the wrapping, the accumulation and the threshold test are modelled over exact reals, without floating-point rounding.
- Settings.WindowDuration, Settings.TriggerAngle, Settings.MinRadius, Settings.Cooldown: Swift's Double and CGFloat are modelled as exact reals, so rounding, infinities and NaN are not represented. A stored NaN passes both comparisons of `clamped` and would come back out of range, and a NaN window duration would make the prune at line 374 keep every sample; the model's getters always return in-range values (MinPoints reads an Int and is unaffected). The same holds for the overlay and capture geometry.
- Rotation.AccumulateRotation: with no bearings at all it returns 0, where Swift's `1..<0` range would trap; checkSwirl reaches the loop only with at least 10 points.
- Geometry.Rect.InsetBy: only growing insets are modelled, the only use in the source; the null rectangle that CoreGraphics returns for an over-shrunk rectangle is not.
- Overlay.SelectionOverlayView.KeyDown: the responder chain that `super.keyDown` passes other keys to is not modelled.
- Once a session is confirmed or cancelled, the source closes the overlay window and no further events arrive; the model leaves that to the caller.
