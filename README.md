# ios-utils core, modelled in Dafny

This project models the logic core of the `ios-utils` Swift package and proves properties of that model. The package is a set of SwiftUI helpers. The model covers:

- the composite `onSmartGesture` modifier, in both the current copy and the older copy of the package, with the ways the two differ;
- device orientation and the orientation observer;
- the RGBA `Colour` value, in both copies, with its `%02X` hex form;
- the 27 bitwise `ColourFilters`;
- `Memory.fastcopy`, which fills a byte buffer with a repeated 32-bit pixel;
- the point/pixel conversions of `DisplayInfo`, `Display` and `Screen`;
- the pure geometry and the state of `ImageContentView`;
- `modulo`, `lpad`/`rpad` and `clamped`.

Code that changes state step by step is modelled imperatively:

- The gesture modifier's `@State` fields become `SmartGesture` classes with handler methods. A ghost log records the callbacks fired, in order.
- The orientation observer becomes a class. Its fields are updated by a notification method.
- `fastcopy` works on an `array<bv8>` with a fill loop.
- The `Config` object and the view state of `ImageContentView` are classes.

Each handler is proved equal to a pure step function over a `Session` value. The properties are lemmas about those step functions.

Conventions:

- Points and sizes are `real` (`CGFloat` without rounding error).
- Times are integer milliseconds passed in as `now`. Durations are stored in seconds, as the source stores them.
- `hypot(d) > t` is compared exactly as squared distances (`Geometry`).
- Swift's `round` is half away from zero, `floor` is floor, and `Int(x)` truncates toward zero (`Numerics`).
- Callbacks that the source takes as optional closures are flags saying whether they are present. `normalizePoint` is an optional function value.

## Model

| member | source | states |
|---|---|---|
| Options.GetOr | Sources/Utils/View+GestureExtensions.swift:47 | `x ?? default`: the value when present, the default otherwise |
| Numerics.Floor | Sources/Utils/DisplayInfo.swift:23-24 | the result is the greatest integer not above the argument |
| Numerics.Truncate | Utils/Sources/Utils/Screen.swift:16-17 | `Int(x)` rounds toward zero: the floor for non-negative values, the ceiling for negative ones |
| Numerics.Round | Sources/Utils/DisplayInfo.swift:39 | `round` is within one half of its argument, and ties go away from zero |
| Numerics.RoundIntegral | Sources/Utils/DisplayInfo.swift:39 | rounding an integer gives it back |
| Numerics.RoundOdd | Sources/Utils/DisplayInfo.swift:39 | `Round(-x) == -Round(x)`: halves are rounded away from zero on both sides |
| Numerics.RoundMonotone | Sources/Utils/DisplayInfo.swift:39-44 | rounding preserves order |
| Geometry.SquaredDistance | Sources/Utils/View+GestureExtensions.swift:54-55 | the squared `hypot` distance is non-negative and zero from a point to itself |
| Geometry.DistanceComparisonsExact | Sources/Utils/View+GestureExtensions.swift:54-155 | the squared-distance tests `FartherThan`/`WithinDistance` are exactly `hypot > t` and `hypot <= t`, for every threshold sign |
| Geometry.FartherThanIsNotWithin | Sources/Utils/View+GestureExtensions.swift:56-155 | `hypot > t` and `hypot <= t` are complementary |
| Geometry.SquaredDistanceSymmetric | Sources/Utils/View+GestureExtensions.swift:54-55 | the distance does not depend on the order of the points |
| Orientation.DeviceOrientationOf | Sources/Utils/Orientation.swift:39-54 | portrait and upside-down are kept, interface landscape-left is device landscape-right and landscape-right is landscape-left, and only `unknown` gives `unknown` |
| Orientation.DeviceOrientationOfInvertible | Sources/Utils/Orientation.swift:39-54 | no two interface orientations map to the same device orientation |
| Orientation.Backup | Sources/Utils/Orientation.swift:32-37 | the first scene's orientation, converted; `unknown` without a scene |
| Orientation.Current | Sources/Utils/Orientation.swift:7-22 | always a valid interface orientation; a valid reading is kept; face up and face down become portrait; `unknown` falls back to the scene, then to portrait |
| Orientation.CurrentWithoutSceneIsPortrait | Sources/Utils/Orientation.swift:9-20 | with no reading and no scene the result is portrait |
| Orientation.CurrentFromLandscapeScene | Sources/Utils/Orientation.swift:9-48 | an unknown reading on a landscape scene gives the opposite device landscape |
| OrientationObserver.NormalizePointOffsetCases | Utils/Sources/Utils/OrientationObserver.swift:44-69 | portrait, the default case, and upside-down on a phone not coming from landscape subtract the view origin |
| OrientationObserver.NormalizePoint | Utils/Sources/Utils/OrientationObserver.swift:44-69 | the orientation switch of `normalizePoint(screenPoint:view:)`; its cases are stated by the lemmas below |
| OrientationObserver.NormalizePointLandscape | Utils/Sources/Utils/OrientationObserver.swift:61-66 | landscape-right gives `(sy - ox, h - 1 - (sx - oy))` and landscape-left gives `(w - 1 - (sy - ox), sx - oy)` |
| OrientationObserver.NormalizePointUpsideDownOnIpad | Utils/Sources/Utils/OrientationObserver.swift:48-52 | on an iPad, upside-down reflects the offset point through the view, and reflecting again recovers it |
| OrientationObserver.NormalizePointUpsideDownAfterLandscape | Utils/Sources/Utils/OrientationObserver.swift:53-63 | upside-down after landscape on a phone is the landscape-right mapping |
| OrientationObserver.NormalizePointLandscapeLeftReflectsRight | Utils/Sources/Utils/OrientationObserver.swift:61-66 | landscape-left is the reflection of landscape-right |
| OrientationObserver.NormalizePointUpsideDownStaysInView | Utils/Sources/Utils/OrientationObserver.swift:48-52 | the iPad upside-down mapping keeps points on the view's pixel grid |
| OrientationObserver.Supported | Utils/Sources/Utils/OrientationObserver.swift:74-91 | empty without the plist key; contains exactly the orientations whose key is listed; kept in the fixed order portrait, upside-down, left, right |
| OrientationObserver.SupportedHasNoDuplicates | Utils/Sources/Utils/OrientationObserver.swift:77-88 | no orientation is listed twice |
| OrientationObserver.Observer.constructor | Utils/Sources/Utils/OrientationObserver.swift:19-36 | `current` and `previous` both start at `Orientation.current`; the callback is stored; subscribed |
| OrientationObserver.Observer.OrientationDidChange | Utils/Sources/Utils/OrientationObserver.swift:26-35 | on a valid reading, `previous` takes the old `current`, `current` the new reading, and the callback receives `(current, previous)`; otherwise nothing changes |
| OrientationObserver.Observer.Register | Utils/Sources/Utils/OrientationObserver.swift:93-95 | a callback is installed |
| OrientationObserver.Observer.Deregister | Utils/Sources/Utils/OrientationObserver.swift:97-100 | the subscription is cancelled |
| OrientationObserver.ChangeNotificationAlwaysAccepted | Utils/Sources/Utils/OrientationObserver.swift:27-28 | the validity test in the sink never rejects what `Orientation.current` returns |
| GestureCommon.Normalize | Sources/Utils/View+GestureExtensions.swift:47 | `normalizePoint?(p) ?? p` |
| GestureCommon.Seconds | Sources/Utils/View+GestureExtensions.swift:79-123 | `timeIntervalSince` in seconds, from millisecond times |
| Gesture.OnSmartGesture | Sources/Utils/View+GestureExtensions.swift:197-231 | thresholds are stored as given; millisecond durations are stored in seconds |
| Gesture.SmartGesture.constructor | Sources/Utils/View+GestureExtensions.swift:37-40 | every `@State` field starts empty or false |
| Gesture.SmartGesture.OnChanged | Sources/Utils/View+GestureExtensions.swift:45-66 | the new state and the callbacks fired are those of `Changed`; consistency is kept |
| Gesture.SmartGesture.OnEnded | Sources/Utils/View+GestureExtensions.swift:67-134 | the new state and the callbacks fired are those of `Ended` |
| Gesture.SmartGesture.OnLongPressEnded | Sources/Utils/View+GestureExtensions.swift:141-163 | the new state and the callbacks fired are those of `LongPressEnded` |
| Gesture.Changed | Sources/Utils/View+GestureExtensions.swift:45-66 | at most one callback; while dragging the state is unchanged; a recorded start and its time are kept; consistency is kept and a start is always recorded |
| Gesture.WithinSwipeDuration | Sources/Utils/View+GestureExtensions.swift:77-81 | the duration test: with a positive limit and a recorded start time, the time since the start is at most the limit; otherwise a duration of 0 is compared with the limit |
| Gesture.Swipe | Sources/Utils/View+GestureExtensions.swift:69-110 | no swipe, or exactly one swipe whose callback is registered |
| Gesture.TapPreempted | Sources/Utils/View+GestureExtensions.swift:121-125 | a long tap fired strictly less than the preempt threshold ago |
| Gesture.Ended | Sources/Utils/View+GestureExtensions.swift:67-134 | the start point, start time and drag flag are cleared; at most two callbacks |
| Gesture.LongTapAccepted | Sources/Utils/View+GestureExtensions.swift:147-156 | a completed press with a location, where the long tap is registered and the location is within tolerance of any recorded start |
| Gesture.LongPressEnded | Sources/Utils/View+GestureExtensions.swift:141-163 | only the long-tap time may change; at most one callback |
| Gesture.ChangedWhileDragging | Sources/Utils/View+GestureExtensions.swift:46-48 | while dragging, a change reports the normalised location and changes nothing |
| Gesture.ChangedBeforeDragging | Sources/Utils/View+GestureExtensions.swift:49-64 | the first change records the start and its time; a drag begins exactly when the move exceeds the threshold; its `onDrag` reports the start point |
| Gesture.HandlersKeepConsistency | Sources/Utils/View+GestureExtensions.swift:37-156 | every handler keeps "dragging implies a start" and "a start has a time" |
| Gesture.EndedResets | Sources/Utils/View+GestureExtensions.swift:126-133 | the end clears start, time and drag flag; the long-tap time is cleared only on the tap path |
| Gesture.EndedWhileDragging | Sources/Utils/View+GestureExtensions.swift:68-115 | ending a drag fires `onDragEnd` first, never `onTap`, and then at most one swipe |
| Gesture.SwipeLeftExactly | Sources/Utils/View+GestureExtensions.swift:69-110 | `onSwipeLeft` fires if and only if the drag, callback, orientation, duration and distance conditions all hold |
| Gesture.SwipeRightExactly | Sources/Utils/View+GestureExtensions.swift:69-113 | the same for `onSwipeRight`; the left test takes precedence |
| Gesture.EndedWithoutDragging | Sources/Utils/View+GestureExtensions.swift:116-130 | without a drag the end is one `onTap`, unless a long tap fired too recently |
| Gesture.LongPressEffect | Sources/Utils/View+GestureExtensions.swift:145-162 | `onLongTap` fires exactly when the press completed with a location within tolerance of the start; only the long-tap time changes |
| Gesture.Defaults | Sources/Utils/View+GestureExtensions.swift:197-201 | the defaults are 10, 100, 700 ms, 7 and 50 ms |
| Gesture.SwipeDurationInMilliseconds | Sources/Utils/View+GestureExtensions.swift:77-217 | in milliseconds: a positive limit bounds the drag's duration, 0 disables the test, and a negative limit rejects every swipe |
| Gesture.TapPreemptInMilliseconds | Sources/Utils/View+GestureExtensions.swift:121-219 | a tap is suppressed exactly when a long tap fired strictly less than the limit earlier |
| Gesture.LongTapSuppressesTap | Sources/Utils/View+GestureExtensions.swift:121-156 | after an accepted long tap, the next tap is dropped if and only if it comes within the preempt threshold |
| Gesture.DraggingReportsEveryMove | Sources/Utils/View+GestureExtensions.swift:46-48 | once dragging, a run of changes reports each location in order and keeps the state |
| Gesture.FirstDragReportsStart | Sources/Utils/View+GestureExtensions.swift:49-64 | over a run of changes, only drags fire; the stream becomes a drag exactly when some location is farther than the threshold; the first `onDrag` reports the start point |
| Gesture.ScenarioTap | Sources/Utils/View+GestureExtensions.swift:45-133 | a 2-point touch lifted after 50 ms is one tap |
| Gesture.ScenarioSwipeRight | Sources/Utils/View+GestureExtensions.swift:45-115 | a 20-point flick in 120 ms gives drag at the start, drag end, then swipe right |
| Gesture.ScenarioLongPressTooFar | Sources/Utils/View+GestureExtensions.swift:153-155 | a long press ending about 7.07 points away (tolerance 6) is no long tap; the lift is a tap |
| Gesture.ScenarioLongTapThenNoTap | Sources/Utils/View+GestureExtensions.swift:121-157 | a long tap within tolerance suppresses the tap 30 ms later |
| LegacyGesture.OnSmartGesture | Utils/Sources/Utils/View+GestureExtensions.swift:110-126 | the two thresholds are stored as given, with defaults 10 and 100 |
| LegacyGesture.SmartGesture.constructor | Utils/Sources/Utils/View+GestureExtensions.swift:35-36 | no start, not dragging |
| LegacyGesture.SmartGesture.OnChanged | Utils/Sources/Utils/View+GestureExtensions.swift:41-52 | state and callbacks are those of `Changed` |
| LegacyGesture.SmartGesture.OnEnded | Utils/Sources/Utils/View+GestureExtensions.swift:53-77 | state and callbacks are those of `Ended` |
| LegacyGesture.SmartGesture.OnLongPressEnded | Utils/Sources/Utils/View+GestureExtensions.swift:86-95 | the callback is that of `LongPressEnded`; the state is unchanged |
| LegacyGesture.Changed | Utils/Sources/Utils/View+GestureExtensions.swift:41-52 | at most one callback; while dragging the state is unchanged; a recorded start is kept and consistency is kept |
| LegacyGesture.Swipe | Utils/Sources/Utils/View+GestureExtensions.swift:54-70 | no swipe, or exactly one swipe whose callback is registered |
| LegacyGesture.Ended | Utils/Sources/Utils/View+GestureExtensions.swift:53-77 | the state is reset; one or two callbacks, the last being `onDragEnd` when dragging and `onTap` otherwise |
| LegacyGesture.LongPressEnded | Utils/Sources/Utils/View+GestureExtensions.swift:86-95 | the state is unchanged; at most one callback |
| LegacyGesture.ChangedBeforeDragging | Utils/Sources/Utils/View+GestureExtensions.swift:45-106 | the first change records the start; a drag begins exactly past the threshold, reporting the current location |
| LegacyGesture.ChangedWhileDragging | Utils/Sources/Utils/View+GestureExtensions.swift:42-44 | while dragging, a change reports the location |
| LegacyGesture.EndedShape | Utils/Sources/Utils/View+GestureExtensions.swift:53-77 | the end fires at most one swipe, then `onDragEnd` or `onTap` (whichever matches the drag flag), then resets |
| LegacyGesture.SwipeLeftExactly | Utils/Sources/Utils/View+GestureExtensions.swift:54-67 | `onSwipeLeft` fires if and only if the callbacks, orientation and distance conditions hold, dragging or not |
| LegacyGesture.SwipeRightExactly | Utils/Sources/Utils/View+GestureExtensions.swift:54-70 | the same for `onSwipeRight` |
| LegacyGesture.LongPressAlwaysLongTap | Utils/Sources/Utils/View+GestureExtensions.swift:86-95 | a completed long press with a location is always a long tap, however far it moved |
| LegacyGesture.DraggingReportsEveryMove | Utils/Sources/Utils/View+GestureExtensions.swift:42-44 | once dragging, every change is reported in order |
| LegacyGesture.FirstDragReportsCrossing | Utils/Sources/Utils/View+GestureExtensions.swift:45-51 | over a run of changes the first `onDrag` reports the location that crossed the threshold |
| GestureVersions.FirstDragPointDiffers | Sources/Utils/View+GestureExtensions.swift:63 | both versions start a drag on the same change; the newer reports the start point, the older the current location |
| GestureVersions.SwipeOrderDiffers | Sources/Utils/View+GestureExtensions.swift:106-114 | the newer fires `onDragEnd` before the swipe, the older after it |
| GestureVersions.SwipeWithoutDragOnlyInOlder | Sources/Utils/View+GestureExtensions.swift:68 | a flick that never became a drag swipes only in the older version |
| GestureVersions.LongTapToleranceOnlyInNewer | Sources/Utils/View+GestureExtensions.swift:153-155 | a long press that moved too far is rejected only by the newer version |
| Memory.LittleEndianBytes | Sources/Utils/Memory.swift:26-27 | four bytes, least significant first, that read back to the value |
| Memory.BigEndianBytes | Sources/Utils/Memory.swift:63 | the little-endian layout reversed |
| Memory.ByteSwap | Sources/Utils/Memory.swift:35-63 | `.bigEndian` on a little-endian host: its native layout is the big-endian layout of the value |
| Memory.LittleEndianBytesInjective | Sources/Utils/Memory.swift:26-27 | the layout determines the value |
| Memory.ByteSwapInvolution | Sources/Utils/Memory.swift:35-63 | swapping twice restores the value |
| Memory.Pattern | Sources/Utils/Memory.swift:27-73 | the pattern written has exactly the requested byte length |
| Memory.Fill | Sources/Utils/Memory.swift:27-73 | a fill keeps the buffer length |
| Memory.PatternBytes | Sources/Utils/Memory.swift:27 | byte `i` of the fill is byte `i mod 4` of the pattern |
| Memory.FillBytes | Sources/Utils/Memory.swift:27-73 | a fill changes exactly the bytes in range, each to the right pattern byte |
| Memory.FillBlocks | Sources/Utils/Memory.swift:7-27 | every block in range equals the 4-byte pattern |
| Memory.MemsetPattern4 | Sources/Utils/Memory.swift:27-73 | the in-place byte loop leaves the buffer equal to `Fill` of its old contents |
| Memory.Store | Sources/Utils/Memory.swift:38-68 | `storeBytes` writes the value's native layout at the offset and nothing else |
| Memory.FastCopyRaw | Sources/Utils/Memory.swift:18-28 | the raw `fastcopy` fills `count` blocks with the value's native (little-endian) bytes |
| Memory.SlightlySlowerFastCopy | Sources/Utils/Memory.swift:34-45 | the 1- and 2-block stores and the pattern fill all leave the same result: `count` big-endian blocks |
| Memory.FastCopy | Sources/Utils/Memory.swift:54-76 | in bounds, the buffer is the big-endian fill of its old contents; out of bounds, it is unchanged |
| Memory.InBounds | Sources/Utils/Memory.swift:55-62 | the guard of `fastcopy`: a non-negative index with the `4 * count` bytes inside the buffer |
| Memory.FastCopyEffect | Sources/Utils/Memory.swift:47-76 | after `fastcopy` the length is kept, bytes outside the range are kept, and every block is the value big-endian |
| Memory.RawAndCheckedOrders | Sources/Utils/Memory.swift:18-63 | the raw and the checked copy write opposite byte orders |
| Memory.Allocate | Sources/Utils/Memory.swift:78-87 | a fresh buffer of the requested size, filled with `initialize` when that is given and positive |
| HexFormat.Digit | Sources/Utils/Colour.swift:116-118 | an uppercase hex digit with the given value |
| HexFormat.Hex | Sources/Utils/Colour.swift:116-118 | uppercase digits, no leading zero, reading back to the number |
| HexFormat.Format02X | Sources/Utils/Colour.swift:116-118 | `%02X`: at least two digits, reading back to the number; one padding zero below 16 |
| HexFormat.HexLength | Sources/Utils/Colour.swift:116-118 | a number below `16^k` has at most `k` digits |
| HexFormat.Format32 | Sources/Utils/Colour.swift:116-118 | `%02X` of a 32-bit value: two to eight uppercase digits reading back to the value, with no leading zero beyond the two-digit minimum |
| HexFormat.Format02XInjective | Sources/Utils/Colour.swift:116-118 | distinct numbers format differently |
| HexFormat.HexUnique | Sources/Utils/Colour.swift:116-118 | a numeral without a leading zero is the only such numeral of its value |
| HexFormat.Format02XCanonical | Sources/Utils/Colour.swift:116-118 | the `%02X` conditions (two or more digits, no superfluous leading zero, reading as `n`) determine the string |
| Colour.FromBytes | Sources/Utils/Colour.swift:35-40 | the packed value of the new colour is the four bytes at their shifts; alpha defaults to opaque |
| Colour.Value | Sources/Utils/Colour.swift:95-102 | each byte of `value` is the matching component |
| Colour.FromInts | Sources/Utils/Colour.swift:42-47 | the components are the given integers, which must be bytes |
| Colour.ToByte | Sources/Utils/Colour.swift:43-46 | `UInt8(x)` keeps the value |
| Colour.FromValue | Sources/Utils/Colour.swift:49-54 | the low three bytes of `rgb` and the given alpha |
| Colour.Hex | Sources/Utils/Colour.swift:116-118 | 2 to 8 uppercase digits that read back to `value`, with a leading zero only in the two-digit form |
| Colour.Opacity | Sources/Utils/Colour.swift:140-142 | only alpha changes |
| Colour.OpacityInt | Sources/Utils/Colour.swift:144-147 | only alpha changes, to the argument clamped to 0...255 |
| Colour.Transparency | Sources/Utils/Colour.swift:154-156 | only alpha changes, to `255 - alpha` |
| Colour.MasksDisjoint | Sources/Utils/Colour.swift:12-19 | the masks are the three low bytes, disjoint, and with the alpha byte they cover the word |
| Colour.ValueRoundTrip | Sources/Utils/Colour.swift:49-102 | unpacking `value` with the colour's alpha gives the colour back |
| Colour.FromValueRoundTrip | Sources/Utils/Colour.swift:49-102 | packing restores the low three bytes and puts alpha on top |
| Colour.FromValueIgnoresTopByte | Sources/Utils/Colour.swift:49-54 | the top byte of `rgb` has no effect |
| Colour.ValueInjective | Sources/Utils/Colour.swift:95-102 | equal values if and only if equal colours |
| Colour.HexInjective | Sources/Utils/Colour.swift:116-118 | equal hex strings if and only if equal colours |
| Colour.HexIsFormat02X | Sources/Utils/Colour.swift:116-118 | `hex` is exactly the `%02X` string of `value` |
| Colour.OpacityTransparency | Sources/Utils/Colour.swift:140-156 | transparency of `255 - a` is opacity `a`; opacity with the colour's own alpha is the identity |
| Colour.OpacityIntOfByte | Sources/Utils/Colour.swift:140-147 | the integer `opacity` agrees with the byte `opacity` on every byte value |
| Colour.OpacityKeepsColourBytes | Sources/Utils/Colour.swift:49-142 | changing opacity is re-reading `value` with a new alpha |
| Colour.NativeLayout | Sources/Utils/Colour.swift:95-102 | a native store of `value` lays out red, green, blue, alpha |
| LegacyColour.FromBytes | Utils/Sources/Utils/Colour.swift:33-38 | alpha in the top byte, the colour bytes below it |
| LegacyColour.Value | Utils/Sources/Utils/Colour.swift:89-96 | each byte of `value` is the matching component |
| LegacyColour.FromInts | Utils/Sources/Utils/Colour.swift:40-45 | the components are the given byte-range integers |
| LegacyColour.FromValue | Utils/Sources/Utils/Colour.swift:47-52 | the low three bytes of `rgb` and the given alpha |
| LegacyColour.Hex | Utils/Sources/Utils/Colour.swift:102-104 | 2 to 8 uppercase digits reading back to `value`, with a leading zero only in the two-digit form |
| LegacyColour.MasksDisjoint | Utils/Sources/Utils/Colour.swift:12-19 | the masks are the three low bytes, disjoint |
| LegacyColour.ValueRoundTrip | Utils/Sources/Utils/Colour.swift:47-96 | unpacking `value` gives the colour back |
| LegacyColour.FromValueDefaultsOpaque | Utils/Sources/Utils/Colour.swift:47-52 | the one-argument form is opaque and ignores the top byte |
| LegacyColour.AgreesWithCurrent | Utils/Sources/Utils/Colour.swift:89-104 | both copies pack and format a colour identically |
| ColourFilters.ReferenceIdempotent | Utils/Sources/Utils/ColourFilters.swift:20-46 | applying the filter that a three-letter name describes twice is the same as applying it once |
| ColourFilters.ChannelIdempotent | Utils/Sources/Utils/ColourFilters.swift:20-46 | keeping, filling or clearing one channel is idempotent |
| ColourFilters.Unpack | Utils/Sources/Utils/Colour.swift:89-96 | the four bytes of a packed colour read back |
| ColourFilters.RGB | Utils/Sources/Utils/ColourFilters.swift:20 | equals the filter that the name `RGB` describes: letter R/G/B keeps its channel, X fills it and O clears it; alpha is kept only without an O |
| ColourFilters.RGX | Utils/Sources/Utils/ColourFilters.swift:21 | equals the filter that the name `RGX` describes: letter R/G/B keeps its channel, X fills it and O clears it; alpha is kept only without an O |
| ColourFilters.RGO | Utils/Sources/Utils/ColourFilters.swift:22 | equals the filter that the name `RGO` describes: letter R/G/B keeps its channel, X fills it and O clears it; alpha is kept only without an O |
| ColourFilters.RXB | Utils/Sources/Utils/ColourFilters.swift:23 | equals the filter that the name `RXB` describes: letter R/G/B keeps its channel, X fills it and O clears it; alpha is kept only without an O |
| ColourFilters.RXX | Utils/Sources/Utils/ColourFilters.swift:24 | equals the filter that the name `RXX` describes: letter R/G/B keeps its channel, X fills it and O clears it; alpha is kept only without an O |
| ColourFilters.RXO | Utils/Sources/Utils/ColourFilters.swift:25 | corrected: red kept, green full, blue and alpha cleared, as the name reads |
| ColourFilters.RXOAsWritten | Utils/Sources/Utils/ColourFilters.swift:25 | as written: red and green kept, blue and alpha cleared, so it is `RGO` |
| ColourFilters.ROB | Utils/Sources/Utils/ColourFilters.swift:26 | equals the filter that the name `ROB` describes: letter R/G/B keeps its channel, X fills it and O clears it; alpha is kept only without an O |
| ColourFilters.ROX | Utils/Sources/Utils/ColourFilters.swift:27 | corrected: red kept, green and alpha cleared, blue full, as the name reads |
| ColourFilters.ROXAsWritten | Utils/Sources/Utils/ColourFilters.swift:27 | as written: only blue kept, so it is `OOB` |
| ColourFilters.ROO | Utils/Sources/Utils/ColourFilters.swift:28 | equals the filter that the name `ROO` describes: letter R/G/B keeps its channel, X fills it and O clears it; alpha is kept only without an O |
| ColourFilters.XGB | Utils/Sources/Utils/ColourFilters.swift:29 | equals the filter that the name `XGB` describes: letter R/G/B keeps its channel, X fills it and O clears it; alpha is kept only without an O |
| ColourFilters.XGX | Utils/Sources/Utils/ColourFilters.swift:30 | equals the filter that the name `XGX` describes: letter R/G/B keeps its channel, X fills it and O clears it; alpha is kept only without an O |
| ColourFilters.XGO | Utils/Sources/Utils/ColourFilters.swift:31 | equals the filter that the name `XGO` describes: letter R/G/B keeps its channel, X fills it and O clears it; alpha is kept only without an O |
| ColourFilters.XXB | Utils/Sources/Utils/ColourFilters.swift:32 | equals the filter that the name `XXB` describes: letter R/G/B keeps its channel, X fills it and O clears it; alpha is kept only without an O |
| ColourFilters.XXX | Utils/Sources/Utils/ColourFilters.swift:33 | equals the filter that the name `XXX` describes: letter R/G/B keeps its channel, X fills it and O clears it; alpha is kept only without an O |
| ColourFilters.XXO | Utils/Sources/Utils/ColourFilters.swift:34 | equals the filter that the name `XXO` describes: letter R/G/B keeps its channel, X fills it and O clears it; alpha is kept only without an O |
| ColourFilters.XOB | Utils/Sources/Utils/ColourFilters.swift:35 | equals the filter that the name `XOB` describes: letter R/G/B keeps its channel, X fills it and O clears it; alpha is kept only without an O |
| ColourFilters.XOX | Utils/Sources/Utils/ColourFilters.swift:36 | equals the filter that the name `XOX` describes: letter R/G/B keeps its channel, X fills it and O clears it; alpha is kept only without an O |
| ColourFilters.XOO | Utils/Sources/Utils/ColourFilters.swift:37 | equals the filter that the name `XOO` describes: letter R/G/B keeps its channel, X fills it and O clears it; alpha is kept only without an O |
| ColourFilters.OGB | Utils/Sources/Utils/ColourFilters.swift:38 | equals the filter that the name `OGB` describes: letter R/G/B keeps its channel, X fills it and O clears it; alpha is kept only without an O |
| ColourFilters.OGX | Utils/Sources/Utils/ColourFilters.swift:39 | equals the filter that the name `OGX` describes: letter R/G/B keeps its channel, X fills it and O clears it; alpha is kept only without an O |
| ColourFilters.OGO | Utils/Sources/Utils/ColourFilters.swift:40 | equals the filter that the name `OGO` describes: letter R/G/B keeps its channel, X fills it and O clears it; alpha is kept only without an O |
| ColourFilters.OXB | Utils/Sources/Utils/ColourFilters.swift:41 | equals the filter that the name `OXB` describes: letter R/G/B keeps its channel, X fills it and O clears it; alpha is kept only without an O |
| ColourFilters.OXX | Utils/Sources/Utils/ColourFilters.swift:42 | equals the filter that the name `OXX` describes: letter R/G/B keeps its channel, X fills it and O clears it; alpha is kept only without an O |
| ColourFilters.OXO | Utils/Sources/Utils/ColourFilters.swift:43 | equals the filter that the name `OXO` describes: letter R/G/B keeps its channel, X fills it and O clears it; alpha is kept only without an O |
| ColourFilters.OOB | Utils/Sources/Utils/ColourFilters.swift:44 | equals the filter that the name `OOB` describes: letter R/G/B keeps its channel, X fills it and O clears it; alpha is kept only without an O |
| ColourFilters.OOX | Utils/Sources/Utils/ColourFilters.swift:45 | equals the filter that the name `OOX` describes: letter R/G/B keeps its channel, X fills it and O clears it; alpha is kept only without an O |
| ColourFilters.OOO | Utils/Sources/Utils/ColourFilters.swift:46 | equals the filter that the name `OOO` describes: letter R/G/B keeps its channel, X fills it and O clears it; alpha is kept only without an O |
| ColourFilters.None | Utils/Sources/Utils/ColourFilters.swift:5 | the identity |
| ColourFilters.Reds | Utils/Sources/Utils/ColourFilters.swift:7 | the filter that `ROO` describes |
| ColourFilters.Redish | Utils/Sources/Utils/ColourFilters.swift:8 | the filter that `XGB` describes |
| ColourFilters.Redless | Utils/Sources/Utils/ColourFilters.swift:9 | the filter that `OGB` describes |
| ColourFilters.Greens | Utils/Sources/Utils/ColourFilters.swift:11 | the filter that `OGO` describes |
| ColourFilters.Greenish | Utils/Sources/Utils/ColourFilters.swift:12 | the filter that `RXB` describes |
| ColourFilters.Greenless | Utils/Sources/Utils/ColourFilters.swift:13 | the filter that `ROB` describes |
| ColourFilters.Blues | Utils/Sources/Utils/ColourFilters.swift:15 | the filter that `OOB` describes |
| ColourFilters.Bluish | Utils/Sources/Utils/ColourFilters.swift:16 | the filter that `RGX` describes |
| ColourFilters.Blueish | Utils/Sources/Utils/ColourFilters.swift:17 | the filter that `RGX` describes |
| ColourFilters.Blueless | Utils/Sources/Utils/ColourFilters.swift:18 | the filter that `RGO` describes |
| ColourFilters.Named | Utils/Sources/Utils/ColourFilters.swift:20-46 | each of the 27 names selects a filter equal to the filter that name describes; for `RXO` and `ROX` this is the corrected definition (`RXO`, `ROX`), not the body on lines 25 and 27 |
| ColourFilters.NamedIdempotent | Utils/Sources/Utils/ColourFilters.swift:20-46 | every filter is idempotent |
| ColourFilters.AsWrittenIdempotent | Utils/Sources/Utils/ColourFilters.swift:25-27 | the two misnamed filters as written are idempotent too |
| ColourFilters.NamedConstant | Utils/Sources/Utils/ColourFilters.swift:36-46 | a filter that keeps no channel and clears one does not depend on its input |
| ColourFilters.ConstantFilters | Utils/Sources/Utils/ColourFilters.swift:37-46 | `OOO`, `XOO`, `OXO` and `OOX` are the constants 0, R, G and B |
| ColourFilters.ConstantPairFilters | Utils/Sources/Utils/ColourFilters.swift:34-42 | `XXO`, `XOX` and `OXX` are the paired masks |
| ColourFilters.ReferenceAlpha | Utils/Sources/Utils/ColourFilters.swift:20-46 | alpha survives exactly the filters with no O |
| ColourFilters.ReferenceRed | Utils/Sources/Utils/ColourFilters.swift:20-46 | the red byte of the result depends only on the red letter and the red byte |
| ColourFilters.ReferenceGreen | Utils/Sources/Utils/ColourFilters.swift:20-46 | the same for green |
| ColourFilters.ReferenceBlue | Utils/Sources/Utils/ColourFilters.swift:20-46 | the same for blue |
| ColourFilters.MisnamedFilters | Utils/Sources/Utils/ColourFilters.swift:25-27 | `RXO` as written equals `RGO` and `ROX` as written equals `OOB`; on input 0 each differs from what its name reads |
| ColourFilters.Aliases | Utils/Sources/Utils/ColourFilters.swift:5-18 | each alias is its target filter; `None` and `RGB` are the identity |
| DisplayInfo.Make | Sources/Utils/DisplayInfo.swift:20-25 | the size and scale are stored; width and height are the floors of the size |
| DisplayInfo.FromBounds | Sources/Utils/DisplayInfo.swift:27-29 | built from the size of the bounds |
| DisplayInfo.FromDimensions | Sources/Utils/DisplayInfo.swift:31-33 | built from a size of the given width and height |
| DisplayInfo.FromIntDimensions | Sources/Utils/DisplayInfo.swift:35-37 | integer dimensions are kept exactly |
| DisplayInfo.Scale | Sources/Utils/DisplayInfo.swift:39 | the integer result is within one half of `value * scale`; a tie is rounded away from zero |
| DisplayInfo.ScaleReal | Sources/Utils/DisplayInfo.swift:40 | dividing the result by the scale gives the value back |
| DisplayInfo.ScaleIf | Sources/Utils/DisplayInfo.swift:41 | with `scaling` it is `Scale`; without it the value is unchanged |
| DisplayInfo.ScaleRealIf | Sources/Utils/DisplayInfo.swift:42 | the same, for a floating-point value |
| DisplayInfo.Unscale | Sources/Utils/DisplayInfo.swift:44 | the integer result is within one half of `value / scale`; a tie is rounded away from zero |
| DisplayInfo.UnscaleReal | Sources/Utils/DisplayInfo.swift:45 | multiplying the result by the scale gives the value back |
| DisplayInfo.UnscaleIf | Sources/Utils/DisplayInfo.swift:46 | with `scaling` it is `Unscale`; without it the value is unchanged |
| DisplayInfo.UnscaleRealIf | Sources/Utils/DisplayInfo.swift:47 | the same, for a floating-point value |
| DisplayInfo.Scaler | Sources/Utils/DisplayInfo.swift:53-69 | the second component is always the value in points; with `scaling` the first is the value in pixels; without it both components are equal |
| DisplayInfo.ScalerInOut | Sources/Utils/DisplayInfo.swift:73-76 | the two out-values are exactly the tuple from `Scaler` |
| DisplayInfo.ScaleRoundTrip | Sources/Utils/DisplayInfo.swift:39-44 | at a whole-number scale `k`, scaling multiplies by `k` and unscaling brings the value back |
| DisplayInfo.ScaleMonotone | Sources/Utils/DisplayInfo.swift:39-44 | converting points to pixels preserves order |
| DisplayInfo.UnscaleMonotone | Sources/Utils/DisplayInfo.swift:44 | converting pixels to points preserves order |
| DisplayInfo.ScaleRealRoundTrip | Sources/Utils/DisplayInfo.swift:40-45 | the floating-point conversions are mutually inverse |
| Display.Width | Sources/Utils/Display.swift:9 | the floor of the screen width |
| Display.Height | Sources/Utils/Display.swift:10 | the floor of the screen height |
| Display.Scale | Sources/Utils/Display.swift:12 | within one half of `value * scale`; a tie is rounded away from zero |
| Display.Unscale | Sources/Utils/Display.swift:13 | within one half of `value / scale`; a tie is rounded away from zero |
| Display.ScaleIf | Sources/Utils/Display.swift:15 | `Scale` with `scaling`; the value unchanged without it |
| Display.UnscaleIf | Sources/Utils/Display.swift:16 | `Unscale` with `scaling`; the value unchanged without it |
| Display.Scaler | Sources/Utils/Display.swift:22-38 | the same tuple as for `DisplayInfo`: the second component is in points, and both are equal without `scaling` |
| Display.ScalerInOut | Sources/Utils/Display.swift:42-45 | the out-values are exactly the tuple |
| Display.AgreesWithDisplayInfo | Sources/Utils/Display.swift:7-38 | every member equals the `DisplayInfo` member for the same size and scale |
| Display.ScalerPointsAgree | Sources/Utils/Display.swift:22-38 | at a whole-number scale, a pixel value and the point value it came from give the same point component |
| Screen.Make | Utils/Sources/Utils/Screen.swift:15-19 | width and height truncate the size toward zero; the scale is stored |
| Screen.SizeOf | Utils/Sources/Utils/Screen.swift:23 | the size is the integer width and height |
| Screen.ScaleFactor | Utils/Sources/Utils/Screen.swift:31 | the stored scale with `scaling` (the default); 1.0 without it |
| Screen.Scaled | Utils/Sources/Utils/Screen.swift:47 | within one half of `value * scale`; a tie is rounded away from zero |
| Screen.ScaledReal | Utils/Sources/Utils/Screen.swift:48 | dividing by the scale gives the value back |
| Screen.ScaledIf | Utils/Sources/Utils/Screen.swift:49-51 | `Scaled` when scaling; the value unchanged otherwise |
| Screen.ScaledRealIf | Utils/Sources/Utils/Screen.swift:52-54 | `ScaledReal` when scaling; the value unchanged otherwise |
| Screen.Unscaled | Utils/Sources/Utils/Screen.swift:56 | within one half of `value / scale`; a tie is rounded away from zero |
| Screen.UnscaledReal | Utils/Sources/Utils/Screen.swift:57 | multiplying by the scale gives the value back |
| Screen.UnscaledIf | Utils/Sources/Utils/Screen.swift:58-60 | `Unscaled` when scaling; the value unchanged otherwise |
| Screen.UnscaledRealIf | Utils/Sources/Utils/Screen.swift:61-63 | `UnscaledReal` when scaling; the value unchanged otherwise |
| Screen.FlaggedConversions | Utils/Sources/Utils/Screen.swift:49-63 | the `scaling:` variants agree with the plain conversions when scaling and return the value unchanged otherwise |
| Screen.ScaleFactorIsTheConversion | Utils/Sources/Utils/Screen.swift:31-63 | the flagged floating-point conversions multiply or divide by `scale(scaling:)` |
| Screen.ScaledRoundTrip | Utils/Sources/Utils/Screen.swift:47-59 | at a whole-number scale, scaling and then unscaling gives the value back |
| Screen.TruncationIsFloorWhenNonNegative | Utils/Sources/Utils/Screen.swift:16-17 | for a non-negative size, truncation gives the same dimensions as the floor used by `DisplayInfo` |
| Screen.TruncationDiffersFromFloor | Utils/Sources/Utils/Screen.swift:16-17 | for -0.5, truncation gives 0 and the floor gives -1 |
| ImageContentView.NormalizePoint | Sources/Utils/ImageContentView.swift:148-151 | the point is moved by half the size difference on each axis |
| ImageContentView.IgnorePoint | Sources/Utils/ImageContentView.swift:153-157 | never when `viewPoints`; otherwise exactly when the point is outside `[0, w) x [0, h)` |
| ImageContentView.IgnoredExactlyOffImage | Sources/Utils/ImageContentView.swift:104-106 | a view point is kept exactly when it lies on the image centred in the view |
| ImageContentView.OriginNormalizesToZero | Sources/Utils/ImageContentView.swift:148-151 | the image's top-left corner normalises to the origin |
| ImageContentView.ToolBarSlots | Sources/Utils/ImageContentView.swift:174-194 | hidden shows nothing; otherwise item 0 leads, the last item trails when the count is above 1, and the items between are in the middle when it is above 2 |
| ImageContentView.ToolBarShowsEveryItem | Sources/Utils/ImageContentView.swift:176-191 | a shown toolbar shows every item once, in order |
| ImageContentView.ToolBarHidden | Sources/Utils/ImageContentView.swift:131 | hidden exactly when `hideToolBar || ignoreSafeArea` |
| ImageContentView.ToolBarViewable | Sources/Utils/ImageContentView.swift:64-70 | each builder applied to the configuration, same count and order |
| ImageContentView.ToolBarViewableAppend | Sources/Utils/ImageContentView.swift:64-70 | building a joined list is joining the built lists |
| ImageContentView.Config.constructor | Sources/Utils/ImageContentView.swift:16-22 | the flags are stored, a missing background is black, and the counters start at 0 |
| ImageContentView.Config.UpdateImage | Sources/Utils/ImageContentView.swift:24 | only `watchImage` changes, by +1 |
| ImageContentView.Config.ApplySettings | Sources/Utils/ImageContentView.swift:25 | only `watchSettings` changes, by +1 |
| ImageContentView.Config.ShowSettingsView | Sources/Utils/ImageContentView.swift:26 | only `watchSettingsView` changes, by +1 |
| ImageContentView.View.ToolBarIsHidden | Sources/Utils/ImageContentView.swift:131 | the view's own flags decide whether the toolbar is hidden |
| ImageContentView.View.constructor | Sources/Utils/ImageContentView.swift:88-98 | the view's copies of the settings equal the configuration's |
| ImageContentView.View.ApplySettings | Sources/Utils/ImageContentView.swift:159-165 | the copies are taken again, so the view matches its configuration |
| Math.Remainder | Sources/Utils/Math.swift:21 | Swift's `%`: differs from the value by a multiple of the modulus, has the sign of the value and is smaller than the modulus in magnitude |
| Math.Modulo | Sources/Utils/Math.swift:20-23 | differs from the value by a multiple of the modulus, and lies in `[0, modulus)` for a positive modulus |
| Math.ModuloIsEuclidean | Sources/Utils/Math.swift:3-8 | for a positive modulus it is the true (Euclidean) modulo |
| Math.ModuloPeriodic | Sources/Utils/Math.swift:20-23 | values a multiple of the modulus apart give the same result |
| Math.ModuloOfNonNegative | Sources/Utils/Math.swift:22 | a non-negative value keeps its remainder |
| Math.NegativeModulus | Sources/Utils/Math.swift:22 | with a negative modulus a negative remainder lands in `(2m, m)` |
| Math.DocumentedExamples | Sources/Utils/Math.swift:8-17 | `-1 % 5` is -1 and `modulo(-1, 5)` is 4; `-69` becomes 77 for modulus 146 |
| StringExtensions.Repeat | Utils/Sources/Utils/String+Extensions.swift:8-14 | `String(repeating:count:)`: the count of copies of the pad |
| StringExtensions.LPad | Utils/Sources/Utils/String+Extensions.swift:5-9 | a string already long enough is unchanged; the length is `max(length, count)`; the result ends with the string, after pad characters only |
| StringExtensions.RPad | Utils/Sources/Utils/String+Extensions.swift:11-15 | the same, with the string first and the padding after it |
| StringExtensions.PadIdempotent | Utils/Sources/Utils/String+Extensions.swift:5-15 | padding again to the same length changes nothing |
| StringExtensions.LPadMirrorsRPad | Utils/Sources/Utils/String+Extensions.swift:5-15 | left padding is right padding of the reversed string, reversed |
| Clamp.Clamped | Sources/Utils/Comparable+Clamp.swift:3 | within the range; a value in range is unchanged; below gives the lower bound and above gives the upper |
| Clamp.ClampedIdempotent | Sources/Utils/Comparable+Clamp.swift:3 | clamping twice is clamping once |
| Clamp.ClampedMonotone | Sources/Utils/Comparable+Clamp.swift:3 | clamping preserves order |
| Clamp.ClampedIsNearest | Sources/Utils/Comparable+Clamp.swift:3 | the result is the point of the range nearest the value |

## Left out

- SwiftUI plumbing: the gesture recognisers (`DragGesture`, `LongPressGesture.sequenced`, `TapGesture(count: 2)`, `MagnificationGesture`) and the `AnyView` composition. They are the event sources that call the handler methods. Double tap and zoom only pass their events through.
- `Date()`: the current time is the `now` parameter, in whole milliseconds.
- `Gesture.SmartGesture` and `LegacyGesture.SmartGesture` record callbacks in a ghost log. The values passed to user closures are recorded, but the closures themselves are not modelled.
- Floating-point colour maths is not modelled: `tint`, `lighten`, `darken`, `isDark`, `opacity(Float)`, `transparency(Float)`. Neither is `Colour.random`, which uses randomness, nor the `UIColor`/`Color`/`CGColor` conversions.
- Colour.Black: the byte form of the system black is taken as red 0, green 0, blue 0, alpha 255. This is the colour in its `UIColor` form, and that conversion is not modelled.
- Orientation and OrientationObserver: `UIDevice`, `UIApplication`, NotificationCenter, Combine and `DispatchQueue.main.async` are left out. The raw device orientation, the scene orientation, the plist list and the iPad idiom are parameters.
- Display and Screen: the `UIScreen.main` reads are parameters.
- DisplayInfo, Display and Screen: the scale is a positive real. The pixel conversions are exact over reals, so `CGFloat` rounding error is not modelled.
- Integer overflow traps (Swift `Int` is 64 bits) are not modelled. Every integer is unbounded.
- Memory.FastCopy: `requires 0 <= count`. With a negative count the guard can pass (index 0, count -1), and `memset_pattern4` then gets a negative length, which is undefined behaviour.
- Memory.Allocate: for a zero or missing `initialize` the contents are unspecified, and the contract says only the length.
- Memory.Allocate: `size` is a `nat`; a negative size, which traps in Swift, is not modelled.
- Memory: `memset_pattern4` and the raw pointers are modelled only by their effect on a byte array. The store of `value.bigEndian` assumes a little-endian host.
- ImageContentView: the body, navigation, rendering and the `@ObservedObject`/`@State` wiring are left out. So is the view's call of `onSmartGesture`, whose arguments fit neither version of the modifier.
- ImageContentView.ToolBarSlots: `requires hidden || 1 <= |items|`, because a shown toolbar reads `toolBarViews[0]` and traps on an empty list.
- ImageContentView.ToolBarViewable: builders are total function values. `ImageViewable`'s view builders produce opaque values.
- ImageContentView.View.constructor: the view's `@State background` is a SwiftUI `Color`; the model keeps the configuration's `Colour` instead.
- Clamp.Clamped: modelled over `int` only, whereas `clamped(_:)` is generic over `Comparable`.
- StringExtensions.LPad: a string is a sequence of Unicode scalars, so lengths count scalars where Swift's `count` counts `Character`s (grapheme clusters); for `"e\u{301}"` Swift pads to length 2 but the model does not.
- StringExtensions.RPad: the same: lengths count Unicode scalars, not Swift `Character`s, and the pad is one scalar.
- Files with no modellable logic are not part of this model: ScheduledTimer (timers), Feedback (audio and haptics), DefaultImage and DummyImage (CGContext), IconLabel, SettingsSection, the view extensions, `BinaryFloatingPoint.rounded`, ColourPalette and ColourMode.

Behaviour of the code that the model exhibits and that a reader might not expect:

- A long press that ends at (5, 5) after a touch-down at (0, 0), with a tolerance of 6, gives no long tap. The distance `hypot(5, 5)` is about 7.07, and the long tap needs it to be at most the tolerance. The lift is then a tap (`Gesture.ScenarioLongPressTooFar`).
- A session without a drag can give both a long tap and a tap, when the lift comes at least `longTapPreemptTapThreshold` after the long tap. The tap is dropped only inside that window (`Gesture.LongTapSuppressesTap`).
- `onDragEnd` comes before a swipe only in the current version. The older version evaluates swipes first, on every end.

## Findings

| source | as written | input that shows it | evidently intended | confidence | as-written member | corrected member |
|---|---|---|---|---|---|---|
| Utils/Sources/Utils/ColourFilters.swift:25 | `RXO` is `value & (R \| G)`, the same as `RGO`: green is kept, not filled | `RXO(0)` is 0, where the name (red kept, green full, blue cleared) reads `0xFF00` | `(value & R) \| G`, which keeps red and fills green; every other filter reads R/G/B as keep, X as fill and O as clear | not executed | ColourFilters.RXOAsWritten | ColourFilters.RXO |
| Utils/Sources/Utils/ColourFilters.swift:27 | `ROX` is `(value & (R \| B)) & B`, the same as `OOB`: red is cleared and blue kept | `ROX(0)` is 0, where the name (red kept, green cleared, blue full) reads `0xFF_0000` | `(value & (R \| B)) \| B` with green cleared, keeping red and filling blue | not executed | ColourFilters.ROXAsWritten | ColourFilters.ROX |
