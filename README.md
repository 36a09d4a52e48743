# LiquidVolume overlay core, modelled in Dafny

LiquidVolume replaces Android's volume panel with an overlay. Its
accessibility service intercepts the hardware volume keys. While a key is
held it steps the music stream, once at once and then every 120 ms, and shows
the overlay's panel after each step. The panel service keeps two overlay
windows: a primary music slider with a menu button, and a secondary panel
with ring, notification and alarm sliders. Both hide after 2 s without a
touch.

Dragging a slider, or a call from the Flutter side, sets an absolute level.
The platform only offers relative raise/lower steps, so `applySliderVolume`
reaches the target with a "ratchet". It takes |clamped target − current|
guarded single steps. For the ring and notification streams, when the level
must move and the requested (unclamped) target is above 0, it first leaves
silent or do-not-disturb mode, provided policy access was granted. This
happens when lowering to a positive level as well as when raising. The
activity bridges the Flutter app through a method channel (permissions,
volume get/set) and an event channel that forwards volume-change broadcasts.

Files, one module each:

- `wrappers.dfy`: `Option`.
- `numbers.dfy`: Kotlin's `coerceIn`, `abs` and truncating `toInt()`.
- `audio.dfy`: the platform audio service as an object with per-stream levels and maxima. The answer to each adjust call (moved, capped, or refused with `SecurityException`) is an explicit input script. A log records every state-changing call.
- `ratchet.dfy`: the ratchet as pure functions (`Iterate`, `ApplySlider`) and the lemmas about what one apply does.
- `touch.dfy`: slider geometry and the fraction/level arithmetic shared by both panels.
- `services.dfy`: the four Android classes: `VolumeAccessibilityService`, `VolumePanelService`, `LiquidVolumePanelView` and `SecondaryVolumePanelView`. Each method is proved against the functions above.
- `bridge.dfy`: `MainActivity`'s method-channel routing, the volume receiver and the enabled-services check.

The main-thread handler is modelled per callback. Posted repeat runnables are
a multiset on the accessibility service, and posted auto-hide runnables are a
count on the panel service. The window manager is the set of attached views.
An animation that has started is a view's `anim` state, and its normal end is
a separate event method. A cancelled animation never runs its end action.

Points where the code behaves in a way one might not expect (the model follows the code):

- The first repeat step runs immediately (`handler.post`), not after an initial delay.
- A key-down while a key is already held is not consumed: `onKeyEvent` returns false.
- In `applySliderVolume`, a refused step (`SecurityException`) skips only that iteration (`return@repeat`). The loop does not stop, so the result ends one level short rather than aborting.
- Slider fractions become levels by truncation (`toInt()`), i.e. floor for fractions in [0, 1], not by rounding.
- The key-repeat path (`changeVolume`) catches nothing, so a refused step there propagates out of the runnable.
- While a closed secondary panel's fade-out runs, a newly opened secondary can be attached next to it.

## Model

| member | source | states |
|---|---|---|
| Numbers.Clamp | android/app/src/main/kotlin/com/example/liquid_volume/VolumeAccessibilityService.kt:103 | the result lies in [lo, hi], equals x inside the range and the nearer bound outside it |
| Numbers.Clamp01 | android/app/src/main/kotlin/com/example/liquid_volume/LiquidVolumePanelView.kt:151 | the fraction is coerced into [0, 1], unchanged inside it |
| Numbers.Abs | android/app/src/main/kotlin/com/example/liquid_volume/VolumeAccessibilityService.kt:124 | the iteration count is a natural equal to delta or -delta |
| Numbers.ToInt | android/app/src/main/kotlin/com/example/liquid_volume/LiquidVolumePanelView.kt:161 | `toInt()` truncates toward zero: floor bounds for non-negative values, ceiling bounds for negative ones |
| Numbers.ClampedTruncationIsFloor | android/app/src/main/kotlin/com/example/liquid_volume/MainActivity.kt:137 | once coerced into [0, max], truncation and floor give the same level, so a negative volume argument yields 0 |
| Audio.MovedLevel | android/app/src/main/kotlin/com/example/liquid_volume/VolumeAccessibilityService.kt:132 | a step that moves changes the level by at most one in its direction, stays in [0, max], and changes it exactly when not already at the bound |
| Audio.Step | android/app/src/main/kotlin/com/example/liquid_volume/VolumeAccessibilityService.kt:131-136 | one adjust call: logged, consumes one answer, touches only its stream, leaves the level unchanged unless the answer is Moved, and on Moved sets it to MovedLevel |
| Audio.AudioBackend.AdjustStreamVolume | android/app/src/main/kotlin/com/example/liquid_volume/VolumeAccessibilityService.kt:132 | the backend moves to `Step` of its state and reports a refusal exactly when the answer is Denied |
| Ratchet.Iterate | android/app/src/main/kotlin/com/example/liquid_volume/VolumeAccessibilityService.kt:124-137 | n guarded iterations keep every level within [0, max] |
| Ratchet.ApplySlider | android/app/src/main/kotlin/com/example/liquid_volume/VolumeAccessibilityService.kt:97-140 | the whole apply keeps every level within [0, max] |
| Ratchet.IterateFrame | android/app/src/main/kotlin/com/example/liquid_volume/VolumeAccessibilityService.kt:124-137 | the loop only appends adjust calls for its own stream and direction, at most one per iteration, and leaves other streams, maxima and ringer mode alone |
| Ratchet.IterateNoOvershoot | android/app/src/main/kotlin/com/example/liquid_volume/VolumeAccessibilityService.kt:125-129 | the overshoot guard keeps the level between its start and the target |
| Ratchet.IterateCount | android/app/src/main/kotlin/com/example/liquid_volume/VolumeAccessibilityService.kt:124-137 | with the target at least n away every iteration steps, and the level moves by exactly the number of steps that moved |
| Ratchet.ApplyAtTargetIsNoOp | android/app/src/main/kotlin/com/example/liquid_volume/VolumeAccessibilityService.kt:103-105 | a clamped target equal to the current level changes nothing, not even the ringer mode |
| Ratchet.ApplyCalls | android/app/src/main/kotlin/com/example/liquid_volume/VolumeAccessibilityService.kt:115-137 | the silent-mode exit happens exactly when its conditions hold and the level must move, strictly before any step; then at most abs(delta) steps on the stream in delta's direction |
| Ratchet.ApplyNoOvershoot | android/app/src/main/kotlin/com/example/liquid_volume/VolumeAccessibilityService.kt:100-129 | the final level lies between the level read at entry and the clamped target |
| Ratchet.ApplyLevel | android/app/src/main/kotlin/com/example/liquid_volume/VolumeAccessibilityService.kt:124-137 | all abs(delta) iterations issue a step, and the final level is the entry level moved by the number of steps the platform let through |
| Ratchet.ApplyConverges | android/app/src/main/kotlin/com/example/liquid_volume/VolumeAccessibilityService.kt:100-137 | with an obedient platform the level ends exactly at the clamped target, using exactly abs(delta) steps |
| Ratchet.ApplyDenialSkipsOneStep | android/app/src/main/kotlin/com/example/liquid_volume/VolumeAccessibilityService.kt:131-136 | a single refused step skips only its iteration: the loop still runs to the end and stops one level short of the target |
| Ratchet.ApplyTwiceIsApplyOnce | android/app/src/main/kotlin/com/example/liquid_volume/VolumeAccessibilityService.kt:97-140 | with an obedient platform, applying the same target again changes nothing |
| Touch.PrimaryRegions | android/app/src/main/kotlin/com/example/liquid_volume/LiquidVolumePanelView.kt:268-271 | the menu band is exactly y in [630, 770]; it lies below the slider, and the 30-pixel gap claims nothing |
| Touch.Fraction | android/app/src/main/kotlin/com/example/liquid_volume/LiquidVolumePanelView.kt:150-151 | the fraction lies in [0, 1]: 1 at or above the slider's top, 0 at or below its bottom |
| Touch.FractionNonIncreasing | android/app/src/main/kotlin/com/example/liquid_volume/LiquidVolumePanelView.kt:150-151 | moving the finger down never raises the fraction |
| Touch.TargetLevel | android/app/src/main/kotlin/com/example/liquid_volume/LiquidVolumePanelView.kt:161 | the requested level lies in [0, max] |
| Touch.TargetIsFloor | android/app/src/main/kotlin/com/example/liquid_volume/LiquidVolumePanelView.kt:161 | for a fraction in [0, 1] the level is the floor of fraction times max |
| Touch.TargetLevelMonotone | android/app/src/main/kotlin/com/example/liquid_volume/LiquidVolumePanelView.kt:161 | a larger fraction never asks for a lower level |
| Touch.DragDownNeverRaisesTarget | android/app/src/main/kotlin/com/example/liquid_volume/SecondaryVolumePanelView.kt:148-154 | dragging down a slider never asks for a higher level |
| Touch.SyncedProgress | android/app/src/main/kotlin/com/example/liquid_volume/LiquidVolumePanelView.kt:180 | the shown fraction lies in [0, 1], and is 0 for a stream whose max is 0 |
| Touch.SyncedProgressRoundTrip | android/app/src/main/kotlin/com/example/liquid_volume/LiquidVolumePanelView.kt:158-181 | the level -> fraction -> level mapping is the identity in exact arithmetic: truncating the synced fraction (`syncVolume`) times max, as `applyVolume` does, gives the level back |
| Touch.SliderRect | android/app/src/main/kotlin/com/example/liquid_volume/SecondaryVolumePanelView.kt:254-257 | each slider is 140 wide and spans y in [0, 600) |
| Touch.SliderLayout | android/app/src/main/kotlin/com/example/liquid_volume/SecondaryVolumePanelView.kt:248-260 | ring at [w-140, w), notification at [w-300, w-160), alarm at [w-460, w-320) |
| Touch.SlidersDisjoint | android/app/src/main/kotlin/com/example/liquid_volume/SecondaryVolumePanelView.kt:248-260 | no point lies in two sliders |
| LiquidVolume.VolumeAccessibilityService.OnKeyEvent | android/app/src/main/kotlin/com/example/liquid_volume/VolumeAccessibilityService.kt:41-76 | a first volume-key down starts holding and posts one runnable in the key's direction; a down while holding and every other key or action are not consumed and change nothing; a key up stops holding and removes the pending runnable; holding goes with a current runnable, and at most that runnable is pending (after a refused tick it holds with none pending) |
| LiquidVolume.VolumeAccessibilityService.RunRepeat | android/app/src/main/kotlin/com/example/liquid_volume/VolumeAccessibilityService.kt:55-94 | one tick is one music step. When it moves or is capped, the panel shows the read-back level with one auto-hide pending, the runnable is re-posted, and the views and windows change only as `showPanel` says: an absent primary is created wired, off-screen and transparent, attached and logged; a present one has its exit cancelled (idle, in place, opaque) and keeps its drag and menu wiring; the secondary and closing set are kept, the secondary synced with its drag, alpha and animation kept. When refused, nothing is shown or re-posted and neither view changes |
| LiquidVolume.VolumeAccessibilityService.ApplySliderVolume | android/app/src/main/kotlin/com/example/liquid_volume/VolumeAccessibilityService.kt:97-140 | the loop leaves the platform exactly in `Ratchet.ApplySlider` of its state at entry |
| LiquidVolume.VolumePanelService.CancelAutoHide | android/app/src/main/kotlin/com/example/liquid_volume/VolumePanelService.kt:31-33 | no auto-hide remains pending |
| LiquidVolume.VolumePanelService.ScheduleAutoHide | android/app/src/main/kotlin/com/example/liquid_volume/VolumePanelService.kt:35-38 | exactly one auto-hide is pending, however many were before |
| LiquidVolume.VolumePanelService.RemoveIfAttached | android/app/src/main/kotlin/com/example/liquid_volume/VolumePanelService.kt:137-139 | a view is removed from the window manager only when attached, so removal never fails |
| LiquidVolume.VolumePanelService.AttachNewPanel | android/app/src/main/kotlin/com/example/liquid_volume/VolumePanelService.kt:43-79 | a new primary view, 1000 pixels off-screen and transparent, is wired to `toggleSecondary`, attached and logged once, and starts its entrance |
| LiquidVolume.VolumePanelService.ShowPanel | android/app/src/main/kotlin/com/example/liquid_volume/VolumePanelService.kt:40-92 | the primary window is created and attached only when absent; otherwise it is reused with its animation cancelled, in place and opaque, keeping its drag and its menu wiring. Both views show the platform's levels; the secondary keeps its drag, opacity and animation; exactly one auto-hide is pending |
| LiquidVolume.VolumePanelService.ToggleSecondary | android/app/src/main/kotlin/com/example/liquid_volume/VolumePanelService.kt:94-130 | closing drops the reference at once and starts the fade-out, with the window still attached; opening attaches a fresh, synced, transparent secondary |
| LiquidVolume.VolumePanelService.HidePanel | android/app/src/main/kotlin/com/example/liquid_volume/VolumePanelService.kt:132-151 | the primary starts its exit with the auto-hide cancelled; the secondary is detached and dropped at once; with neither view nothing changes |
| LiquidVolume.VolumePanelService.OnAutoHide | android/app/src/main/kotlin/com/example/liquid_volume/VolumePanelService.kt:29 | the posted hide runs `hidePanel`: no auto-hide remains pending, the primary starts its exit, and an open secondary is detached (one `removeView`) and dropped |
| LiquidVolume.VolumePanelService.OnPrimaryExitEnd | android/app/src/main/kotlin/com/example/liquid_volume/VolumePanelService.kt:136-141 | at the end of the exit the view is idle, moved off by its width and transparent; the window is detached (one `removeView` only if attached), and the reference is cleared only if it still names this view |
| LiquidVolume.VolumePanelService.OnSecondaryExitEnd | android/app/src/main/kotlin/com/example/liquid_volume/VolumePanelService.kt:99-103 | a closed secondary's window is removed when its fade-out ends, so no window leaks |
| LiquidVolume.LiquidVolumePanelView.SyncVolume | android/app/src/main/kotlin/com/example/liquid_volume/LiquidVolumePanelView.kt:176-181 | the shown fraction is the music level over its max |
| LiquidVolume.LiquidVolumePanelView.UpdateVolume | android/app/src/main/kotlin/com/example/liquid_volume/LiquidVolumePanelView.kt:143-146 | the arguments are ignored and the fraction is re-read from the platform |
| LiquidVolume.LiquidVolumePanelView.OnEntranceEnd | android/app/src/main/kotlin/com/example/liquid_volume/LiquidVolumePanelView.kt:117-127 | when the slide-in ends the view sits in place, fully opaque, with no animation running |
| LiquidVolume.LiquidVolumePanelView.ApplyVolume | android/app/src/main/kotlin/com/example/liquid_volume/LiquidVolumePanelView.kt:158-174 | with the service present, the platform ends in the ratchet result for the truncated, clamped level |
| LiquidVolume.LiquidVolumePanelView.UpdateVolumeFromTouch | android/app/src/main/kotlin/com/example/liquid_volume/LiquidVolumePanelView.kt:148-156 | the stored fraction is `Fraction(y, 0, 600)` and that fraction is applied to music |
| LiquidVolume.LiquidVolumePanelView.OnDown | android/app/src/main/kotlin/com/example/liquid_volume/LiquidVolumePanelView.kt:80-95 | a press on the menu band toggles the secondary when wired (windows otherwise untouched) and cancels the auto-hide: a new secondary is fresh, synced, entering and transparent, and a closed one is exiting; on the slider it starts a music drag with the windows untouched; in the gap below it is refused and changes nothing |
| LiquidVolume.LiquidVolumePanelView.OnMove | android/app/src/main/kotlin/com/example/liquid_volume/LiquidVolumePanelView.kt:96-102 | within a drag a move cancels the auto-hide, leaves the windows untouched and applies `Fraction(y, 0, 600)` to music; outside one it is refused and changes nothing |
| LiquidVolume.LiquidVolumePanelView.OnTouch | android/app/src/main/kotlin/com/example/liquid_volume/LiquidVolumePanelView.kt:76-113 | a menu press toggles the secondary and cancels the auto-hide without touching the drag (a new secondary fresh, synced, entering and transparent; a closed one exiting); a down on the slider starts a music drag; a move drags only within a drag; up or cancel ends it and schedules the auto-hide; anything else is refused and changes nothing. Only the drag and the shown fraction can change on the view (the fraction only on a move), and the windows change only through the toggle |
| LiquidVolume.SecondaryVolumePanelView.SyncAllVolumes | android/app/src/main/kotlin/com/example/liquid_volume/SecondaryVolumePanelView.kt:165-171 | every slider's fraction equals its stream's level over its max, and the key set stays ring, notification and alarm |
| LiquidVolume.SecondaryVolumePanelView.UpdateVolume | android/app/src/main/kotlin/com/example/liquid_volume/SecondaryVolumePanelView.kt:132-136 | the arguments are ignored and all fractions are re-read |
| LiquidVolume.SecondaryVolumePanelView.OnEntranceEnd | android/app/src/main/kotlin/com/example/liquid_volume/SecondaryVolumePanelView.kt:110-118 | when the fade-in ends the panel is fully opaque, with no animation running |
| LiquidVolume.SecondaryVolumePanelView.GetVisibleSliders | android/app/src/main/kotlin/com/example/liquid_volume/SecondaryVolumePanelView.kt:248-260 | the map has exactly the three slider streams, each at its `SliderRect` position from the right edge |
| LiquidVolume.SecondaryVolumePanelView.HitTestSlider | android/app/src/main/kotlin/com/example/liquid_volume/SecondaryVolumePanelView.kt:138-144 | a stream is hit exactly when some slider contains the point, and then it is the only slider containing it |
| LiquidVolume.SecondaryVolumePanelView.UpdateStreamFromTouch | android/app/src/main/kotlin/com/example/liquid_volume/SecondaryVolumePanelView.kt:146-163 | only the dragged stream's fraction changes, and with the service present that stream ends in the ratchet result for its truncated level |
| LiquidVolume.SecondaryVolumePanelView.OnDown | android/app/src/main/kotlin/com/example/liquid_volume/SecondaryVolumePanelView.kt:89-92 | a press is claimed exactly when it hits a slider, and the drag is exactly the slider containing the point |
| LiquidVolume.SecondaryVolumePanelView.OnMove | android/app/src/main/kotlin/com/example/liquid_volume/SecondaryVolumePanelView.kt:93-98 | a move is handled exactly within a drag, and then sets only the dragged slider and applies its level |
| LiquidVolume.SecondaryVolumePanelView.OnTouch | android/app/src/main/kotlin/com/example/liquid_volume/SecondaryVolumePanelView.kt:84-107 | every event cancels the auto-hide, and up or cancel re-schedules it; the windows are untouched and only the drag and the fractions can change on the view. A down is claimed exactly when it hits a slider, and then drags exactly that slider. Moves drag only within a drag |
| Bridge.NextSeparator | android/app/src/main/kotlin/com/example/liquid_volume/MainActivity.kt:175 | the next ':' at or after the position, or the end, with no ':' in between |
| Bridge.Components | android/app/src/main/kotlin/com/example/liquid_volume/MainActivity.kt:172-179 | the splitter's pieces contain no ':' |
| Bridge.SplitThenJoin | android/app/src/main/kotlin/com/example/liquid_volume/MainActivity.kt:172-179 | for a setting not ending in ':', joining the pieces gives the setting back |
| Bridge.JoinThenSplit | android/app/src/main/kotlin/com/example/liquid_volume/MainActivity.kt:172-179 | splitting a join of names without ':' (the last non-empty) gives the names back |
| Bridge.EnabledIffListed | android/app/src/main/kotlin/com/example/liquid_volume/MainActivity.kt:168-181 | for a setting written as a list of names, the service counts as enabled exactly when one name matches ignoring case |
| Bridge.IsAccessibilityServiceEnabled | android/app/src/main/kotlin/com/example/liquid_volume/MainActivity.kt:168-181 | the loop with its early return answers `ServiceEnabled`: false for a missing setting, true iff some piece equals the component name ignoring case |
| Bridge.Route | android/app/src/main/kotlin/com/example/liquid_volume/MainActivity.kt:98-165 | only setVolume and setVolumeTarget move the volume, only with the service present, and then reply success. A rejected call does nothing. setVolume with an argument always succeeds and asks for the floor of volume times max, clamped. setVolumeTarget fails with INVALID_ARGUMENT or SERVICE_NOT_READY. Unknown names get notImplemented |
| Bridge.VolumeEventOf | android/app/src/main/kotlin/com/example/liquid_volume/MainActivity.kt:25-44 | an event exists exactly for a volume extra of at least 0; the divisor is the broadcast's max when positive, else the stream max, else 15, and is positive unless the platform reports a zero max |
| Bridge.BroadcastFractionInRange | android/app/src/main/kotlin/com/example/liquid_volume/MainActivity.kt:27-41 | a broadcast whose volume lies within its own positive max yields a fraction in [0, 1] |
| Bridge.MainActivity.OnListen | android/app/src/main/kotlin/com/example/liquid_volume/MainActivity.kt:87-89 | the sink is open |
| Bridge.MainActivity.OnCancel | android/app/src/main/kotlin/com/example/liquid_volume/MainActivity.kt:91-93 | the sink is closed |
| Bridge.MainActivity.OnReceive | android/app/src/main/kotlin/com/example/liquid_volume/MainActivity.kt:25-44 | the receiver sends `VolumeEventOf` of the broadcast, and only while the sink is open |
| Bridge.MainActivity.OnMethodCall | android/app/src/main/kotlin/com/example/liquid_volume/MainActivity.kt:98-165 | the handler replies and starts screens as `Route` says, and the platform ends in the ratchet result exactly when `Route` asks for an apply |

## Left out

- Drawing (`onDraw`, paints, icons, gradients), `invalidate`, measuring beyond the secondary's fixed 460-pixel width, `LayoutParams`, gravity and offsets: they affect pixels, not state.
- Animation timing and interpolators. An animation is only started, ended or cancelled. The posted block inside the primary's `animateShow` (translation to its width and full opacity before the slide-in) is folded into the entrance's end state.
- The `setStreamVolume` fallbacks in both views when the accessibility service is absent. They are platform calls outside the ratchet. Without the service the model leaves the platform unchanged.
- `lateinit` guards (`isInitialized`) and `startService` in `sendVolumeEvent`: the model assumes the service is connected and the panel service started.
- Service and activity lifecycles (`onCreate`, `onDestroy`, `onServiceConnected`, receiver registration), Flutter engine wiring and logging.
- Floating point: `Float`/`Double` values are exact reals, so rounding in `1 - y / 600` and in `percent * max` is not modelled. Kotlin's saturation of `toInt()` for huge or NaN values is not modelled either.
- Bridge.FoldCase: `equals(ignoreCase = true)` is modelled for ASCII letters only, not Unicode case mapping.
- Bridge.Route: `getVolume` replies with the pair (current, max), not the quotient. A wrong argument type (`ClassCastException`) is not modelled.
- Which platform answer an adjust call receives is an input (`script`), not derived from do-not-disturb policy rules.
- SetRingerModeNormal and ExitSilent: leaving silent or vibrate mode changes no level. On the platform the ring and notification streams read 0 while muted, and switching to normal mode restores their stored level. `applySliderVolume` keeps the direction and count it computed from the muted reading, so with ring reading 0, target 3 and a restored level of 7, every iteration sees the guard hold and the level ends at 7. The model does not capture this restore.
- ApplyNoOvershoot and ApplyConverges: for the ring and notification streams they hold only under the ringer abstraction above. With the restore, a silent-mode exit can leave the level past the target.
- ApplyLevel: for the ring and notification streams, when the call leaves silent mode, the stated number of adjust calls and the stated final level hold only under the ringer abstraction above. In the example above every iteration skips, so the platform sees no adjust call and ends at 7, where the lemma states three calls and level 3.
- ApplyDenialSkipsOneStep: for the ring and notification streams, when the call leaves silent mode, "one level short of the target" holds only under the ringer abstraction above. In the example above the platform ends at 7, not 2.
- ApplyTwiceIsApplyOnce: for the ring and notification streams, when the first call leaves silent mode, the second call being a no-op holds only under the ringer abstraction above. In the example above the first call ends at 7, and a second call with target 3 lowers the level to 3.
- ApplyCalls: its clause that every other stream keeps its level holds only under the ringer abstraction above. Leaving silent mode unmutes both ring and notification on the platform, so applying to one of them also restores the other's level.
- AttachNewPanel and ToggleSecondary: `addView` is assumed to succeed. Without the overlay permission it throws (VolumePanelService.kt:76 and :127). The exception is not caught, and it is thrown after `panelView` or `secondaryView` has been set, so the reference is left naming a view that is not attached. The model's `Valid` (a referenced view is attached) relies on this assumption.
- Concurrency: all events run one at a time on the main thread, as the handler does.
