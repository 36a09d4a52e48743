/**
 * The overlay's event-driven state: the accessibility service (volume-key
 * hold/repeat and the ratchet apply), the panel service (primary and
 * secondary windows, the auto-hide callback) and the two panel views (touch
 * drag sessions). The four classes refer to one another, as the Kotlin
 * classes of the one package do, so they share this module.
 *
 * The main-thread handler is modelled per callback: a multiset of posted
 * repeat runnables, and a count of posted auto-hide runnables. The window
 * manager is the set of attached views. A running view animation is the
 * view's `anim` state; its normal end is a separate event method.
 */
module LiquidVolume {
  import opened Wrappers
  import opened Audio
  import opened Numbers
  import opened Ratchet
  import opened Touch

  datatype KeyCode = VolumeUp | VolumeDown | OtherKey(code: int)
  datatype KeyAction = KeyDown | KeyUp | KeyMultiple
  datatype KeyEvent = KeyEvent(code: KeyCode, action: KeyAction)

  predicate IsVolumeKey(c: KeyCode) {
    c == VolumeUp || c == VolumeDown
  }

  datatype WindowCall = AddView(view: object) | RemoveView(view: object)

  /** A view animation that has been started and has neither ended nor been cancelled. */
  datatype Anim = Idle | Entering | Exiting

  /** The runnable a key press posts; the handler knows it by identity. */
  class RepeatRunnable {
    const direction: Direction

    constructor (d: Direction)
      ensures direction == d
    {
      direction := d;
    }
  }

  /** A possibly absent primary view as a set, so that a frame can name its fields. */
  ghost function Primary(v: LiquidVolumePanelView?): set<LiquidVolumePanelView> {
    if v == null then {} else {v}
  }

  /** A possibly absent secondary view as a set, so that a frame can name its fields. */
  ghost function Secondary(v: SecondaryVolumePanelView?): set<SecondaryVolumePanelView> {
    if v == null then {} else {v}
  }

  /** The secondary view of a possibly absent panel service. */
  ghost function SecondaryOf(p: VolumePanelService?): set<SecondaryVolumePanelView>
    reads p
  {
    if p == null then {} else Secondary(p.secondaryView)
  }

  /** The primary view of a possibly absent panel service. */
  ghost function PrimaryOf(p: VolumePanelService?): set<LiquidVolumePanelView>
    reads p
  {
    if p == null then {} else Primary(p.panelView)
  }

  /** VolumeAccessibilityService: hardware volume keys and the ratchet apply. */
  class VolumeAccessibilityService {
    const audio: AudioBackend
    var isHolding: bool
    var repeatRunnable: RepeatRunnable?
    var pending: multiset<RepeatRunnable>  // this service's runnables posted on the handler

    /** Holding and having a runnable go together, and at most one tick, the current runnable, is pending. */
    ghost predicate Valid()
      reads this
    {
      && (isHolding <==> repeatRunnable != null)
      && (pending == multiset{} || (repeatRunnable != null && pending == multiset{repeatRunnable}))
    }

    /** The service as `onServiceConnected` leaves it. */
    constructor (audio: AudioBackend)
      ensures Valid() && this.audio == audio
      ensures !isHolding && pending == multiset{}
    {
      this.audio := audio;
      isHolding := false;
      repeatRunnable := null;
      pending := multiset{};
    }

    /** `onKeyEvent`: returns whether the event is consumed. */
    method OnKeyEvent(e: KeyEvent) returns (consumed: bool)
      requires Valid()
      modifies this
      ensures Valid()
      ensures IsVolumeKey(e.code) && e.action == KeyDown && !old(isHolding) ==>
        && consumed && isHolding && fresh(repeatRunnable)
        && repeatRunnable.direction == (if e.code == VolumeUp then Raise else Lower)
        && pending == multiset{repeatRunnable}
      ensures IsVolumeKey(e.code) && e.action == KeyDown && old(isHolding) ==> !consumed && unchanged(this)
      ensures IsVolumeKey(e.code) && e.action == KeyUp ==>
        consumed && !isHolding && repeatRunnable == null && pending == multiset{}
      ensures !IsVolumeKey(e.code) || e.action == KeyMultiple ==> !consumed && unchanged(this)
    {
      if IsVolumeKey(e.code) {
        if e.action == KeyDown && !isHolding {
          isHolding := true;
          var direction := if e.code == VolumeUp then Raise else Lower;
          var runnable := new RepeatRunnable(direction);
          repeatRunnable := runnable;
          pending := pending + multiset{runnable};  // handler.post: the first tick runs at once
          return true;
        }
        if e.action == KeyUp {
          isHolding := false;
          if repeatRunnable != null {
            pending := pending[repeatRunnable := 0];  // handler.removeCallbacks
          }
          repeatRunnable := null;
          return true;
        }
      }
      return false;
    }

    /**
     * The handler runs a posted repeat runnable: one adjust of the music
     * stream, then the read-back level is shown on the panel, then the
     * runnable re-posts itself. `changeVolume` catches nothing: where the
     * platform refuses the step, the exception leaves `run()` before the
     * notification and the re-post, and `crashed` is true.
     */
    method RunRepeat(r: RepeatRunnable, panel: VolumePanelService?) returns (crashed: bool)
      requires Valid() && audio.Valid() && r in pending
      requires panel != null ==> panel.Valid() && panel.audio == audio
      modifies this, audio, panel, PrimaryOf(panel)`anim, PrimaryOf(panel)`translationX, PrimaryOf(panel)`alpha
      modifies PrimaryOf(panel)`mediaProgress, SecondaryOf(panel)`streamProgress
      ensures Valid() && audio.Valid()
      ensures isHolding && repeatRunnable == r
      ensures audio.state == Step(old(audio.state), Music, r.direction)
      ensures crashed <==> NextOutcome(old(audio.state.script)) == Denied
      ensures crashed ==> pending == multiset{}
      ensures !crashed ==> pending == multiset{r}
      ensures panel != null ==> panel.Valid()
      ensures panel != null && crashed ==> unchanged(panel) && unchanged(PrimaryOf(panel), SecondaryOf(panel))
      ensures panel != null && !crashed ==>
        && panel.pendingHides == 1 && panel.panelView != null
        && panel.panelView.mediaProgress == SyncedProgress(audio.state.levels.Of(Music), audio.state.maxes.Of(Music))
        && panel.secondaryView == old(panel.secondaryView) && panel.closing == old(panel.closing)
      ensures panel != null && !crashed && old(panel.panelView) == null ==>
        && fresh(panel.panelView) && panel.panelView.anim == Entering && panel.panelView.expandWired
        && panel.panelView.translationX == 1000.0 && panel.panelView.alpha == 0.0
        && panel.attached == old(panel.attached) + {panel.panelView} && panel.windowLog == old(panel.windowLog) + [AddView(panel.panelView)]
      ensures panel != null && !crashed && old(panel.panelView) != null ==>
        && panel.panelView == old(panel.panelView) && panel.panelView.anim == Idle
        && panel.panelView.translationX == 0.0 && panel.panelView.alpha == 1.0
        && panel.panelView.draggingStream == old(panel.panelView.draggingStream)
        && panel.panelView.expandWired == old(panel.panelView.expandWired)
        && panel.attached == old(panel.attached) && panel.windowLog == old(panel.windowLog)
      ensures panel != null && !crashed && panel.secondaryView != null ==>
        && panel.secondaryView.Synced()
        && panel.secondaryView.draggingStream == old(panel.secondaryView.draggingStream)
        && panel.secondaryView.alpha == old(panel.secondaryView.alpha) && panel.secondaryView.anim == old(panel.secondaryView.anim)
    {
      pending := pending - multiset{r};  // the handler takes the runnable off its queue
      var denied := audio.AdjustStreamVolume(Music, r.direction);
      if denied {
        return true;
      }
      var current := audio.GetStreamVolume(Music);
      var max := audio.GetStreamMaxVolume(Music);
      if panel != null {
        panel.ShowPanel(current, max);
      }
      pending := pending + multiset{r};  // handler.postDelayed(this, 120)
      return false;
    }

    /** `applySliderVolume`, proved against the ratchet specification. */
    method ApplySliderVolume(stream: Stream, target: int)
      requires audio.Valid()
      modifies audio
      ensures audio.Valid()
      ensures audio.state == ApplySlider(old(audio.state), stream, target)
    {
      ghost var entry := audio.state;
      var max := audio.GetStreamMaxVolume(stream);
      var current := audio.GetStreamVolume(stream);
      var safeTarget := Clamp(target, 0, max);
      var delta := safeTarget - current;
      if delta == 0 {
        ApplyAtTargetIsNoOp(entry, stream, target);
        return;
      }
      var direction := if delta > 0 then Raise else Lower;
      if target > 0 && (stream == Ring || stream == Notification) {
        if audio.state.policyAccess {
          if audio.state.ringer != Normal {
            audio.SetRingerModeNormal();
          }
        }
      }
      ghost var start := audio.state;
      assert start == ExitSilent(entry, stream, target);
      var n := Abs(delta);
      assert safeTarget == Clamp(target, 0, entry.maxes.Of(stream)) && delta == safeTarget - entry.levels.Of(stream);
      assert direction == DirectionOf(delta);
      ApplySliderUnfold(entry, stream, target);
      ghost var goal := ApplySlider(entry, stream, target);
      assert Iterate(start, stream, safeTarget, direction, n) == goal;
      var i := 0;
      while i < n
        invariant 0 <= i <= n
        invariant audio.Valid()
        invariant Iterate(audio.state, stream, safeTarget, direction, n - i) == goal
      {
        ghost var before := audio.state;
        IterateStep(before, stream, safeTarget, direction, n - i);
        var now := audio.GetStreamVolume(stream);
        if !Reached(now, safeTarget, direction) {
          var denied := audio.AdjustStreamVolume(stream, direction);
          // a SecurityException is caught and skips only this iteration
        }
        assert audio.state == if Reached(before.levels.Of(stream), safeTarget, direction) then before else Step(before, stream, direction);
        i := i + 1;
      }
      assert audio.state == Iterate(audio.state, stream, safeTarget, direction, 0);
    }
  }

  /** VolumePanelService: the overlay windows and the auto-hide callback. */
  class VolumePanelService {
    const audio: AudioBackend
    var panelView: LiquidVolumePanelView?
    var secondaryView: SecondaryVolumePanelView?
    var pendingHides: nat           // copies of hideRunnable posted on the handler
    var attached: set<object>       // views added to the window manager
    ghost var closing: set<SecondaryVolumePanelView>  // secondaries whose exit animation is running
    ghost var windowLog: seq<WindowCall>

    /**
     * At most one auto-hide is pending; a referenced view is attached; a
     * secondary being closed is still attached until its animation ends;
     * and every attached view is one of these, so no window leaks.
     */
    ghost predicate Valid()
      reads this, panelView, secondaryView
    {
      && pendingHides <= 1
      && (panelView != null ==> panelView in attached && panelView.audio == audio && panelView.Valid())
      && (secondaryView != null ==>
            secondaryView in attached && secondaryView !in closing && secondaryView.audio == audio && secondaryView.Valid())
      && (forall v :: v in closing ==> v in attached)
      && (forall v :: v in attached ==> v == panelView || v == secondaryView || v in closing)
    }

    /** Nothing about the windows changed: the same views, attachments, closing set and window calls. */
    twostate predicate WindowsKept()
      reads this
    {
      && panelView == old(panelView) && secondaryView == old(secondaryView)
      && attached == old(attached) && closing == old(closing) && windowLog == old(windowLog)
    }

    /**
     * The window effect of `toggleSecondary`: an open secondary is dropped
     * and starts closing while still attached; otherwise a new one is
     * attached. The primary is not touched.
     */
    twostate predicate SecondaryToggled()
      reads this
    {
      && panelView == old(panelView)
      && (old(secondaryView) != null ==>
            && secondaryView == null && closing == old(closing) + {old(secondaryView)}
            && attached == old(attached) && windowLog == old(windowLog))
      && (old(secondaryView) == null ==>
            && secondaryView != null && closing == old(closing)
            && attached == old(attached) + {secondaryView} && windowLog == old(windowLog) + [AddView(secondaryView)])
    }

    constructor (audio: AudioBackend)
      ensures Valid() && this.audio == audio
      ensures panelView == null && secondaryView == null && pendingHides == 0 && attached == {}
      ensures windowLog == []
    {
      this.audio := audio;
      panelView, secondaryView := null, null;
      pendingHides, attached := 0, {};
      closing, windowLog := {}, [];
    }

    method CancelAutoHide()
      modifies this`pendingHides
      ensures pendingHides == 0
    {
      pendingHides := 0;
    }

    method ScheduleAutoHide()
      modifies this`pendingHides
      ensures pendingHides == 1
    {
      pendingHides := 0;
      pendingHides := pendingHides + 1;
    }

    /** Removes `v` from the window manager only if it has a parent, so `removeView` never throws. */
    method RemoveIfAttached(v: object)
      modifies this`attached, this`windowLog
      ensures attached == old(attached) - {v}
      ensures windowLog == old(windowLog) + (if v in old(attached) then [RemoveView(v)] else [])
    {
      if v in attached {
        attached := attached - {v};
        windowLog := windowLog + [RemoveView(v)];
      }
    }

    /** The first `showPanel`: a new primary view, off-screen and transparent, is wired, attached and starts its entrance. */
    method AttachNewPanel()
      requires Valid() && audio.Valid() && panelView == null
      modifies this`panelView, this`attached, this`windowLog
      ensures Valid() && panelView != null && fresh(panelView)
      ensures panelView.anim == Entering && panelView.expandWired
      ensures panelView.translationX == 1000.0 && panelView.alpha == 0.0
      ensures attached == old(attached) + {panelView} && windowLog == old(windowLog) + [AddView(panelView)]
    {
      var view := new LiquidVolumePanelView(audio);
      panelView := view;
      view.translationX, view.alpha := 1000.0, 0.0;
      view.expandWired := true;
      attached := attached + {view};
      windowLog := windowLog + [AddView(view)];
      view.AnimateShow();
    }

    /**
     * `showPanel`: the primary view is created and attached only when there
     * is none; otherwise it is reused, its running animation cancelled and its
     * position and opacity restored. Exactly one auto-hide is pending after.
     */
    method ShowPanel(volume: int, max: int)
      requires Valid() && audio.Valid()
      modifies this, Primary(panelView)`anim, Primary(panelView)`translationX, Primary(panelView)`alpha
      modifies Primary(panelView)`mediaProgress, Secondary(secondaryView)`streamProgress
      ensures Valid()
      ensures pendingHides == 1
      ensures panelView != null
      ensures panelView.mediaProgress == SyncedProgress(audio.state.levels.Of(Music), audio.state.maxes.Of(Music))
      ensures old(panelView) == null ==>
        && fresh(panelView) && panelView.anim == Entering && panelView.expandWired
        && panelView.translationX == 1000.0 && panelView.alpha == 0.0
        && attached == old(attached) + {panelView} && windowLog == old(windowLog) + [AddView(panelView)]
      ensures old(panelView) != null ==>
        && panelView == old(panelView) && panelView.anim == Idle
        && panelView.translationX == 0.0 && panelView.alpha == 1.0
        && panelView.draggingStream == old(panelView.draggingStream) && panelView.expandWired == old(panelView.expandWired)
        && attached == old(attached) && windowLog == old(windowLog)
      ensures secondaryView == old(secondaryView) && closing == old(closing)
      ensures secondaryView != null ==>
        && secondaryView.Synced()
        && secondaryView.draggingStream == old(secondaryView.draggingStream)
        && secondaryView.alpha == old(secondaryView.alpha) && secondaryView.anim == old(secondaryView.anim)
    {
      pendingHides := 0;  // handler.removeCallbacks(hideRunnable)
      if panelView == null {
        AttachNewPanel();
      } else {
        panelView.CancelAnimation();
        panelView.translationX, panelView.alpha := 0.0, 1.0;
      }
      panelView.UpdateVolume(volume, max);
      if secondaryView != null {
        secondaryView.UpdateVolume(volume, max);
      }
      pendingHides := pendingHides + 1;  // handler.postDelayed(hideRunnable, 2000)
    }

    /**
     * `toggleSecondary`: closing drops the reference at once and starts the
     * exit animation (the window goes when it ends); opening creates,
     * attaches and fades in a new secondary view.
     */
    method ToggleSecondary()
      requires Valid() && audio.Valid()
      modifies this, Secondary(secondaryView)`anim
      ensures Valid()
      ensures panelView == old(panelView) && pendingHides == old(pendingHides)
      ensures old(secondaryView) != null ==>
        && secondaryView == null && closing == old(closing) + {old(secondaryView)}
        && old(secondaryView).anim == Exiting
        && attached == old(attached) && windowLog == old(windowLog)
      ensures old(secondaryView) == null ==>
        && secondaryView != null && fresh(secondaryView) && closing == old(closing)
        && secondaryView.anim == Entering && secondaryView.alpha == 0.0 && secondaryView.Synced()
        && attached == old(attached) + {secondaryView} && windowLog == old(windowLog) + [AddView(secondaryView)]
    {
      if secondaryView != null {
        var view := secondaryView;
        secondaryView := null;
        closing := closing + {view};
        view.AnimateHide();  // its end action removes the window
      } else {
        var view := new SecondaryVolumePanelView(audio);
        secondaryView := view;
        attached := attached + {view};
        windowLog := windowLog + [AddView(view)];
      }
    }

    /**
     * `hidePanel`: the primary starts its exit animation (the pending
     * auto-hide is cancelled); the secondary is detached and dropped at once.
     * With neither view it does nothing.
     */
    method HidePanel()
      requires Valid()
      modifies this, Primary(panelView)`anim
      ensures Valid()
      ensures panelView == old(panelView) && closing == old(closing) && secondaryView == null
      ensures old(panelView) != null ==> pendingHides == 0 && panelView.anim == Exiting
      ensures old(panelView) == null ==> pendingHides == old(pendingHides)
      ensures old(secondaryView) != null ==>
        && attached == old(attached) - {old(secondaryView)}
        && windowLog == old(windowLog) + [RemoveView(old(secondaryView))]
      ensures old(secondaryView) == null ==> attached == old(attached) && windowLog == old(windowLog)
      ensures old(panelView) == null && old(secondaryView) == null ==> unchanged(this)
    {
      if panelView != null {
        pendingHides := 0;  // handler.removeCallbacks(hideRunnable)
        panelView.AnimateHide();
      }
      if secondaryView != null {
        RemoveIfAttached(secondaryView);
        secondaryView := null;
      }
    }

    /** The posted `hideRunnable` runs. */
    method OnAutoHide()
      requires Valid() && pendingHides > 0
      modifies this, Primary(panelView)`anim
      ensures Valid()
      ensures panelView == old(panelView) && secondaryView == null && pendingHides == 0 && closing == old(closing)
      ensures panelView != null ==> panelView.anim == Exiting
      ensures old(secondaryView) != null ==>
        && attached == old(attached) - {old(secondaryView)}
        && windowLog == old(windowLog) + [RemoveView(old(secondaryView))]
      ensures old(secondaryView) == null ==> attached == old(attached) && windowLog == old(windowLog)
    {
      pendingHides := pendingHides - 1;
      HidePanel();
    }

    /**
     * The primary's exit animation ends normally: the view is detached if
     * still attached, and the reference is cleared only if it still points to
     * this view.
     */
    method OnPrimaryExitEnd(view: LiquidVolumePanelView)
      requires Valid() && view.anim == Exiting
      modifies this, view`anim, view`translationX, view`alpha
      ensures Valid()
      ensures view.anim == Idle && view.translationX == SliderWidth && view.alpha == 0.0
      ensures attached == old(attached) - {view}
      ensures windowLog == old(windowLog) + (if view in old(attached) then [RemoveView(view)] else [])
      ensures panelView == (if old(panelView) == view then null else old(panelView))
      ensures secondaryView == old(secondaryView) && pendingHides == old(pendingHides) && closing == old(closing)
    {
      view.FinishExit();
      RemoveIfAttached(view);
      if panelView == view {
        panelView := null;
      }
    }

    /** A closed secondary's exit animation ends normally: its window is removed. */
    method OnSecondaryExitEnd(view: SecondaryVolumePanelView)
      requires Valid() && view in closing
      modifies this
      ensures Valid()
      ensures attached == old(attached) - {view} && closing == old(closing) - {view}
      ensures windowLog == old(windowLog) + [RemoveView(view)]
      ensures panelView == old(panelView) && secondaryView == old(secondaryView) && pendingHides == old(pendingHides)
    {
      RemoveIfAttached(view);
      closing := closing - {view};
    }
  }

  /** LiquidVolumePanelView: the primary panel, one music slider over a menu button. */
  class LiquidVolumePanelView {
    const audio: AudioBackend
    var draggingStream: Option<Stream>
    var mediaProgress: real
    var translationX: real
    var alpha: real
    var anim: Anim
    var expandWired: bool  // expandListener is set, to the owning service's toggleSecondary

    ghost predicate Valid()
      reads this
    {
      && 0.0 <= mediaProgress <= 1.0
      && (draggingStream == None || draggingStream == Some(Music))
    }

    constructor (audio: AudioBackend)
      requires audio.Valid()
      ensures Valid() && this.audio == audio
      ensures draggingStream == None && anim == Idle && !expandWired
      ensures mediaProgress == SyncedProgress(audio.state.levels.Of(Music), audio.state.maxes.Of(Music))
    {
      this.audio := audio;
      draggingStream := None;
      translationX, alpha := 0.0, 1.0;
      anim := Idle;
      expandWired := false;
      new;
      SyncVolume();
    }

    method AnimateShow()
      modifies this`anim
      ensures anim == Entering
    {
      anim := Entering;
    }

    method AnimateHide()
      modifies this`anim
      ensures anim == Exiting
    {
      anim := Exiting;
    }

    /** `animate().cancel()`: the running animation stops and its end action never runs. */
    method CancelAnimation()
      modifies this`anim
      ensures anim == Idle
    {
      anim := Idle;
    }

    /** The entrance animation ends: the view sits in place, fully opaque. */
    method OnEntranceEnd()
      requires anim == Entering
      modifies this`anim, this`translationX, this`alpha
      ensures anim == Idle && translationX == 0.0 && alpha == 1.0
    {
      anim, translationX, alpha := Idle, 0.0, 1.0;
    }

    /** The exit animation's final frame: slid out by its width and transparent. */
    method FinishExit()
      requires anim == Exiting
      modifies this`anim, this`translationX, this`alpha
      ensures anim == Idle && translationX == SliderWidth && alpha == 0.0
    {
      anim, translationX, alpha := Idle, SliderWidth, 0.0;
    }

    /** `syncVolume`: the shown fraction is read back from the platform. */
    method SyncVolume()
      requires audio.Valid()
      modifies this`mediaProgress
      ensures mediaProgress == SyncedProgress(audio.state.levels.Of(Music), audio.state.maxes.Of(Music))
    {
      var max := audio.GetStreamMaxVolume(Music);
      var cur := audio.GetStreamVolume(Music);
      mediaProgress := SyncedProgress(cur, max);  // cur / max, or 0 when max is 0
    }

    /** `updateVolume` ignores its arguments and re-reads the platform. */
    method UpdateVolume(current: int, max: int)
      requires audio.Valid() && Valid()
      modifies this`mediaProgress
      ensures Valid()
      ensures mediaProgress == SyncedProgress(audio.state.levels.Of(Music), audio.state.maxes.Of(Music))
    {
      SyncVolume();
    }

    /** `applyVolume`: the fraction becomes a truncated, clamped level handed to the service. */
    method ApplyVolume(percent: real, keys: VolumeAccessibilityService?)
      requires audio.Valid() && (keys != null ==> keys.audio == audio)
      modifies audio
      ensures audio.Valid()
      ensures keys != null ==> audio.state == ApplySlider(old(audio.state), Music, TargetLevel(percent, old(audio.state.maxes.Of(Music))))
      ensures keys == null ==> unchanged(audio)
    {
      var max := audio.GetStreamMaxVolume(Music);
      var target := TargetLevel(percent, max);  // (percent * max).toInt().coerceIn(0, max)
      if keys != null {
        keys.ApplySliderVolume(Music, target);
      }
    }

    /** `updateVolumeFromTouch`: the stored fraction is clamp(1 - y / 600, 0, 1), then applied. */
    method UpdateVolumeFromTouch(y: real, keys: VolumeAccessibilityService?)
      requires Valid() && audio.Valid() && (keys != null ==> keys.audio == audio)
      modifies this`mediaProgress, audio
      ensures Valid() && audio.Valid()
      ensures mediaProgress == Fraction(y, 0.0, MainHeight)
      ensures keys != null ==> audio.state == ApplySlider(old(audio.state), Music, TargetLevel(mediaProgress, old(audio.state.maxes.Of(Music))))
      ensures keys == null ==> unchanged(audio)
    {
      var clamped := Fraction(y, 0.0, MainHeight);  // (1 - y / 600).coerceIn(0, 1)
      mediaProgress := clamped;
      ApplyVolume(clamped, keys);
    }

    /**
     * A press: on the menu button it opens or closes the secondary panel
     * (when wired) and is handled; on the slider it starts a drag of the
     * music stream; below the slider, in the gap, it is not handled.
     */
    method OnDown(y: real, service: VolumePanelService?) returns (handled: bool)
      requires Valid()
      requires service != null ==> service.Valid() && service.audio == audio && audio.Valid()
      modifies this`draggingStream, service, SecondaryOf(service)`anim
      ensures Valid()
      ensures service != null ==> service.Valid()
      ensures IsMenuButton(y) ==>
        && handled && draggingStream == old(draggingStream)
        && (service != null ==> service.pendingHides == 0)
        && (service != null && expandWired ==> service.SecondaryToggled())
        && (service != null && !expandWired ==> service.WindowsKept())
      ensures IsMenuButton(y) && service != null && expandWired && old(service.secondaryView) != null ==>
        old(service.secondaryView).anim == Exiting
      ensures IsMenuButton(y) && service != null && expandWired && old(service.secondaryView) == null ==>
        && fresh(service.secondaryView) && service.secondaryView.anim == Entering
        && service.secondaryView.alpha == 0.0 && service.secondaryView.Synced()
      ensures !IsMenuButton(y) && y <= MainHeight ==>
        && handled && draggingStream == Some(Music)
        && (service != null ==> service.pendingHides == 0 && service.WindowsKept())
      ensures !IsMenuButton(y) && MainHeight < y ==>
        !handled && unchanged(this) && (service != null ==> unchanged(service))
    {
      if IsMenuButton(y) {
        if expandWired && service != null {
          service.ToggleSecondary();
        }
        if service != null {
          service.CancelAutoHide();
        }
        return true;
      }
      if y <= MainHeight {
        draggingStream := Some(Music);
        if service != null {
          service.CancelAutoHide();
        }
        handled := true;
      } else {
        handled := false;
      }
    }

    /** A move while dragging keeps the panel alive and drives the music stream; otherwise it is not handled. */
    method OnMove(y: real, service: VolumePanelService?, keys: VolumeAccessibilityService?) returns (handled: bool)
      requires Valid() && audio.Valid() && (keys != null ==> keys.audio == audio)
      requires service != null ==> service.Valid() && service.audio == audio
      modifies this`mediaProgress, audio, service
      ensures Valid() && audio.Valid()
      ensures service != null ==> service.Valid()
      ensures old(draggingStream) == None ==>
        !handled && unchanged(this) && unchanged(audio) && (service != null ==> unchanged(service))
      ensures old(draggingStream) != None ==>
        && handled && mediaProgress == Fraction(y, 0.0, MainHeight)
        && (keys != null ==> audio.state == ApplySlider(old(audio.state), Music, TargetLevel(mediaProgress, old(audio.state.maxes.Of(Music)))))
        && (keys == null ==> unchanged(audio))
        && (service != null ==> service.pendingHides == 0 && service.WindowsKept())
    {
      if draggingStream != None {
        if service != null {
          service.CancelAutoHide();
        }
        UpdateVolumeFromTouch(y, keys);
        handled := true;
      } else {
        handled := false;
      }
    }

    /** The touch listener. `service` is the view's context, the panel service that owns it. */
    method OnTouch(e: MotionEvent, service: VolumePanelService?, keys: VolumeAccessibilityService?) returns (handled: bool)
      requires Valid() && audio.Valid() && (keys != null ==> keys.audio == audio)
      requires service != null ==> service.Valid() && service.audio == audio
      modifies this`draggingStream, this`mediaProgress, audio, service, SecondaryOf(service)`anim
      ensures Valid() && audio.Valid()
      ensures service != null ==> service.Valid()
      ensures e.action != Move ==> mediaProgress == old(mediaProgress)
      ensures e.action == Down && IsMenuButton(e.y) ==>
        && handled && draggingStream == old(draggingStream) && unchanged(audio)
        && (service != null ==> service.pendingHides == 0)
        && (service != null && expandWired ==> service.SecondaryToggled())
        && (service != null && !expandWired ==> service.WindowsKept())
      ensures e.action == Down && IsMenuButton(e.y) && service != null && expandWired && old(service.secondaryView) != null ==>
        old(service.secondaryView).anim == Exiting
      ensures e.action == Down && IsMenuButton(e.y) && service != null && expandWired && old(service.secondaryView) == null ==>
        && fresh(service.secondaryView) && service.secondaryView.anim == Entering
        && service.secondaryView.alpha == 0.0 && service.secondaryView.Synced()
      ensures e.action == Down && !IsMenuButton(e.y) && e.y <= MainHeight ==>
        && handled && draggingStream == Some(Music) && unchanged(audio)
        && (service != null ==> service.pendingHides == 0 && service.WindowsKept())
      ensures e.action == Down && !IsMenuButton(e.y) && MainHeight < e.y ==>
        !handled && unchanged(this) && unchanged(audio) && (service != null ==> unchanged(service))
      ensures e.action == Move && old(draggingStream) == None ==>
        !handled && unchanged(this) && unchanged(audio) && (service != null ==> unchanged(service))
      ensures e.action == Move && old(draggingStream) != None ==>
        && handled && draggingStream == old(draggingStream)
        && mediaProgress == Fraction(e.y, 0.0, MainHeight)
        && (keys != null ==> audio.state == ApplySlider(old(audio.state), Music, TargetLevel(mediaProgress, old(audio.state.maxes.Of(Music)))))
        && (keys == null ==> unchanged(audio))
        && (service != null ==> service.pendingHides == 0 && service.WindowsKept())
      ensures e.action == Up || e.action == Cancel ==>
        && handled && draggingStream == None && unchanged(audio)
        && (service != null ==> service.pendingHides == 1 && service.WindowsKept())
      ensures e.action == OtherAction ==> !handled && unchanged(this) && unchanged(audio) && (service != null ==> unchanged(service))
    {
      match e.action
      case Down =>
        handled := OnDown(e.y, service);
      case Move =>
        handled := OnMove(e.y, service, keys);
      case Up =>
        if service != null {
          service.ScheduleAutoHide();
        }
        draggingStream := None;
        handled := true;
      case Cancel =>
        if service != null {
          service.ScheduleAutoHide();
        }
        draggingStream := None;
        handled := true;
      case OtherAction =>
        handled := false;
    }
  }

  /** SecondaryVolumePanelView: ring, notification and alarm sliders, right to left. */
  class SecondaryVolumePanelView {
    const audio: AudioBackend
    var width: real  // the laid-out width, 3 sliders and 2 gaps
    var draggingStream: Option<Stream>
    var streamProgress: map<Stream, real>
    var alpha: real
    var anim: Anim

    ghost predicate Valid()
      reads this
    {
      && streamProgress.Keys == {Ring, Notification, Alarm}
      && (forall s :: s in streamProgress ==> 0.0 <= streamProgress[s] <= 1.0)
      && (draggingStream == None || draggingStream.value in SliderOrder)
    }

    /** Every shown fraction equals the platform's current level over its maximum. */
    ghost predicate Synced()
      reads this, audio
    {
      && audio.Valid()
      && forall s :: s in streamProgress ==> streamProgress[s] == SyncedProgress(audio.state.levels.Of(s), audio.state.maxes.Of(s))
    }

    constructor (audio: AudioBackend)
      requires audio.Valid()
      ensures Valid() && Synced() && this.audio == audio
      ensures width == 3.0 * SliderWidth + 2.0 * SliderGap
      ensures draggingStream == None && anim == Entering && alpha == 0.0
    {
      this.audio := audio;
      width := 3.0 * SliderWidth + 2.0 * SliderGap;
      draggingStream := None;
      streamProgress := map[Ring := 0.0, Notification := 0.0, Alarm := 0.0];
      alpha, anim := 0.0, Entering;  // animateShow: fade in from transparent
      new;
      SyncAllVolumes();
    }

    /** The fade-in ends: the panel is fully opaque. */
    method OnEntranceEnd()
      requires anim == Entering
      modifies this`anim, this`alpha
      ensures anim == Idle && alpha == 1.0
    {
      anim, alpha := Idle, 1.0;
    }

    /** `animateHide`: the fade-out starts; the window goes when it ends. */
    method AnimateHide()
      modifies this`anim
      ensures anim == Exiting
    {
      anim := Exiting;
    }

    /** `syncAllVolumes`: every slider's fraction is read back, in the map's insertion order. */
    method SyncAllVolumes()
      requires Valid() && audio.Valid()
      modifies this`streamProgress
      ensures Valid() && Synced()
    {
      var i := 0;
      while i < |SliderOrder|
        invariant 0 <= i <= |SliderOrder|
        invariant streamProgress.Keys == {Ring, Notification, Alarm}
        invariant forall s :: s in streamProgress ==> 0.0 <= streamProgress[s] <= 1.0
        invariant forall j :: 0 <= j < i ==>
          streamProgress[SliderOrder[j]] == SyncedProgress(audio.state.levels.Of(SliderOrder[j]), audio.state.maxes.Of(SliderOrder[j]))
      {
        var s := SliderOrder[i];
        var max := audio.GetStreamMaxVolume(s);
        var cur := audio.GetStreamVolume(s);
        streamProgress := streamProgress[s := SyncedProgress(cur, max)];
        i := i + 1;
      }
      forall s | s in streamProgress
        ensures streamProgress[s] == SyncedProgress(audio.state.levels.Of(s), audio.state.maxes.Of(s))
      {
        assert s == SliderOrder[0] || s == SliderOrder[1] || s == SliderOrder[2];
      }
    }

    /** `updateVolume` ignores its arguments and re-reads every slider's stream. */
    method UpdateVolume(current: int, max: int)
      requires Valid() && audio.Valid()
      modifies this`streamProgress
      ensures Valid() && Synced()
    {
      SyncAllVolumes();
    }

    /** `getVisibleSliders`: the three slider rectangles, laid out from the right edge leftwards. */
    method GetVisibleSliders() returns (sliders: map<Stream, Rect>)
      ensures forall s :: s in sliders <==> s in SliderOrder
      ensures forall i :: 0 <= i < |SliderOrder| ==> sliders[SliderOrder[i]] == SliderRect(width, i)
    {
      var w := width;
      sliders := map[];
      var currentRight := w;
      var i := 0;
      while i < |SliderOrder|
        invariant 0 <= i <= |SliderOrder|
        invariant currentRight == w - (SliderWidth + SliderGap) * i as real
        invariant forall s :: s in sliders <==> s in SliderOrder[..i]
        invariant forall j :: 0 <= j < i ==> sliders[SliderOrder[j]] == SliderRect(w, j)
      {
        var stream := SliderOrder[i];
        var left := currentRight - SliderWidth;
        sliders := sliders[stream := Rect(left, 0.0, currentRight, MainHeight)];
        currentRight := currentRight - (SliderWidth + SliderGap);
        i := i + 1;
      }
    }

    /**
     * `hitTestSlider`: the first slider whose rectangle contains the point.
     * The rectangles do not overlap, so it is the only one; none when the
     * point is in a gap or outside every slider.
     */
    method HitTestSlider(x: real, y: real) returns (hit: Option<Stream>)
      ensures hit.Some? <==> exists i :: 0 <= i < |SliderOrder| && SliderRect(width, i).Contains(x, y)
      ensures hit.Some? ==>
        forall i :: 0 <= i < |SliderOrder| ==> (SliderRect(width, i).Contains(x, y) <==> SliderOrder[i] == hit.value)
    {
      var sliders := GetVisibleSliders();
      var i := 0;
      while i < |SliderOrder|
        invariant 0 <= i <= |SliderOrder|
        invariant forall j :: 0 <= j < i ==> !SliderRect(width, j).Contains(x, y)
      {
        if sliders[SliderOrder[i]].Contains(x, y) {
          forall j | 0 <= j < |SliderOrder| && j != i
            ensures !SliderRect(width, j).Contains(x, y)
          {
            if j < i {
            } else {
              SlidersDisjoint(width, i, j, x, y);
            }
          }
          assert SliderRect(width, i).Contains(x, y);
          return Some(SliderOrder[i]);
        }
        i := i + 1;
      }
      return None;
    }

    /** `updateStreamFromTouch`: the dragged slider's fraction is stored, then applied to its stream. */
    method UpdateStreamFromTouch(stream: Stream, y: real, keys: VolumeAccessibilityService?)
      requires Valid() && audio.Valid() && stream in SliderOrder && (keys != null ==> keys.audio == audio)
      modifies this`streamProgress, audio
      ensures Valid() && audio.Valid()
      ensures streamProgress == old(streamProgress)[stream := Fraction(y, 0.0, MainHeight)]
      ensures keys != null ==>
        audio.state == ApplySlider(old(audio.state), stream, TargetLevel(Fraction(y, 0.0, MainHeight), old(audio.state.maxes.Of(stream))))
      ensures keys == null ==> unchanged(audio)
    {
      var sliders := GetVisibleSliders();
      var rect := sliders[stream];  // the `?: return` branch cannot fire: every slider stream has a rectangle
      var clamped := Fraction(y, rect.top, rect.Height());  // (1 - (y - top) / height).coerceIn(0, 1)
      streamProgress := streamProgress[stream := clamped];
      var max := audio.GetStreamMaxVolume(stream);
      var target := TargetLevel(clamped, max);  // (clamped * max).toInt().coerceIn(0, max)
      if keys != null {
        keys.ApplySliderVolume(stream, target);
      }
    }

    /** A press picks the slider under the finger, if any; it is handled exactly when one is hit. */
    method OnDown(x: real, y: real) returns (handled: bool)
      requires Valid()
      modifies this`draggingStream
      ensures Valid()
      ensures handled <==> exists i :: 0 <= i < |SliderOrder| && SliderRect(width, i).Contains(x, y)
      ensures forall i :: 0 <= i < |SliderOrder| ==> (SliderRect(width, i).Contains(x, y) <==> draggingStream == Some(SliderOrder[i]))
    {
      var hit := HitTestSlider(x, y);
      if hit.Some? {
        assert SliderOrder[0] == hit.value || SliderOrder[1] == hit.value || SliderOrder[2] == hit.value;
      }
      draggingStream := hit;
      handled := draggingStream != None;
      assert handled <==> exists i :: 0 <= i < |SliderOrder| && SliderRect(width, i).Contains(x, y);
    }

    /** A move drives the slider being dragged; with none it is not handled. */
    method OnMove(y: real, keys: VolumeAccessibilityService?) returns (handled: bool)
      requires Valid() && audio.Valid() && (keys != null ==> keys.audio == audio)
      modifies this`streamProgress, audio
      ensures Valid() && audio.Valid()
      ensures handled <==> old(draggingStream) != None
      ensures draggingStream == None ==> streamProgress == old(streamProgress) && unchanged(audio)
      ensures draggingStream != None ==>
        && streamProgress == old(streamProgress)[draggingStream.value := Fraction(y, 0.0, MainHeight)]
        && (keys != null ==> audio.state == ApplySlider(old(audio.state), draggingStream.value,
                                TargetLevel(Fraction(y, 0.0, MainHeight), old(audio.state.maxes.Of(draggingStream.value)))))
        && (keys == null ==> unchanged(audio))
    {
      if draggingStream != None {
        UpdateStreamFromTouch(draggingStream.value, y, keys);
        handled := true;
      } else {
        handled := false;
      }
    }

    /** The touch listener: every event first keeps the panel alive by cancelling the auto-hide. */
    method OnTouch(e: MotionEvent, service: VolumePanelService?, keys: VolumeAccessibilityService?) returns (handled: bool)
      requires Valid() && audio.Valid() && (keys != null ==> keys.audio == audio)
      modifies this`draggingStream, this`streamProgress, audio, service
      ensures Valid() && audio.Valid()
      ensures service != null ==>
        service.pendingHides == (if e.action == Up || e.action == Cancel then 1 else 0) && service.WindowsKept()
      ensures streamProgress == old(streamProgress) || (e.action == Move && old(draggingStream) != None)
      ensures e.action == Down ==>
        && unchanged(audio)
        && (handled <==> exists i :: 0 <= i < |SliderOrder| && SliderRect(width, i).Contains(e.x, e.y))
        && (forall i :: 0 <= i < |SliderOrder| ==> (SliderRect(width, i).Contains(e.x, e.y) <==> draggingStream == Some(SliderOrder[i])))
      ensures e.action == Move && old(draggingStream) == None ==> !handled && unchanged(audio) && draggingStream == None
      ensures e.action == Move && old(draggingStream) != None ==>
        && handled && draggingStream == old(draggingStream)
        && streamProgress == old(streamProgress)[draggingStream.value := Fraction(e.y, 0.0, MainHeight)]
        && (keys != null ==> audio.state == ApplySlider(old(audio.state), draggingStream.value,
                                TargetLevel(Fraction(e.y, 0.0, MainHeight), old(audio.state.maxes.Of(draggingStream.value)))))
        && (keys == null ==> unchanged(audio))
      ensures e.action == Up || e.action == Cancel ==> handled && draggingStream == None && unchanged(audio)
      ensures e.action == OtherAction ==> !handled && draggingStream == old(draggingStream) && unchanged(audio)
    {
      if service != null {
        service.CancelAutoHide();
      }
      match e.action
      case Down =>
        handled := OnDown(e.x, e.y);
      case Move =>
        handled := OnMove(e.y, keys);
      case Up =>
        if service != null {
          service.ScheduleAutoHide();
        }
        draggingStream := None;
        handled := true;
      case Cancel =>
        if service != null {
          service.ScheduleAutoHide();
        }
        draggingStream := None;
        handled := true;
      case OtherAction =>
        handled := false;
    }
  }
}
