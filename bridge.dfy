/**
 * MainActivity, the Flutter side's bridge: the permission/volume method
 * channel, the volume broadcast receiver that feeds the event channel, and
 * the check of the enabled-accessibility-services setting.
 */
module Bridge {
  import opened Wrappers
  import opened Numbers
  import opened Audio
  import opened Ratchet
  import opened Touch
  import opened LiquidVolume

  // ---------------------------------------------------------------------
  // The enabled-services setting: a ':'-separated list of component names.
  // ---------------------------------------------------------------------

  const Separator: char := ':'

  /** `indexOf(':', p)`, or the length when there is no later separator. */
  function NextSeparator(s: string, p: nat): (e: nat)
    requires p <= |s|
    ensures p <= e <= |s|
    ensures forall k :: p <= k < e ==> s[k] != Separator
    ensures e < |s| ==> s[e] == Separator
    decreases |s| - p
  {
    if p == |s| || s[p] == Separator then p else NextSeparator(s, p + 1)
  }

  /**
   * What `SimpleStringSplitter(':')` yields from position `p`: the pieces
   * between separators, empty ones included, except that a separator at the
   * very end yields no final empty piece.
   */
  function Components(s: string, p: nat): (cs: seq<string>)
    ensures forall c :: c in cs ==> Separator !in c
    decreases |s| - p
  {
    if |s| <= p then []
    else
      var e := NextSeparator(s, p);
      assert forall k :: 0 <= k < e - p ==> s[p..e][k] == s[p + k];
      [s[p..e]] + Components(s, e + 1)
  }

  /** How the platform writes the setting: the component names joined by ':'. */
  function Join(cs: seq<string>): string
  {
    if |cs| == 0 then []
    else if |cs| == 1 then cs[0]
    else cs[0] + [Separator] + Join(cs[1..])
  }

  /** A list of names the setting can hold and split back: no name holds ':', and the last is not empty. */
  predicate WellFormed(cs: seq<string>)
  {
    && |cs| > 0 && |cs[|cs| - 1]| > 0
    && forall c :: c in cs ==> Separator !in c
  }

  /** Splitting a setting that does not end in ':' and joining the pieces gives the setting back. */
  lemma {:induction false} SplitThenJoin(s: string, p: nat)
    requires p <= |s|
    requires s == [] || s[|s| - 1] != Separator
    ensures Join(Components(s, p)) == s[p..]
    decreases |s| - p
  {
    if p < |s| {
      var e := NextSeparator(s, p);
      if e < |s| {
        assert e + 1 < |s|;
        SplitThenJoin(s, e + 1);
        var rest := Components(s, e + 1);
        assert Components(s, p) == [s[p..e]] + rest;
        assert |rest| > 0;
        assert s[p..] == s[p..e] + [Separator] + s[e + 1..];
      } else {
        assert Components(s, p) == [s[p..e]];
      }
    }
  }

  lemma {:induction false} NextSeparatorShift(pre: string, b: string, q: nat)
    requires q <= |b|
    ensures NextSeparator(pre + b, |pre| + q) == |pre| + NextSeparator(b, q)
    decreases |b| - q
  {
    if q < |b| {
      assert (pre + b)[|pre| + q] == b[q];
      if b[q] != Separator {
        NextSeparatorShift(pre, b, q + 1);
      }
    }
  }

  lemma {:induction false} ComponentsShift(pre: string, b: string, q: nat)
    ensures Components(pre + b, |pre| + q) == Components(b, q)
    decreases |b| - q
  {
    if q < |b| {
      var e := NextSeparator(b, q);
      NextSeparatorShift(pre, b, q);
      assert (pre + b)[|pre| + q..|pre| + e] == b[q..e];
      ComponentsShift(pre, b, e + 1);
    }
  }

  /** A non-empty name without ':' is one piece. */
  lemma NoSeparatorIsOnePiece(c: string)
    requires |c| > 0 && Separator !in c
    ensures Components(c, 0) == [c]
  {
    var e := NextSeparator(c, 0);
    assert c[0..e] == c;
  }

  /** A name without ':' followed by ':' splits off as the first piece. */
  lemma SplitHead(c: string, t: string)
    requires Separator !in c
    ensures Components(c + [Separator] + t, 0) == [c] + Components(t, 0)
  {
    var s := c + [Separator] + t;
    var e := NextSeparator(s, 0);
    assert s[|c|] == Separator;
    assert s[0..e] == c;
    ComponentsShift(c + [Separator], t, 0);
  }

  /** Joining well-formed names and splitting the result gives the names back. */
  lemma {:induction false} JoinThenSplit(cs: seq<string>)
    requires WellFormed(cs)
    ensures Components(Join(cs), 0) == cs
    decreases |cs|
  {
    if |cs| == 1 {
      NoSeparatorIsOnePiece(cs[0]);
    } else {
      var rest := cs[1..];
      assert cs[0] in cs;
      assert forall x :: x in rest ==> x in cs;
      assert rest[|rest| - 1] == cs[|cs| - 1];
      SplitHead(cs[0], Join(rest));
      JoinThenSplit(rest);
      assert cs == [cs[0]] + rest;
    }
  }

  /** ASCII case folding, as `equals(ignoreCase = true)` applies it to ASCII letters. */
  function FoldCase(ch: char): char
  {
    if 'a' <= ch <= 'z' then (ch as int - 32) as char else ch
  }

  predicate EqualsIgnoreCase(a: string, b: string)
  {
    |a| == |b| && forall i :: 0 <= i < |a| ==> FoldCase(a[i]) == FoldCase(b[i])
  }

  /** `"$packageName/${service.name}"`. */
  function ComponentName(packageName: string, className: string): string
  {
    packageName + "/" + className
  }

  const ServiceClassName: string := "com.example.liquid_volume.VolumeAccessibilityService"

  predicate AnyMatches(cs: seq<string>, expected: string)
  {
    exists c :: c in cs && EqualsIgnoreCase(c, expected)
  }

  /** The service is enabled when the setting exists and one of its pieces matches, ignoring case. */
  predicate ServiceEnabled(setting: Option<string>, expected: string)
  {
    setting.Some? && AnyMatches(Components(setting.value, 0), expected)
  }

  /** For a setting written as a join of names, enabled exactly when one of those names matches. */
  lemma EnabledIffListed(cs: seq<string>, expected: string)
    requires WellFormed(cs)
    ensures ServiceEnabled(Some(Join(cs)), expected) <==> AnyMatches(cs, expected)
  {
    JoinThenSplit(cs);
  }

  /** `isAccessibilityServiceEnabled`: the splitter loop with its early return. */
  method IsAccessibilityServiceEnabled(setting: Option<string>, packageName: string, className: string)
    returns (enabled: bool)
    ensures enabled <==> ServiceEnabled(setting, ComponentName(packageName, className))
  {
    var expected := ComponentName(packageName, className);
    if setting == None {
      return false;
    }
    var s := setting.value;
    var position := 0;
    while position < |s|
      invariant 0 <= position <= |s| + 1
      invariant ServiceEnabled(setting, expected) <==> AnyMatches(Components(s, position), expected)
      decreases |s| - position
    {
      var end := NextSeparator(s, position);
      var componentName := s[position..end];
      assert Components(s, position) == [componentName] + Components(s, end + 1);
      if EqualsIgnoreCase(componentName, expected) {
        assert componentName in Components(s, position);
        return true;
      }
      position := end + 1;
    }
    return false;
  }

  // ---------------------------------------------------------------------
  // The permission/volume method channel.
  // ---------------------------------------------------------------------

  datatype Arguments = Arguments(volume: Option<real>, target: Option<int>)
  datatype MethodCall = MethodCall(name: string, args: Arguments)

  /** What the handler reads from the device besides the audio backend. */
  datatype Platform = Platform(
    atLeastM: bool,                 // SDK_INT >= M
    canDrawOverlays: bool,
    enabledServices: Option<string>,
    packageName: string)

  /** A settings screen the handler starts. */
  datatype Screen = OverlayPermission(packageName: string) | AccessibilitySettings | NotificationPolicySettings

  /** `getVolume` answers current.toDouble() / max.toDouble(); the pair is kept, not the quotient. */
  datatype Payload = NoValue | Flag(value: bool) | Quotient(numerator: int, denominator: int)

  datatype Reply = Success(payload: Payload) | Failure(code: string, message: string) | NotImplemented

  /** The effect of one call: a target handed to `applySliderVolume`, a screen started, and the reply. */
  datatype Dispatch = Dispatch(apply: Option<int>, launch: Option<Screen>, reply: Reply)

  const KnownMethods: set<string> := {
    "checkOverlayPermission", "requestOverlayPermission", "openAccessibilitySettings", "openDNDSettings",
    "isAccessibilityEnabled", "getVolume", "setVolume", "setVolumeTarget" }

  /** The method channel's handler as a function of the call and what it reads. */
  function Route(call: MethodCall, p: Platform, serviceReady: bool, musicLevel: int, musicMax: int): (d: Dispatch)
    requires 0 <= musicMax
    ensures d.apply.Some? ==> serviceReady && d.reply == Success(NoValue)
    ensures d.apply.Some? ==> call.name == "setVolume" || call.name == "setVolumeTarget"
    ensures !d.reply.Success? ==> d.apply.None? && d.launch.None?
    ensures call.name !in KnownMethods <==> d.reply == NotImplemented
    ensures call.name == "setVolume" ==>
      && d.launch.None?
      && (d.reply.Failure? <==> call.args.volume.None?)
      && (d.reply.Failure? ==> d.reply.code == "INVALID_ARGUMENT")
      && (call.args.volume.Some? && serviceReady ==>
            d.apply == Some(Clamp((call.args.volume.value * musicMax as real).Floor, 0, musicMax)))
      && (!serviceReady ==> d.apply.None?)
    ensures call.name == "setVolumeTarget" ==>
      && d.launch.None?
      && (d.reply == Success(NoValue) <==> call.args.target.Some? && serviceReady)
      && (call.args.target.None? ==> d.reply.Failure? && d.reply.code == "INVALID_ARGUMENT")
      && (call.args.target.Some? && !serviceReady ==> d.reply.Failure? && d.reply.code == "SERVICE_NOT_READY")
      && (d.apply.Some? ==> d.apply == call.args.target)
    ensures call.name == "isAccessibilityEnabled" ==>
      d.reply == Success(Flag(ServiceEnabled(p.enabledServices, ComponentName(p.packageName, ServiceClassName))))
    ensures call.name == "checkOverlayPermission" ==> d.reply == Success(Flag(!p.atLeastM || p.canDrawOverlays))
    ensures d.launch.Some? ==>
      d.reply == Success(NoValue) && (d.launch == Some(AccessibilitySettings) || p.atLeastM)
  {
    match call.name
    case "checkOverlayPermission" =>
      Dispatch(None, None, Success(Flag(if p.atLeastM then p.canDrawOverlays else true)))
    case "requestOverlayPermission" =>
      Dispatch(None, if p.atLeastM then Some(OverlayPermission(p.packageName)) else None, Success(NoValue))
    case "openAccessibilitySettings" =>
      Dispatch(None, Some(AccessibilitySettings), Success(NoValue))
    case "openDNDSettings" =>
      Dispatch(None, if p.atLeastM then Some(NotificationPolicySettings) else None, Success(NoValue))
    case "isAccessibilityEnabled" =>
      Dispatch(None, None, Success(Flag(ServiceEnabled(p.enabledServices, ComponentName(p.packageName, ServiceClassName)))))
    case "getVolume" =>
      Dispatch(None, None, Success(Quotient(musicLevel, musicMax)))
    case "setVolume" =>
      if call.args.volume.None? then Dispatch(None, None, Failure("INVALID_ARGUMENT", "Volume argument missing"))
      else
        var target := TargetLevel(call.args.volume.value, musicMax);
        ClampedTruncationIsFloor(call.args.volume.value * musicMax as real, musicMax);
        Dispatch(if serviceReady then Some(target) else None, None, Success(NoValue))
    case "setVolumeTarget" =>
      if call.args.target.None? then Dispatch(None, None, Failure("INVALID_ARGUMENT", "Target volume missing"))
      else if !serviceReady then Dispatch(None, None, Failure("SERVICE_NOT_READY", "Accessibility Service not active"))
      else Dispatch(call.args.target, None, Success(NoValue))
    case _ =>
      Dispatch(None, None, NotImplemented)
  }

  // ---------------------------------------------------------------------
  // The volume broadcast receiver.
  // ---------------------------------------------------------------------

  /** The extras of a VOLUME_CHANGED broadcast; an absent extra reads as its default -1. */
  datatype Intent = Intent(volume: Option<int>, max: Option<int>)

  function IntExtra(intent: Option<Intent>, isVolume: bool): int
  {
    match intent
    case None => -1
    case Some(i) =>
      var extra := if isVolume then i.volume else i.max;
      if extra.Some? then extra.value else -1
  }

  /** What the event sink is sent: volume.toDouble() / divisor.toDouble(), kept as the pair. */
  datatype VolumeEvent = VolumeEvent(volume: nat, divisor: int)

  const FallbackMax: int := 15

  /**
   * The receiver's event for a broadcast: none for a missing or negative
   * volume; the divisor is the broadcast's own max when positive, otherwise
   * the music stream's max, otherwise 15 when no audio manager is at hand.
   */
  function VolumeEventOf(intent: Option<Intent>, streamMax: Option<int>): (ev: Option<VolumeEvent>)
    ensures ev.Some? <==> IntExtra(intent, true) >= 0
    ensures ev.Some? ==> ev.value.volume == IntExtra(intent, true)
    ensures ev.Some? && IntExtra(intent, false) > 0 ==> ev.value.divisor == IntExtra(intent, false)
    ensures ev.Some? && (streamMax.None? || streamMax.value > 0) ==> ev.value.divisor > 0
    ensures ev.Some? && IntExtra(intent, false) <= 0 && streamMax.Some? ==> ev.value.divisor == streamMax.value
    ensures ev.Some? && IntExtra(intent, false) <= 0 && streamMax.None? ==> ev.value.divisor == FallbackMax
  {
    var volume := IntExtra(intent, true);
    if volume < 0 then None
    else
      var maxExtra := IntExtra(intent, false);
      var max := if maxExtra > 0 then maxExtra else if streamMax.Some? then streamMax.value else FallbackMax;
      Some(VolumeEvent(volume, max))
  }

  /** A broadcast whose volume lies within its own positive max yields a fraction in [0, 1]. */
  lemma BroadcastFractionInRange(v: int, m: int, streamMax: Option<int>)
    requires 0 <= v <= m && 0 < m
    ensures VolumeEventOf(Some(Intent(Some(v), Some(m))), streamMax) == Some(VolumeEvent(v, m))
    ensures 0.0 <= v as real / m as real <= 1.0
  {
    assert v as real <= m as real;
  }

  /** The activity: its event sink and what has been sent through it. */
  class MainActivity {
    var eventSinkOpen: bool
    var sent: seq<VolumeEvent>

    constructor ()
      ensures !eventSinkOpen && sent == []
    {
      eventSinkOpen := false;
      sent := [];
    }

    /** The event channel's `onListen`. */
    method OnListen()
      modifies this`eventSinkOpen
      ensures eventSinkOpen
    {
      eventSinkOpen := true;
    }

    /** The event channel's `onCancel`. */
    method OnCancel()
      modifies this`eventSinkOpen
      ensures !eventSinkOpen
    {
      eventSinkOpen := false;
    }

    /** The receiver's `onReceive`: an event is sent only with an open sink and a volume extra of at least 0. */
    method OnReceive(intent: Option<Intent>, streamMax: Option<int>)
      modifies this`sent
      ensures var ev := VolumeEventOf(intent, streamMax);
        sent == old(sent) + (if eventSinkOpen && ev.Some? then [ev.value] else [])
    {
      var volume := IntExtra(intent, true);
      if volume >= 0 {
        var maxExtra := IntExtra(intent, false);
        var max;
        if maxExtra > 0 {
          max := maxExtra;
        } else if streamMax.Some? {
          max := streamMax.value;
        } else {
          max := FallbackMax;
        }
        if eventSinkOpen {
          sent := sent + [VolumeEvent(volume, max)];
        }
      }
    }

    /** The method channel's handler, proved against `Route`. */
    method OnMethodCall(call: MethodCall, p: Platform, audio: AudioBackend, keys: VolumeAccessibilityService?)
      returns (reply: Reply, launch: Option<Screen>)
      requires audio.Valid() && (keys != null ==> keys.audio == audio)
      modifies audio
      ensures audio.Valid()
      ensures var d := Route(call, p, keys != null, old(audio.state.levels.Of(Music)), old(audio.state.maxes.Of(Music)));
        && reply == d.reply && launch == d.launch
        && (d.apply.Some? ==> audio.state == ApplySlider(old(audio.state), Music, d.apply.value))
        && (d.apply.None? ==> unchanged(audio))
    {
      launch := None;
      if call.name == "checkOverlayPermission" {
        reply := Success(Flag(if p.atLeastM then p.canDrawOverlays else true));
      } else if call.name == "requestOverlayPermission" {
        if p.atLeastM {
          launch := Some(OverlayPermission(p.packageName));
        }
        reply := Success(NoValue);
      } else if call.name == "openAccessibilitySettings" {
        launch := Some(AccessibilitySettings);
        reply := Success(NoValue);
      } else if call.name == "openDNDSettings" {
        if p.atLeastM {
          launch := Some(NotificationPolicySettings);
        }
        reply := Success(NoValue);
      } else if call.name == "isAccessibilityEnabled" {
        var enabled := IsAccessibilityServiceEnabled(p.enabledServices, p.packageName, ServiceClassName);
        reply := Success(Flag(enabled));
      } else if call.name == "getVolume" {
        var maxVolume := audio.GetStreamMaxVolume(Music);
        var currentVolume := audio.GetStreamVolume(Music);
        reply := Success(Quotient(currentVolume, maxVolume));
      } else if call.name == "setVolume" {
        if call.args.volume.Some? {
          var maxVolume := audio.GetStreamMaxVolume(Music);
          var targetVolume := TargetLevel(call.args.volume.value, maxVolume);
          if keys != null {
            keys.ApplySliderVolume(Music, targetVolume);
          }
          // without the service the change is only logged
          reply := Success(NoValue);
        } else {
          reply := Failure("INVALID_ARGUMENT", "Volume argument missing");
        }
      } else if call.name == "setVolumeTarget" {
        if call.args.target.Some? {
          if keys != null {
            keys.ApplySliderVolume(Music, call.args.target.value);
            reply := Success(NoValue);
          } else {
            reply := Failure("SERVICE_NOT_READY", "Accessibility Service not active");
          }
        } else {
          reply := Failure("INVALID_ARGUMENT", "Target volume missing");
        }
      } else {
        reply := NotImplemented;
      }
    }
  }
}
