/** The show/hide decision logic of the "next up" tooltip, as values.
    Each handler of the widget is a transition function on `State`; the class
    in NextUpWidget.dfy runs the same steps in place and is specified by these
    functions. `Inv` is the invariant every handler keeps, and `Run` replays a
    sequence of notifications so that properties of whole histories can be
    stated and proved. */
module NextUpLogic {

  datatype Option<+T> = None | Some(value: T)

  /** The tri-state `nextUpSticky`: `undefined` (Unset), `true` (Pinned: the
      tooltip was shown at the threshold and stays up) or `false` (Dismissed:
      closed by the viewer, or left to a host that runs its own countdown). */
  datatype Sticky = Unset | Pinned | Dismissed

  /** The `nextUp` item announced by the player model. A missing title or
      image is the empty string; a missing `showNextUp` is false. */
  datatype NextUpItem = NextUpItem(title: string, image: string, showNextUp: bool)

  /** Everything the decision logic reads or writes.
      - `visible`: the container's `jw-nextup-container-visible` class and the
        player element's `jw-flag-nextup` class, which are always written
        together with the same value;
      - `stickyMarked`: the container's `jw-nextup-sticky` class;
      - `offset`: the playback position at which the tooltip shows itself,
        unknown until a duration arrives;
      - `nextRequests`: how many times the player was asked to advance. */
  datatype State = State(
    enabled: bool,
    sticky: Sticky,
    offset: Option<real>,
    visible: bool,
    stickyMarked: bool,
    nextRequests: nat)

  /** The notifications and user actions the widget reacts to. */
  datatype Event =
    | NextUp(item: Option<NextUpItem>)
    | Duration(duration: Option<real>, configured: Option<real>)
    | Elapsed(position: real)
    | StreamType(kind: string)
    | MediaState(mediaState: string)
    | CloseButton
    | TooltipClick

  /** Offset used when `nextupoffset` is not configured: ten seconds before the end. */
  const DefaultOffset: real := -10.0

  /** The widget's invariant: the overlay is shown only while enabled and
      pinned, a pinned tooltip belongs to an enabled item whose threshold is
      known, and the sticky class mirrors the sticky flag. */
  predicate Inv(s: State)
  {
    && (s.visible ==> s.enabled && s.sticky == Pinned)
    && (s.sticky == Pinned ==> s.enabled && s.offset.Some?)
    && s.stickyMarked == (s.sticky == Pinned)
  }

  /** `toggle(show)`: ignored while disabled; otherwise writes the visibility
      classes from `show` and the sticky class from the sticky flag. */
  function Toggle(s: State, show: bool): (t: State)
    ensures !s.enabled ==> t == s
    ensures s.enabled ==> t.visible == show && t.stickyMarked == (s.sticky == Pinned)
    ensures t.enabled == s.enabled && t.sticky == s.sticky
    ensures t.offset == s.offset && t.nextRequests == s.nextRequests
  {
    if !s.enabled then s
    else s.(stickyMarked := s.sticky == Pinned, visible := show)
  }

  /** `reset()`: clears the sticky flag and hides. */
  function Reset(s: State): (t: State)
    ensures t.sticky == Unset
    ensures t.enabled == s.enabled && t.offset == s.offset && t.nextRequests == s.nextRequests
    ensures Inv(s) ==> Inv(t) && !t.visible && !t.stickyMarked
  {
    Toggle(s.(sticky := Unset), false)
  }

  /** The widget as the constructor leaves it: disabled, reset, no offset yet. */
  function Initial(): (s: State)
    ensures Inv(s) && !s.enabled && !s.visible
    ensures s.sticky == Unset && s.offset == None && s.nextRequests == 0
  {
    Reset(State(false, Unset, None, false, false, 0))
  }

  /** An item can be shown when it has a title or an image. */
  function HasContent(item: NextUpItem): (b: bool)
    ensures b <==> |item.title| > 0 || |item.image| > 0
  {
    item.title != "" || item.image != ""
  }

  /** `onNextUp`: always resets first; an absent item changes nothing more;
      otherwise the widget is enabled exactly when the item has content, and
      an enabled item whose host runs its own countdown is dismissed at once. */
  function OnNextUp(s: State, item: Option<NextUpItem>): (t: State)
    ensures t.offset == s.offset && t.nextRequests == s.nextRequests
    ensures item.None? ==> t.enabled == s.enabled && t.sticky == Unset
    ensures item.Some? ==> (t.enabled <==> item.value.title != "" || item.value.image != "")
    ensures item.Some? ==> t.sticky == (if t.enabled && !item.value.showNextUp then Dismissed else Unset)
    ensures Inv(s) ==> Inv(t) && !t.visible && !t.stickyMarked
  {
    var r := Reset(s);
    if item.None? then r
    else
      var e := r.(enabled := HasContent(item.value));
      if e.enabled && !item.value.showNextUp then Toggle(e.(sticky := Dismissed), false)
      else e
  }

  /** JavaScript truthiness of a duration: a missing duration and zero are falsy. */
  function IsFalsy(duration: Option<real>): (b: bool)
    ensures duration == None || duration == Some(0.0) ==> b
    ensures duration.Some? && duration.value != 0.0 ==> !b
  {
    duration.None? || duration.value == 0.0
  }

  /** `model.get('nextupoffset') || -10`: a missing or zero setting falls back
      to the default. */
  function ConfiguredOffset(configured: Option<real>): (c: real)
    ensures c != 0.0
    ensures configured.None? || configured.value == 0.0 ==> c == DefaultOffset
    ensures configured.Some? && configured.value != 0.0 ==> c == configured.value
  {
    if configured.None? || configured.value == 0.0 then DefaultOffset else configured.value
  }

  /** The threshold for a configured offset `c`: a negative `c` counts back
      from the end of the media, a non-negative one is a position from the
      start, whatever the duration. */
  function ResolveOffset(c: real, duration: real): (o: real)
    ensures c < 0.0 ==> o < duration && duration - o == -c
    ensures c >= 0.0 ==> o == c
  {
    if c < 0.0 then c + duration else c
  }

  /** `onDuration`: a falsy duration is ignored; otherwise only the offset
      changes, and it becomes known. */
  function OnDuration(s: State, duration: Option<real>, configured: Option<real>): (t: State)
    ensures IsFalsy(duration) ==> t == s
    ensures !IsFalsy(duration) ==>
      t == s.(offset := Some(ResolveOffset(ConfiguredOffset(configured), duration.value)))
    ensures Inv(s) ==> Inv(t)
  {
    if IsFalsy(duration) then s
    else s.(offset := Some(ResolveOffset(ConfiguredOffset(configured), duration.value)))
  }

  /** The comparison `val >= this.offset`, false while the offset is unknown. */
  function Crossed(s: State, position: real): (b: bool)
    ensures s.offset.None? ==> !b
    ensures s.offset.Some? ==> (b <==> position >= s.offset.value)
  {
    s.offset.Some? && position >= s.offset.value
  }

  /** `onElapsed`: the only change a position update can make is to pin and
      show the tooltip, which it does exactly when the widget is enabled, the
      sticky flag is unset and the threshold has been crossed. The source's
      backward-seek branch is proved dead by the `assert false` below. */
  function OnElapsed(s: State, position: real): (t: State)
    ensures t != s <==> s.enabled && s.sticky == Unset && Crossed(s, position)
    ensures t != s ==> t == s.(sticky := Pinned, visible := true, stickyMarked := true)
    ensures Inv(s) ==> Inv(t)
  {
    if !s.enabled || s.sticky == Dismissed then s
    else
      var showUntilEnd := Crossed(s, position);
      if showUntilEnd && s.sticky == Unset then Toggle(s.(sticky := Pinned), true)
      else if !showUntilEnd && s.sticky == Dismissed then assert false; Reset(s)
      else s
  }

  /** `onStreamType`: anything but video on demand dismisses and hides. */
  function OnStreamType(s: State, kind: string): (t: State)
    ensures kind == "VOD" ==> t == s
    ensures kind != "VOD" ==> t.sticky == Dismissed
    ensures t.enabled == s.enabled && t.offset == s.offset && t.nextRequests == s.nextRequests
    ensures Inv(s) ==> Inv(t)
    ensures Inv(s) && kind != "VOD" ==> !t.visible && !t.stickyMarked
  {
    if kind != "VOD" then Toggle(s.(sticky := Dismissed), false) else s
  }

  /** The media-state handler: `complete` hides and leaves the sticky flag alone. */
  function OnMediaState(s: State, mediaState: string): (t: State)
    ensures mediaState != "complete" ==> t == s
    ensures t.sticky == s.sticky && t.enabled == s.enabled
    ensures t.offset == s.offset && t.nextRequests == s.nextRequests
    ensures Inv(s) ==> Inv(t)
    ensures Inv(s) && mediaState == "complete" ==> !t.visible
  {
    if mediaState == "complete" then Toggle(s, false) else s
  }

  /** The close button: the viewer dismisses the tooltip. */
  function Close(s: State): (t: State)
    ensures t.sticky == Dismissed
    ensures t.enabled == s.enabled && t.offset == s.offset && t.nextRequests == s.nextRequests
    ensures Inv(s) ==> Inv(t) && !t.visible
  {
    Toggle(s.(sticky := Dismissed), false)
  }

  /** A click on the tooltip: reset, then ask the player for the next item once. */
  function Click(s: State): (t: State)
    ensures t.sticky == Unset && t.nextRequests == s.nextRequests + 1
    ensures t.enabled == s.enabled && t.offset == s.offset
    ensures Inv(s) ==> Inv(t) && !t.visible
  {
    var r := Reset(s);
    r.(nextRequests := r.nextRequests + 1)
  }

  /** One notification or action. */
  function Step(s: State, e: Event): State
  {
    match e
    case NextUp(item) => OnNextUp(s, item)
    case Duration(d, c) => OnDuration(s, d, c)
    case Elapsed(p) => OnElapsed(s, p)
    case StreamType(k) => OnStreamType(s, k)
    case MediaState(m) => OnMediaState(s, m)
    case CloseButton => Close(s)
    case TooltipClick => Click(s)
  }

  /** The state after the notifications `evs`, in order. */
  function Run(s: State, evs: seq<Event>): State
    decreases |evs|
  {
    if evs == [] then s else Run(Step(s, evs[0]), evs[1..])
  }

  /** The number of clicks on the tooltip in `evs`. */
  function Clicks(evs: seq<Event>): nat
    decreases |evs|
  {
    if evs == [] then 0 else (if evs[0].TooltipClick? then 1 else 0) + Clicks(evs[1..])
  }

  /** Every event in `evs` is a position update. */
  predicate OnlyPositions(evs: seq<Event>)
  {
    forall i :: 0 <= i < |evs| ==> evs[i].Elapsed?
  }

  lemma StepPreservesInv(s: State, e: Event)
    requires Inv(s)
    ensures Inv(Step(s, e))
  {
  }

  /** Every handler keeps the invariant, over any history. */
  lemma {:induction false} RunPreservesInv(s: State, evs: seq<Event>)
    requires Inv(s)
    ensures Inv(Run(s, evs))
    decreases |evs|
  {
    if evs != [] {
      StepPreservesInv(s, evs[0]);
      RunPreservesInv(Step(s, evs[0]), evs[1..]);
    }
  }

  /** Whatever the history since construction, the overlay (and its sticky
      class) is never shown while the widget is disabled. */
  lemma NeverVisibleWhileDisabled(evs: seq<Event>)
    ensures var t := Run(Initial(), evs); !t.enabled ==> !t.visible && !t.stickyMarked
  {
    RunPreservesInv(Initial(), evs);
  }

  /** A call a client can make on the widget: a handler, or one of the public
      methods `toggle(show)` and `reset()` called directly. */
  datatype Call = Handler(event: Event) | ToggleCall(show: bool) | ResetCall

  function CallStep(s: State, c: Call): State
  {
    match c
    case Handler(e) => Step(s, e)
    case ToggleCall(show) => Toggle(s, show)
    case ResetCall => Reset(s)
  }

  /** The state after the calls `cs`, in order. */
  function RunCalls(s: State, cs: seq<Call>): State
    decreases |cs|
  {
    if cs == [] then s else RunCalls(CallStep(s, cs[0]), cs[1..])
  }

  /** The part of `Inv` that survives direct calls of `toggle` and `reset`:
      nothing is shown while disabled. */
  predicate HiddenWhileDisabled(s: State)
  {
    !s.enabled ==> !s.visible && !s.stickyMarked
  }

  lemma CallStepKeepsHidden(s: State, c: Call)
    requires HiddenWhileDisabled(s)
    ensures HiddenWhileDisabled(CallStep(s, c))
  {
  }

  /** Even when `toggle` and `reset` are called directly, in any order with
      the handlers (which can break the rest of `Inv`: a direct `toggle(true)`
      shows an unpinned tooltip), a disabled widget never shows the overlay or
      the sticky class. */
  lemma {:induction false} NeverVisibleWhileDisabledAnyCalls(s: State, cs: seq<Call>)
    requires HiddenWhileDisabled(s)
    ensures var t := RunCalls(s, cs); !t.enabled ==> !t.visible && !t.stickyMarked
    decreases |cs|
  {
    if cs != [] {
      CallStepKeepsHidden(s, cs[0]);
      NeverVisibleWhileDisabledAnyCalls(CallStep(s, cs[0]), cs[1..]);
    }
  }

  /** Once dismissed, position updates change nothing, whatever positions
      arrive and in whatever order: only a new item, a click or a reset can
      re-arm the tooltip. */
  lemma {:induction false} DismissedIgnoresPositions(s: State, evs: seq<Event>)
    requires s.sticky == Dismissed
    requires OnlyPositions(evs)
    ensures Run(s, evs) == s
    decreases |evs|
  {
    if evs != [] {
      assert evs[0].Elapsed?;
      assert OnlyPositions(evs[1..]) by {
        forall i | 0 <= i < |evs[1..]| ensures evs[1..][i].Elapsed? {
          assert evs[1..][i] == evs[i + 1];
        }
      }
      DismissedIgnoresPositions(s, evs[1..]);
    }
  }

  /** Until a duration has been seen the threshold is unknown, and position
      updates never show the tooltip. */
  lemma {:induction false} NoAutoShowBeforeDuration(s: State, evs: seq<Event>)
    requires s.offset.None?
    requires OnlyPositions(evs)
    ensures Run(s, evs) == s
    decreases |evs|
  {
    if evs != [] {
      assert evs[0].Elapsed?;
      assert OnlyPositions(evs[1..]) by {
        forall i | 0 <= i < |evs[1..]| ensures evs[1..][i].Elapsed? {
          assert evs[1..][i] == evs[i + 1];
        }
      }
      NoAutoShowBeforeDuration(s, evs[1..]);
    }
  }

  /** An enabled item whose host runs its own countdown leaves the tooltip
      hidden and dismissed through any number of position updates. */
  lemma {:induction false} HostCountdownSilencesPositions(s: State, item: NextUpItem, evs: seq<Event>)
    requires HasContent(item) && !item.showNextUp
    requires OnlyPositions(evs)
    ensures var t := Run(OnNextUp(s, Some(item)), evs);
      t.enabled && t.sticky == Dismissed && !t.visible
  {
    DismissedIgnoresPositions(OnNextUp(s, Some(item)), evs);
  }

  /** After the viewer closes the tooltip, seeking back below the threshold
      and playing past it again does not bring it back. */
  lemma {:induction false} ClosedStaysClosed(s: State, evs: seq<Event>)
    requires Inv(s)
    requires OnlyPositions(evs)
    ensures var t := Run(Close(s), evs); !t.visible && t.sticky == Dismissed
  {
    DismissedIgnoresPositions(Close(s), evs);
  }

  /** The player is asked to advance exactly once per click on the tooltip. */
  lemma {:induction false} ClicksCountNextRequests(s: State, evs: seq<Event>)
    ensures Run(s, evs).nextRequests == s.nextRequests + Clicks(evs)
    decreases |evs|
  {
    if evs != [] {
      ClicksCountNextRequests(Step(s, evs[0]), evs[1..]);
    }
  }

  /** The enabled flag changes only when a new item is announced. */
  lemma {:induction false} OnlyNextUpChangesEnabled(s: State, evs: seq<Event>)
    requires forall i :: 0 <= i < |evs| ==> !evs[i].NextUp?
    ensures Run(s, evs).enabled == s.enabled
    decreases |evs|
  {
    if evs != [] {
      assert !evs[0].NextUp?;
      assert forall i :: 0 <= i < |evs[1..]| ==> !evs[1..][i].NextUp? by {
        forall i | 0 <= i < |evs[1..]| ensures !evs[1..][i].NextUp? {
          assert evs[1..][i] == evs[i + 1];
        }
      }
      OnlyNextUpChangesEnabled(Step(s, evs[0]), evs[1..]);
    }
  }

  /** A pinned or dismissed tooltip is never reset by a position update: the
      backward-seek reset of the source cannot take effect. */
  lemma PositionNeverRearms(s: State, position: real)
    requires s.sticky != Unset
    ensures OnElapsed(s, position) == s
  {
  }

  /** The documented thresholds: the default ten seconds before the end of a
      100-second item is position 90, an explicit -10 likewise, and a
      non-negative 30 is position 30 whatever the duration. */
  lemma OffsetExamples(duration: real)
    ensures ResolveOffset(ConfiguredOffset(None), 100.0) == 90.0
    ensures ResolveOffset(ConfiguredOffset(Some(0.0)), 100.0) == 90.0
    ensures ResolveOffset(ConfiguredOffset(Some(-10.0)), 100.0) == 90.0
    ensures ResolveOffset(ConfiguredOffset(Some(30.0)), duration) == 30.0
  {
  }

  /** The auto-show sequence: once the threshold is crossed an enabled,
      unset tooltip is shown and pinned; closing it then hides and dismisses it. */
  lemma AutoShowThenClose(s: State, position: real)
    requires Inv(s) && s.enabled && s.sticky == Unset && Crossed(s, position)
    ensures var shown := OnElapsed(s, position);
      shown.visible && shown.sticky == Pinned && shown.stickyMarked
    ensures var closed := Close(OnElapsed(s, position));
      !closed.visible && closed.sticky == Dismissed && !closed.stickyMarked
  {
  }
}
