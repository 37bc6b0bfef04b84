/** The next-up tooltip widget as an object whose handlers update its fields
    in place, as the player's event callbacks do. Each handler is specified by
    the transition function of the same name in NextUpLogic: its postcondition
    equates the new fields with that function of the old ones. A sequence of
    handler calls therefore leaves the fields equal to `Run` of the matching
    events, by composing those postconditions one call at a time, and the
    history lemmas proved about `Run` apply to the widget through that
    composition. */
module NextUpWidget {
  import opened NextUpLogic

  class NextUpTooltip {
    var enabled: bool
    var sticky: Sticky
    var offset: Option<real>
    /** `jw-nextup-container-visible` on the container and `jw-flag-nextup` on the player element. */
    var visible: bool
    /** `jw-nextup-sticky` on the container. */
    var stickyMarked: bool
    /** Calls made to the player's `next()`. */
    var nextRequests: nat

    /** The fields as a value of the decision logic. */
    function Snapshot(): State
      reads this
    {
      State(enabled, sticky, offset, visible, stickyMarked, nextRequests)
    }

    /** Never visible while disabled, and the other parts of `Inv`. */
    predicate Valid()
      reads this
    {
      Inv(Snapshot())
    }

    /** The constructor, together with the `enabled = false` of `setup`:
        disabled, reset, offset unknown. */
    constructor ()
      ensures Valid() && Snapshot() == Initial()
    {
      enabled := false;
      sticky := Unset;
      offset := None;
      visible := false;
      stickyMarked := false;
      nextRequests := 0;
      new;
      Reset();
    }

    /** `toggle(show)`. Every handler except the media-state one writes the
        sticky flag just before calling it, so on entry the sticky class need
        not mirror the flag and the invariant is not assumed. */
    method Toggle(show: bool)
      modifies this
      ensures Snapshot() == NextUpLogic.Toggle(old(Snapshot()), show)
    {
      if !enabled {
        return;
      }
      stickyMarked := sticky == Pinned;
      visible := show;
    }

    /** `reset()`. */
    method Reset()
      modifies this
      ensures Snapshot() == NextUpLogic.Reset(old(Snapshot()))
      ensures old(Valid()) ==> Valid() && !visible
    {
      sticky := Unset;
      Toggle(false);
    }

    /** The `change:nextUp` handler. Binding the item's text and thumbnail
        after a delay is presentation only and is not part of this model. */
    method OnNextUp(nextUp: Option<NextUpItem>)
      requires Valid()
      modifies this
      ensures Valid() && !visible
      ensures Snapshot() == NextUpLogic.OnNextUp(old(Snapshot()), nextUp)
    {
      Reset();
      if nextUp.None? {
        return;
      }
      enabled := HasContent(nextUp.value);
      if enabled {
        if !nextUp.value.showNextUp {
          // the host counts down to the next item itself
          sticky := Dismissed;
          Toggle(false);
        }
      }
    }

    /** The `duration` handler; `configured` is the `nextupoffset` setting,
        in seconds, read at this moment. */
    method OnDuration(duration: Option<real>, configured: Option<real>)
      requires Valid()
      modifies this
      ensures Valid()
      ensures Snapshot() == NextUpLogic.OnDuration(old(Snapshot()), duration, configured)
    {
      if IsFalsy(duration) {
        return;
      }
      var o := ConfiguredOffset(configured);
      if o < 0.0 {
        o := o + duration.value;
      }
      offset := Some(o);
    }

    /** The `position` handler. */
    method OnElapsed(position: real)
      requires Valid()
      modifies this
      ensures Valid()
      ensures Snapshot() == NextUpLogic.OnElapsed(old(Snapshot()), position)
    {
      var nextUpSticky := sticky;
      if !enabled || nextUpSticky == Dismissed {
        return;
      }
      var showUntilEnd := offset.Some? && position >= offset.value;
      if showUntilEnd && nextUpSticky == Unset {
        sticky := Pinned;
        Toggle(true);
      } else if !showUntilEnd && nextUpSticky == Dismissed {
        // the backward-seek reset: the guard above has already returned
        assert false;
      }
    }

    /** The `streamType` handler. */
    method OnStreamType(streamType: string)
      requires Valid()
      modifies this
      ensures Valid()
      ensures Snapshot() == NextUpLogic.OnStreamType(old(Snapshot()), streamType)
    {
      if streamType != "VOD" {
        sticky := Dismissed;
        Toggle(false);
      }
    }

    /** The media model's `state` handler. */
    method OnMediaState(state: string)
      requires Valid()
      modifies this
      ensures Valid()
      ensures Snapshot() == NextUpLogic.OnMediaState(old(Snapshot()), state)
    {
      if state == "complete" {
        Toggle(false);
      }
    }

    /** The close button's `click tap` handler. */
    method Close()
      requires Valid()
      modifies this
      ensures Valid() && !visible
      ensures Snapshot() == NextUpLogic.Close(old(Snapshot()))
    {
      sticky := Dismissed;
      Toggle(false);
    }

    /** `click()` on the tooltip body: reset, then one request to advance. */
    method Click()
      requires Valid()
      modifies this
      ensures Valid() && !visible
      ensures Snapshot() == NextUpLogic.Click(old(Snapshot()))
    {
      Reset();
      nextRequests := nextRequests + 1;
    }
  }
}
