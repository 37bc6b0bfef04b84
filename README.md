# Next-up tooltip: the show/hide decision logic

A model of the `NextUpTooltip` widget of the player's controls
(`src/js/view/controls/nextuptooltip.js`): the "next up" overlay that appears
near the end of a video to point the viewer at the next playlist item. Only the
decision logic is modelled — when the overlay is enabled, shown, hidden, pinned
("sticky") or dismissed, and when the player is asked to advance.

- `NextUpLogic.dfy` (module `NextUpLogic`): the widget's state as a value
  (`State`: `enabled`, the tri-state `nextUpSticky` as `Sticky` =
  `Unset | Pinned | Dismissed`, the `offset` threshold as `Option<real>`, the
  visibility and sticky classes that `toggle` writes, and a counter of calls to
  the player's `next()`), one transition function per handler, the invariant
  `Inv` the handlers keep, `Run`, which replays a history of notifications, and
  lemmas about such histories.
- `NextUpWidget.dfy` (module `NextUpWidget`): class `NextUpTooltip` whose
  fields are that state and whose methods are the handlers, updating the
  fields in place; each method's postcondition is that the new fields are the
  transition function applied to the old ones. The handler methods
  (`OnNextUp`, `OnDuration`, `OnElapsed`, `OnStreamType`, `OnMediaState`,
  `Close`, `Click`) require and ensure `Valid()` (= `Inv`). `Toggle` does not
  assume or promise it, since the handlers call it half-way through an update:
  every handler except the media-state one writes the sticky flag just before
  calling it, so on entry the sticky class need not mirror the flag; `Reset`
  keeps it when it held before. `Inv` is stated for histories of handler
  calls. `toggle` and `reset` are public methods too, and a direct
  `toggle(true)` can break the rest of `Inv` (it shows an unpinned tooltip);
  the weaker "nothing shown while disabled" still holds over any mix of
  handler and direct calls (`NeverVisibleWhileDisabledAnyCalls`).

Modelling decisions:
- `visible` stands for both `jw-nextup-container-visible` on the container and
  `jw-flag-nextup` on the player element, which `toggle` always writes with the
  same value; `stickyMarked` is `jw-nextup-sticky`.
- The player model's notifications become arguments: the `nextUp` item
  (`Option<NextUpItem>`, `None` for a null item; a missing title or image is the
  empty string, a missing `showNextUp` is false), the duration
  (`Option<real>`; JavaScript-falsy means missing or zero), the configured
  `nextupoffset` (`Option<real>`, already in seconds, read when the duration
  arrives), the position, the stream type and the media state as strings.
- The constructor and the `enabled = false` of `setup` are one constructor:
  `setup` otherwise only builds elements and subscribes handlers.
- While the offset is unknown, `val >= this.offset` compares with `undefined`
  and is false; `Crossed` says so.
- The backward-seek branch of `onElapsed` (line 158) can never run: the guard
  at line 148 has already returned when `nextUpSticky === false`. Both the
  function and the method put `assert false` in that branch, so the verifier
  proves it dead; the method therefore omits the `reset()` call the source
  places there.

## Model

| member | source | states |
|---|---|---|
| NextUpLogic.Toggle | src/js/view/controls/nextuptooltip.js:74-81 | while disabled nothing changes; otherwise visibility becomes `show`, the sticky class becomes "sticky flag is true", and enabled, sticky, offset and the next counter are untouched |
| NextUpLogic.Reset | src/js/view/controls/nextuptooltip.js:189-192 | sticky becomes unset, enabled/offset/counter unchanged; from a valid state the result is valid and hidden with no sticky class |
| NextUpLogic.Initial | src/js/view/controls/nextuptooltip.js:10-19 | the constructed widget is disabled, hidden, unset, without offset or next requests, and satisfies the invariant |
| NextUpLogic.OnNextUp | src/js/view/controls/nextuptooltip.js:105-121 | offset and counter kept; a null item leaves `enabled` and ends unset; otherwise enabled iff title or image is non-empty, and sticky ends Dismissed exactly when enabled and `showNextUp` is false, else unset; from a valid state the result is valid and hidden |
| NextUpLogic.HasContent | src/js/view/controls/nextuptooltip.js:111 | an item counts as showable exactly when its title or its image is non-empty |
| NextUpLogic.IsFalsy | src/js/view/controls/nextuptooltip.js:124 | a missing or zero duration is falsy; any other present number is truthy |
| NextUpLogic.Crossed | src/js/view/controls/nextuptooltip.js:154 | with the offset unknown (`undefined`) the comparison is false; with it known, true exactly when the position is at or past it |
| NextUpLogic.ConfiguredOffset | src/js/view/controls/nextuptooltip.js:129 | a missing or zero `nextupoffset` becomes -10; any other value is kept; the result is never zero |
| NextUpLogic.ResolveOffset | src/js/view/controls/nextuptooltip.js:129-133 | a negative setting places the threshold that many seconds before the end of the media; a non-negative one is the threshold itself, whatever the duration |
| NextUpLogic.OnDuration | src/js/view/controls/nextuptooltip.js:123-136 | a falsy duration changes nothing; otherwise only the offset changes, to the resolved threshold; the invariant is kept |
| NextUpLogic.OnElapsed | src/js/view/controls/nextuptooltip.js:146-161 | the state changes iff enabled, sticky unset, offset known and position at or past it, and the only change is sticky := true with the overlay and sticky class shown; the invariant is kept |
| NextUpLogic.OnStreamType | src/js/view/controls/nextuptooltip.js:163-168 | "VOD" changes nothing; any other stream type sets sticky to false and, from a valid state, hides; enabled, offset and counter unchanged |
| NextUpLogic.OnMediaState | src/js/view/controls/nextuptooltip.js:138-144 | only `complete` has an effect; it never touches sticky, enabled, offset or the counter, and from a valid state it leaves the overlay hidden |
| NextUpLogic.Close | src/js/view/controls/nextuptooltip.js:47-51 | sticky becomes false; from a valid state the result is valid and hidden |
| NextUpLogic.Click | src/js/view/controls/nextuptooltip.js:69-72 | sticky becomes unset and exactly one more advance is requested; from a valid state the result is valid and hidden |
| NextUpLogic.RunPreservesInv | src/js/view/controls/nextuptooltip.js:74-81 | every history of notifications keeps the invariant: visible only while enabled and pinned, pinned only while enabled with a known offset, sticky class mirrors the flag |
| NextUpLogic.NeverVisibleWhileDisabled | src/js/view/controls/nextuptooltip.js:74-77 | after any history from construction, a disabled widget shows neither the overlay nor the sticky class |
| NextUpLogic.NeverVisibleWhileDisabledAnyCalls | src/js/view/controls/nextuptooltip.js:74-81 | over any sequence of handler calls and direct `toggle`/`reset` calls, starting hidden while disabled, a disabled widget shows neither the overlay nor the sticky class |
| NextUpLogic.CallStepKeepsHidden | src/js/view/controls/nextuptooltip.js:74-81 | each handler, `toggle(show)` and `reset()` keeps "nothing shown while disabled" from any state satisfying it |
| NextUpLogic.DismissedIgnoresPositions | src/js/view/controls/nextuptooltip.js:146-150 | once sticky is false, any sequence of position updates leaves the whole state unchanged |
| NextUpLogic.NoAutoShowBeforeDuration | src/js/view/controls/nextuptooltip.js:154 | while the offset is unknown, any sequence of position updates leaves the whole state unchanged |
| NextUpLogic.HostCountdownSilencesPositions | src/js/view/controls/nextuptooltip.js:113-118 | from any state, an item with content and `showNextUp` false leaves the widget enabled, dismissed and hidden through any position updates |
| NextUpLogic.ClosedStaysClosed | src/js/view/controls/nextuptooltip.js:48-51 | after the close button, seeking back and playing past the threshold again never shows the overlay |
| NextUpLogic.ClicksCountNextRequests | src/js/view/controls/nextuptooltip.js:69-72 | over any history, the player is asked to advance exactly once per click on the tooltip |
| NextUpLogic.OnlyNextUpChangesEnabled | src/js/view/controls/nextuptooltip.js:111 | no notification other than a new item changes `enabled` |
| NextUpLogic.PositionNeverRearms | src/js/view/controls/nextuptooltip.js:158-160 | a position update never changes a pinned or dismissed widget: the backward-seek reset never takes effect |
| NextUpLogic.OffsetExamples | src/js/view/controls/nextuptooltip.js:128-133 | default and -10 with duration 100 give 90; 30 gives 30 for any duration |
| NextUpLogic.AutoShowThenClose | src/js/view/controls/nextuptooltip.js:155-157 | an enabled, unset widget past its threshold is shown and pinned; closing it then hides it and sets sticky to false |
| NextUpLogic.StepPreservesInv | src/js/view/controls/nextuptooltip.js:105-168 | each single handler keeps the invariant |
| NextUpWidget.NextUpTooltip.constructor | src/js/view/controls/nextuptooltip.js:10-19 | the new widget's fields are `Initial()` and valid |
| NextUpWidget.NextUpTooltip.Toggle | src/js/view/controls/nextuptooltip.js:74-81 | the fields become `Toggle` of the old fields |
| NextUpWidget.NextUpTooltip.Reset | src/js/view/controls/nextuptooltip.js:189-192 | the fields become `Reset` of the old fields; validity is kept and the overlay is hidden |
| NextUpWidget.NextUpTooltip.OnNextUp | src/js/view/controls/nextuptooltip.js:105-121 | the fields become `OnNextUp` of the old fields; valid and hidden |
| NextUpWidget.NextUpTooltip.OnDuration | src/js/view/controls/nextuptooltip.js:123-136 | the fields become `OnDuration` of the old fields; valid |
| NextUpWidget.NextUpTooltip.OnElapsed | src/js/view/controls/nextuptooltip.js:146-161 | the fields become `OnElapsed` of the old fields; valid; the backward-seek branch is proved unreachable |
| NextUpWidget.NextUpTooltip.OnStreamType | src/js/view/controls/nextuptooltip.js:163-168 | the fields become `OnStreamType` of the old fields; valid |
| NextUpWidget.NextUpTooltip.OnMediaState | src/js/view/controls/nextuptooltip.js:138-144 | the fields become `OnMediaState` of the old fields; valid |
| NextUpWidget.NextUpTooltip.Close | src/js/view/controls/nextuptooltip.js:47-51 | the fields become `Close` of the old fields; valid and hidden |
| NextUpWidget.NextUpTooltip.Click | src/js/view/controls/nextuptooltip.js:69-72 | the fields become `Click` of the old fields (one more advance request); valid and hidden |

## Left out

- Element creation, the template, `addContent`, `removeContent` and `element` (lines 21-29, 170-187): DOM construction with no decision logic.
- The localized strings (lines 14-15) and the subscription of handlers through `UI`, `model.on` and `model.change` (lines 36-54, 139): the handlers are methods the caller invokes in the order the notifications arrive.
- `setNextUpItem` (lines 83-103): binding the thumbnail, header and title after a 500 ms timer is presentation; the timer and the HTML-to-text conversion of the title are not modelled, nor the latent race of two items within the delay.
- `loadThumbnail` (lines 57-67): browser image loading.
- `utils.seconds`: its parsing of time strings is not modelled; `nextupoffset` is taken as a number of seconds. A configured string such as `"0"`, which is truthy in JavaScript, is therefore not distinguished from the number 0.
- Durations, positions and offsets are finite exact reals, not JavaScript doubles: `NaN`, the `Infinity` duration of live media (with which `-10 + Infinity` is `Infinity` and the threshold is never reached), and the rounding of `offset += duration` (line 132) are not modelled, nor values of other JavaScript types in these fields.
- The player's `next()` is recorded only as the `nextRequests` counter.
- NextUpWidget.NextUpTooltip.OnElapsed: the `reset()` call inside the dead backward-seek branch is replaced by `assert false`, since the branch cannot run.
