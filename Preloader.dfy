/**
 * The intro overlay: it shows a video, fades out after a short minimum
 * display time or when the video ends or fails, and calls `onComplete`
 * when the fade timer fires. Timers are named by the handles
 * `setTimeout` returns; `completions` counts calls of `onComplete`.
 */
module Preloader {
  import opened Wrappers

  /** The video events the overlay listens to. */
  datatype Listener = CanPlay | Play | Ended | Error

  const VideoListeners: set<Listener> := {CanPlay, Play, Ended, Error}

  /** `PRELOAD_MS` and `FADE_MS`, in milliseconds. */
  const PreloadMs: nat := 100
  const FadeMs: nat := 100

  /** The overlay's opacity class. */
  function OpacityClass(isVisible: bool, isFaded: bool): (c: string)
    ensures c == "opacity-100" <==> isVisible && !isFaded
    ensures c == "opacity-0" || c == "opacity-100"
  {
    if isVisible then (if isFaded then "opacity-0" else "opacity-100") else "opacity-0"
  }

  /** The overlay's `pointer-events` style. */
  function PointerEvents(isVisible: bool): (p: string)
    ensures p == "auto" <==> isVisible
    ensures p == "auto" || p == "none"
  {
    if isVisible then "auto" else "none"
  }

  /**
   * One mounted overlay as written: its two state flags, the listeners
   * attached to the video, the minimum-display timer, the armed fade
   * timers, the single `fadeTimeout` slot and the number of completions.
   */
  class Preloader {
    var isVisible: bool
    var isFaded: bool
    var listeners: set<Listener>
    var minTimerPending: bool
    var pendingFades: set<nat>
    var fadeTimeout: Option<nat>
    var nextHandle: nat
    var completions: nat

    /**
     * The overlay is hidden exactly once `onComplete` has run, and it is
     * faded before any fade timer is armed; every handle was issued.
     */
    ghost predicate Valid()
      reads this
    {
      && listeners <= VideoListeners
      && (!isVisible <==> completions > 0)
      && (pendingFades != {} || completions > 0 ==> isFaded)
      && (forall h :: h in pendingFades ==> h < nextHandle)
      && (fadeTimeout.Some? ==> fadeTimeout.value < nextHandle)
    }

    /**
     * Mount and the effect: visible, not faded; with a video element the
     * four listeners are attached and the minimum timer started, without
     * one nothing is armed.
     */
    constructor (hasVideo: bool)
      ensures Valid()
      ensures isVisible && !isFaded && completions == 0
      ensures listeners == (if hasVideo then VideoListeners else {})
      ensures minTimerPending == hasVideo
      ensures pendingFades == {} && fadeTimeout == None && nextHandle == 0
    {
      isVisible := true;
      isFaded := false;
      listeners := if hasVideo then VideoListeners else {};
      minTimerPending := hasVideo;
      pendingFades := {};
      fadeTimeout := None;
      nextHandle := 0;
      completions := 0;
    }

    /** `fadeTimeout = setTimeout(..., FADE_MS)`: a new timer, stored over the old handle. */
    method ArmFade()
      requires Valid() && isFaded
      modifies this
      ensures Valid()
      ensures pendingFades == old(pendingFades) + {old(nextHandle)}
      ensures fadeTimeout == Some(old(nextHandle)) && nextHandle == old(nextHandle) + 1
      ensures isVisible == old(isVisible) && isFaded == old(isFaded) && completions == old(completions)
      ensures listeners == old(listeners) && minTimerPending == old(minTimerPending)
    {
      pendingFades := pendingFades + {nextHandle};
      fadeTimeout := Some(nextHandle);
      nextHandle := nextHandle + 1;
    }

    /** The minimum-display timer fires: fade, and arm a fade timer. */
    method MinTimerFires()
      requires Valid() && minTimerPending
      modifies this
      ensures Valid()
      ensures !minTimerPending && isFaded
      ensures pendingFades == old(pendingFades) + {old(nextHandle)}
      ensures fadeTimeout == Some(old(nextHandle)) && nextHandle == old(nextHandle) + 1
      ensures isVisible == old(isVisible) && completions == old(completions) && listeners == old(listeners)
    {
      minTimerPending := false;
      isFaded := true;
      ArmFade();
    }

    /** `handleVideoEnded`: clear the minimum timer, fade, arm a fade timer. */
    method VideoEnded()
      requires Valid() && Ended in listeners
      modifies this
      ensures Valid()
      ensures !minTimerPending && isFaded
      ensures pendingFades == old(pendingFades) + {old(nextHandle)}
      ensures fadeTimeout == Some(old(nextHandle)) && nextHandle == old(nextHandle) + 1
      ensures isVisible == old(isVisible) && completions == old(completions) && listeners == old(listeners)
    {
      isFaded := true;
      minTimerPending := false;
      isFaded := true;
      ArmFade();
    }

    /** `handleError`: the same as a finished video. */
    method VideoError()
      requires Valid() && Error in listeners
      modifies this
      ensures Valid()
      ensures !minTimerPending && isFaded
      ensures pendingFades == old(pendingFades) + {old(nextHandle)}
      ensures fadeTimeout == Some(old(nextHandle)) && nextHandle == old(nextHandle) + 1
      ensures isVisible == old(isVisible) && completions == old(completions) && listeners == old(listeners)
    {
      minTimerPending := false;
      isFaded := true;
      ArmFade();
    }

    /** A fade timer fires: hide the overlay and call `onComplete`. */
    method FadeTimerFires(h: nat)
      requires Valid() && h in pendingFades
      modifies this
      ensures Valid()
      ensures pendingFades == old(pendingFades) - {h}
      ensures !isVisible && completions == old(completions) + 1
      ensures isFaded && fadeTimeout == old(fadeTimeout) && nextHandle == old(nextHandle)
      ensures listeners == old(listeners) && minTimerPending == old(minTimerPending)
    {
      pendingFades := pendingFades - {h};
      isVisible := false;
      completions := completions + 1;
    }

    /**
     * The effect's cleanup: clear the minimum timer and the fade timer in
     * the slot, remove the four listeners. Any other armed fade timer
     * stays armed.
     */
    method Cleanup()
      requires Valid()
      modifies this
      ensures Valid()
      ensures !minTimerPending && listeners == old(listeners) - VideoListeners
      ensures pendingFades == if old(fadeTimeout).Some? then old(pendingFades) - {old(fadeTimeout).value} else old(pendingFades)
      ensures isVisible == old(isVisible) && isFaded == old(isFaded) && completions == old(completions)
      ensures fadeTimeout == old(fadeTimeout) && nextHandle == old(nextHandle)
    {
      minTimerPending := false;
      if fadeTimeout.Some? {
        pendingFades := pendingFades - {fadeTimeout.value};
      }
      listeners := listeners - VideoListeners;
    }
  }

  /**
   * As written: the minimum timer fires, then the video ends before the
   * first fade timer has fired. Two fade timers are armed, and when both
   * fire `onComplete` has run twice.
   */
  method MinTimerThenEndedCompletesTwice() returns (completions: nat)
    ensures completions == 2
  {
    var p := new Preloader(true);
    p.MinTimerFires();
    p.VideoEnded();
    assert p.pendingFades == {0, 1};
    p.FadeTimerFires(0);
    p.FadeTimerFires(1);
    completions := p.completions;
  }

  /**
   * As written: the same two fade timers, then unmount. Cleanup clears
   * only the second; the first still fires and `onComplete` runs after
   * the overlay was torn down.
   */
  method CompletionAfterCleanup() returns (pendingAfterCleanup: set<nat>, completionsAfterCleanup: nat)
    ensures pendingAfterCleanup == {0}
    ensures completionsAfterCleanup == 1
  {
    var p := new Preloader(true);
    p.MinTimerFires();
    p.VideoEnded();
    p.Cleanup();
    pendingAfterCleanup := p.pendingFades;
    assert 0 in p.pendingFades;
    p.FadeTimerFires(0);
    completionsAfterCleanup := p.completions;
  }

  /**
   * The evident intent: the handlers start the fade only if no fade timer
   * has been armed yet, so the single `fadeTimeout` slot names the only
   * fade timer there ever is and cleanup can cancel it.
   */
  class GuardedPreloader {
    var isVisible: bool
    var isFaded: bool
    var listeners: set<Listener>
    var minTimerPending: bool
    var pendingFades: set<nat>
    var fadeTimeout: Option<nat>
    var nextHandle: nat
    var completions: nat
    var cleanedUp: bool

    /**
     * `onComplete` runs at most once: an armed fade timer and a past
     * completion exclude each other, and every armed timer is the one in
     * the slot. After cleanup no timer or listener is left.
     */
    ghost predicate Valid()
      reads this
    {
      && listeners <= VideoListeners
      && (!isVisible <==> completions > 0)
      && (pendingFades != {} || completions > 0 ==> isFaded)
      && completions + |pendingFades| <= 1
      && (pendingFades != {} ==> fadeTimeout.Some? && pendingFades == {fadeTimeout.value})
      && (completions > 0 ==> fadeTimeout.Some?)
      && (fadeTimeout.Some? ==> fadeTimeout.value < nextHandle)
      && (cleanedUp ==> pendingFades == {} && !minTimerPending && listeners == {})
    }

    constructor (hasVideo: bool)
      ensures Valid()
      ensures isVisible && !isFaded && completions == 0 && !cleanedUp
      ensures listeners == (if hasVideo then VideoListeners else {})
      ensures minTimerPending == hasVideo
      ensures pendingFades == {} && fadeTimeout == None && nextHandle == 0
    {
      isVisible := true;
      isFaded := false;
      listeners := if hasVideo then VideoListeners else {};
      minTimerPending := hasVideo;
      pendingFades := {};
      fadeTimeout := None;
      nextHandle := 0;
      completions := 0;
      cleanedUp := false;
    }

    /** Fade and arm the fade timer, unless a fade was already started. */
    method StartFade()
      requires Valid() && !cleanedUp
      modifies this
      ensures Valid()
      ensures isFaded && !minTimerPending
      ensures old(fadeTimeout).None? ==> pendingFades == {old(nextHandle)} && fadeTimeout == Some(old(nextHandle))
      ensures old(fadeTimeout).None? ==> nextHandle == old(nextHandle) + 1
      ensures old(fadeTimeout).Some? ==> pendingFades == old(pendingFades) && fadeTimeout == old(fadeTimeout)
      ensures old(fadeTimeout).Some? ==> nextHandle == old(nextHandle)
      ensures isVisible == old(isVisible) && completions == old(completions)
      ensures listeners == old(listeners) && cleanedUp == old(cleanedUp)
    {
      minTimerPending := false;
      isFaded := true;
      if fadeTimeout.None? {
        pendingFades := {nextHandle};
        fadeTimeout := Some(nextHandle);
        nextHandle := nextHandle + 1;
      }
    }

    method MinTimerFires()
      requires Valid() && minTimerPending
      modifies this
      ensures Valid() && completions == old(completions) && isFaded && !minTimerPending
      ensures isVisible == old(isVisible)
      ensures old(fadeTimeout).None? ==> pendingFades == {old(nextHandle)} && fadeTimeout == Some(old(nextHandle))
      ensures old(fadeTimeout).None? ==> nextHandle == old(nextHandle) + 1
      ensures old(fadeTimeout).Some? ==> pendingFades == old(pendingFades) && fadeTimeout == old(fadeTimeout)
      ensures old(fadeTimeout).Some? ==> nextHandle == old(nextHandle)
      ensures listeners == old(listeners) && cleanedUp == old(cleanedUp)
    {
      StartFade();
    }

    method VideoEnded()
      requires Valid() && Ended in listeners
      modifies this
      ensures Valid() && completions == old(completions) && isFaded && !minTimerPending
      ensures isVisible == old(isVisible)
      ensures old(fadeTimeout).None? ==> pendingFades == {old(nextHandle)} && fadeTimeout == Some(old(nextHandle))
      ensures old(fadeTimeout).None? ==> nextHandle == old(nextHandle) + 1
      ensures old(fadeTimeout).Some? ==> pendingFades == old(pendingFades) && fadeTimeout == old(fadeTimeout)
      ensures old(fadeTimeout).Some? ==> nextHandle == old(nextHandle)
      ensures listeners == old(listeners) && cleanedUp == old(cleanedUp)
    {
      StartFade();
    }

    method VideoError()
      requires Valid() && Error in listeners
      modifies this
      ensures Valid() && completions == old(completions) && isFaded && !minTimerPending
      ensures isVisible == old(isVisible)
      ensures old(fadeTimeout).None? ==> pendingFades == {old(nextHandle)} && fadeTimeout == Some(old(nextHandle))
      ensures old(fadeTimeout).None? ==> nextHandle == old(nextHandle) + 1
      ensures old(fadeTimeout).Some? ==> pendingFades == old(pendingFades) && fadeTimeout == old(fadeTimeout)
      ensures old(fadeTimeout).Some? ==> nextHandle == old(nextHandle)
      ensures listeners == old(listeners) && cleanedUp == old(cleanedUp)
    {
      StartFade();
    }

    /** The fade timer fires: hide the overlay and call `onComplete`, for the only time. */
    method FadeTimerFires(h: nat)
      requires Valid() && h in pendingFades
      modifies this
      ensures Valid()
      ensures old(completions) == 0 && completions == 1
      ensures !isVisible && pendingFades == {}
      ensures isFaded && fadeTimeout == old(fadeTimeout) && nextHandle == old(nextHandle)
      ensures listeners == old(listeners) && minTimerPending == old(minTimerPending) && cleanedUp == old(cleanedUp)
    {
      pendingFades := pendingFades - {h};
      isVisible := false;
      completions := completions + 1;
    }

    /** Cleanup cancels the minimum timer, the one fade timer and the listeners. */
    method Cleanup()
      requires Valid()
      modifies this
      ensures Valid()
      ensures cleanedUp && pendingFades == {} && !minTimerPending && listeners == {}
      ensures completions == old(completions)
      ensures isVisible == old(isVisible) && isFaded == old(isFaded)
      ensures fadeTimeout == old(fadeTimeout) && nextHandle == old(nextHandle)
    {
      minTimerPending := false;
      if fadeTimeout.Some? {
        pendingFades := pendingFades - {fadeTimeout.value};
      }
      listeners := listeners - VideoListeners;
      cleanedUp := true;
    }
  }

  /**
   * The run that completes twice as written completes once with the
   * guard, and leaves nothing armed after cleanup.
   */
  method GuardedMinTimerThenEnded() returns (completions: nat, pendingAfterCleanup: set<nat>)
    ensures completions == 1
    ensures pendingAfterCleanup == {}
  {
    var p := new GuardedPreloader(true);
    p.MinTimerFires();
    p.VideoEnded();
    assert p.pendingFades == {0};
    p.FadeTimerFires(0);
    completions := p.completions;
    p.Cleanup();
    pendingAfterCleanup := p.pendingFades;
  }
}
