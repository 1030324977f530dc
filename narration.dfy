/**
 * The narration controller: one pre-rendered clip per slide, played through a single audio
 * slot, and an auto-advance loop that moves the deck forward when a clip completes.
 *
 * The browser's timers and audio callbacks are not modelled as time: each one is an event
 * method (`OnClipCallback`, `OnAdvanceTimerFired`, `OnSettleTimerFired`,
 * `OnRestartTimerFired`) that the environment may invoke once it has been scheduled, and
 * `OnSlideChange` is the notification a navigation would send. Every audio handle ever
 * created is kept in `clips`, so that what happens to superseded handles stays visible.
 */
module Narration {
  import opened Wrappers
  import opened JsText
  import opened Navigation

  /** The file `narrateSlide(n)` plays. */
  function ClipFile(slide: int): string {
    "audio/slide-" + IntToString(slide) + ".mp3"
  }

  /** Distinct slides have distinct clip files. */
  lemma ClipFileInjective(m: int, n: int)
    requires ClipFile(m) == ClipFile(n)
    ensures m == n
  {
    var p := "audio/slide-";
    var a, b := IntToString(m), IntToString(n);
    assert |a| == |b|;
    assert a == ClipFile(m)[|p|..|p| + |a|];
    assert b == ClipFile(n)[|p|..|p| + |b|];
    IntToStringInjective(m, n);
  }

  /** A handle is playing, paused by the controller, or settled (ended, failed to load or play). */
  datatype ClipState = Playing | Paused | Settled

  /** The `onComplete` a handle carries: the auto-advance step, or a caller's own callback. */
  datatype Completion = AutoAdvance | CallerCallback

  datatype Clip = Clip(file: string, state: ClipState, onComplete: Completion)

  /** The three ways a handle reports back; all take the same path. */
  datatype ClipOutcome = Ended | LoadError | PlayRejected

  /** The scalar state of the controller, pending timers included. */
  datatype Flags = Flags(
    narrating: bool,
    autoAdvance: bool,
    autoAdvancing: bool,
    indicator: bool,
    advanceTimers: nat,
    settleTimers: nat,
    restartTimers: nat)

  /** The handles after `pause()` on the one in the `current` slot, if any. */
  function PauseCurrent(clips: seq<Clip>, current: Option<nat>): seq<Clip>
    requires current.Some? ==> current.value < |clips|
  {
    if current.Some? then clips[current.value := clips[current.value].(state := Paused)] else clips
  }

  class Narrator {
    /** The presentation narration reads and drives; absent when none is published. */
    const nav: Deck?
    ghost const NavRepr: set<object>

    var isNarrating: bool
    var autoAdvanceEnabled: bool
    /** Set while narration's own move settles, so that the move is not taken for the user's. */
    var isAutoAdvancing: bool
    /** The audio slot: the index in `clips` of the current handle. */
    var currentAudio: Option<nat>
    /** Every handle created so far, in creation order. */
    var clips: seq<Clip>
    /** Pending 500 ms timers scheduled after a clip completes. */
    var advanceTimers: nat
    /** Pending 300 ms timers scheduled after an auto-advance move. */
    var settleTimers: nat
    /** Pending 100 ms timers scheduled after a manual slide change. */
    var restartTimers: nat
    /** The last show/hide request made of the narration indicator. */
    var indicatorShown: bool

    function GetFlags(): Flags
      reads this
    {
      Flags(isNarrating, autoAdvanceEnabled, isAutoAdvancing, indicatorShown,
            advanceTimers, settleTimers, restartTimers)
    }

    ghost predicate Valid()
      reads this, NavRepr
    {
      NavRepr == (if nav == null then {} else {nav, nav.slides})
      && (nav != null ==> nav.Valid())
      && (currentAudio.Some? ==> currentAudio.value < |clips| && clips[currentAudio.value].state == Playing)
      && autoAdvanceEnabled == isNarrating
      && (isNarrating ==> nav != null && indicatorShown)
      && (isAutoAdvancing ==> settleTimers > 0)
      && (nav == null ==> forall i :: 0 <= i < |clips| ==> clips[i].onComplete == CallerCallback)
    }

    /** At most one handle plays, and it is the one in the audio slot. */
    ghost predicate OneLive()
      reads this
    {
      forall i :: 0 <= i < |clips| && clips[i].state == Playing ==> currentAudio == Some(i)
    }

    /** The handles after the slot's handle is paused and a new one for `file` starts. */
    ghost predicate StartedClip(oldClips: seq<Clip>, oldCurrent: Option<nat>, file: string, c: Completion)
      reads this
      requires oldCurrent.Some? ==> oldCurrent.value < |oldClips|
    {
      clips == PauseCurrent(oldClips, oldCurrent) + [Clip(file, Playing, c)]
      && currentAudio == Some(|oldClips|)
    }

    constructor (nav: Deck?)
      requires nav != null ==> nav.Valid()
      ensures Valid() && OneLive() && this.nav == nav
      ensures GetFlags() == Flags(false, false, false, false, 0, 0, 0)
      ensures currentAudio == None && clips == []
    {
      this.nav := nav;
      NavRepr := if nav == null then {} else {nav, nav.slides};
      isNarrating, autoAdvanceEnabled, isAutoAdvancing := false, false, false;
      currentAudio, clips := None, [];
      advanceTimers, settleTimers, restartTimers := 0, 0, 0;
      indicatorShown := false;
    }

    /**
     * `isActive()`: narration is on, and then a presentation exists and the indicator was
     * last asked to show.
     */
    function IsActive(): (active: bool)
      requires Valid()
      reads this, NavRepr
      ensures active ==> nav != null && indicatorShown && autoAdvanceEnabled
    {
      isNarrating
    }

    /** `playAudio(file, onComplete)`: pause and drop the slot's handle, then start a new one. */
    method PlayAudio(file: string, onComplete: Completion)
      requires Valid()
      requires onComplete == AutoAdvance ==> nav != null
      modifies this
      ensures Valid() && GetFlags() == old(GetFlags())
      ensures StartedClip(old(clips), old(currentAudio), file, onComplete)
      ensures old(OneLive()) ==> OneLive()
    {
      if currentAudio.Some? {
        clips := clips[currentAudio.value := clips[currentAudio.value].(state := Paused)];
        currentAudio := None;
      }
      clips := clips + [Clip(file, Playing, onComplete)];
      currentAudio := Some(|clips| - 1);
    }

    /** `stopAudio()`: pause and drop the slot's handle; with an empty slot nothing changes. */
    method StopAudio()
      requires Valid()
      modifies this
      ensures Valid() && GetFlags() == old(GetFlags())
      ensures currentAudio == None
      ensures clips == PauseCurrent(old(clips), old(currentAudio))
      ensures old(currentAudio) == None ==> clips == old(clips)
      ensures old(OneLive()) ==> OneLive()
    {
      if currentAudio.Some? {
        clips := clips[currentAudio.value := clips[currentAudio.value].(state := Paused)];
        currentAudio := None;
      }
    }

    /** `narrateSlide(n, onComplete)`: play the clip named after slide `n`. */
    method NarrateSlide(slide: int, onComplete: Completion)
      requires Valid()
      requires onComplete == AutoAdvance ==> nav != null
      modifies this
      ensures Valid() && GetFlags() == old(GetFlags())
      ensures StartedClip(old(clips), old(currentAudio), ClipFile(slide), onComplete)
      ensures old(OneLive()) ==> OneLive()
    {
      PlayAudio(ClipFile(slide), onComplete);
    }

    /** `narrateCurrentSlide()`: while narrating, play the current slide's clip with the auto-advance step. */
    method NarrateCurrentSlide()
      requires Valid()
      modifies this
      ensures Valid() && GetFlags() == old(GetFlags())
      ensures if nav != null && isNarrating && autoAdvanceEnabled
              then StartedClip(old(clips), old(currentAudio), ClipFile(nav.currentSlide), AutoAdvance)
              else clips == old(clips) && currentAudio == old(currentAudio)
      ensures old(OneLive()) ==> OneLive()
    {
      if nav == null || !isNarrating || !autoAdvanceEnabled {
        return;
      }
      NarrateSlide(nav.currentSlide, AutoAdvance);
    }

    /** `startAutoNarration()`: without a presentation to read, narration does not start. */
    method StartAutoNarration()
      requires Valid()
      modifies this
      ensures Valid()
      ensures if old(isNarrating) || nav == null
              then GetFlags() == old(GetFlags()) && clips == old(clips) && currentAudio == old(currentAudio)
              else GetFlags() == old(GetFlags()).(narrating := true, autoAdvance := true, indicator := true)
                   && StartedClip(old(clips), old(currentAudio), ClipFile(nav.currentSlide), AutoAdvance)
      ensures old(OneLive()) ==> OneLive()
    {
      if isNarrating {
        return;
      }
      if nav == null {
        return;
      }
      isNarrating := true;
      autoAdvanceEnabled := true;
      indicatorShown := true;
      NarrateCurrentSlide();
    }

    /** `stopNarration()`, also the public `stop`: the indicator is left as it is. */
    method StopNarration()
      requires Valid()
      modifies this
      ensures Valid()
      ensures GetFlags() == old(GetFlags()).(narrating := false, autoAdvance := false)
      ensures currentAudio == None && clips == PauseCurrent(old(clips), old(currentAudio))
      ensures old(OneLive()) ==> OneLive()
    {
      StopAudio();
      isNarrating := false;
      autoAdvanceEnabled := false;
    }

    /** `toggleNarration()`: returns true when it tried to start narration, false when it stopped it. */
    method Toggle() returns (active: bool)
      requires Valid()
      modifies this
      ensures Valid()
      ensures active == !old(isNarrating)
      ensures old(isNarrating) ==>
        GetFlags() == old(GetFlags()).(narrating := false, autoAdvance := false, indicator := false)
        && currentAudio == None && clips == PauseCurrent(old(clips), old(currentAudio))
      ensures !old(isNarrating) && nav == null ==>
        GetFlags() == old(GetFlags()) && clips == old(clips) && currentAudio == old(currentAudio)
      ensures !old(isNarrating) && nav != null ==>
        GetFlags() == old(GetFlags()).(narrating := true, autoAdvance := true, indicator := true)
        && StartedClip(old(clips), old(currentAudio), ClipFile(nav.currentSlide), AutoAdvance)
      ensures old(OneLive()) ==> OneLive()
    {
      if isNarrating {
        StopNarration();
        indicatorShown := false;
        return false;
      } else {
        StartAutoNarration();
        return true;
      }
    }

    /**
     * The auto-advance step a narrated clip completes with: below the last slide schedule one
     * advance timer; on the last slide stop narration and hide the indicator.
     */
    method CompleteNarratedClip()
      requires Valid() && nav != null && currentAudio == None
      modifies this
      ensures Valid() && clips == old(clips) && currentAudio == old(currentAudio)
      ensures GetFlags() ==
        if !(old(isNarrating) && old(autoAdvanceEnabled)) then old(GetFlags())
        else if nav.currentSlide < TotalSlides then old(GetFlags()).(advanceTimers := old(advanceTimers) + 1)
        else old(GetFlags()).(narrating := false, autoAdvance := false, indicator := false)
    {
      if isNarrating && autoAdvanceEnabled {
        if nav.currentSlide < TotalSlides {
          advanceTimers := advanceTimers + 1;
        } else {
          StopNarration();
          indicatorShown := false;
        }
      }
    }

    /**
     * Handle `h` reports that it ended, failed to load or failed to play. All three empty the
     * audio slot, whichever handle occupies it, and then run the handle's `onComplete`.
     */
    method OnClipCallback(h: nat, outcome: ClipOutcome)
      requires Valid() && h < |clips|
      modifies this
      ensures Valid()
      ensures clips == old(clips)[h := old(clips)[h].(state := Settled)]
      ensures currentAudio == None
      ensures old(currentAudio).Some? && old(currentAudio).value != h ==>
        clips[old(currentAudio).value].state == Playing && !OneLive()
      ensures old(OneLive()) && old(currentAudio) in {None, Some(h)} ==> OneLive()
      ensures GetFlags() ==
        if !(old(clips)[h].onComplete == AutoAdvance && old(isNarrating) && old(autoAdvanceEnabled)) then old(GetFlags())
        else if nav.currentSlide < TotalSlides then old(GetFlags()).(advanceTimers := old(advanceTimers) + 1)
        else old(GetFlags()).(narrating := false, autoAdvance := false, indicator := false)
    {
      clips := clips[h := clips[h].(state := Settled)];
      currentAudio := None;
      if clips[h].onComplete == AutoAdvance {
        CompleteNarratedClip();
      }
    }

    /** `advanceToNextSlide()`: raise the suppression flag, move on one slide, schedule the settle timer. */
    method AdvanceToNextSlide()
      requires Valid()
      modifies this, NavRepr
      ensures Valid() && clips == old(clips) && currentAudio == old(currentAudio)
      ensures nav == null ==> GetFlags() == old(GetFlags())
      ensures nav != null ==>
        GetFlags() == old(GetFlags()).(autoAdvancing := true, settleTimers := old(settleTimers) + 1)
        && nav.currentSlide == Target(old(nav.currentSlide), NextSlide)
      ensures nav != null ==> nav.sidebarVisible == old(nav.sidebarVisible)
    {
      if nav == null {
        return;
      }
      isAutoAdvancing := true;
      nav.GoToSlide(nav.currentSlide + 1);
      settleTimers := settleTimers + 1;
    }

    /** The 500 ms timer after a completed clip: advance only if narration is still on. */
    method OnAdvanceTimerFired()
      requires Valid() && advanceTimers > 0
      modifies this, NavRepr
      ensures Valid() && clips == old(clips) && currentAudio == old(currentAudio)
      ensures old(isNarrating && autoAdvanceEnabled) ==>
        GetFlags() == old(GetFlags()).(advanceTimers := old(advanceTimers) - 1,
                                       autoAdvancing := true, settleTimers := old(settleTimers) + 1)
        && nav.currentSlide == Target(old(nav.currentSlide), NextSlide)
      ensures !old(isNarrating && autoAdvanceEnabled) ==>
        GetFlags() == old(GetFlags()).(advanceTimers := old(advanceTimers) - 1)
        && (nav != null ==> nav.currentSlide == old(nav.currentSlide) && nav.slides[..] == old(nav.slides[..]))
      ensures nav != null ==> nav.sidebarVisible == old(nav.sidebarVisible)
    {
      advanceTimers := advanceTimers - 1;
      if isNarrating && autoAdvanceEnabled {
        AdvanceToNextSlide();
      }
    }

    /** The 300 ms timer after an auto-advance move: lower the flag, narrate if still on. */
    method OnSettleTimerFired()
      requires Valid() && settleTimers > 0
      modifies this
      ensures Valid()
      ensures GetFlags() == old(GetFlags()).(settleTimers := old(settleTimers) - 1, autoAdvancing := false)
      ensures if old(isNarrating && autoAdvanceEnabled)
              then StartedClip(old(clips), old(currentAudio), ClipFile(nav.currentSlide), AutoAdvance)
              else clips == old(clips) && currentAudio == old(currentAudio)
      ensures old(OneLive()) ==> OneLive()
    {
      settleTimers := settleTimers - 1;
      isAutoAdvancing := false;
      if isNarrating && autoAdvanceEnabled && nav != null {
        NarrateCurrentSlide();
      }
    }

    /**
     * `onSlideChange(n)`: ignored during narration's own move; otherwise, while narrating,
     * stop the clip and schedule one restart.
     */
    method OnSlideChange(slideNumber: int)
      requires Valid()
      modifies this
      ensures Valid()
      ensures old(isAutoAdvancing) || !old(isNarrating) ==>
        GetFlags() == old(GetFlags()) && clips == old(clips) && currentAudio == old(currentAudio)
      ensures !old(isAutoAdvancing) && old(isNarrating) ==>
        GetFlags() == old(GetFlags()).(restartTimers := old(restartTimers) + 1)
        && currentAudio == None && clips == PauseCurrent(old(clips), old(currentAudio))
      ensures old(OneLive()) ==> OneLive()
    {
      if isAutoAdvancing {
        return;
      }
      if isNarrating {
        StopAudio();
        restartTimers := restartTimers + 1;
      }
    }

    /** The 100 ms timer after a manual slide change: narrate the slide now shown. */
    method OnRestartTimerFired()
      requires Valid() && restartTimers > 0
      modifies this
      ensures Valid()
      ensures GetFlags() == old(GetFlags()).(restartTimers := old(restartTimers) - 1)
      ensures if isNarrating
              then StartedClip(old(clips), old(currentAudio), ClipFile(nav.currentSlide), AutoAdvance)
              else clips == old(clips) && currentAudio == old(currentAudio)
      ensures old(OneLive()) ==> OneLive()
    {
      restartTimers := restartTimers - 1;
      NarrateCurrentSlide();
    }
  }

  /** Without a published presentation, toggling reports true but narration stays off. */
  method NoPresentation() {
    var n := new Narrator(null);
    var active := n.Toggle();
    assert active && !n.IsActive() && n.clips == [];
  }

  /** A clip completing below the last slide leads to one move and one request for the next clip. */
  method AutoAdvanceCycle() {
    var deck := new Deck(24, "");
    deck.GoToSlide(5);
    var n := new Narrator(deck);
    var active := n.Toggle();
    assert n.clips == [Clip(ClipFile(5), Playing, AutoAdvance)];
    n.OnClipCallback(0, Ended);
    assert n.advanceTimers == 1;
    n.OnAdvanceTimerFired();
    assert deck.currentSlide == 6 && n.isAutoAdvancing;
    n.OnSlideChange(6);
    assert n.restartTimers == 0;
    n.OnSettleTimerFired();
    assert |n.clips| == 2 && n.clips[1] == Clip(ClipFile(6), Playing, AutoAdvance);
    assert n.OneLive();
  }

  /** A clip completing on the last slide ends narration and schedules nothing. */
  method EndOfDeck() {
    var deck := new Deck(24, "");
    deck.GoToSlide(24);
    var n := new Narrator(deck);
    var active := n.Toggle();
    n.OnClipCallback(0, Ended);
    assert !n.IsActive() && !n.indicatorShown && n.advanceTimers == 0 && |n.clips| == 1;
  }

  /** Toggling off during the pacing delay makes the pending timer do nothing. */
  method ToggleOffDuringDelay() {
    var deck := new Deck(24, "");
    var n := new Narrator(deck);
    var active := n.Toggle();
    n.OnClipCallback(0, Ended);
    active := n.Toggle();
    assert !active && n.currentAudio == None;
    n.OnAdvanceTimerFired();
    assert deck.currentSlide == 1 && n.settleTimers == 0;
  }

  /** A manual move while narrating stops the clip and requests the clip of the new slide once. */
  method ManualJump() {
    var deck := new Deck(24, "");
    var n := new Narrator(deck);
    var active := n.Toggle();
    deck.GoToSlide(9);
    n.OnSlideChange(9);
    assert n.clips[0].state == Paused && n.currentAudio == None && n.restartTimers == 1;
    n.OnRestartTimerFired();
    assert n.clips == [Clip(ClipFile(1), Paused, AutoAdvance), Clip(ClipFile(9), Playing, AutoAdvance)];
  }

  /**
   * A missing clip reports twice, through its error event and through the rejected `play()`;
   * nothing tells the two apart, so two advance timers run and the deck moves two slides.
   */
  method MissingClipAdvancesTwice() {
    var deck := new Deck(24, "");
    var n := new Narrator(deck);
    var active := n.Toggle();
    n.OnClipCallback(0, LoadError);
    n.OnClipCallback(0, PlayRejected);
    assert n.advanceTimers == 2;
    n.OnAdvanceTimerFired();
    n.OnAdvanceTimerFired();
    assert deck.currentSlide == 3;
  }

  /**
   * Pausing a handle whose `play()` has not yet started rejects that `play()`; its callback
   * then empties the slot although the newer handle keeps playing.
   */
  method SupersededHandleReports() {
    var n := new Narrator(null);
    n.PlayAudio("audio/intro.mp3", CallerCallback);
    n.PlayAudio("audio/outro.mp3", CallerCallback);
    n.OnClipCallback(0, PlayRejected);
    assert n.clips[1].state == Playing && n.currentAudio == None && !n.OneLive();
  }
}
