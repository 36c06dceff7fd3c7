/**
 * The page's state as its event handlers see it: the disabled flags of the
 * three buttons (generate, clear, read text), the two caption fields, the
 * volume setting, the speaker icon and the voice selector; and the handlers
 * as functions from one state to the next.
 *
 * Canvas drawing is not part of the state: only the placement geometry it
 * consumes is modelled, in module Geometry.
 */
module Session {
  import opened Volume
  import opened Narration

  /** The disabled flags of the generate (submit), clear (reset) and read-text buttons. */
  datatype Controls = Controls(submitDisabled: bool, resetDisabled: bool, readDisabled: bool)

  /** Waiting for captions: only the generate button can be pressed. */
  const AwaitingCaptions: Controls := Controls(false, true, true)

  /** Captions drawn: generate is locked, clear and read text can be pressed. */
  const CaptionsShown: Controls := Controls(true, false, false)

  /**
   * The page state. `selector` holds the voice selector's entries, which
   * are kept between clicks, and `selectorDisabled` its disabled flag.
   */
  datatype State = State(
    controls: Controls,
    top: string,
    bottom: string,
    volume: int,
    icon: Tier,
    selector: seq<VoiceOption>,
    selectorDisabled: bool)

  /**
   * The events the page reacts to: the user typing captions into the form
   * fields, and the handlers of the page. The generate and read-text events
   * carry the voice catalogue the platform reports at that moment.
   */
  datatype Event =
    | ImageLoaded
    | Edited(newTop: string, newBottom: string)
    | CaptionsSubmitted(submitVoices: seq<Voice>)
    | Cleared
    | ReadClicked(readVoices: seq<Voice>)
    | VolumeMoved(setting: int)

  function Flip(c: Controls): (flipped: Controls)
  {
    Controls(!c.submitDisabled, !c.resetDisabled, !c.readDisabled)
  }

  /** Every button-flag combination the handlers can produce. */
  predicate Consistent(c: Controls)
  {
    c == AwaitingCaptions || c == CaptionsShown
  }

  /** A freshly decoded image enables generate and locks clear and read text; nothing else changes. */
  function OnImageLoad(s: State): (t: State)
    ensures !t.controls.submitDisabled && t.controls.resetDisabled && t.controls.readDisabled
    ensures t.top == s.top && t.bottom == s.bottom
    ensures t.volume == s.volume && t.icon == s.icon
    ensures t.selector == s.selector && t.selectorDisabled == s.selectorDisabled
  {
    s.(controls := AwaitingCaptions)
  }

  /** The user types into the caption fields; nothing else changes. */
  function OnEdit(s: State, top: string, bottom: string): (t: State)
    ensures t.top == top && t.bottom == bottom
    ensures t.controls == s.controls && t.volume == s.volume && t.icon == s.icon
    ensures t.selector == s.selector && t.selectorDisabled == s.selectorDisabled
  {
    s.(top := top, bottom := bottom)
  }

  /**
   * Generating the meme locks generate and enables clear and read text, then
   * enables the voice selector and refills it from the catalogue. The caption
   * fields are read, not changed.
   */
  function OnSubmit(s: State, voices: seq<Voice>): (t: State)
    ensures t.controls.submitDisabled && !t.controls.resetDisabled && !t.controls.readDisabled
    ensures t.top == s.top && t.bottom == s.bottom
    ensures t.volume == s.volume && t.icon == s.icon
    ensures !t.selectorDisabled
    ensures t.selector == Repopulate(s.selector, voices)
  {
    s.(controls := CaptionsShown, selectorDisabled := false, selector := Repopulate(s.selector, voices))
  }

  /**
   * Clearing blanks both caption fields and restores the flags an image load
   * sets; the volume, the icon and the selector stay.
   */
  function OnClear(s: State): (t: State)
    ensures !t.controls.submitDisabled && t.controls.resetDisabled && t.controls.readDisabled
    ensures t.top == "" && t.bottom == ""
    ensures t.volume == s.volume && t.icon == s.icon
    ensures t.selector == s.selector && t.selectorDisabled == s.selectorDisabled
  {
    s.(controls := AwaitingCaptions, top := "", bottom := "")
  }

  /**
   * The state change of the read-text handler: the voice selector is
   * enabled and refilled from the catalogue; the buttons and captions stay.
   */
  function OnRead(s: State, voices: seq<Voice>): (t: State)
    ensures !t.selectorDisabled
    ensures t.selector == Repopulate(s.selector, voices)
    ensures t.controls == s.controls && t.top == s.top && t.bottom == s.bottom
    ensures t.volume == s.volume && t.icon == s.icon
  {
    s.(selectorDisabled := false, selector := Repopulate(s.selector, voices))
  }

  /** Moving the slider records the setting and updates the icon; the buttons, captions and selector stay. */
  function OnVolumeInput(s: State, setting: int): (t: State)
    ensures t.volume == setting
    ensures 0 <= setting <= 100 ==> t.icon == (3 * setting + 99) / 100
    ensures setting > 100 ==> t.icon == s.icon
    ensures setting < 0 ==> t.icon == 1
    ensures t.controls == s.controls && t.top == s.top && t.bottom == s.bottom
    ensures t.selector == s.selector && t.selectorDisabled == s.selectorDisabled
  {
    var t := s.(volume := setting, icon := VolumeIcon(setting, s.icon));
    if 0 <= setting <= 100 then
      VolumeIconClosedForm(setting, s.icon);
      t
    else
      t
  }

  function Step(s: State, e: Event): (next: State)
  {
    match e
    case ImageLoaded => OnImageLoad(s)
    case Edited(top, bottom) => OnEdit(s, top, bottom)
    case CaptionsSubmitted(voices) => OnSubmit(s, voices)
    case Cleared => OnClear(s)
    case ReadClicked(voices) => OnRead(s, voices)
    case VolumeMoved(v) => OnVolumeInput(s, v)
  }

  /** The state after handling the events in order. */
  function Run(s: State, events: seq<Event>): (final: State)
    decreases |events|
  {
    if |events| == 0 then s else Run(Step(s, events[0]), events[1..])
  }

  /** Handling one more event continues from the state the earlier ones left. */
  lemma {:induction false} RunAppend(s: State, events: seq<Event>, e: Event)
    ensures Run(s, events + [e]) == Step(Run(s, events), e)
    decreases |events|
  {
    if |events| == 0 {
      assert events + [e] == [e];
      assert [e][1..] == [];
    } else {
      assert (events + [e])[1..] == events[1..] + [e];
      RunAppend(Step(s, events[0]), events[1..], e);
    }
  }

  /**
   * Generating sets exactly the opposite flags of loading an image, and
   * clearing sets the same flags as loading an image, whatever state each
   * handler starts from.
   */
  lemma ToggleRelations(s1: State, voices: seq<Voice>, s2: State, s3: State)
    ensures OnSubmit(s1, voices).controls == Flip(OnImageLoad(s2).controls)
    ensures OnClear(s3).controls == OnImageLoad(s2).controls
  {
  }

  /** Clearing twice is the same as clearing once. */
  lemma ClearIdempotent(s: State)
    ensures OnClear(OnClear(s)) == OnClear(s)
  {
  }

  /**
   * The captions a clear leaves would be spoken as a lone space, but the
   * clear also disables the read-text button, so that text is not spoken
   * until a generate enables the button again.
   */
  lemma ClearedUtterance(s: State)
    ensures UtteranceText(OnClear(s).top, OnClear(s).bottom) == " "
    ensures OnClear(s).controls.readDisabled
  {
  }

  /** In every flag combination the handlers produce, clear and read text move together, opposite to generate. */
  lemma ConsistentButtons(c: Controls)
    requires Consistent(c)
    ensures c.resetDisabled == c.readDisabled
    ensures c.submitDisabled <==> !c.readDisabled
  {
  }

  /** The events whose handlers set the button flags. */
  predicate IsControlEvent(e: Event)
  {
    e.ImageLoaded? || e.CaptionsSubmitted? || e.Cleared?
  }

  /**
   * Once any button-toggling event has been handled, and from then on, the
   * flags are one of the two combinations the handlers set.
   */
  lemma {:induction false} RunConsistent(s: State, events: seq<Event>)
    requires Consistent(s.controls) || exists i :: 0 <= i < |events| && IsControlEvent(events[i])
    ensures Consistent(Run(s, events).controls)
    decreases |events|
  {
    if |events| == 0 {
    } else {
      var t := Step(s, events[0]);
      if !Consistent(t.controls) {
        var i :| 0 <= i < |events| && IsControlEvent(events[i]);
        assert i != 0;
        assert IsControlEvent(events[1..][i - 1]);
      }
      RunConsistent(t, events[1..]);
    }
  }

  /**
   * The caption pair last written by the events, scanning from the end: the
   * text typed by the user, or two empty fields after a clear. None when no
   * event writes the fields.
   */
  function LastCaptionWrite(events: seq<Event>): (written: Option<(string, string)>)
    decreases |events|
  {
    if |events| == 0 then None
    else match events[|events| - 1]
      case Edited(top, bottom) => Some((top, bottom))
      case Cleared => Some(("", ""))
      case _ => LastCaptionWrite(events[..|events| - 1])
  }

  /**
   * After any event sequence the caption fields hold the pair written last,
   * by the user's typing or by a clear, or the initial pair if nothing wrote
   * them: no other handler changes the fields.
   */
  lemma {:induction false} RunCaptions(s: State, events: seq<Event>)
    ensures var t := Run(s, events);
            match LastCaptionWrite(events)
            case None => t.top == s.top && t.bottom == s.bottom
            case Some(w) => t.top == w.0 && t.bottom == w.1
    decreases |events|
  {
    if |events| != 0 {
      var front, e := events[..|events| - 1], events[|events| - 1];
      assert events == front + [e];
      RunAppend(s, front, e);
      RunCaptions(s, front);
    }
  }

  /** What the read-text handler hands to the synthesiser. */
  datatype Utterance = Utterance(text: string, voice: Option<Voice>, volume: real)

  /** The outcome of a read-text click: nothing spoken, or one utterance. */
  datatype Speech = Silent | Spoken(utterance: Utterance)

  /**
   * What the read-text handler speaks, from the state `OnRead` leaves. It
   * reads the name of the selected entry: `selectedIndex` is the selector's
   * selected index as the browser reports it after the refill, -1 when
   * nothing is selected. With no selected entry, reading its name throws and
   * nothing is spoken. Otherwise the name is looked up in the catalogue and
   * both captions are spoken at the slider's volume.
   */
  method ReadAloud(refilled: State, voices: seq<Voice>, selectedIndex: int) returns (u: Speech)
    ensures u.Spoken? <==> 0 <= selectedIndex < |refilled.selector|
    ensures |refilled.selector| == 0 ==> u.Silent?
    ensures u.Spoken? ==> u.utterance.text == refilled.top + " " + refilled.bottom
    ensures u.Spoken? ==> u.utterance.volume * 100.0 == refilled.volume as real
    ensures u.Spoken? ==>
              && 0 <= selectedIndex < |refilled.selector|
              && u.utterance.voice == LastMatch(voices, refilled.selector[selectedIndex].name)
  {
    if 0 <= selectedIndex < |refilled.selector| {
      var voice := ResolveVoice(voices, refilled.selector[selectedIndex].name);
      u := Spoken(Utterance(UtteranceText(refilled.top, refilled.bottom), voice, PlaybackVolume(refilled.volume)));
    } else {
      u := Silent;
    }
  }
}
