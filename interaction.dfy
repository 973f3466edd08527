/** The interaction controller of Assets/UserContext.cs: every frame it resolves
    the right-hand controller's two buttons (falling back to the mouse when no
    controller is connected), casts a ray from the controller and, when the ray
    hits something while a button reads pressed, looks the hit object's tag up
    in an ordered list and shows the entry's description and plays its clip.

    The engine's answers are inputs: whether a freshly fetched device handle is
    valid, the button values the device reports, whether the mouse button went
    down this frame, and the ray's hit as the tag of the object hit. The text
    field is an optional string (absent: the reference is unassigned) and the
    audio source an optional log of the clips handed to PlayOneShot. */
module Interaction {

  import opened Engine

  datatype Clip = Clip(name: string)

  /** One entry of the tag list; its clip may be left unassigned. */
  datatype TagInfo = TagInfo(tag: string, description: string, audioClip: Option<Clip>)

  /** The position of the first entry whose tag equals `tag` (ordinal string
      equality), if any: the scan behind `List.Find`. */
  function FindIndex(list: seq<TagInfo>, tag: string): (r: Option<nat>)
    ensures r.Some? ==> r.value < |list| && list[r.value].tag == tag
    ensures r.Some? ==> forall j :: 0 <= j < r.value ==> list[j].tag != tag
    ensures r.None? ==> forall j :: 0 <= j < |list| ==> list[j].tag != tag
    decreases |list|
  {
    if |list| == 0 then None
    else if list[0].tag == tag then Some(0)
    else match FindIndex(list[1..], tag)
      case None => None
      case Some(i) => Some(i + 1)
  }

  /** `tagInfoList.Find(info => info.tag == objectTag)`: the first matching
      entry, or nothing (C# `null`). */
  function Find(list: seq<TagInfo>, tag: string): (r: Option<TagInfo>)
    ensures r.None? <==> forall j :: 0 <= j < |list| ==> list[j].tag != tag
    ensures r.Some? ==> r.value in list && r.value.tag == tag
  {
    match FindIndex(list, tag)
    case None => None
    case Some(i) => Some(list[i])
  }

  /** First match wins: an entry whose tag matches and that no earlier entry
      shadows is the one found. */
  lemma FindIsFirst(list: seq<TagInfo>, tag: string, i: nat)
    requires i < |list| && list[i].tag == tag
    requires forall j :: 0 <= j < i ==> list[j].tag != tag
    ensures Find(list, tag) == Some(list[i])
  {
  }

  /** Looking up in a list made of two parts: the first part is searched
      first, and the second only when the first has no match. */
  lemma {:induction false} FindConcat(xs: seq<TagInfo>, ys: seq<TagInfo>, tag: string)
    ensures Find(xs + ys, tag) == if Find(xs, tag).Some? then Find(xs, tag) else Find(ys, tag)
    decreases |xs|
  {
    if |xs| == 0 {
      assert xs + ys == ys;
    } else if xs[0].tag == tag {
      FindIsFirst(xs + ys, tag, 0);
      FindIsFirst(xs, tag, 0);
    } else {
      FindConcat(xs[1..], ys, tag);
      assert (xs + ys)[1..] == xs[1..] + ys;
      FindTail(xs + ys, tag);
      FindTail(xs, tag);
    }
  }

  /** Skipping a head entry that does not match leaves the result as it is. */
  lemma FindTail(list: seq<TagInfo>, tag: string)
    requires |list| > 0 && list[0].tag != tag
    ensures Find(list, tag) == Find(list[1..], tag)
  {
  }

  /** The presentation the controller writes to: the info text (absent when
      the field is unassigned) and the audio source (absent when unassigned,
      otherwise the clips played on it so far). */
  datatype Ui = Ui(infoText: Option<string>, audioSource: Option<seq<Clip>>)

  /** UpdateUIAndPlayAudio: the text and the sound are guarded separately. */
  function ShowAndPlay(ui: Ui, description: string, clip: Option<Clip>): (r: Ui)
    ensures ui.infoText.Some? ==> r.infoText == Some(description)
    ensures ui.infoText.None? ==> r.infoText.None?
    ensures ui.audioSource.None? ==> r.audioSource.None?
    ensures ui.audioSource.Some? ==>
              r.audioSource.Some? &&
              r.audioSource.value == ui.audioSource.value + (if clip.Some? then [clip.value] else [])
  {
    var text := if ui.infoText.Some? then Some(description) else ui.infoText;
    var audio :=
      if ui.audioSource.Some? && clip.Some? then Some(ui.audioSource.value + [clip.value])
      else ui.audioSource;
    Ui(text, audio)
  }

  /** HandleObjectTag: show and play the first matching entry, or blank the
      text on a miss. The miss path writes the text without a null check, so
      with no text field it throws and nothing changes. */
  function HandleTag(ui: Ui, list: seq<TagInfo>, tag: string): (r: (Ui, Outcome))
    ensures r.1 == NullReference <==> Find(list, tag).None? && ui.infoText.None?
    ensures r.1 == NullReference ==> r.0 == ui
    ensures Find(list, tag).None? && ui.infoText.Some? ==>
              r.0.infoText == Some("") && r.0.audioSource == ui.audioSource
    ensures Find(list, tag).Some? ==>
              var info := Find(list, tag).value;
              r.0 == ShowAndPlay(ui, info.description, info.audioClip)
    ensures r.0.audioSource != ui.audioSource ==> Find(list, tag).Some? && Find(list, tag).value.audioClip.Some?
  {
    match Find(list, tag)
    case Some(info) => (ShowAndPlay(ui, info.description, info.audioClip), Completed)
    case None =>
      if ui.infoText.None? then (ui, NullReference)
      else (ui.(infoText := Some("")), Completed)
  }

  /** Whether the right-hand device handle held was valid when last checked,
      and the two button flags as they stand. */
  datatype Buttons = Buttons(deviceValid: bool, primary: bool, secondary: bool)

  /** What the engine reports in one frame: whether the device behind a held
      valid handle is still connected, the validity of the handle that a
      re-acquisition would fetch, the two button values the device would
      report, whether the left mouse button went down this frame, and the tag
      of the object the ray hit, if it hit one. */
  datatype Frame = Frame(heldValid: bool, acquiredValid: bool, devicePrimary: bool, deviceSecondary: bool,
                         mouseDown: bool, hit: Option<string>)

  /** `rightHandDevice.isValid` in this frame: a handle that was valid lapses
      when its device disconnects, and an invalid handle never becomes valid. */
  predicate HeldIsValid(b: Buttons, f: Frame)
  {
    b.deviceValid && f.heldValid
  }

  /** The button-resolution part of Update. */
  function ResolveButtons(b: Buttons, f: Frame): (r: Buttons)
    // a handle that is still valid is kept; any other is replaced by a fresh fetch
    ensures HeldIsValid(b, f) ==> r.deviceValid
    ensures !HeldIsValid(b, f) ==> r.deviceValid == f.acquiredValid
    // a valid device overwrites both flags each frame: no edge detection
    ensures HeldIsValid(b, f) ==> r.primary == f.devicePrimary && r.secondary == f.deviceSecondary
    // the mouse fallback sets the primary flag only; the secondary one is kept
    ensures !r.deviceValid ==> r.primary == f.mouseDown && r.secondary == b.secondary
    // in the frame a device is re-acquired neither the device nor the mouse is read
    ensures !HeldIsValid(b, f) && r.deviceValid ==> r.primary == b.primary && r.secondary == b.secondary
  {
    var polled :=
      if !HeldIsValid(b, f) then b.(deviceValid := f.acquiredValid)
      else b.(primary := f.devicePrimary, secondary := f.deviceSecondary);
    if !polled.deviceValid then polled.(primary := f.mouseDown) else polled
  }

  /** The state that one frame of the controller changes. */
  datatype Controller = Controller(buttons: Buttons, ui: Ui)

  /** One call of Update. Without a controller transform the ray cannot be
      built and the frame throws right after the buttons are resolved. */
  function Step(s: Controller, list: seq<TagInfo>, hasRayOrigin: bool, f: Frame): (r: (Controller, Outcome))
    ensures r.0.buttons == ResolveButtons(s.buttons, f)
    // dispatch only on a hit while a button reads pressed
    ensures r.0.ui != s.ui ==> hasRayOrigin && f.hit.Some? && (r.0.buttons.primary || r.0.buttons.secondary)
    ensures hasRayOrigin && f.hit.Some? && (r.0.buttons.primary || r.0.buttons.secondary) ==>
              (r.0.ui, r.1) == HandleTag(s.ui, list, f.hit.value)
    ensures !hasRayOrigin ==> r.1 == NullReference
    ensures hasRayOrigin && !(f.hit.Some? && (r.0.buttons.primary || r.0.buttons.secondary)) ==>
              r.1 == Completed
  {
    var b := ResolveButtons(s.buttons, f);
    if !hasRayOrigin then (Controller(b, s.ui), NullReference)
    else if f.hit.Some? && (b.primary || b.secondary) then
      var (ui, outcome) := HandleTag(s.ui, list, f.hit.value);
      (Controller(b, ui), outcome)
    else (Controller(b, s.ui), Completed)
  }

  /** The state after a sequence of frames; the engine carries on with the
      next frame after an exception. */
  function Run(s: Controller, list: seq<TagInfo>, hasRayOrigin: bool, frames: seq<Frame>): Controller
    decreases |frames|
  {
    if |frames| == 0 then s else Run(Step(s, list, hasRayOrigin, frames[0]).0, list, hasRayOrigin, frames[1..])
  }

  function Repeat(c: Clip, n: nat): (r: seq<Clip>)
    ensures |r| == n && forall i :: 0 <= i < n ==> r[i] == c
  {
    if n == 0 then [] else [c] + Repeat(c, n - 1)
  }

  /** A button held on a connected device replays the entry's clip on every
      frame in which the ray hits the tagged object: one play per frame, not
      one per press. */
  lemma {:induction false} HeldButtonReplays(s: Controller, list: seq<TagInfo>, frames: seq<Frame>,
                                             tag: string, info: TagInfo)
    requires s.buttons.deviceValid && s.ui.audioSource.Some?
    requires forall i :: 0 <= i < |frames| ==>
               frames[i].heldValid && frames[i].devicePrimary && frames[i].hit == Some(tag)
    requires Find(list, tag) == Some(info) && info.audioClip.Some?
    ensures var r := Run(s, list, true, frames);
            r.buttons.deviceValid &&
            r.ui.audioSource == Some(s.ui.audioSource.value + Repeat(info.audioClip.value, |frames|))
    decreases |frames|
  {
    if |frames| == 0 {
      assert s.ui.audioSource.value + [] == s.ui.audioSource.value;
    } else {
      var s' := Step(s, list, true, frames[0]).0;
      assert s'.ui.audioSource == Some(s.ui.audioSource.value + [info.audioClip.value]);
      HeldButtonReplays(s', list, frames[1..], tag, info);
      var c := info.audioClip.value;
      assert [c] + Repeat(c, |frames| - 1) == Repeat(c, |frames|);
      assert s.ui.audioSource.value + [c] + Repeat(c, |frames| - 1)
          == s.ui.audioSource.value + Repeat(c, |frames|);
    }
  }

  /** After the device disconnects while its secondary button is held, the
      fallback never clears the secondary flag: with no device to re-acquire,
      every frame whose ray hits the tagged object plays its clip again,
      although no button is pressed any more. */
  lemma {:induction false} StaleSecondaryReplays(s: Controller, list: seq<TagInfo>, frames: seq<Frame>,
                                                 tag: string, info: TagInfo)
    requires s.buttons.secondary && s.ui.audioSource.Some?
    requires forall i :: 0 <= i < |frames| ==>
               !frames[i].heldValid && !frames[i].acquiredValid && !frames[i].mouseDown &&
               frames[i].hit == Some(tag)
    requires Find(list, tag) == Some(info) && info.audioClip.Some?
    ensures var r := Run(s, list, true, frames);
            r.buttons.secondary &&
            r.ui.audioSource == Some(s.ui.audioSource.value + Repeat(info.audioClip.value, |frames|))
    decreases |frames|
  {
    if |frames| == 0 {
      assert s.ui.audioSource.value + [] == s.ui.audioSource.value;
    } else {
      var s' := Step(s, list, true, frames[0]).0;
      assert s'.ui.audioSource == Some(s.ui.audioSource.value + [info.audioClip.value]);
      StaleSecondaryReplays(s', list, frames[1..], tag, info);
      var c := info.audioClip.value;
      assert [c] + Repeat(c, |frames| - 1) == Repeat(c, |frames|);
      assert s.ui.audioSource.value + [c] + Repeat(c, |frames| - 1)
          == s.ui.audioSource.value + Repeat(c, |frames|);
    }
  }

  /** The frame in which the device disconnects: the secondary button it last
      reported as held stays set under the mouse fallback. */
  lemma DisconnectKeepsSecondary(primary: bool, f: Frame)
    requires !f.heldValid && !f.acquiredValid
    ensures ResolveButtons(Buttons(true, primary, true), f) == Buttons(false, f.mouseDown, true)
  {
  }

  /** Frames whose ray hits nothing never touch the text or the audio. */
  lemma {:induction false} NoHitKeepsUi(s: Controller, list: seq<TagInfo>, hasRayOrigin: bool, frames: seq<Frame>)
    requires forall i :: 0 <= i < |frames| ==> frames[i].hit.None?
    ensures Run(s, list, hasRayOrigin, frames).ui == s.ui
    decreases |frames|
  {
    if |frames| > 0 {
      NoHitKeepsUi(Step(s, list, hasRayOrigin, frames[0]).0, list, hasRayOrigin, frames[1..]);
    }
  }

  /** A click with the mouse fallback while the ray hits an object tagged
      "Box1", registered as "A wooden crate": the description is shown and its
      clip is played. */
  lemma CrateScenario(log: seq<Clip>)
    ensures var list := [TagInfo("Box1", "A wooden crate", Some(Clip("crate")))];
            var s := Controller(Buttons(false, false, false), Ui(Some(""), Some(log)));
            Step(s, list, true, Frame(false, false, false, false, true, Some("Box1"))) ==
              (Controller(Buttons(false, true, false), Ui(Some("A wooden crate"), Some(log + [Clip("crate")]))),
               Completed)
  {
  }

  /** The behaviour as the engine holds it. */
  class UserContext {
    var infoText: Option<string>
    var audioSource: Option<seq<Clip>>
    /** Whether rightControllerTransform is assigned. */
    const hasRightControllerTransform: bool
    var tagInfoList: seq<TagInfo>
    var rightHandDeviceValid: bool
    var primaryButtonPressed: bool
    var secondaryButtonPressed: bool

    function ButtonsNow(): Buttons
      reads this
    {
      Buttons(rightHandDeviceValid, primaryButtonPressed, secondaryButtonPressed)
    }

    function UiNow(): Ui
      reads this
    {
      Ui(infoText, audioSource)
    }

    /** The component as the scene loads it: the inspector's references, the
        field initialisers, and a default (invalid) device handle. */
    constructor (text: Option<string>, audio: Option<seq<Clip>>, hasTransform: bool, list: seq<TagInfo>)
      ensures infoText == text && audioSource == audio
      ensures hasRightControllerTransform == hasTransform && tagInfoList == list
      ensures ButtonsNow() == Buttons(false, false, false)
    {
      infoText, audioSource := text, audio;
      hasRightControllerTransform, tagInfoList := hasTransform, list;
      rightHandDeviceValid, primaryButtonPressed, secondaryButtonPressed := false, false, false;
    }

    /** Fetches the right-hand device; the rest of Start only logs. */
    method Start(acquiredValid: bool)
      modifies this
      ensures rightHandDeviceValid == acquiredValid
      ensures primaryButtonPressed == old(primaryButtonPressed)
      ensures secondaryButtonPressed == old(secondaryButtonPressed)
      ensures UiNow() == old(UiNow()) && tagInfoList == old(tagInfoList)
    {
      rightHandDeviceValid := acquiredValid;
    }

    method Update(f: Frame) returns (outcome: Outcome)
      modifies this
      ensures (Controller(ButtonsNow(), UiNow()), outcome) ==
              Step(Controller(old(ButtonsNow()), old(UiNow())), tagInfoList, hasRightControllerTransform, f)
      ensures tagInfoList == old(tagInfoList)
    {
      // rightHandDevice.isValid, asked of the held handle in this frame
      rightHandDeviceValid := rightHandDeviceValid && f.heldValid;
      if !rightHandDeviceValid {
        rightHandDeviceValid := f.acquiredValid;
      } else {
        primaryButtonPressed := f.devicePrimary;
        secondaryButtonPressed := f.deviceSecondary;
      }
      if !rightHandDeviceValid {
        if f.mouseDown {
          primaryButtonPressed := true;
        } else {
          primaryButtonPressed := false;
        }
      }
      if !hasRightControllerTransform {
        return NullReference;
      }
      outcome := Completed;
      if f.hit.Some? {
        if primaryButtonPressed || secondaryButtonPressed {
          outcome := HandleObjectTag(f.hit.value);
        }
      }
    }

    method HandleObjectTag(objectTag: string) returns (outcome: Outcome)
      modifies this
      ensures (UiNow(), outcome) == HandleTag(old(UiNow()), tagInfoList, objectTag)
      ensures ButtonsNow() == old(ButtonsNow()) && tagInfoList == old(tagInfoList)
    {
      var tagInfo := Find(tagInfoList, objectTag);
      if tagInfo.Some? {
        UpdateUIAndPlayAudio(tagInfo.value.description, tagInfo.value.audioClip);
        outcome := Completed;
      } else {
        if infoText.None? {
          return NullReference;
        }
        infoText := Some("");
        outcome := Completed;
      }
    }

    method UpdateUIAndPlayAudio(description: string, clip: Option<Clip>)
      modifies this
      ensures UiNow() == ShowAndPlay(old(UiNow()), description, clip)
      ensures ButtonsNow() == old(ButtonsNow()) && tagInfoList == old(tagInfoList)
    {
      if infoText.Some? {
        infoText := Some(description);
      }
      if audioSource.Some? && clip.Some? {
        audioSource := Some(audioSource.value + [clip.value]);
      }
    }
  }
}
