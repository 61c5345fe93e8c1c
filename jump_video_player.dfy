/** The jump clip player: a video element, the component's mirror of its state, the control
    handlers, and the `m:ss` clock shown under the clip. */
module JumpVideoPlayer {
  import opened Text

  // ---------------------------------------------------------------------------
  // The clock

  /** Math.trunc. */
  function Trunc(x: real): int {
    if x >= 0.0 then x.Floor else -((-x).Floor)
  }

  /** JavaScript's `%` on numbers: the remainder takes the sign of the dividend. */
  function JsRem(x: real, d: real): real
    requires d != 0.0
  {
    x - d * (Trunc(x / d) as real)
  }

  /** `Math.floor(time / 60)`. */
  function Minutes(t: real): int {
    (t / 60.0).Floor
  }

  /** `Math.floor(time % 60)`. */
  function Seconds(t: real): int {
    JsRem(t, 60.0).Floor
  }

  /** formatTime: minutes unpadded, a colon, then seconds padded to two digits. */
  function FormatTime(t: real): string {
    var s := Seconds(t);
    IntText(Minutes(t)) + ":" + (if s < 10 then "0" else "") + IntText(s)
  }

  /** For a time that is not negative, the minutes and seconds are the whole seconds of the
      time split at 60: the seconds lie in 0..59. */
  lemma ClockParts(t: real)
    requires t >= 0.0
    ensures Minutes(t) >= 0 && 0 <= Seconds(t) < 60
    ensures 60 * Minutes(t) + Seconds(t) == t.Floor
  {
    var m := Minutes(t);
    assert Trunc(t / 60.0) == m;
    var r := JsRem(t, 60.0);
    assert r == t - 60.0 * (m as real);
    assert 0.0 <= r < 60.0;
    var s := r.Floor;
    assert (s + 60 * m) as real <= t < (s + 60 * m + 1) as real;
  }

  /** Reads an `m:ss` clock back: the digits before the first colon and those after it. */
  function ReadClock(text: string): (r: Option<(nat, nat)>)
    ensures r.Some? ==> ':' in text
  {
    match IndexOf(text, ':')
    case None => None
    case Some(k) =>
      var before, after := text[..k], text[k + 1..];
      if before != [] && after != [] && AllRadixDigits(before, 10) && AllRadixDigits(after, 10)
      then Some((ValueOf(before, 10), ValueOf(after, 10)))
      else None
  }

  /** A leading zero does not change the value of a digit string. */
  lemma {:induction false} LeadingZero(s: string)
    requires AllRadixDigits(s, 10)
    ensures AllRadixDigits("0" + s, 10) && ValueOf("0" + s, 10) == ValueOf(s, 10)
    decreases |s|
  {
    if s != [] {
      var init := s[..|s| - 1];
      LeadingZero(init);
      assert ("0" + s)[..|"0" + s| - 1] == "0" + init;
    }
  }

  /** The clock of a time that is not negative reads back as its minutes and seconds, the
      seconds always written with exactly two digits. */
  lemma ClockRoundTrip(t: real)
    requires t >= 0.0
    ensures ReadClock(FormatTime(t)) == Some((Minutes(t), Seconds(t)))
    ensures |FormatTime(t)| == |Decimal(Minutes(t))| + 3
  {
    ClockParts(t);
    var m: nat, s: nat := Minutes(t), Seconds(t);
    var mt, pad, st := Decimal(m), (if s < 10 then "0" else ""), Decimal(s);
    var text := FormatTime(t);
    assert text == mt + ":" + (pad + st);
    DecimalValue(m);
    DecimalValue(s);
    assert ':' !in mt by {
      forall i | 0 <= i < |mt| ensures mt[i] != ':' {
        assert IsDigit(mt[i]);
      }
    }
    assert text[|mt|] == ':' && text[..|mt|] == mt;
    var k := IndexOf(text, ':');
    assert k == Some(|mt|);
    assert text[|mt| + 1..] == pad + st;
    if s < 10 {
      LeadingZero(st);
      assert |st| == 1;
    } else {
      assert |st| == 2;
    }
  }

  // ---------------------------------------------------------------------------
  // The video element and the player

  /** The parts of an HTMLVideoElement the player touches. A fresh element has not loaded
      its metadata (its duration is modelled as 0), is paused, unmuted and at full volume. */
  class VideoElement {
    var currentTime: real
    var duration: real
    var muted: bool
    var volume: real
    var paused: bool

    constructor ()
      ensures currentTime == 0.0 && duration == 0.0 && !muted && volume == 1.0 && paused
    {
      currentTime := 0.0;
      duration := 0.0;
      muted := false;
      volume := 1.0;
      paused := true;
    }

    /** The element sounds when it is neither muted nor at volume 0. */
    predicate Audible()
      reads this
    {
      !muted && volume > 0.0
    }
  }

  /** The component: `videoRef.current` (null until the element is mounted) and the state it
      renders from. */
  class Player {
    const video: VideoElement?
    var isPlaying: bool
    var currentTime: real
    var duration: real
    var isMuted: bool
    var volume: real

    constructor (video: VideoElement?)
      ensures this.video == video
      ensures !isPlaying && currentTime == 0.0 && duration == 0.0 && !isMuted && volume == 1.0
    {
      this.video := video;
      isPlaying := false;
      currentTime := 0.0;
      duration := 0.0;
      isMuted := false;
      volume := 1.0;
    }

    /** The element, when it is mounted. */
    function Element(): set<VideoElement>
      reads this
    {
      if video == null then {} else {video}
    }

    /** The volume slider's value: 0 while muted. */
    function SliderVolume(): real
      reads this
    {
      if isMuted then 0.0 else volume
    }

    /** The controls tell the user the clip sounds: the speaker icon is not crossed out and
        the slider is above 0. */
    predicate ShowsSound()
      reads this
    {
      !isMuted && SliderVolume() > 0.0
    }

    /** The component's state agrees with the element's. */
    predicate Synced()
      reads this, video
    {
      video != null ==> video.paused == !isPlaying && video.muted == isMuted && video.volume == volume
    }

    /** togglePlay: pauses a playing clip, plays a paused one, and flips `isPlaying`. */
    method TogglePlay()
      modifies this`isPlaying, Element()`paused
      ensures video == null ==> isPlaying == old(isPlaying)
      ensures video != null ==> isPlaying == !old(isPlaying) && video.paused == old(isPlaying)
      ensures old(Synced()) ==> Synced()
    {
      if video == null {
        return;
      }
      if isPlaying {
        video.paused := true;
      } else {
        video.paused := false;
      }
      isPlaying := !isPlaying;
    }

    /** resetVideo: back to the start, paused. */
    method ResetVideo()
      modifies this`isPlaying, Element()`currentTime, Element()`paused
      ensures video == null ==> isPlaying == old(isPlaying)
      ensures video != null ==> video.currentTime == 0.0 && video.paused && !isPlaying
      ensures old(Synced()) ==> Synced()
    {
      if video == null {
        return;
      }
      video.currentTime := 0.0;
      isPlaying := false;
      video.paused := true;
    }

    /** handleTimeChange: seeks the element and the displayed time to the slider's value. */
    method HandleTimeChange(value: real)
      modifies this`currentTime, Element()`currentTime
      ensures video == null ==> currentTime == old(currentTime)
      ensures video != null ==> video.currentTime == value && currentTime == value
    {
      if video == null {
        return;
      }
      video.currentTime := value;
      currentTime := value;
    }

    /** toggleMute: flips the muted flag of the component and sets the element's to match. */
    method ToggleMute()
      modifies this`isMuted, Element()`muted
      ensures video == null ==> isMuted == old(isMuted)
      ensures video != null ==> isMuted == !old(isMuted) && video.muted == isMuted
      ensures old(Synced()) ==> Synced()
    {
      if video == null {
        return;
      }
      video.muted := !isMuted;
      isMuted := !isMuted;
    }

    /** handleVolumeChange as written: sets the volume of both, and the component's muted
        flag to whether the new volume is 0, leaving the element's muted flag alone. */
    method HandleVolumeChange(value: real)
      modifies this`volume, this`isMuted, Element()`volume
      ensures video == null ==> volume == old(volume) && isMuted == old(isMuted)
      ensures video != null ==> video.volume == value && volume == value && (isMuted <==> value == 0.0)
      ensures video != null ==> video.muted == old(video.muted)
    {
      if video == null {
        return;
      }
      video.volume := value;
      volume := value;
      isMuted := value == 0.0;
    }

    /** handleVolumeChange as evidently intended: the element's muted flag follows the
        component's, so the controls keep telling the truth. */
    method HandleVolumeChangeSynced(value: real)
      modifies this`volume, this`isMuted, Element()`volume, Element()`muted
      ensures video == null ==> volume == old(volume) && isMuted == old(isMuted)
      ensures video != null ==> video.volume == value && volume == value && (isMuted <==> value == 0.0)
      ensures video != null ==> video.muted == isMuted
      ensures old(Synced()) ==> Synced()
    {
      if video == null {
        return;
      }
      video.volume := value;
      volume := value;
      isMuted := value == 0.0;
      video.muted := isMuted;
    }

    /** The `timeupdate` listener, registered only when the element exists. */
    method OnTimeUpdate()
      requires video != null
      modifies this`currentTime
      ensures currentTime == video.currentTime
    {
      currentTime := video.currentTime;
    }

    /** The `loadedmetadata` listener. */
    method OnLoadedMetadata()
      requires video != null
      modifies this`duration
      ensures duration == video.duration
    {
      duration := video.duration;
    }

    /** Playback reaching the end: the element pauses itself, then the `ended` listener
        clears `isPlaying`. */
    method OnEnded()
      requires video != null
      modifies this`isPlaying, Element()`paused
      ensures video.paused && !isPlaying
      ensures old(Synced()) ==> Synced()
    {
      video.paused := true;
      isPlaying := false;
    }
  }

  /** While the state agrees with the element, the controls show sound exactly when the
      element sounds. */
  lemma SyncedControlsTellTheTruth(p: Player)
    requires p.video != null && p.Synced()
    ensures p.ShowsSound() <==> p.video.Audible()
  {
  }

  /** Muting with the button and then raising the volume slider leaves the controls showing
      sound while the element stays muted. */
  method MuteThenRaiseVolume() returns (p: Player)
    ensures p.video != null && p.ShowsSound() && !p.video.Audible()
  {
    var v := new VideoElement();
    p := new Player(v);
    p.ToggleMute();
    p.HandleVolumeChange(0.5);
  }

  /** The same steps with the corrected handler keep the controls truthful. */
  method MuteThenRaiseVolumeSynced() returns (p: Player)
    ensures p.video != null && p.Synced() && p.ShowsSound() && p.video.Audible()
  {
    var v := new VideoElement();
    p := new Player(v);
    p.ToggleMute();
    p.HandleVolumeChangeSynced(0.5);
  }
}
