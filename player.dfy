/**
 * components/audio-podcast.tsx: the podcast player that reads generated
 * content aloud with the browser's speech synthesis.
 *
 * The React state and the utterance reference become the fields of an
 * `AudioPlayer`; each handler is a method. The browser's synthesis engine is
 * outside the model: `speak`, `pause`, `resume` and `cancel` leave no trace
 * here, and the utterance's `start`, `end` and `error` events are methods the
 * engine calls. Times, volume and speed are exact reals.
 */
module Player {
  import opened Wrappers
  import opened Text
  import opened Speech

  /** The speeds the speed menu offers. */
  const SpeedOptions: set<real> := {0.5, 0.75, 1.0, 1.25, 1.5, 2.0}

  lemma SpeedPositive(speed: real)
    requires speed in SpeedOptions
    ensures speed > 0.0
  {
  }

  const DefaultVolume: real := 0.8
  const SkipSeconds: real := 10.0
  const WordsPerMinute: real := 150.0

  /** The text an utterance speaks and the rate and volume it was created with. */
  datatype Utterance = Utterance(text: string, rate: real, volume: real)

  /** What `generateAudio` does. */
  datatype Generation =
    | NoContent     // nothing to read: only a toast
    | VoiceMissing  // the selected voice is not available: the error is caught
    | Speaking(u: Utterance)

  /** What a press of the play/pause button does. */
  datatype Toggle = Generated(g: Generation) | Paused | Resumed

  /** `cleanContent.split(' ').length`: the spaces plus one. */
  function ClientWords(text: string): (n: nat)
    ensures n == CountOf(text, ' ') + 1
  {
    BlankCount(text);
    |SplitOnBlank(text)|
  }

  /** The client's estimate in seconds: 150 words a minute, divided by the rate. */
  function ClientDuration(text: string, rate: real): real
    requires rate > 0.0
  {
    (ClientWords(text) as real / WordsPerMinute) * 60.0 / rate
  }

  /** The estimate is 0.4 seconds per word at rate 1, a word being what the spaces separate. */
  lemma ClientDurationPerWord(text: string, rate: real)
    requires rate > 0.0
    ensures ClientDuration(text, rate) == (CountOf(text, ' ') + 1) as real * 0.4 / rate > 0.0
  {
    SecondsPerWord(ClientWords(text) as real, rate);
  }

  lemma SecondsPerWord(w: real, rate: real)
    requires w >= 1.0 && rate > 0.0
    ensures (w / WordsPerMinute) * 60.0 / rate == w * 0.4 / rate > 0.0
  {
  }

  /** `Math.floor(seconds % 60)` for a non-negative time. */
  function SecondsPart(seconds: real): (s: nat)
    requires seconds >= 0.0
    ensures s < 60
    ensures (seconds / 60.0).Floor * 60 + s == seconds.Floor
  {
    var m := (seconds / 60.0).Floor;
    var rest := seconds - 60.0 * m as real;
    assert 0.0 <= rest < 60.0;
    assert (60.0 * m as real + rest).Floor == 60 * m + rest.Floor;
    rest.Floor
  }

  /** `formatTime`: minutes, a colon and the seconds padded to two digits. */
  function FormatTime(seconds: real): (r: string)
    requires seconds >= 0.0
  {
    NatToString((seconds / 60.0).Floor) + ":" + PadTwo(SecondsPart(seconds))
  }

  /**
   * The rendering reads back as the time: digits, a colon and exactly two
   * digits below 60, with minutes times 60 plus seconds giving the whole
   * seconds of the input.
   */
  lemma FormatTimeReadsBack(seconds: real)
    requires seconds >= 0.0
    ensures var r := FormatTime(seconds);
      && |r| >= 4 && r[|r| - 3] == ':'
      && AllDigits(r[..|r| - 3]) && AllDigits(r[|r| - 2..])
      && DigitsValue(r[|r| - 2..]) < 60
      && DigitsValue(r[..|r| - 3]) * 60 + DigitsValue(r[|r| - 2..]) == seconds.Floor
  {
    var m := (seconds / 60.0).Floor;
    var s := SecondsPart(seconds);
    var r := FormatTime(seconds);
    assert m >= 0;
    DigitsValueOfNatToString(m);
    assert r[..|r| - 3] == NatToString(m);
    assert r[|r| - 2..] == PadTwo(s);
  }

  /**
   * The component's `prepareContentForSpeech`: the client cleaner, whose text
   * is one line with no white space at either end.
   */
  method PrepareContentForSpeech(content: string) returns (clean: string)
    ensures clean == ClientClean(content)
  {
    clean := ClientClean(content);
  }

  class AudioPlayer {
    var isPlaying: bool
    var isPaused: bool
    var currentTime: real
    var duration: real
    var volume: real
    var isMuted: bool
    var playbackRate: real
    var isGenerating: bool
    /** `utteranceRef.current`. */
    var utterance: Option<Utterance>

    /**
     * What the handlers keep: the volume is in the slider's range and is zero
     * exactly when muted; the rate is one of the menu's, all positive; times are not
     * negative; a paused player is playing an utterance.
     */
    predicate Valid()
      reads this
    {
      && 0.0 <= volume <= 1.0
      && (isMuted <==> volume == 0.0)
      && playbackRate in SpeedOptions && playbackRate > 0.0
      && currentTime >= 0.0 && duration >= 0.0
      && (isPaused ==> isPlaying && utterance.Some?)
    }

    constructor()
      ensures Valid()
      ensures !isPlaying && !isPaused && currentTime == 0.0 && duration == 0.0
      ensures volume == DefaultVolume && !isMuted && playbackRate == 1.0 && !isGenerating && utterance == None
    {
      isPlaying := false;
      isPaused := false;
      currentTime := 0.0;
      duration := 0.0;
      volume := DefaultVolume;
      isMuted := false;
      playbackRate := 1.0;
      isGenerating := false;
      utterance := None;
    }

    /**
     * `generateAudio`: with no content nothing changes; with the selected
     * voice missing only the generating flag is reset; otherwise the cleaned
     * content becomes the utterance, at the current rate and volume, and the
     * duration is estimated from it.
     */
    method GenerateAudio(content: string, voiceFound: bool) returns (g: Generation)
      requires Valid()
      modifies this
      ensures Valid()
      ensures content == "" ==> g == NoContent && unchanged(this)
      ensures content != "" && !voiceFound ==>
        && g == VoiceMissing && !isGenerating
        && utterance == old(utterance) && duration == old(duration)
      ensures content != "" && voiceFound ==>
        && g == Speaking(Utterance(ClientClean(content), old(playbackRate), old(volume)))
        && utterance == Some(g.u) && !isGenerating
        && duration == ClientDuration(g.u.text, old(playbackRate))
      ensures isPlaying == old(isPlaying) && isPaused == old(isPaused) && currentTime == old(currentTime)
      ensures volume == old(volume) && isMuted == old(isMuted) && playbackRate == old(playbackRate)
    {
      if content == "" {
        return NoContent;
      }
      isGenerating := true;
      if !voiceFound {
        g := VoiceMissing;
      } else {
        var clean := PrepareContentForSpeech(content);
        var u := Speak(clean);
        g := Speaking(u);
      }
      isGenerating := false;
    }

    /**
     * The utterance set up for `clean` at the current rate and volume, and the
     * duration estimated from its words.
     */
    method Speak(clean: string) returns (u: Utterance)
      requires Valid()
      modifies this
      ensures Valid()
      ensures u == Utterance(clean, playbackRate, volume) && utterance == Some(u)
      ensures duration == ClientDuration(clean, playbackRate)
      ensures isPlaying == old(isPlaying) && isPaused == old(isPaused) && currentTime == old(currentTime)
      ensures volume == old(volume) && isMuted == old(isMuted) && playbackRate == old(playbackRate)
      ensures isGenerating == old(isGenerating)
    {
      u := Utterance(clean, playbackRate, volume);
      utterance := Some(u);
      duration := ClientDuration(clean, playbackRate);
      ClientDurationPerWord(clean, playbackRate);
    }

    /** The utterance's `start` event. */
    method OnStart()
      requires Valid()
      modifies this
      ensures Valid()
      ensures isPlaying && !isPaused
      ensures currentTime == old(currentTime) && duration == old(duration) && volume == old(volume)
      ensures isMuted == old(isMuted) && playbackRate == old(playbackRate) && utterance == old(utterance)
      ensures isGenerating == old(isGenerating)
    {
      isPlaying := true;
      isPaused := false;
    }

    /** The utterance's `end` event: stopped and rewound; the utterance is kept. */
    method OnEnd()
      requires Valid()
      modifies this
      ensures Valid()
      ensures !isPlaying && !isPaused && currentTime == 0.0
      ensures duration == old(duration) && volume == old(volume) && isMuted == old(isMuted)
      ensures playbackRate == old(playbackRate) && utterance == old(utterance) && isGenerating == old(isGenerating)
    {
      isPlaying := false;
      isPaused := false;
      currentTime := 0.0;
    }

    /** The utterance's `error` event: stopped, but not rewound. */
    method OnError()
      requires Valid()
      modifies this
      ensures Valid()
      ensures !isPlaying && !isPaused
      ensures currentTime == old(currentTime) && duration == old(duration) && volume == old(volume)
      ensures isMuted == old(isMuted) && playbackRate == old(playbackRate) && utterance == old(utterance)
      ensures isGenerating == old(isGenerating)
    {
      isPlaying := false;
      isPaused := false;
    }

    /**
     * `togglePlayPause`: without an utterance, or when neither playing nor
     * paused, generate; when playing, pause; when paused, resume.
     */
    method TogglePlayPause(content: string, voiceFound: bool) returns (t: Toggle)
      requires Valid()
      modifies this
      ensures Valid()
      ensures old(utterance).None? || (!old(isPlaying) && !old(isPaused)) <==> t.Generated?
      ensures old(utterance).Some? && old(isPlaying) && !old(isPaused) <==> t == Paused
      ensures old(utterance).Some? && old(isPaused) <==> t == Resumed
      ensures t == Paused ==> isPlaying && isPaused
      ensures t == Resumed ==> isPlaying && !isPaused
      ensures t.Generated? ==> isPlaying == old(isPlaying) && isPaused == old(isPaused)
      ensures !t.Generated? ==> utterance == old(utterance) && duration == old(duration)
      ensures currentTime == old(currentTime) && volume == old(volume) && isMuted == old(isMuted)
      ensures playbackRate == old(playbackRate)
    {
      if utterance.None? {
        var g := GenerateAudio(content, voiceFound);
        return Generated(g);
      }
      if isPlaying && !isPaused {
        isPaused := true;
        t := Paused;
      } else if isPaused {
        isPaused := false;
        t := Resumed;
      } else {
        var g := GenerateAudio(content, voiceFound);
        t := Generated(g);
      }
    }

    /** `stopAudio`: stopped, rewound, and the utterance dropped. */
    method StopAudio()
      requires Valid()
      modifies this
      ensures Valid()
      ensures !isPlaying && !isPaused && currentTime == 0.0 && utterance == None
      ensures duration == old(duration) && volume == old(volume) && isMuted == old(isMuted)
      ensures playbackRate == old(playbackRate) && isGenerating == old(isGenerating)
    {
      isPlaying := false;
      isPaused := false;
      currentTime := 0.0;
      utterance := None;
    }

    /** `handleVolumeChange`: the slider's value, muted exactly at zero. */
    method HandleVolumeChange(v: real)
      requires Valid() && 0.0 <= v <= 1.0
      modifies this
      ensures Valid()
      ensures volume == v && (isMuted <==> v == 0.0)
      ensures isPlaying == old(isPlaying) && isPaused == old(isPaused) && currentTime == old(currentTime)
      ensures duration == old(duration) && playbackRate == old(playbackRate) && utterance == old(utterance)
      ensures isGenerating == old(isGenerating)
    {
      volume := v;
      isMuted := v == 0.0;
    }

    /** `toggleMute`: muting sets the volume to 0, unmuting back to 0.8. */
    method ToggleMute()
      requires Valid()
      modifies this
      ensures Valid()
      ensures isMuted == !old(isMuted)
      ensures volume == if isMuted then 0.0 else DefaultVolume
      ensures isPlaying == old(isPlaying) && isPaused == old(isPaused) && currentTime == old(currentTime)
      ensures duration == old(duration) && playbackRate == old(playbackRate) && utterance == old(utterance)
      ensures isGenerating == old(isGenerating)
    {
      var wasMuted := isMuted;
      isMuted := !wasMuted;
      if !wasMuted {
        volume := 0.0;
      } else {
        volume := DefaultVolume;
      }
    }

    /**
     * `handleSpeedChange`: the new rate; a playing player is stopped, and
     * `restart` says that a new generation is scheduled.
     */
    method HandleSpeedChange(speed: real) returns (restart: bool)
      requires Valid() && speed in SpeedOptions
      modifies this
      ensures Valid()
      ensures playbackRate == speed && restart == old(isPlaying)
      ensures restart ==> !isPlaying && !isPaused && currentTime == 0.0 && utterance == None
      ensures !restart ==>
        && isPlaying == old(isPlaying) && isPaused == old(isPaused)
        && currentTime == old(currentTime) && utterance == old(utterance)
      ensures duration == old(duration) && volume == old(volume) && isMuted == old(isMuted)
      ensures isGenerating == old(isGenerating)
    {
      SpeedPositive(speed);
      playbackRate := speed;
      restart := isPlaying;
      if isPlaying {
        StopAudio();
      }
    }

    /** The skip-back button: ten seconds earlier, but not before the start. */
    method SkipBack()
      requires Valid()
      modifies this
      ensures Valid()
      ensures currentTime == if old(currentTime) >= SkipSeconds then old(currentTime) - SkipSeconds else 0.0
      ensures isPlaying == old(isPlaying) && isPaused == old(isPaused) && duration == old(duration)
      ensures volume == old(volume) && isMuted == old(isMuted) && playbackRate == old(playbackRate)
      ensures utterance == old(utterance) && isGenerating == old(isGenerating)
    {
      currentTime := Max(0.0, currentTime - SkipSeconds);
    }

    /** The skip-forward button: ten seconds later, but not past the estimated duration. */
    method SkipForward()
      requires Valid()
      modifies this
      ensures Valid()
      ensures currentTime <= duration
      ensures currentTime == if old(currentTime) + SkipSeconds <= duration then old(currentTime) + SkipSeconds
                             else duration
      ensures isPlaying == old(isPlaying) && isPaused == old(isPaused) && duration == old(duration)
      ensures volume == old(volume) && isMuted == old(isMuted) && playbackRate == old(playbackRate)
      ensures utterance == old(utterance) && isGenerating == old(isGenerating)
    {
      currentTime := Min(duration, currentTime + SkipSeconds);
    }
  }

  /** `Math.max`. */
  function Max(a: real, b: real): (m: real)
    ensures m >= a && m >= b && (m == a || m == b)
  {
    if a >= b then a else b
  }

  /** `Math.min`. */
  function Min(a: real, b: real): (m: real)
    ensures m <= a && m <= b && (m == a || m == b)
  {
    if a <= b then a else b
  }
}
