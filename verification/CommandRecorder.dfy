/** Recording one spoken command: pre-roll, onset, trailing silence and the limits, over a stream of
    frames that starts with the ones buffered while the recorder was not ready. */
module CommandRecorder {

  import opened Options

  /** The limits in frames; all but the pre-roll are at least one. */
  datatype Config = Config(start: real, proceed: real, silence: nat, maximum: nat, timeout: nat, minimum: nat,
                           preRoll: nat)

  predicate Valid(c: Config) {
    0.0 < c.proceed <= c.start && c.silence >= 1 && c.maximum >= 1 && c.timeout >= 1 && c.minimum >= 1
  }

  datatype Outcome<F> = TimedOut
                      | Recorded(frames: seq<F>, speech: nat, stoppedBySilence: bool, peak: real)

  // ------------------------------------------------------------------ frames

  /** The least positive number of frames that lasts `seconds`. */
  function Frames(seconds: real, duration: real): (n: nat)
    requires duration > 0.0
    ensures n >= 1 && n as real * duration >= seconds
    ensures n > 1 ==> (n - 1) as real * duration < seconds
  {
    var ratio := seconds / duration;
    var ceiling := if ratio.Floor as real == ratio then ratio.Floor else ratio.Floor + 1;
    var n := if ceiling < 1 then 1 else ceiling;
    Lasts(seconds, duration, n as real);
    Lasts(seconds, duration, (n - 1) as real);
    n
  }

  lemma Lasts(seconds: real, duration: real, n: real)
    requires duration > 0.0
    ensures seconds / duration <= n <==> n * duration >= seconds
  {
    var ratio := seconds / duration;
    assert ratio * duration == seconds;
    assert n >= ratio ==> (n - ratio) * duration >= 0.0;
    assert n < ratio ==> (ratio - n) * duration > 0.0;
  }

  /** The highest of the probabilities the detector gives for a frame, if it gives any. */
  function Highest(ps: seq<real>): (p: Option<real>)
    ensures p.None? <==> ps == []
    ensures p.Some? ==> p.value in ps && forall q | q in ps :: q <= p.value
  {
    if ps == [] then None
    else
      var rest := Highest(ps[1..]);
      assert ps == [ps[0]] + ps[1..];
      if rest.Some? && rest.value > ps[0] then rest else Some(ps[0])
  }

  /** What the recorder hears: the buffered frames, then the live ones. */
  function Heard<F>(buffered: seq<F>, live: nat -> F, i: nat): F {
    if i < |buffered| then buffered[i] else live(i - |buffered|)
  }

  function Slice<F>(buffered: seq<F>, live: nat -> F, from: nat, to: nat): (s: seq<F>)
    requires from <= to
    ensures |s| == to - from && forall i | 0 <= i < |s| :: s[i] == Heard(buffered, live, from + i)
  {
    seq(to - from, i requires 0 <= i < to - from => Heard(buffered, live, from + i))
  }

  function Min(a: nat, b: nat): nat {
    if a < b then a else b
  }

  function Max(a: nat, b: nat): nat {
    if a < b then b else a
  }

  // ------------------------------------------------------------------- speech

  /** `detected(i)` are the probabilities for the i-th frame. */
  predicate Starts(c: Config, detected: nat -> seq<real>, i: nat) {
    var p := Highest(detected(i));
    p.Some? && p.value >= c.start
  }

  /** Frame `i` counts as speech once speech has started. */
  predicate Speech(c: Config, detected: nat -> seq<real>, i: nat) {
    var p := Highest(detected(i));
    p.Some? && p.value >= c.proceed
  }

  predicate Quiet(c: Config, detected: nat -> seq<real>, i: nat) {
    var p := Highest(detected(i));
    p.Some? && p.value < c.proceed
  }

  /** Speech frames from the onset up to `end`, the onset included. */
  function SpeechCount(c: Config, detected: nat -> seq<real>, onset: nat, end: nat): nat {
    if end <= onset + 1 then 1
    else SpeechCount(c, detected, onset, end - 1) + if Speech(c, detected, end - 1) then 1 else 0
  }

  function QuietCount(c: Config, detected: nat -> seq<real>, from: nat, to: nat): nat {
    if to <= from then 0 else QuietCount(c, detected, from, to - 1) + if Quiet(c, detected, to - 1) then 1 else 0
  }

  /** The last speech frame before `end`, the onset counting as one. */
  function LastSpeech(c: Config, detected: nat -> seq<real>, onset: nat, end: nat): (last: nat)
    requires onset < end
    ensures onset <= last < end && (last == onset || Speech(c, detected, last))
    ensures forall i | last < i < end :: !Speech(c, detected, i)
  {
    if end == onset + 1 || Speech(c, detected, end - 1) then end - 1 else LastSpeech(c, detected, onset, end - 1)
  }

  /** The quiet frames since the last speech frame; frames without a verdict neither count nor interrupt. */
  function Silence(c: Config, detected: nat -> seq<real>, onset: nat, end: nat): nat
    requires onset < end
  {
    QuietCount(c, detected, LastSpeech(c, detected, onset, end) + 1, end)
  }

  predicate SilenceMet(c: Config, detected: nat -> seq<real>, onset: nat, end: nat)
    requires onset < end
  {
    SpeechCount(c, detected, onset, end) >= c.minimum && Silence(c, detected, onset, end) >= c.silence
  }

  predicate Full(c: Config, onset: nat, end: nat) {
    end - onset >= c.maximum
  }

  ghost predicate Onset(c: Config, detected: nat -> seq<real>, onset: nat) {
    Starts(c, detected, onset) && forall i | 0 <= i < onset :: !Starts(c, detected, i)
  }

  /** The recording runs from the onset to the first frame after it at which a limit is met. */
  ghost predicate Ends(c: Config, detected: nat -> seq<real>, onset: nat, end: nat) {
    && onset + 2 <= end
    && (SilenceMet(c, detected, onset, end) || Full(c, onset, end))
    && forall e | onset + 2 <= e < end :: !SilenceMet(c, detected, onset, e) && !Full(c, onset, e)
  }

  /** The highest probability of the first `n` frames, and zero. */
  ghost predicate IsPeak(detected: nat -> seq<real>, n: nat, peak: real) {
    && (forall i | 0 <= i < n :: Highest(detected(i)).Some? ==> Highest(detected(i)).value <= peak)
    && 0.0 <= peak && (peak == 0.0 || exists i | 0 <= i < n :: Highest(detected(i)) == Some(peak))
  }

  // --------------------------------------------------------------- the loop

  /** Nothing has started, and the pre-roll holds the latest frames. */
  ghost predicate Waiting<F>(c: Config, buffered: seq<F>, live: nat -> F, detected: nat -> seq<real>, read: nat,
                             preRoll: seq<F>) {
    && (forall i | 0 <= i < read :: !Starts(c, detected, i))
    && preRoll == Slice(buffered, live, read - Min(c.preRoll, read), read)
  }

  /** The recording began at `onset`, and no limit has been met. */
  ghost predicate Capturing<F>(c: Config, buffered: seq<F>, live: nat -> F, detected: nat -> seq<real>, onset: nat,
                               read: nat, recorded: seq<F>) {
    && onset < read && Onset(c, detected, onset)
    && recorded == Slice(buffered, live, onset - Min(c.preRoll, onset), read)
    && forall e | onset + 2 <= e <= read :: !SilenceMet(c, detected, onset, e) && !Full(c, onset, e)
  }

  /** The recording of one command. */
  ghost predicate IsRecording<F>(c: Config, buffered: seq<F>, live: nat -> F, detected: nat -> seq<real>, onset: nat,
                                 read: nat, outcome: Outcome<F>)
    requires outcome.Recorded? && onset < read
  {
    && onset < c.timeout && Onset(c, detected, onset) && Ends(c, detected, onset, read)
    && outcome.frames == Slice(buffered, live, onset - Min(c.preRoll, onset), read)
    && outcome.speech == SpeechCount(c, detected, onset, read)
    && (outcome.stoppedBySilence <==> SilenceMet(c, detected, onset, read))
    && IsPeak(detected, read, outcome.peak)
  }

  /** One command. `read` is how many frames were consumed: the loop always ends within the start timeout
      and the longest recording after it. The output is one contiguous slice of what was heard, from the
      pre-roll before the onset to the first frame at which a limit is met. */
  method Record<F>(c: Config, buffered: seq<F>, live: nat -> F, detected: nat -> seq<real>)
    returns (outcome: Outcome<F>, read: nat, onset: nat)
    requires Valid(c)
    ensures read <= c.timeout + Max(1, c.maximum - 1)
    ensures outcome.TimedOut? <==> forall i | 0 <= i < c.timeout :: !Starts(c, detected, i)
    ensures outcome.TimedOut? ==> read == c.timeout
    ensures outcome.Recorded? ==> onset < read && IsRecording(c, buffered, live, detected, onset, read, outcome)
    ensures outcome.Recorded? ==> read - onset <= Max(2, c.maximum)
  {
    hide Highest, Capturing, IsPeak, Ends, Onset, Slice, SpeechCount, Silence;
    var preRoll: seq<F>, recorded: seq<F> := [], [];
    var waiting: nat, captured: nat, active: nat, silent: nat := 0, 0, 0, 0;
    var started, stoppedBySilence, peak := false, false, 0.0;
    read, onset := 0, 0;
    assert IsPeak(detected, 0, 0.0) by {
      NoPeak(detected);
    }
    while true
      invariant !started ==> waiting == read < c.timeout && Waiting(c, buffered, live, detected, read, preRoll)
      invariant started ==> captured == read - onset && onset < c.timeout && onset < read && Starts(c, detected, onset)
      invariant started ==> Capturing(c, buffered, live, detected, onset, read, recorded)
      invariant started ==> active == SpeechCount(c, detected, onset, read)
      invariant started ==> silent == Silence(c, detected, onset, read)
      invariant started ==> captured < Max(2, c.maximum)
      invariant IsPeak(detected, read, peak) && !stoppedBySilence
      decreases c.timeout + Max(2, c.maximum) - read
    {
      var frame := if read < |buffered| then buffered[read] else live(read - |buffered|);
      var probability := Highest(detected(read));
      PeakStep(detected, read, peak);
      if probability.Some? && probability.value > peak {
        peak := probability.value;
      }
      ghost var at := read;
      read := read + 1;
      if !started {
        waiting := waiting + 1;
        if probability.Some? && probability.value >= c.start {
          Starting(c, buffered, live, detected, at, preRoll);
          started, onset := true, read - 1;
          recorded := preRoll + [frame];
          captured, active, silent := 1, 1, 0;
        } else {
          WaitOn(c, buffered, live, detected, at, preRoll);
          if c.preRoll > 0 {
            preRoll := preRoll + [frame];
            if |preRoll| > c.preRoll {
              preRoll := preRoll[1..];
            }
          }
          if waiting >= c.timeout {
            return TimedOut, read, onset;
          }
        }
        continue;
      }
      CaptureOn(c, buffered, live, detected, onset, at, recorded);
      CountStep(c, detected, onset, at);
      recorded := recorded + [frame];
      captured := captured + 1;
      if probability.None? {
      } else if probability.value >= c.proceed {
        active := active + 1;
        silent := 0;
      } else {
        silent := silent + 1;
      }
      if active >= c.minimum && silent >= c.silence {
        stoppedBySilence := true;
        break;
      }
      if captured >= c.maximum {
        break;
      }
    }
    outcome := Recorded(recorded, active, stoppedBySilence, peak);
  }

  // -------------------------------------------------------- steps of the loop

  lemma WaitOn<F>(c: Config, buffered: seq<F>, live: nat -> F, detected: nat -> seq<real>, read: nat, preRoll: seq<F>)
    requires Waiting(c, buffered, live, detected, read, preRoll) && !Starts(c, detected, read)
    ensures c.preRoll == 0 ==> Waiting(c, buffered, live, detected, read + 1, preRoll)
    ensures c.preRoll > 0 ==>
              var longer := preRoll + [Heard(buffered, live, read)];
              Waiting(c, buffered, live, detected, read + 1, if |longer| > c.preRoll then longer[1..] else longer)
  {
    hide Starts, Heard;
    var longer := preRoll + [Heard(buffered, live, read)];
    if c.preRoll > 0 {
      var next := if |longer| > c.preRoll then longer[1..] else longer;
      assert next == Slice(buffered, live, read + 1 - Min(c.preRoll, read + 1), read + 1);
    } else {
      assert preRoll == Slice(buffered, live, read + 1, read + 1);
    }
  }

  lemma Starting<F>(c: Config, buffered: seq<F>, live: nat -> F, detected: nat -> seq<real>, read: nat, preRoll: seq<F>)
    requires Waiting(c, buffered, live, detected, read, preRoll) && Starts(c, detected, read)
    ensures Capturing(c, buffered, live, detected, read, read + 1, preRoll + [Heard(buffered, live, read)])
    ensures SpeechCount(c, detected, read, read + 1) == 1 && Silence(c, detected, read, read + 1) == 0
  {
    hide Starts, Heard;
    assert preRoll + [Heard(buffered, live, read)] == Slice(buffered, live, read - Min(c.preRoll, read), read + 1);
  }

  lemma CaptureOn<F>(c: Config, buffered: seq<F>, live: nat -> F, detected: nat -> seq<real>, onset: nat, read: nat,
                     recorded: seq<F>)
    requires Capturing(c, buffered, live, detected, onset, read, recorded)
    ensures Onset(c, detected, onset)
    ensures var longer := recorded + [Heard(buffered, live, read)];
            && longer == Slice(buffered, live, onset - Min(c.preRoll, onset), read + 1)
            && if SilenceMet(c, detected, onset, read + 1) || Full(c, onset, read + 1)
               then Ends(c, detected, onset, read + 1)
               else Capturing(c, buffered, live, detected, onset, read + 1, longer)
                    && read + 1 - onset < Max(2, c.maximum)
  {
    hide Starts, Heard, SilenceMet, Onset;
    var longer := recorded + [Heard(buffered, live, read)];
    assert longer == Slice(buffered, live, onset - Min(c.preRoll, onset), read + 1);
  }

  lemma PeakStep(detected: nat -> seq<real>, n: nat, peak: real)
    requires IsPeak(detected, n, peak)
    ensures var p := Highest(detected(n));
            IsPeak(detected, n + 1, if p.Some? && p.value > peak then p.value else peak)
  {
    hide Highest;
  }

  lemma NoPeak(detected: nat -> seq<real>)
    ensures IsPeak(detected, 0, 0.0)
  {
  }

  lemma CountStep(c: Config, detected: nat -> seq<real>, onset: nat, end: nat)
    requires onset < end
    ensures SpeechCount(c, detected, onset, end + 1) ==
            SpeechCount(c, detected, onset, end) + if Speech(c, detected, end) then 1 else 0
    ensures Silence(c, detected, onset, end + 1) ==
            if Speech(c, detected, end) then 0
            else Silence(c, detected, onset, end) + if Quiet(c, detected, end) then 1 else 0
  {
  }
}
