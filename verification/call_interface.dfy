/** The call screen: its status, the running duration shown as `H:MM:SS` or
    `M:SS`, the connection-quality colour and the mute and video toggles. */
module CallInterface {
  import opened Common

  /** The whole seconds split into hours, minutes under an hour and seconds
      under a minute. */
  function Hours(s: nat): nat { s / 3600 }
  function Minutes(s: nat): nat { (s % 3600) / 60 }
  function Seconds(s: nat): nat { s % 60 }

  lemma Decompose(s: nat)
    ensures Hours(s) * 3600 + Minutes(s) * 60 + Seconds(s) == s
    ensures Minutes(s) < 60 && Seconds(s) < 60
  {
  }

  /** `formatDuration`: hours, then minutes and seconds each padded to two
      digits, when there is at least an hour; otherwise unpadded minutes and
      padded seconds. */
  function FormatDuration(s: nat): (r: string)
    ensures Hours(s) > 0 ==> r == NatToString(Hours(s)) + ":" + Pad2(Minutes(s)) + ":" + Pad2(Seconds(s))
    ensures Hours(s) == 0 ==> r == NatToString(Minutes(s)) + ":" + Pad2(Seconds(s))
  {
    var hours := s / 3600;
    var minutes := (s % 3600) / 60;
    var secs := s % 60;
    if hours > 0 then NatToString(hours) + ":" + Pad2(minutes) + ":" + Pad2(secs)
    else NatToString(minutes) + ":" + Pad2(secs)
  }

  /** Reads a shown duration back into seconds. */
  function ParseDuration(t: string): int {
    var parts := Split(t, ':');
    if |parts| == 3 then DigitsValue(parts[0]) * 3600 + DigitsValue(parts[1]) * 60 + DigitsValue(parts[2])
    else if |parts| == 2 then DigitsValue(parts[0]) * 60 + DigitsValue(parts[1])
    else DigitsValue(parts[0])
  }

  lemma DigitsHaveNoColon(s: string)
    requires forall i :: 0 <= i < |s| ==> IsDigit(s[i])
    ensures ':' !in s
  {
  }

  /** The shown text determines the duration: reading it back gives the
      seconds it was made from, with two-digit minutes and seconds fields
      after an hour and a two-digit seconds field always. */
  lemma {:induction false} FormatParse(s: nat)
    ensures ParseDuration(FormatDuration(s)) == s
    ensures var parts := Split(FormatDuration(s), ':');
      && (Hours(s) > 0 ==> |parts| == 3 && |parts[1]| == 2 && |parts[2]| == 2)
      && (Hours(s) == 0 ==> |parts| == 2 && |parts[1]| == 2)
  {
    Decompose(s);
    var h, m, sec := NatToString(Hours(s)), Pad2(Minutes(s)), Pad2(Seconds(s));
    NatToStringValue(Hours(s));
    Pad2Value(Minutes(s));
    Pad2Value(Seconds(s));
    DigitsHaveNoColon(h);
    DigitsHaveNoColon(m);
    DigitsHaveNoColon(sec);
    if Hours(s) > 0 {
      assert [h, m, sec][1..] == [m, sec] && [m, sec][1..] == [sec];
      assert Join([m, sec], [':']) == m + ":" + sec;
      assert Join([h, m, sec], [':']) == h + ":" + m + ":" + sec;
      SplitJoin([h, m, sec], ':');
    } else {
      var mm := NatToString(Minutes(s));
      NatToStringValue(Minutes(s));
      DigitsHaveNoColon(mm);
      assert [mm, sec][1..] == [sec];
      assert Join([mm, sec], [':']) == mm + ":" + sec;
      SplitJoin([mm, sec], ':');
    }
  }

  /** `getQualityColor`. */
  function QualityColor(quality: string): (c: string)
    ensures quality == "excellent" <==> c == "text-success"
    ensures quality == "good" <==> c == "text-warning"
    ensures quality == "fair" <==> c == "text-error"
    ensures quality !in {"excellent", "good", "fair"} <==> c == "text-text-tertiary"
  {
    match quality
    case "excellent" => "text-success"
    case "good" => "text-warning"
    case "fair" => "text-error"
    case _ => "text-text-tertiary"
  }

  datatype CallStatus = Idle | Incoming | Active

  class CallScreen {
    var status: CallStatus
    var isMuted: bool
    var isVideoOn: bool
    var duration: nat

    constructor ()
      ensures status == Idle && !isMuted && isVideoOn && duration == 0
    {
      status, isMuted, isVideoOn, duration := Idle, false, true, 0;
    }

    /** One second of the interval timer, which runs only while active. */
    method Tick()
      modifies this
      ensures duration == if old(status) == Active then old(duration) + 1 else old(duration)
      ensures status == old(status) && isMuted == old(isMuted) && isVideoOn == old(isVideoOn)
    {
      if status == Active {
        duration := duration + 1;
      }
    }

    /** The call list's `setCallStatus`. */
    method SetStatus(s: CallStatus)
      modifies this
      ensures status == s && duration == old(duration)
      ensures isMuted == old(isMuted) && isVideoOn == old(isVideoOn)
    {
      status := s;
    }

    /** Accept: the call becomes active; the duration carries on. */
    method Accept()
      modifies this
      ensures status == Active && duration == old(duration)
      ensures isMuted == old(isMuted) && isVideoOn == old(isVideoOn)
    {
      status := Active;
    }

    /** Decline: back to idle; the duration is kept. */
    method Decline()
      modifies this
      ensures status == Idle && duration == old(duration)
      ensures isMuted == old(isMuted) && isVideoOn == old(isVideoOn)
    {
      status := Idle;
    }

    /** End call: back to idle with the duration reset. */
    method End()
      modifies this
      ensures status == Idle && duration == 0
      ensures isMuted == old(isMuted) && isVideoOn == old(isVideoOn)
    {
      status := Idle;
      duration := 0;
    }

    method ToggleMute()
      modifies this
      ensures isMuted == !old(isMuted)
      ensures status == old(status) && duration == old(duration) && isVideoOn == old(isVideoOn)
    {
      isMuted := !isMuted;
    }

    method ToggleVideo()
      modifies this
      ensures isVideoOn == !old(isVideoOn)
      ensures status == old(status) && duration == old(duration) && isMuted == old(isMuted)
    {
      isVideoOn := !isVideoOn;
    }
  }

  /** An accepted call that runs for 65 ticks shows "1:05"; ending it shows
      "0:00" again and further ticks do not count. */
  method ScenarioTimer() returns (during: string, after: string)
    ensures during == "1:05" && after == "0:00"
  {
    var screen := new CallScreen();
    screen.SetStatus(Incoming);
    screen.Tick();
    screen.Accept();
    var k := 0;
    while k < 65
      invariant 0 <= k <= 65 && screen.status == Active && screen.duration == k
    {
      screen.Tick();
      k := k + 1;
    }
    during := FormatDuration(screen.duration);
    assert NatToString(1) == "1" && Pad2(5) == "05";
    screen.End();
    screen.Tick();
    after := FormatDuration(screen.duration);
    assert NatToString(0) == "0" && Pad2(0) == "00";
  }
}
