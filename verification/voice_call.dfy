/**
 * The incoming-call overlay: ringing, in a call with a running clock, or
 * gone, and the `mm:ss` clock text.
 */
module Calls {
  import opened Text

  const Colon: CodeUnit := 0x3A

  /** `formatDuration`: whole minutes and the remaining seconds, each padded to two digits. */
  function FormatDuration(seconds: nat): JsString {
    PadStart2(Decimal(seconds / 60)) + [Colon] + PadStart2(Decimal(seconds % 60))
  }

  /** Every unit of `s` is a decimal digit. */
  predicate Numeral(s: JsString) {
    forall i | 0 <= i < |s| :: IsDigit(s[i])
  }

  /**
   * `r` is a clock text for `seconds`: a numeral of minutes, a colon and a
   * two-digit numeral of seconds below 60 that together make `seconds`.
   */
  predicate ReadsAsDuration(r: JsString, seconds: nat) {
    && |r| >= 5 && r[|r| - 3] == Colon
    && Numeral(r[..|r| - 3]) && Numeral(r[|r| - 2..])
    && DigitsValue(r[|r| - 2..]) < 60
    && DigitsValue(r[..|r| - 3]) * 60 + DigitsValue(r[|r| - 2..]) == seconds
  }

  /** Two numerals joined by a colon read back as minutes and seconds. */
  lemma JoinedNumerals(m: JsString, c: JsString, minutes: nat, secs: nat, seconds: nat)
    requires Numeral(m) && Numeral(c) && |m| >= 2 && |c| == 2
    requires DigitsValue(m) == minutes && DigitsValue(c) == secs && secs < 60
    requires minutes * 60 + secs == seconds
    ensures ReadsAsDuration(m + [Colon] + c, seconds)
  {
    var r := m + [Colon] + c;
    assert |r| == |m| + 3;
    assert r[..|r| - 3] == m;
    assert r[|r| - 2..] == c;
  }

  /** The two padded numerals of the clock text. */
  lemma ClockNumerals(seconds: nat)
    ensures var m, c := PadStart2(Decimal(seconds / 60)), PadStart2(Decimal(seconds % 60));
            && Numeral(m) && Numeral(c) && |m| >= 2 && |c| == 2
            && DigitsValue(m) == seconds / 60 && DigitsValue(c) == seconds % 60
            && FormatDuration(seconds) == m + [Colon] + c
  {
    var dm, ds := Decimal(seconds / 60), Decimal(seconds % 60);
    PadStart2Value(dm);
    PadStart2Value(ds);
  }

  /** The clock text reads back as the duration it was made from. */
  lemma FormatDurationReadsBack(seconds: nat)
    ensures ReadsAsDuration(FormatDuration(seconds), seconds)
  {
    var minutes, secs := seconds / 60, seconds % 60;
    var m, c := PadStart2(Decimal(minutes)), PadStart2(Decimal(secs));
    ClockNumerals(seconds);
    assert minutes * 60 + secs == seconds;
    JoinedNumerals(m, c, minutes, secs, seconds);
  }

  /** Below 100 minutes the text is exactly five units, `MM:SS`; from 100 minutes on it is longer. */
  lemma FormatDurationWidth(seconds: nat)
    ensures seconds < 6000 ==> |FormatDuration(seconds)| == 5 && FormatDuration(seconds)[2] == Colon
    ensures seconds >= 6000 ==> |FormatDuration(seconds)| > 5
  {
    var dm, ds := Decimal(seconds / 60), Decimal(seconds % 60);
    var m, c := PadStart2(dm), PadStart2(ds);
    assert |c| == 2;
    var r := m + [Colon] + c;
    assert FormatDuration(seconds) == r;
    assert |r| == |m| + 3 && r[|m|] == Colon;
    assert seconds < 6000 <==> seconds / 60 < 100;
    assert seconds / 60 < 100 <==> |m| == 2;
  }

  /** The overlay's state. */
  class VoiceCall {
    var isRinging: bool
    var isInCall: bool
    var callDuration: nat

    /** A call arrives ringing, not yet answered, with the clock at zero. */
    constructor ()
      ensures isRinging && !isInCall && callDuration == 0
      ensures !RendersNothing()
    {
      isRinging, isInCall, callDuration := true, false, 0;
    }

    /** `handleAccept`: stop ringing and enter the call. */
    method HandleAccept()
      modifies this
      ensures !isRinging && isInCall && callDuration == old(callDuration)
      ensures !RendersNothing()
    {
      isRinging := false;
      isInCall := true;
    }

    /**
     * `handleDecline`, behind both the decline and the hang-up buttons: it
     * stops the ringing only, so hanging up during a call stays in the call.
     */
    method HandleDecline()
      modifies this
      ensures !isRinging && isInCall == old(isInCall) && callDuration == old(callDuration)
      ensures RendersNothing() <==> !old(isInCall)
    {
      isRinging := false;
    }

    /** One second of the interval, which runs only while in a call. */
    method Tick()
      modifies this
      ensures callDuration == old(callDuration) + (if isInCall then 1 else 0)
      ensures isRinging == old(isRinging) && isInCall == old(isInCall)
      ensures RendersNothing() == old(RendersNothing())
    {
      if isInCall {
        callDuration := callDuration + 1;
      }
    }

    /** The component renders nothing exactly when it neither rings nor holds a call. */
    predicate RendersNothing()
      reads this
    {
      !isRinging && !isInCall
    }
  }
}
