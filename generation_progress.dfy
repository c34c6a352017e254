/** The progress view's logic (components/GenerationProgress.tsx): the fixed
    step list, the step index of the current step, each step's status, the
    step label and the elapsed-time text. */
module GenerationProgress {
  import opened Wrappers
  import opened Strings

  const StepIds: seq<string> := ["fetching", "analyzing", "generating", "formatting"]

  const StepLabels: seq<string> :=
    ["Fetching website content", "Analyzing target audience", "Generating personas", "Formatting output"]

  const Fallback: string := "Processing..."

  /** `steps.findIndex(step => step.id === currentStep)` */
  function StepIndex(current: string): (r: int)
    ensures -1 <= r < |StepIds|
    ensures r >= 0 ==> StepIds[r] == current
    ensures r == -1 <==> current !in StepIds
  {
    if current == StepIds[0] then 0
    else if current == StepIds[1] then 1
    else if current == StepIds[2] then 2
    else if current == StepIds[3] then 3
    else -1
  }

  /** How a step is shown. */
  datatype Status = Done | Current | Waiting

  /** `isComplete` is `index < currentStepIndex`, `isCurrent` is
      `index === currentStepIndex`, and the current look wins. */
  function StatusOf(index: nat, currentIndex: int): (s: Status)
    ensures s == Done <==> index < currentIndex
    ensures s == Current <==> index == currentIndex
  {
    if index == currentIndex then Current
    else if index < currentIndex then Done
    else Waiting
  }

  /** The status of every step, in list order. */
  function Statuses(current: string): (r: seq<Status>)
    ensures |r| == |StepIds|
    ensures forall i :: 0 <= i < |r| ==> r[i] == StatusOf(i, StepIndex(current))
  {
    seq(|StepIds|, i requires 0 <= i < |StepIds| => StatusOf(i, StepIndex(current)))
  }

  /** A known step makes exactly that step current, every earlier step done
      and every later step waiting; an unknown step leaves all waiting. */
  lemma StatusesShape(current: string)
    ensures current in StepIds ==>
      var k := StepIndex(current);
      && StepIds[k] == current
      && Statuses(current)[k] == Current
      && (forall i :: 0 <= i < k ==> Statuses(current)[i] == Done)
      && (forall i :: k < i < |StepIds| ==> Statuses(current)[i] == Waiting)
    ensures current !in StepIds ==> forall i :: 0 <= i < |StepIds| ==> Statuses(current)[i] == Waiting
  {
  }

  function CountCurrent(ss: seq<Status>): nat
    decreases |ss|
  {
    if |ss| == 0 then 0 else (if ss[0] == Current then 1 else 0) + CountCurrent(ss[1..])
  }

  /** Exactly one step is current when the step is known, none otherwise. */
  lemma CurrentIsUnique(current: string)
    ensures CountCurrent(Statuses(current)) == (if current in StepIds then 1 else 0)
  {
    var ss := Statuses(current);
    var k := StepIndex(current);
    assert CountCurrent(ss[4..]) == 0;
    assert CountCurrent(ss[3..]) == (if k == 3 then 1 else 0) by {
      assert ss[3..][1..] == ss[4..];
    }
    assert CountCurrent(ss[2..]) == (if k == 2 || k == 3 then 1 else 0) by {
      assert ss[2..][1..] == ss[3..];
    }
    assert CountCurrent(ss[1..]) == (if 1 <= k then 1 else 0) by {
      assert ss[1..][1..] == ss[2..];
    }
    assert ss[0..] == ss;
  }

  /** `steps.find(s => s.id === currentStep)?.label || "Processing..."` */
  function Label(current: string): (r: string)
    ensures current in StepIds ==> r == StepLabels[StepIndex(current)]
  {
    var k := StepIndex(current);
    if k >= 0 && StepLabels[k] != "" then StepLabels[k] else Fallback
  }

  /** The fallback label shows exactly for an unknown step. */
  lemma FallbackIffUnknown(current: string)
    ensures Label(current) == Fallback <==> current !in StepIds
  {
    if current in StepIds {
      var k := StepIndex(current);
      assert StepLabels[k] != Fallback by {
        assert StepLabels[k][0] != Fallback[0];
      }
    }
  }

  /** `formatTime`: whole minutes and the remaining seconds, or the seconds
      alone below one minute. */
  function FormatTime(seconds: nat): (r: string)
    ensures seconds < 60 ==> r == NatToString(seconds) + "s"
    ensures seconds >= 60 ==> r == NatToString(seconds / 60) + "m " + NatToString(seconds % 60) + "s"
  {
    var mins := seconds / 60;
    var secs := seconds % 60;
    if mins > 0 then NatToString(mins) + "m " + NatToString(secs) + "s" else NatToString(secs) + "s"
  }

  predicate AllDigits(s: string) {
    forall i :: 0 <= i < |s| ==> IsDigit(s[i])
  }

  /** An independent reading of the time text: "<m>m <s>s" or "<s>s". */
  function ReadTime(t: string): Option<nat> {
    if |t| < 2 || t[|t| - 1] != 's' then None
    else
      var body := t[..|t| - 1];
      var m := IndexOfChar(body, 'm');
      if m == -1 then
        (if AllDigits(body) then Some(DigitsValue(body)) else None)
      else if m + 1 < |body| && body[m + 1] == ' ' && AllDigits(body[..m]) && AllDigits(body[m + 2..]) then
        Some(DigitsValue(body[..m]) * 60 + DigitsValue(body[m + 2..]))
      else None
  }

  lemma ReadSeconds(a: string)
    requires AllDigits(a) && |a| > 0
    ensures ReadTime(a + "s") == Some(DigitsValue(a))
  {
    var t := a + "s";
    assert t[..|t| - 1] == a;
    assert 'm' !in a by {
      assert forall k :: 0 <= k < |a| ==> a[k] != 'm';
    }
  }

  /** The first 'm' of a digit run followed by "m " is just after the run. */
  lemma MinuteMark(a: string, rest: string)
    requires AllDigits(a) && |rest| > 0 && rest[0] == 'm'
    ensures IndexOfChar(a + rest, 'm') == |a|
  {
    var body := a + rest;
    assert body[|a|] == 'm';
    assert forall k :: 0 <= k < |a| ==> body[k] == a[k];
    assert forall k :: 0 <= k < |a| ==> body[k] != 'm' by {
      forall k | 0 <= k < |a| ensures body[k] != 'm' {
        assert IsDigit(a[k]);
      }
    }
  }

  /** How `ReadTime` reads a text with a minute part. */
  lemma ReadTimeWithMinutes(t: string, a: string, b: string)
    requires AllDigits(a) && AllDigits(b)
    requires |t| == |a| + |b| + 3 && t[|t| - 1] == 's' && t[|a| + 1] == ' '
    requires IndexOfChar(t[..|t| - 1], 'm') == |a|
    requires t[..|a|] == a && t[|a| + 2..|t| - 1] == b
    ensures ReadTime(t) == Some(DigitsValue(a) * 60 + DigitsValue(b))
  {
    var body := t[..|t| - 1];
    var m := |a|;
    assert body[..m] == a;
    assert body[m + 2..] == b;
    assert m + 1 < |body| && body[m + 1] == ' ';
    MinuteBranch(t, m);
  }

  /** `ReadTime` on a text whose minute mark is at `m`. */
  lemma MinuteBranch(t: string, m: nat)
    requires |t| >= 2 && t[|t| - 1] == 's'
    requires IndexOfChar(t[..|t| - 1], 'm') == m
    requires m + 1 < |t| - 1 && t[..|t| - 1][m + 1] == ' '
    requires AllDigits(t[..|t| - 1][..m]) && AllDigits(t[..|t| - 1][m + 2..])
    ensures ReadTime(t) == Some(DigitsValue(t[..|t| - 1][..m]) * 60 + DigitsValue(t[..|t| - 1][m + 2..]))
  {
  }

  lemma ReadMinutes(a: string, b: string)
    requires AllDigits(a) && AllDigits(b) && |a| > 0
    ensures ReadTime(a + "m " + b + "s") == Some(DigitsValue(a) * 60 + DigitsValue(b))
  {
    var t := a + "m " + b + "s";
    assert t[..|t| - 1] == a + ("m " + b);
    MinuteMark(a, "m " + b);
    assert t[..|a|] == a;
    assert t[|a| + 2..|t| - 1] == b;
    ReadTimeWithMinutes(t, a, b);
  }

  /** The text always reads back as the elapsed seconds, so distinct times
      never show the same text. */
  lemma FormatTimeReadsBack(seconds: nat)
    ensures ReadTime(FormatTime(seconds)) == Some(seconds)
  {
    if seconds < 60 {
      ReadSeconds(NatToString(seconds));
      NatToStringValue(seconds);
    } else {
      ReadMinutes(NatToString(seconds / 60), NatToString(seconds % 60));
      NatToStringValue(seconds / 60);
      NatToStringValue(seconds % 60);
    }
  }

  lemma FormatTimeInjective(a: nat, b: nat)
    requires FormatTime(a) == FormatTime(b)
    ensures a == b
  {
    FormatTimeReadsBack(a);
    FormatTimeReadsBack(b);
  }
}
