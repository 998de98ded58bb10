/** The row of passcode dots (MVVM/Views/Components/PasscodeIndicatorView.swift). */
module PasscodeIndicatorView {
  import opened GlobalConstants

  datatype Fill = Primary | Clear
  datatype ColorScheme = Light | Dark
  datatype StrokeColor = Red | White | Black

  /** One dot: the opacity of its red fill, its background fill and its outline. */
  datatype Dot = Dot(redOpacity: real, background: Fill, stroke: StrokeColor)

  /** Red on a wrong entry, otherwise white on dark and black on light. */
  function StrokeColorOf(isWrongPassword: bool, scheme: ColorScheme): (c: StrokeColor)
    ensures c.Red? <==> isWrongPassword
    ensures !isWrongPassword ==> (c.White? <==> scheme.Dark?)
  {
    if isWrongPassword then Red else if scheme.Dark? then White else Black
  }

  /** The dots for a buffer of `count` characters. */
  function Dots(count: nat, isWrongPassword: bool, scheme: ColorScheme): (r: seq<Dot>)
    ensures |r| == PasscodeLength
    ensures forall i :: 0 <= i < |r| ==> (r[i].background.Primary? <==> !isWrongPassword && count > i)
    ensures forall i :: 0 <= i < |r| ==> r[i].redOpacity == if isWrongPassword then 1.0 else 0.0
    ensures forall i :: 0 <= i < |r| ==> r[i].stroke == StrokeColorOf(isWrongPassword, scheme)
  {
    seq(PasscodeLength, index requires 0 <= index < PasscodeLength =>
      Dot(if isWrongPassword then 1.0 else 0.0,
          if !isWrongPassword && count > index then Primary else Clear,
          StrokeColorOf(isWrongPassword, scheme)))
  }

  function FilledCount(dots: seq<Dot>): (n: nat)
    ensures n <= |dots|
  {
    if |dots| == 0 then 0 else (if dots[0].background.Primary? then 1 else 0) + FilledCount(dots[1..])
  }

  /** Dots filled exactly below position `c` number min(c, |dots|) (0 for negative `c`). */
  lemma {:induction false} FilledBelow(dots: seq<Dot>, c: int)
    requires forall i :: 0 <= i < |dots| ==> (dots[i].background.Primary? <==> i < c)
    ensures FilledCount(dots) == if c <= 0 then 0 else if c < |dots| then c else |dots|
  {
    if |dots| > 0 {
      FilledBelow(dots[1..], c - 1);
    }
  }

  /** The filled dots count the entered digits, up to four, and none on a wrong entry. */
  lemma FilledCountIsEntered(count: nat, isWrongPassword: bool, scheme: ColorScheme)
    ensures FilledCount(Dots(count, isWrongPassword, scheme)) ==
            if isWrongPassword then 0 else if count < PasscodeLength then count else PasscodeLength
  {
    FilledBelow(Dots(count, isWrongPassword, scheme), if isWrongPassword then 0 else count);
  }
}
