/** The shared passcode screen layout (MVVM/Views/PasscodeTemplateView.swift). */
module PasscodeTemplateView {
  import opened GlobalConstants
  import opened Interpolation
  import ViewModel = PinBoardViewModel

  /** The `onChange(of: passcode)` guard: `onComplete` fires for this new value. */
  predicate FiresOnComplete(newValue: string)
  {
    |newValue| == PasscodeLength
  }

  /**
   * A pad digit added to a short buffer completes it exactly when it is
   * the fourth; a shorter buffer never fires.
   */
  lemma CompletesOnFourthDigit(passcode: string, d: int)
    requires |passcode| < PasscodeLength && 0 <= d <= 9
    ensures FiresOnComplete(ViewModel.AfterAdd(passcode, d)) <==> |passcode| == PasscodeLength - 1
    ensures FiresOnComplete(passcode) == false
  {
    DigitDescription(d);
  }

  /** Removing a digit from a pad buffer never completes it. */
  lemma RemovalNeverCompletes(passcode: string)
    requires |passcode| <= PasscodeLength
    ensures !FiresOnComplete(ViewModel.AfterRemove(passcode))
  {
  }

  /** The large title, "<title> Passcode". */
  function Title(title: string): (r: string)
    ensures |r| == |title| + 9 && r[..|title|] == title && r[|title|..] == " Passcode"
  {
    title + " Passcode"
  }

  const SubtitlePrefix: string := "Please enter "
  const SubtitleInfix: string := "-digit PIN "

  /** The subtitle, "Please enter <n>-digit PIN <titleText>". */
  function Subtitle(passcodeLength: int, titleText: string): (r: string)
    ensures |r| == |SubtitlePrefix| + |Description(passcodeLength)| + |SubtitleInfix| + |titleText|
  {
    SubtitlePrefix + Description(passcodeLength) + SubtitleInfix + titleText
  }

  /** With the app's length the subtitle asks for a 4-digit PIN. */
  lemma SubtitleForPasscodeLength(titleText: string)
    ensures Subtitle(PasscodeLength, titleText) == "Please enter 4-digit PIN " + titleText
  {
    DigitDescription(PasscodeLength);
  }

  /** Titles and subtitles tell their arguments apart. */
  lemma LabelsDetermineArguments(a: string, b: string, m: int, n: int)
    ensures Title(a) == Title(b) ==> a == b
    ensures Subtitle(m, a) == Subtitle(n, a) ==> m == n
  {
    if Title(a) == Title(b) {
      assert |a| == |b|;
      assert a == Title(a)[..|a|];
    }
    if Subtitle(m, a) == Subtitle(n, a) {
      var s := Subtitle(m, a);
      var k := |SubtitlePrefix|;
      assert |Description(m)| == |Description(n)|;
      assert s[k..k + |Description(m)|] == Description(m);
      assert Subtitle(n, a)[k..k + |Description(n)|] == Description(n);
      if m != n {
        DescriptionInjective(m, n);
      }
    }
  }
}
