/** The text of the "Quick samples" buttons of the speaking tab (eng.py:325-326). */
module QuickSamples {

  /** A button's text: a sample shorter than 35 characters is shown whole,
      a longer one as its first 32 characters and an ellipsis. */
  function Label(s: string): (text: string)
    ensures |text| <= 35
    ensures |s| < 35 ==> text == s
    ensures |s| >= 35 ==> |text| == 35 && text[..32] == s[..32] && text[32..] == "..."
  {
    if |s| < 35 then s else s[..32] + "..."
  }
}
