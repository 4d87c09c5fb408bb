/** components/InputForm.tsx: the article form's minimum-length rule and its submit button. */
module InputForm {
  import opened Options
  import opened Text

  const MIN_LENGTH: nat := 50
  const TOO_SHORT: string := "Please enter at least 50 characters of text to analyze."

  /** The submit button: its caption and whether it is disabled. */
  datatype SubmitButton = SubmitButton(caption: string, disabled: bool)

  function SubmitButtonFor(isLoading: bool): (b: SubmitButton)
    ensures b.disabled <==> isLoading
    ensures b.caption == (if isLoading then "Analyzing..." else "Analyze Text")
  {
    if isLoading then SubmitButton("Analyzing...", true) else SubmitButton("Analyze Text", false)
  }

  class ArticleForm {
    var inputValue: string
    var error: string

    constructor ()
      ensures inputValue == [] && error == []
    {
      inputValue := [];
      error := [];
    }

    /** `handleSubmit`: under 50 characters once trimmed, the error is set and nothing is
        submitted; otherwise the error is cleared and the value, untrimmed, is submitted. */
    method HandleSubmit() returns (submitted: Option<string>)
      modifies this
      ensures |Trim(old(inputValue))| < MIN_LENGTH ==> submitted.None? && error == TOO_SHORT
      ensures |Trim(old(inputValue))| >= MIN_LENGTH ==> submitted == Some(old(inputValue)) && error == []
      ensures inputValue == old(inputValue)
    {
      if |Trim(inputValue)| < 50 {
        error := TOO_SHORT;
        return None;
      }
      error := [];
      submitted := Some(inputValue);
    }
  }

  /** Exactly 50 characters that neither start nor end with whitespace are accepted, and 49 are
      not; surrounding whitespace never counts towards the 50. */
  lemma BoundaryOfFifty(s: string, pad1: string, pad2: string)
    requires s == [] || (!IsWhitespace(s[0]) && !IsWhitespace(s[|s| - 1]))
    requires AllWhitespace(pad1) && AllWhitespace(pad2)
    ensures |Trim(pad1 + s + pad2)| == |s|
    ensures |s| == 50 ==> |Trim(pad1 + s + pad2)| >= MIN_LENGTH
    ensures |s| == 49 ==> |Trim(pad1 + s + pad2)| < MIN_LENGTH
  {
    TrimPadded(pad1, s, pad2);
  }
}
