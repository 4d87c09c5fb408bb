/** components/AnalyzerPage.tsx: the credit gate in front of an analysis, the sequence that
    follows a resolved or a rejected analysis, and the input-type switch, over the page's state
    as an `AnalyzerView` object. The analysis service is external: its outcome is a parameter.
    `now` is the instant at which the history entry is saved. */
module AnalyzerPage {
  import opened Options
  import opened Text
  import opened Ledger
  import opened Accounts
  import opened Analysis
  import opened LocalStorage
  import opened CreditService
  import HistoryService

  /** The two messages of `checkCredits`, written around the word the error display looks for. */
  const DAILY_CREDITS_USED: string := "You've used all your daily " + "credits" + ". Your credits will reset tomorrow."
  const FREE_CREDITS_USED: string := "You've used all your free " + "credits" + ". Please subscribe to continue analyzing."
  const UNEXPECTED_ERROR: string := "An unexpected error occurred."
  const SNIPPET_LENGTH: nat := 150

  /** What the analysis call yields: a result, or a rejection with its error's message. */
  datatype Outcome = Resolved(result: AnalysisResult) | Rejected(message: string)

  /** `analysisInput`: nothing yet, the text submitted, or the image file (by its name). */
  datatype AnalysisInput = NoInput | TextInput(text: string) | ImageInput(fileName: string)

  /** The button under an error: 'View Plans' or 'Try Again'. */
  datatype ErrorAction = ViewPlans | TryAgain

  /** `checkCredits`' message: it depends on whether the user is a subscriber. */
  function CreditsMessage(isSubscribed: bool): string
  {
    if isSubscribed then DAILY_CREDITS_USED else FREE_CREDITS_USED
  }

  /** The error text of a rejection: its message, or the generic one when the message is empty. */
  function RejectionMessage(message: string): string
  {
    if message == [] then UNEXPECTED_ERROR else message
  }

  /** An error that mentions credits offers 'View Plans'; any other offers a reset. */
  function ActionFor(error: string): ErrorAction
  {
    if Contains(error, "credits") then ViewPlans else TryAgain
  }

  /** The text stored in the history: the first 150 characters, with '...' exactly when the text
      is longer than that. */
  function Snippet(text: string): (r: string)
    ensures |text| <= SNIPPET_LENGTH ==> r == text
    ensures |text| > SNIPPET_LENGTH ==> r == text[..SNIPPET_LENGTH] + "..."
    ensures |r| <= SNIPPET_LENGTH + 3
  {
    (if |text| <= SNIPPET_LENGTH then text else text[..SNIPPET_LENGTH])
      + (if |text| > SNIPPET_LENGTH then "..." else "")
  }

  /** The history entry of a resolved analysis: the text's snippet, or the image's file name. */
  function HistoryEntry(input: AnalysisInput, result: AnalysisResult): HistoryPayload
    requires !input.NoInput?
  {
    match input
    case TextInput(text) => HistoryPayload(Article, Snippet(text), result)
    case ImageInput(fileName) => HistoryPayload(Image, fileName, result)
  }

  /** The storage after a resolved analysis: the credit record with one credit fewer, then the
      history entry (both only for a signed-in user). */
  function AfterAnalysis(entries: map<string, Stored>, user: Option<User>, data: CreditData,
                         input: AnalysisInput, result: AnalysisResult, now: int): map<string, Stored>
    requires !input.NoInput?
  {
    if user.None? then entries
    else HistoryService.Saved(SaveCredits(entries, user.value.email, Consumed(data)), HistoryEntry(input, result), now)
  }

  // ----- Properties of the pure parts -----

  /** Both credit messages mention credits, so a failed gate always offers 'View Plans'. */
  lemma CreditsMessageOffersPlans(isSubscribed: bool)
    ensures Contains(CreditsMessage(isSubscribed), "credits")
    ensures ActionFor(CreditsMessage(isSubscribed)) == ViewPlans
  {
    if isSubscribed {
      OccursInMiddle("You've used all your daily ", "credits", ". Your credits will reset tomorrow.");
    } else {
      OccursInMiddle("You've used all your free ", "credits", ". Please subscribe to continue analyzing.");
    }
  }

  /** The error shown for a rejection is never empty, and is its message when it has one. */
  lemma RejectionMessageNonEmpty(message: string)
    ensures RejectionMessage(message) != []
    ensures message != [] ==> RejectionMessage(message) == message
  {
  }

  class AnalyzerView {
    var inputType: InputType
    var isLoading: bool
    var result: Option<AnalysisResult>
    var analysisInput: AnalysisInput
    var error: Option<string>
    const ledger: CreditHook

    constructor (ledger: CreditHook)
      ensures inputType == Article && !isLoading && result.None? && analysisInput == NoInput && error.None?
      ensures this.ledger == ledger
    {
      inputType := Article;
      isLoading := false;
      result := None;
      analysisInput := NoInput;
      error := None;
      this.ledger := ledger;
    }

    /** `checkCredits`: passes exactly when the hook has credits; otherwise sets the credits
        message matching the user's kind and changes nothing else. */
    method CheckCredits() returns (ok: bool)
      modifies this
      ensures ok <==> ledger.HasCredits()
      ensures ok ==> error == old(error)
      ensures !ok ==> error == Some(CreditsMessage(ledger.isSubscribed))
      ensures inputType == old(inputType) && isLoading == old(isLoading) && result == old(result)
      ensures analysisInput == old(analysisInput)
    {
      if !ledger.HasCredits() {
        var message := if ledger.isSubscribed then DAILY_CREDITS_USED else FREE_CREDITS_USED;
        error := Some(message);
        return false;
      }
      return true;
    }

    /** The body shared by both handlers: the gate, then either the result shown, one credit
        spent and the history entry saved, or the rejection's error with nothing spent. */
    method Analyze(st: Store, user: Option<User>, input: AnalysisInput, outcome: Outcome, now: int)
      requires !input.NoInput?
      modifies this, ledger, st
      ensures inputType == old(inputType)
      ensures !old(ledger.HasCredits()) ==>
        && error == Some(CreditsMessage(ledger.isSubscribed))
        && isLoading == old(isLoading) && result == old(result) && analysisInput == old(analysisInput)
        && ledger.data == old(ledger.data) && st.entries == old(st.entries)
      ensures old(ledger.HasCredits()) ==> !isLoading && analysisInput == input
      ensures old(ledger.HasCredits()) && outcome.Resolved? ==>
        && result == Some(outcome.result) && error.None?
        && (user.Some? ==> ledger.data == Consumed(old(ledger.data)))
        && (user.None? ==> ledger.data == old(ledger.data))
        && st.entries == AfterAnalysis(old(st.entries), user, old(ledger.data), input, outcome.result, now)
      ensures old(ledger.HasCredits()) && outcome.Rejected? ==>
        && result.None? && error == Some(RejectionMessage(outcome.message))
        && ledger.data == old(ledger.data) && st.entries == old(st.entries)
      ensures ledger.isSubscribed == old(ledger.isSubscribed)
    {
      var ok := CheckCredits();
      if !ok {
        return;
      }
      isLoading := true;
      result := None;
      error := None;
      analysisInput := input;
      match outcome {
        case Resolved(analysisResult) =>
          result := Some(analysisResult);
          ledger.ConsumeCredit(st, user);
          if user.Some? {
            HistoryService.SaveAnalysis(st, HistoryEntry(input, analysisResult), now);
          }
        case Rejected(message) =>
          error := Some(if message == [] then UNEXPECTED_ERROR else message);
      }
      isLoading := false;
    }

    /** `handleTextAnalysis`. */
    method HandleTextAnalysis(st: Store, user: Option<User>, text: string, outcome: Outcome, now: int)
      modifies this, ledger, st
      ensures inputType == old(inputType) && ledger.isSubscribed == old(ledger.isSubscribed)
      ensures !old(ledger.HasCredits()) ==>
        && error == Some(CreditsMessage(ledger.isSubscribed)) && isLoading == old(isLoading) && result == old(result)
        && analysisInput == old(analysisInput) && ledger.data == old(ledger.data) && st.entries == old(st.entries)
      ensures old(ledger.HasCredits()) ==> !isLoading && analysisInput == TextInput(text)
      ensures old(ledger.HasCredits()) && outcome.Resolved? ==>
        && result == Some(outcome.result) && error.None?
        && (user.Some? ==> ledger.data == Consumed(old(ledger.data)))
        && (user.None? ==> ledger.data == old(ledger.data))
        && st.entries == AfterAnalysis(old(st.entries), user, old(ledger.data), TextInput(text), outcome.result, now)
      ensures old(ledger.HasCredits()) && outcome.Rejected? ==>
        && result.None? && error == Some(RejectionMessage(outcome.message))
        && ledger.data == old(ledger.data) && st.entries == old(st.entries)
    {
      Analyze(st, user, TextInput(text), outcome, now);
    }

    /** `handleImageAnalysis` (the prompt goes to the external service only). */
    method HandleImageAnalysis(st: Store, user: Option<User>, fileName: string, outcome: Outcome, now: int)
      modifies this, ledger, st
      ensures inputType == old(inputType) && ledger.isSubscribed == old(ledger.isSubscribed)
      ensures !old(ledger.HasCredits()) ==>
        && error == Some(CreditsMessage(ledger.isSubscribed)) && isLoading == old(isLoading) && result == old(result)
        && analysisInput == old(analysisInput) && ledger.data == old(ledger.data) && st.entries == old(st.entries)
      ensures old(ledger.HasCredits()) ==> !isLoading && analysisInput == ImageInput(fileName)
      ensures old(ledger.HasCredits()) && outcome.Resolved? ==>
        && result == Some(outcome.result) && error.None?
        && (user.Some? ==> ledger.data == Consumed(old(ledger.data)))
        && (user.None? ==> ledger.data == old(ledger.data))
        && st.entries == AfterAnalysis(old(st.entries), user, old(ledger.data), ImageInput(fileName), outcome.result, now)
      ensures old(ledger.HasCredits()) && outcome.Rejected? ==>
        && result.None? && error == Some(RejectionMessage(outcome.message))
        && ledger.data == old(ledger.data) && st.entries == old(st.entries)
    {
      Analyze(st, user, ImageInput(fileName), outcome, now);
    }

    /** `handleReset`. */
    method HandleReset()
      modifies this
      ensures result.None? && error.None? && analysisInput == NoInput
      ensures inputType == old(inputType) && isLoading == old(isLoading)
    {
      result := None;
      error := None;
      analysisInput := NoInput;
    }

    /** `switchInputType`: ignored while loading; otherwise a reset and the new type. */
    method SwitchInputType(t: InputType)
      modifies this
      ensures old(isLoading) ==>
        inputType == old(inputType) && result == old(result) && error == old(error) && analysisInput == old(analysisInput)
      ensures !old(isLoading) ==> inputType == t && result.None? && error.None? && analysisInput == NoInput
      ensures isLoading == old(isLoading)
    {
      if isLoading {
        return;
      }
      HandleReset();
      inputType := t;
    }
  }

  /** A resolved analysis by a signed-in user leaves exactly one credit spent in storage and puts
      its entry at the head of the user's history (the session being that user's). */
  lemma ResolvedAnalysisEffects(entries: map<string, Stored>, user: User, data: CreditData,
                                input: AnalysisInput, result: AnalysisResult, now: int)
    requires !input.NoInput?
    requires SessionUser(entries) == Some(user)
    ensures var after := AfterAnalysis(entries, Some(user), data, input, result, now);
      && LoadCredits(after, user.email) == Consumed(data)
      && HistoryService.GetHistory(after) == [HistoryService.NewItem(HistoryEntry(input, result), now)] + HistoryService.GetHistory(entries)
  {
    var saved := SaveCredits(entries, user.email, data.(credits := Consumed(data).credits));
    KeysSeparate(user.email, user.email);
    assert SessionUser(saved) == SessionUser(entries);
    assert HistoryService.GetHistory(saved) == HistoryService.GetHistory(entries);
    HistoryService.SaveThenGet(saved, HistoryEntry(input, result), now);
  }
}
