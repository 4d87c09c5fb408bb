/** components/ConversePage.tsx: the live conversation's state machine and its transcript, as a
    `Conversation` object. The microphone, the audio contexts and the live session are outside
    the model: what they report reaches the object as the arguments of its methods. */
module ConversePage {
  import opened Options

  const MIC_DENIED: string :=
    "Microphone permission denied. Please allow microphone access in your browser settings to use this feature."
  const START_FAILED: string := "Failed to start the conversation. Please check your connection and try again."
  const ERROR_PREFIX: string := "An error occurred: "

  /** `conversationState`. */
  datatype ConversationState = Idle | Connecting | Active | Speaking | Stopped | Error

  datatype Speaker = You | Model

  /** `{ speaker, text }`. */
  datatype TranscriptEntry = TranscriptEntry(speaker: Speaker, text: string)

  /** How the microphone request of a start ends: granted, or failed with the error's name. */
  datatype MicResult = Granted | Failed(errorName: string)

  /** `isSessionActive`. */
  predicate IsSessionActive(s: ConversationState)
  {
    s in {Connecting, Active, Speaking}
  }

  /** A start is allowed only from these states. */
  predicate CanStart(s: ConversationState)
  {
    s == Idle || s == Stopped || s == Error
  }

  /** A start is allowed exactly when no session is active. */
  lemma StartGateIsInactive(s: ConversationState)
    ensures CanStart(s) <==> !IsSessionActive(s)
  {
  }

  /** One transcription fragment merged into the transcript: nothing for an empty fragment;
      appended to the last entry when that entry is the same speaker's; a new entry otherwise. */
  function Append(t: seq<TranscriptEntry>, speaker: Speaker, text: string): seq<TranscriptEntry>
  {
    if text == [] then t
    else if |t| > 0 && t[|t| - 1].speaker == speaker then
      t[..|t| - 1] + [TranscriptEntry(speaker, t[|t| - 1].text + text)]
    else t + [TranscriptEntry(speaker, text)]
  }

  /** The transcript updater of `onmessage`: the input fragment as 'You', then the output
      fragment as 'Model'. */
  function Merge(t: seq<TranscriptEntry>, input: string, output: string): seq<TranscriptEntry>
  {
    Append(Append(t, You, input), Model, output)
  }

  /** Overwriting the last entry is dropping it and appending the new one. */
  lemma ReplaceLast(s: seq<TranscriptEntry>, e: TranscriptEntry)
    requires |s| > 0
    ensures s[|s| - 1 := e] == s[..|s| - 1] + [e]
  {
  }

  /** Everything one speaker has said, in order: their entries' texts joined. */
  function SpokenBy(t: seq<TranscriptEntry>, speaker: Speaker): string
  {
    if t == [] then []
    else SpokenBy(t[..|t| - 1], speaker) + (if t[|t| - 1].speaker == speaker then t[|t| - 1].text else [])
  }

  /** No two neighbouring entries share a speaker. */
  predicate Alternates(t: seq<TranscriptEntry>)
  {
    forall i :: 0 <= i < |t| - 1 ==> t[i].speaker != t[i + 1].speaker
  }

  class Conversation {
    var state: ConversationState
    var error: Option<string>
    var transcript: seq<TranscriptEntry>

    constructor ()
      ensures state == Idle && error.None? && transcript == []
    {
      state := Idle;
      error := None;
      transcript := [];
    }

    /** `handleStartConversation`: nothing while a session is active; otherwise connecting with
        no error and an empty transcript, and then, if the microphone fails, the error state
        with the permission message (for `NotAllowedError` and `PermissionDeniedError`) or the
        connection message. */
    method Start(mic: MicResult)
      modifies this
      ensures !CanStart(old(state)) ==>
        state == old(state) && error == old(error) && transcript == old(transcript)
      ensures CanStart(old(state)) ==> transcript == []
      ensures CanStart(old(state)) && mic.Granted? ==> state == Connecting && error.None?
      ensures CanStart(old(state)) && mic.Failed? ==>
        && state == Error
        && error == Some(if mic.errorName in {"NotAllowedError", "PermissionDeniedError"} then MIC_DENIED else START_FAILED)
    {
      if state != Idle && state != Stopped && state != Error {
        return;
      }
      state := Connecting;
      error := None;
      transcript := [];
      match mic {
        case Granted =>
        case Failed(name) =>
          if name == "NotAllowedError" || name == "PermissionDeniedError" {
            error := Some(MIC_DENIED);
          } else {
            error := Some(START_FAILED);
          }
          state := Error;
      }
    }

    /** `onopen`. */
    method OnOpen()
      modifies this
      ensures state == Active && error == old(error) && transcript == old(transcript)
    {
      state := Active;
    }

    /** `onmessage`, for a message with the given input and output transcriptions (empty when
        absent) and turn-complete flag: the fragments merged into the transcript; 'speaking'
        when there is output, then 'active' when the turn is complete. */
    method OnMessage(input: string, output: string, turnComplete: bool)
      modifies this
      ensures transcript == Merge(old(transcript), input, output)
      ensures state == (if turnComplete then Active else if output != [] then Speaking else old(state))
      ensures error == old(error)
    {
      var mid := transcript;
      if input != [] {
        if |mid| > 0 && mid[|mid| - 1].speaker == You {
          ReplaceLast(mid, TranscriptEntry(You, mid[|mid| - 1].text + input));
          mid := mid[|mid| - 1 := TranscriptEntry(You, mid[|mid| - 1].text + input)];
        } else {
          mid := mid + [TranscriptEntry(You, input)];
        }
      }
      assert mid == Append(old(transcript), You, input);
      var next := mid;
      if output != [] {
        state := Speaking;
        if |next| > 0 && next[|next| - 1].speaker == Model {
          ReplaceLast(next, TranscriptEntry(Model, next[|next| - 1].text + output));
          next := next[|next| - 1 := TranscriptEntry(Model, next[|next| - 1].text + output)];
        } else {
          next := next + [TranscriptEntry(Model, output)];
        }
      }
      assert next == Append(mid, Model, output);
      transcript := next;
      if turnComplete {
        state := Active;
      }
    }

    /** `onerror`: the error state with the event's message. */
    method OnError(message: string)
      modifies this
      ensures state == Error && error == Some(ERROR_PREFIX + message) && transcript == old(transcript)
    {
      error := Some(ERROR_PREFIX + message);
      state := Error;
    }

    /** `onclose`, which a stop also leads to. */
    method OnClose()
      modifies this
      ensures state == Stopped && error == old(error) && transcript == old(transcript)
    {
      state := Stopped;
    }
  }

  // ----- Properties of the merge -----

  /** An empty fragment changes nothing; otherwise the transcript either keeps its length (the
      last entry extended) or grows by one, and every entry but the last is kept. */
  lemma AppendShape(t: seq<TranscriptEntry>, speaker: Speaker, text: string)
    ensures text == [] ==> Append(t, speaker, text) == t
    ensures |t| <= |Append(t, speaker, text)| <= |t| + 1
    ensures |t| > 0 ==> Append(t, speaker, text)[..|t| - 1] == t[..|t| - 1]
    ensures text != [] ==> Append(t, speaker, text)[|Append(t, speaker, text)| - 1].speaker == speaker
  {
  }

  /** The merge never removes entries, adds at most two, and keeps every entry before the old
      last one. */
  lemma MergeShape(t: seq<TranscriptEntry>, input: string, output: string)
    ensures |t| <= |Merge(t, input, output)| <= |t| + 2
    ensures |t| > 0 ==> Merge(t, input, output)[..|t| - 1] == t[..|t| - 1]
  {
    var u := Append(t, You, input);
    AppendShape(t, You, input);
    AppendShape(u, Model, output);
    if |t| > 0 {
      assert Merge(t, input, output)[..|t| - 1] == Append(u, Model, output)[..|u| - 1][..|t| - 1];
    }
  }

  /** Nothing said is lost or reordered: the fragment ends up at the end of what its speaker
      has said, and what the other speaker has said is unchanged. */
  lemma AppendSpoken(t: seq<TranscriptEntry>, speaker: Speaker, text: string, other: Speaker)
    requires other != speaker
    ensures SpokenBy(Append(t, speaker, text), speaker) == SpokenBy(t, speaker) + text
    ensures SpokenBy(Append(t, speaker, text), other) == SpokenBy(t, other)
  {
    var r := Append(t, speaker, text);
    if text == [] {
    } else if |t| > 0 && t[|t| - 1].speaker == speaker {
      var init := t[..|t| - 1];
      assert r[..|r| - 1] == init;
      assert t[..|t| - 1] == init;
    } else {
      assert r[..|r| - 1] == t;
    }
  }

  /** After a message, 'You' has said exactly what they had said followed by the input, and
      the model exactly what it had said followed by the output. */
  lemma MergeSpoken(t: seq<TranscriptEntry>, input: string, output: string)
    ensures SpokenBy(Merge(t, input, output), You) == SpokenBy(t, You) + input
    ensures SpokenBy(Merge(t, input, output), Model) == SpokenBy(t, Model) + output
  {
    AppendSpoken(t, You, input, Model);
    AppendSpoken(Append(t, You, input), Model, output, You);
  }

  /** Merging one fragment keeps an alternating transcript alternating. */
  lemma AppendAlternates(t: seq<TranscriptEntry>, speaker: Speaker, text: string)
    requires Alternates(t)
    ensures Alternates(Append(t, speaker, text))
  {
    var r := Append(t, speaker, text);
    if text != [] && |t| > 0 && t[|t| - 1].speaker == speaker {
      forall i | 0 <= i < |r| - 1
        ensures r[i].speaker != r[i + 1].speaker
      {
        assert r[i] == t[i];
        assert r[i + 1].speaker == t[i + 1].speaker;
      }
    } else if text != [] {
      forall i | 0 <= i < |r| - 1
        ensures r[i].speaker != r[i + 1].speaker
      {
        if i + 1 < |t| {
          assert r[i] == t[i] && r[i + 1] == t[i + 1];
        }
      }
    }
  }

  /** The merge keeps speakers alternating, so the transcript never shows two entries in a row
      from the same speaker. */
  lemma MergeAlternates(t: seq<TranscriptEntry>, input: string, output: string)
    requires Alternates(t)
    ensures Alternates(Merge(t, input, output))
  {
    AppendAlternates(t, You, input);
    AppendAlternates(Append(t, You, input), Model, output);
  }

  /** A message keeps the conversation's transcript alternating (it starts empty, so it
      always alternates). */
  method ConversationAlternates(c: Conversation, input: string, output: string, turnComplete: bool)
    requires Alternates(c.transcript)
    modifies c
    ensures Alternates(c.transcript)
  {
    c.OnMessage(input, output, turnComplete);
    MergeAlternates(old(c.transcript), input, output);
  }
}
