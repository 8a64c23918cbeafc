/** The interview session's view model. Each coroutine it launches is cut at
    its suspension point: the part before runs inside the method that
    launches it, and the part after is a separate completion method that
    receives what the use case returned. A coroutine still suspended is
    recorded in a field, so a completion can only resume one that exists. */
module Session {
  import opened Text

  datatype SpeakerType = Machine | Human | AI | Unknown

  datatype Conversation = Conversation(
    id: string,
    question: string,
    answer: string,
    correction: Option<string>,
    speakerType: SpeakerType,
    timestamp: int)

  datatype InterviewSessionUiState = InterviewSessionUiState(
    companyName: string,
    conversations: seq<Conversation>,
    currentQuestion: string,
    isSessionActive: bool,
    isProcessingAI: bool,
    isIdentifyingVoice: bool,
    identifiedVoiceName: Option<string>,
    errorMessage: Option<string>)

  const InitialState: InterviewSessionUiState :=
    InterviewSessionUiState("", [], "", false, false, false, None, None)

  /** A Kotlin `Result`: the value, or a failure whose throwable may or may
      not carry a message. */
  datatype CallResult<+T> = Succeeded(value: T) | Failed(message: Option<string>)

  /** What the AI request ends in: its `Result`, or an exception thrown out of
      the use case. */
  datatype AiOutcome = Reply(result: CallResult<string>) | Threw(message: Option<string>)

  /** Kotlin's `message ?: default`. */
  function MessageOr(message: Option<string>, default: string): string {
    if message.Some? then message.value else default
  }

  /** The voice types `identifyVoice` picks from. */
  const VoiceTypes: seq<string> := ["Human", "Machine", "AI"]

  /** How far the coroutine of `identifyVoice` has come. */
  datatype Identification = NotIdentifying | Identifying | Showing(identifiedType: string)

  // ---------------------------------------------------------------------
  // Corrections.

  /** `addCorrection`'s `map`: every conversation with the id gets the
      correction; the list keeps its length and order, and every other
      conversation is as it was. */
  function WithCorrection(cs: seq<Conversation>, conversationId: string, correction: string): (r: seq<Conversation>)
    ensures |r| == |cs|
    ensures forall i :: 0 <= i < |cs| && cs[i].id == conversationId ==> r[i] == cs[i].(correction := Some(correction))
    ensures forall i :: 0 <= i < |cs| && cs[i].id != conversationId ==> r[i] == cs[i]
    decreases |cs|
  {
    if |cs| == 0 then []
    else
      var c := cs[0];
      [if c.id == conversationId then c.(correction := Some(correction)) else c] +
      WithCorrection(cs[1..], conversationId, correction)
  }

  /** Correcting twice with the same text is correcting once. */
  lemma WithCorrectionIdempotent(cs: seq<Conversation>, conversationId: string, correction: string)
    ensures WithCorrection(WithCorrection(cs, conversationId, correction), conversationId, correction)
         == WithCorrection(cs, conversationId, correction)
  {
  }

  /** An id no conversation has changes nothing. */
  lemma WithCorrectionOfAbsentId(cs: seq<Conversation>, conversationId: string, correction: string)
    requires forall i :: 0 <= i < |cs| ==> cs[i].id != conversationId
    ensures WithCorrection(cs, conversationId, correction) == cs
  {
  }

  /** A later correction of the same conversation replaces an earlier one. */
  lemma WithCorrectionOverrides(cs: seq<Conversation>, conversationId: string, first: string, second: string)
    ensures WithCorrection(WithCorrection(cs, conversationId, first), conversationId, second)
         == WithCorrection(cs, conversationId, second)
  {
  }

  // ---------------------------------------------------------------------
  // The transcript.

  /** `appendLine` for each line, in order: the line and a line feed. */
  function Lines(ls: seq<string>): string
    decreases |ls|
  {
    if |ls| == 0 then "" else ls[0] + "\n" + Lines(ls[1..])
  }

  function SpeakerIcon(t: SpeakerType): string {
    match t
    case Human => "\U{1F3A4}"
    case AI => "\U{1F50A}"
    case Machine => "\U{1F4BB}"
    case Unknown => "\U{2753}"
  }

  const RuleWidth: nat := 50

  /** The title, a rule of 50 '=' and a blank line. */
  function HeaderLines(companyName: string): seq<string> {
    ["Interview Transcript - " + companyName, Repeat('=', RuleWidth), ""]
  }

  /** A conversation's lines: question with its speaker's icon, answer, the
      correction if there is one, and a blank line. */
  function EntryLines(c: Conversation): seq<string> {
    [SpeakerIcon(c.speakerType) + " Question: " + c.question, "Answer: " + c.answer] +
    (if c.correction.Some? then ["Correction: " + c.correction.value] else []) +
    [""]
  }

  function EntriesLines(cs: seq<Conversation>): seq<string>
    decreases |cs|
  {
    if |cs| == 0 then [] else EntriesLines(cs[..|cs| - 1]) + EntryLines(cs[|cs| - 1])
  }

  /** The transcript line by line. */
  function TranscriptLines(companyName: string, cs: seq<Conversation>): seq<string> {
    HeaderLines(companyName) + EntriesLines(cs)
  }

  /** The text `exportTranscript` builds. */
  function Transcript(companyName: string, cs: seq<Conversation>): string {
    Lines(TranscriptLines(companyName, cs))
  }

  lemma {:induction false} LinesAppend(a: seq<string>, b: seq<string>)
    ensures Lines(a + b) == Lines(a) + Lines(b)
    decreases |a|
  {
    if |a| == 0 {
      assert a + b == b;
    } else {
      LinesAppend(a[1..], b);
      assert (a + b)[0] == a[0];
      assert (a + b)[1..] == a[1..] + b;
    }
  }

  /** `appendLine` on the builder: the text grows by the line and a line
      feed, and the lines written so far by the line. */
  method AppendLine(s: string, ghost written: seq<string>, line: string) returns (r: string, ghost lines: seq<string>)
    requires s == Lines(written)
    ensures r == Lines(lines) && lines == written + [line]
  {
    r := s + line + "\n";
    lines := written + [line];
    LinesAppend(written, [line]);
  }

  /** The lines of one conversation, appended one `appendLine` at a time. */
  method AppendEntry(s: string, ghost written: seq<string>, conversation: Conversation)
    returns (r: string, ghost lines: seq<string>)
    requires s == Lines(written)
    ensures r == Lines(lines) && lines == written + EntryLines(conversation)
  {
    var speakerIcon := SpeakerIcon(conversation.speakerType);
    r, lines := AppendLine(s, written, speakerIcon + " Question: " + conversation.question);
    r, lines := AppendLine(r, lines, "Answer: " + conversation.answer);
    if conversation.correction.Some? {
      r, lines := AppendLine(r, lines, "Correction: " + conversation.correction.value);
    }
    r, lines := AppendLine(r, lines, "");
  }

  /** The `buildString` block of `exportTranscript`: the header, then each
      conversation in order. */
  method BuildTranscript(companyName: string, conversations: seq<Conversation>) returns (s: string)
    ensures s == Transcript(companyName, conversations)
  {
    ghost var written: seq<string> := [];
    s := "";
    s, written := AppendLine(s, written, "Interview Transcript - " + companyName);
    s, written := AppendLine(s, written, Repeat('=', RuleWidth));
    s, written := AppendLine(s, written, "");
    assert written == HeaderLines(companyName) + EntriesLines(conversations[..0]);
    var i := 0;
    while i < |conversations|
      invariant 0 <= i <= |conversations|
      invariant s == Lines(written)
      invariant written == HeaderLines(companyName) + EntriesLines(conversations[..i])
    {
      s, written := AppendEntry(s, written, conversations[i]);
      EntriesStep(conversations, i);
      i := i + 1;
    }
    assert conversations[..i] == conversations;
  }

  lemma EntriesStep(cs: seq<Conversation>, i: nat)
    requires i < |cs|
    ensures EntriesLines(cs[..i + 1]) == EntriesLines(cs[..i]) + EntryLines(cs[i])
  {
    assert cs[..i + 1][..i] == cs[..i];
  }

  /** The number of lines: three of header, three per conversation, and one
      more per correction. */
  function CorrectionCount(cs: seq<Conversation>): nat
    decreases |cs|
  {
    if |cs| == 0 then 0
    else CorrectionCount(cs[..|cs| - 1]) + (if cs[|cs| - 1].correction.Some? then 1 else 0)
  }

  lemma {:induction false} TranscriptLineCount(companyName: string, cs: seq<Conversation>)
    ensures |TranscriptLines(companyName, cs)| == 3 + 3 * |cs| + CorrectionCount(cs)
    decreases |cs|
  {
    if |cs| > 0 {
      TranscriptLineCount(companyName, cs[..|cs| - 1]);
    }
  }

  /** No line of the transcript is broken when none of the texts it quotes
      holds a line feed. */
  predicate SingleLine(s: string) {
    '\n' !in s
  }

  predicate ConversationSingleLine(c: Conversation) {
    SingleLine(c.question) && SingleLine(c.answer) && (c.correction.Some? ==> SingleLine(c.correction.value))
  }

  predicate QuotesSingleLines(companyName: string, cs: seq<Conversation>) {
    SingleLine(companyName) && forall i :: 0 <= i < |cs| ==> ConversationSingleLine(cs[i])
  }

  predicate AllSingleLines(ls: seq<string>) {
    forall j :: 0 <= j < |ls| ==> SingleLine(ls[j])
  }

  lemma AllSingleLinesAppend(a: seq<string>, b: seq<string>)
    requires AllSingleLines(a) && AllSingleLines(b)
    ensures AllSingleLines(a + b)
  {
    forall j | 0 <= j < |a + b| ensures SingleLine((a + b)[j]) {
      if j >= |a| { assert (a + b)[j] == b[j - |a|]; }
    }
  }

  lemma HeaderLinesSingle(companyName: string)
    requires SingleLine(companyName)
    ensures AllSingleLines(HeaderLines(companyName))
  {
    assert '\n' !in "Interview Transcript - ";
    assert '\n' !in Repeat('=', RuleWidth);
  }

  lemma EntryLinesSingle(c: Conversation)
    requires ConversationSingleLine(c)
    ensures AllSingleLines(EntryLines(c))
  {
    assert '\n' !in SpeakerIcon(c.speakerType) + " Question: ";
    assert '\n' !in "Answer: ";
    assert '\n' !in "Correction: ";
  }

  lemma {:induction false} EntriesLinesSingle(cs: seq<Conversation>)
    requires forall i :: 0 <= i < |cs| ==> ConversationSingleLine(cs[i])
    ensures AllSingleLines(EntriesLines(cs))
    decreases |cs|
  {
    if |cs| > 0 {
      var front := cs[..|cs| - 1];
      assert forall i :: 0 <= i < |front| ==> front[i] == cs[i];
      EntriesLinesSingle(front);
      EntryLinesSingle(cs[|cs| - 1]);
      AllSingleLinesAppend(EntriesLines(front), EntryLines(cs[|cs| - 1]));
    }
  }

  lemma {:induction false} LinesAsJoin(ls: seq<string>)
    ensures Lines(ls) == Join(ls + [""], '\n')
    decreases |ls|
  {
    if |ls| > 0 {
      LinesAsJoin(ls[1..]);
      assert (ls + [""])[1..] == ls[1..] + [""];
    }
  }

  /** The transcript splits at its line feeds into exactly its lines and an
      empty tail, so the lines can be read back from the text. */
  lemma TranscriptSplitsIntoLines(companyName: string, cs: seq<Conversation>)
    requires QuotesSingleLines(companyName, cs)
    ensures Split(Transcript(companyName, cs), '\n') == TranscriptLines(companyName, cs) + [""]
  {
    var ls := TranscriptLines(companyName, cs);
    HeaderLinesSingle(companyName);
    EntriesLinesSingle(cs);
    AllSingleLinesAppend(HeaderLines(companyName), EntriesLines(cs));
    var parts := ls + [""];
    AllSingleLinesAppend(ls, [""]);
    assert AllSingleLines(parts);
    LinesAsJoin(ls);
    SplitJoin(parts, '\n');
  }

  // ---------------------------------------------------------------------
  // The view model.

  /** A waiting coroutine taken out of its list: the others keep their order. */
  function RemoveAt(xs: seq<string>, index: nat): (r: seq<string>)
    requires index < |xs|
    ensures |r| == |xs| - 1
    ensures forall i :: 0 <= i < |r| ==> r[i] == (if i < index then xs[i] else xs[i + 1])
  {
    xs[..index] + xs[index + 1..]
  }

  class InterviewSessionViewModel {
    var uiState: InterviewSessionUiState
    var currentSessionId: Option<int>
    var isProcessingVoiceIdentification: bool
    /** Company names of `startSession` coroutines waiting for the use case. */
    var pendingStarts: seq<string>
    /** Questions of AI requests waiting for a reply. */
    var pendingQuestions: seq<string>
    var identification: Identification

    /** The guard flag tracks the identification coroutine; the question on
        hand, every question sent and every stored question is either empty
        or not blank, and every stored conversation is an AI answer whose
        correction, if any, is not blank; a shown voice name is one of the
        three types. */
    ghost predicate Valid()
      reads this
    {
      && (isProcessingVoiceIdentification <==> !identification.NotIdentifying?)
      && (identification.Showing? ==> identification.identifiedType in VoiceTypes)
      && (uiState.identifiedVoiceName.Some? ==> uiState.identifiedVoiceName.value in VoiceTypes)
      && (uiState.currentQuestion == "" || !IsBlank(uiState.currentQuestion))
      && (uiState.isProcessingAI ==> |pendingQuestions| > 0)
      && (forall i :: 0 <= i < |pendingQuestions| ==> !IsBlank(pendingQuestions[i]))
      && (forall i :: 0 <= i < |pendingStarts| ==> !IsBlank(pendingStarts[i]))
      && (forall i :: 0 <= i < |uiState.conversations| ==> ValidConversation(uiState.conversations[i]))
    }

    static predicate ValidConversation(c: Conversation) {
      && c.speakerType == AI
      && !IsBlank(c.question)
      && (c.correction.Some? ==> !IsBlank(c.correction.value))
    }

    constructor()
      ensures Valid() && uiState == InitialState && currentSessionId == None
      ensures !isProcessingVoiceIdentification && pendingStarts == [] && pendingQuestions == []
    {
      uiState := InitialState;
      currentSessionId := None;
      isProcessingVoiceIdentification := false;
      pendingStarts := [];
      pendingQuestions := [];
      identification := NotIdentifying;
    }

    /** `startSession` up to the use case: refused while a session is
        active, for a non-positive company id and for a blank name;
        otherwise the session is marked active at once. */
    method StartSession(companyId: int, companyName: string)
      requires Valid()
      modifies this
      ensures Valid()
      ensures old(uiState).isSessionActive || companyId <= 0 || IsBlank(companyName) ==>
        uiState == old(uiState) && pendingStarts == old(pendingStarts)
      ensures !(old(uiState).isSessionActive || companyId <= 0 || IsBlank(companyName)) ==>
        uiState == old(uiState).(isSessionActive := true) && pendingStarts == old(pendingStarts) + [companyName]
      ensures currentSessionId == old(currentSessionId) && pendingQuestions == old(pendingQuestions)
      ensures identification == old(identification)
      ensures isProcessingVoiceIdentification == old(isProcessingVoiceIdentification)
    {
      if uiState.isSessionActive || companyId <= 0 || IsBlank(companyName) {
        return;
      }
      uiState := uiState.(isSessionActive := true);
      pendingStarts := pendingStarts + [companyName];
    }

    /** The `fold` over the use case's result, for the `index`-th waiting
        start: on success the session id is kept and the session shows the
        company, active and without error; on failure the session is
        inactive and the error is the failure's message or the default. */
    method CompleteStartSession(index: nat, result: CallResult<int>)
      requires Valid() && index < |pendingStarts|
      modifies this
      ensures Valid()
      ensures pendingStarts == RemoveAt(old(pendingStarts), index)
      ensures result.Succeeded? ==>
        && currentSessionId == Some(result.value)
        && uiState == old(uiState).(companyName := old(pendingStarts[index]), isSessionActive := true, errorMessage := None)
      ensures result.Failed? ==>
        && currentSessionId == old(currentSessionId)
        && uiState == old(uiState).(errorMessage := Some(MessageOr(result.message, "Failed to start session")),
                                    isSessionActive := false)
      ensures pendingQuestions == old(pendingQuestions) && identification == old(identification)
      ensures isProcessingVoiceIdentification == old(isProcessingVoiceIdentification)
    {
      var companyName := pendingStarts[index];
      pendingStarts := RemoveAt(pendingStarts, index);
      match result {
        case Succeeded(sessionId) =>
          currentSessionId := Some(sessionId);
          uiState := uiState.(companyName := companyName, isSessionActive := true, errorMessage := None);
        case Failed(message) =>
          uiState := uiState.(errorMessage := Some(MessageOr(message, "Failed to start session")),
                              isSessionActive := false);
      }
    }

    /** `stopSession`: nothing when inactive; otherwise the session, the AI
        flag, the question and the voice identification are cleared and the
        conversations are kept. */
    method StopSession()
      requires Valid()
      modifies this
      ensures Valid()
      ensures !old(uiState).isSessionActive ==> uiState == old(uiState)
      ensures old(uiState).isSessionActive ==>
        uiState == old(uiState).(isSessionActive := false, isProcessingAI := false, currentQuestion := "",
                                 isIdentifyingVoice := false, identifiedVoiceName := None)
      ensures currentSessionId == old(currentSessionId) && pendingStarts == old(pendingStarts)
      ensures pendingQuestions == old(pendingQuestions) && identification == old(identification)
      ensures isProcessingVoiceIdentification == old(isProcessingVoiceIdentification)
    {
      if !uiState.isSessionActive {
        return;
      }
      uiState := uiState.(isSessionActive := false, isProcessingAI := false, currentQuestion := "",
                          isIdentifyingVoice := false, identifiedVoiceName := None);
    }

    /** `identifyVoice` up to its first delay: refused while an
        identification runs or the session is inactive. */
    method IdentifyVoice()
      requires Valid()
      modifies this
      ensures Valid()
      ensures old(isProcessingVoiceIdentification) || !old(uiState).isSessionActive ==>
        uiState == old(uiState) && identification == old(identification)
        && isProcessingVoiceIdentification == old(isProcessingVoiceIdentification)
      ensures !(old(isProcessingVoiceIdentification) || !old(uiState).isSessionActive) ==>
        uiState == old(uiState).(isIdentifyingVoice := true) && identification == Identifying
        && isProcessingVoiceIdentification
      ensures currentSessionId == old(currentSessionId) && pendingStarts == old(pendingStarts)
      ensures pendingQuestions == old(pendingQuestions)
    {
      if isProcessingVoiceIdentification || !uiState.isSessionActive {
        return;
      }
      isProcessingVoiceIdentification := true;
      uiState := uiState.(isIdentifyingVoice := true);
      identification := Identifying;
    }

    /** After the first delay: the picked type is shown. */
    method ShowIdentifiedVoice(identifiedType: string)
      requires Valid() && identification.Identifying? && identifiedType in VoiceTypes
      modifies this
      ensures Valid()
      ensures uiState == old(uiState).(isIdentifyingVoice := false, identifiedVoiceName := Some(identifiedType))
      ensures identification == Showing(identifiedType) && isProcessingVoiceIdentification
      ensures currentSessionId == old(currentSessionId) && pendingStarts == old(pendingStarts)
      ensures pendingQuestions == old(pendingQuestions)
    {
      uiState := uiState.(isIdentifyingVoice := false, identifiedVoiceName := Some(identifiedType));
      identification := Showing(identifiedType);
    }

    /** After the second delay: the name is cleared if it is still the one
        shown, and the guard flag is lowered by the `finally`. */
    method EndIdentification()
      requires Valid() && identification.Showing?
      modifies this
      ensures Valid()
      ensures old(uiState).identifiedVoiceName == Some(old(identification).identifiedType) ==>
        uiState == old(uiState).(identifiedVoiceName := None)
      ensures old(uiState).identifiedVoiceName != Some(old(identification).identifiedType) ==>
        uiState == old(uiState)
      ensures identification == NotIdentifying && !isProcessingVoiceIdentification
      ensures currentSessionId == old(currentSessionId) && pendingStarts == old(pendingStarts)
      ensures pendingQuestions == old(pendingQuestions)
    {
      if uiState.identifiedVoiceName == Some(identification.identifiedType) {
        uiState := uiState.(identifiedVoiceName := None);
      }
      isProcessingVoiceIdentification := false;
      identification := NotIdentifying;
    }

    /** `addCorrection`: a blank correction is ignored; otherwise it is set
        on the conversations with that id. */
    method AddCorrection(conversationId: string, correction: string)
      requires Valid()
      modifies this
      ensures Valid()
      ensures IsBlank(correction) ==> uiState == old(uiState)
      ensures !IsBlank(correction) ==>
        uiState == old(uiState).(conversations := WithCorrection(old(uiState).conversations, conversationId, correction))
      ensures currentSessionId == old(currentSessionId) && pendingStarts == old(pendingStarts)
      ensures pendingQuestions == old(pendingQuestions) && identification == old(identification)
      ensures isProcessingVoiceIdentification == old(isProcessingVoiceIdentification)
    {
      if IsBlank(correction) {
        return;
      }
      var updatedConversations := WithCorrection(uiState.conversations, conversationId, correction);
      uiState := uiState.(conversations := updatedConversations);
    }

    /** `clearError`. */
    method ClearError()
      requires Valid()
      modifies this
      ensures Valid()
      ensures uiState == old(uiState).(errorMessage := None)
      ensures currentSessionId == old(currentSessionId) && pendingStarts == old(pendingStarts)
      ensures pendingQuestions == old(pendingQuestions) && identification == old(identification)
      ensures isProcessingVoiceIdentification == old(isProcessingVoiceIdentification)
    {
      uiState := uiState.(errorMessage := None);
    }

    /** `exportTranscript`: the transcript of the company and conversations
        on hand. */
    method ExportTranscript() returns (s: string)
      ensures s == Transcript(uiState.companyName, uiState.conversations)
    {
      var conversations := uiState.conversations;
      var companyName := uiState.companyName;
      s := BuildTranscript(companyName, conversations);
    }

    /** `handleAudioClassification`: ignored when the session is inactive or
        the text is blank. A human voice sets the question unless it is the
        same; a machine voice sets it always; both cancel the AI flag. An AI
        voice, with a question on hand and no reply awaited, sends the
        question off. An unknown voice changes nothing. */
    method HandleAudioClassification(audioText: string, speakerType: SpeakerType)
      requires Valid()
      modifies this
      ensures Valid()
      ensures !old(uiState).isSessionActive || IsBlank(audioText) || speakerType == Unknown ==>
        uiState == old(uiState) && pendingQuestions == old(pendingQuestions)
      ensures old(uiState).isSessionActive && !IsBlank(audioText) && speakerType == Human ==>
        && pendingQuestions == old(pendingQuestions)
        && uiState == (if old(uiState).currentQuestion != audioText
                       then old(uiState).(currentQuestion := audioText, isProcessingAI := false)
                       else old(uiState))
      ensures old(uiState).isSessionActive && !IsBlank(audioText) && speakerType == Machine ==>
        && pendingQuestions == old(pendingQuestions)
        && uiState == old(uiState).(currentQuestion := audioText, isProcessingAI := false)
      ensures old(uiState).isSessionActive && !IsBlank(audioText) && speakerType == AI ==>
        if old(uiState).currentQuestion != "" && !old(uiState).isProcessingAI then
          && uiState == old(uiState).(isProcessingAI := true)
          && pendingQuestions == old(pendingQuestions) + [old(uiState).currentQuestion]
        else
          uiState == old(uiState) && pendingQuestions == old(pendingQuestions)
      ensures currentSessionId == old(currentSessionId) && pendingStarts == old(pendingStarts)
      ensures identification == old(identification)
      ensures isProcessingVoiceIdentification == old(isProcessingVoiceIdentification)
    {
      if !uiState.isSessionActive || IsBlank(audioText) {
        return;
      }
      match speakerType {
        case Human =>
          if uiState.currentQuestion != audioText {
            uiState := uiState.(currentQuestion := audioText, isProcessingAI := false);
          }
        case AI =>
          var currentQuestion := uiState.currentQuestion;
          if currentQuestion != "" && !uiState.isProcessingAI {
            uiState := uiState.(isProcessingAI := true);
            pendingQuestions := pendingQuestions + [currentQuestion];
          }
        case Machine =>
          uiState := uiState.(currentQuestion := audioText, isProcessingAI := false);
        case Unknown =>
      }
    }

    /** The reply to the `index`-th question sent: an answer appends one AI
        conversation for that question and clears the question on hand; a
        failure or an exception sets the error. The AI flag is lowered in
        every case. */
    method CompleteAiRequest(index: nat, outcome: AiOutcome, newId: string, timestamp: int)
      requires Valid() && index < |pendingQuestions|
      modifies this
      ensures Valid()
      ensures pendingQuestions == RemoveAt(old(pendingQuestions), index)
      ensures outcome.Reply? && outcome.result.Succeeded? ==>
        uiState == old(uiState).(
          conversations := old(uiState).conversations +
            [Conversation(newId, old(pendingQuestions[index]), outcome.result.value, None, AI, timestamp)],
          currentQuestion := "", isProcessingAI := false)
      ensures outcome.Reply? && outcome.result.Failed? ==>
        uiState == old(uiState).(errorMessage := Some(MessageOr(outcome.result.message, "Failed to get AI response")),
                                 isProcessingAI := false)
      ensures outcome.Threw? ==>
        uiState == old(uiState).(errorMessage := Some("Unexpected error: " + MessageOr(outcome.message, "null")),
                                 isProcessingAI := false)
      ensures currentSessionId == old(currentSessionId) && pendingStarts == old(pendingStarts)
      ensures identification == old(identification)
      ensures isProcessingVoiceIdentification == old(isProcessingVoiceIdentification)
    {
      var currentQuestion := pendingQuestions[index];
      pendingQuestions := RemoveAt(pendingQuestions, index);
      match outcome {
        case Reply(Succeeded(aiResponse)) =>
          var conversation := Conversation(newId, currentQuestion, aiResponse, None, AI, timestamp);
          assert ValidConversation(conversation);
          uiState := uiState.(conversations := uiState.conversations + [conversation],
                              currentQuestion := "", isProcessingAI := false);
        case Reply(Failed(message)) =>
          uiState := uiState.(errorMessage := Some(MessageOr(message, "Failed to get AI response")),
                              isProcessingAI := false);
        case Threw(message) =>
          uiState := uiState.(errorMessage := Some("Unexpected error: " + MessageOr(message, "null")),
                              isProcessingAI := false);
      }
    }
  }

  /** A question heard from a human, then an AI voice, then a successful
      reply: exactly one conversation is added, holding that question and
      the reply, and the question on hand is cleared. */
  method QuestionAnswered(vm: InterviewSessionViewModel, question: string, aiText: string,
                          answer: string, newId: string, timestamp: int)
    requires vm.Valid() && vm.uiState.isSessionActive && !vm.uiState.isProcessingAI
    requires !IsBlank(question) && !IsBlank(aiText)
    modifies vm
    ensures vm.Valid()
    ensures vm.uiState.conversations ==
      old(vm.uiState.conversations) + [Conversation(newId, question, answer, None, AI, timestamp)]
    ensures vm.uiState.currentQuestion == "" && !vm.uiState.isProcessingAI
    ensures vm.pendingQuestions == old(vm.pendingQuestions)
  {
    vm.HandleAudioClassification(question, Human);
    assert vm.uiState.currentQuestion == question && !vm.uiState.isProcessingAI;
    vm.HandleAudioClassification(aiText, AI);
    vm.CompleteAiRequest(|vm.pendingQuestions| - 1, Reply(Succeeded(answer)), newId, timestamp);
  }
}
