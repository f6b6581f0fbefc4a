/** The AI content endpoint: the prompt check, the canned answers given when no model API key
    is configured, and the mapping of a failed model call to an HTTP status. The model call
    itself, with its 25-second timeout race, is an input: its text or the error it raised. */
module AiRoute {
  import opened Util

  const TimeoutMillis: nat := 25000
  const DefaultType: string := "text"
  const ImageType: string := "image"

  const PromptRequired: string := "Prompt is required"
  const TimeoutMessage: string := "Request timeout"
  const AbortErrorName: string := "AbortError"
  const TookTooLong: string := "The request took too long to process. Please try with a shorter prompt."
  const Aborted: string := "The request was aborted. Please try again."
  const GenerationFailed: string := "Failed to generate content. Please try again later."

  /** The four canned answers. */
  datatype Answer = ImageAnalysis | TaskAdvice | MeetingSummary | WeeklyReport

  /** The text of each canned answer. */
  function AnswerText(a: Answer): string
  {
    match a
    case ImageAnalysis =>
      "This is a mock image analysis response. In production, this would analyze the provided image."
    case TaskAdvice =>
      "Based on the current tasks and team members, I recommend assigning the high-priority tasks to team members with fewer current assignments. Consider setting deadlines that account for team members' existing workloads."
    case MeetingSummary =>
      "Meeting Summary:\n\n- Key Points: Discussed project timeline and resource allocation\n- Action Items: Team to complete task assignments by Friday\n- Project Updates: Website redesign is 65% complete, mobile app development is 30% complete"
    case WeeklyReport =>
      "Weekly Report:\n\n1. Overall Project Performance: Good progress on Website Redesign (65%)\n2. Team Productivity: 3 tasks completed this week\n3. Key Achievements: Design approval milestone reached\n4. Potential Risks: Mobile app development slightly behind schedule\n5. Recommendations: Consider allocating additional resources to mobile app development"
  }

  /** The fields read from the JSON body; `None` is a field that is absent. */
  datatype AiBody = AiBody(prompt: Option<string>, kind: Option<string>)

  /** A thrown error, by its `name` and `message`. */
  datatype Failure = Failure(name: string, message: string)

  /** How the model call (raced against the timeout) ended. */
  datatype ModelCall = Generated(text: string) | Threw(failure: Failure)

  /** A JSON response: its HTTP status and either a `text` or an `error` field. */
  datatype Reply = TextReply(status: nat, text: string) | ErrorReply(status: nat, error: string)

  /** The requested kind of content, "text" when the field is absent. */
  function KindOf(body: AiBody): (k: string)
    ensures body.kind.Some? ==> k == body.kind.value
    ensures body.kind.None? ==> k == DefaultType
  {
    if body.kind.Some? then body.kind.value else DefaultType
  }

  /** `getMockResponse`, as the answer it picks. */
  function MockResponse(prompt: string, kind: string): (r: Answer)
    ensures r == ImageAnalysis <==> kind == ImageType
    ensures r == TaskAdvice <==> kind != ImageType && Contains(Lower(prompt), "task")
    ensures r == MeetingSummary <==>
      kind != ImageType && !Contains(Lower(prompt), "task") && Contains(Lower(prompt), "meeting")
    ensures r == WeeklyReport <==>
      kind != ImageType && !Contains(Lower(prompt), "task") && !Contains(Lower(prompt), "meeting")
  {
    if kind == ImageType then ImageAnalysis
    else if Contains(Lower(prompt), "task") then TaskAdvice
    else if Contains(Lower(prompt), "meeting") then MeetingSummary
    else WeeklyReport
  }

  /** The status and message for a thrown error: the timeout is recognised by its message,
      an abort by its name, and the timeout test comes first. */
  function FailureReply(f: Failure): (r: Reply)
    ensures r.ErrorReply?
    ensures r.status == 504 <==> f.message == TimeoutMessage
    ensures r.status == 499 <==> f.message != TimeoutMessage && f.name == AbortErrorName
    ensures r.status == 500 <==> f.message != TimeoutMessage && f.name != AbortErrorName
    ensures r.status == 504 ==> r.error == TookTooLong
    ensures r.status == 499 ==> r.error == Aborted
    ensures r.status == 500 ==> r.error == GenerationFailed
  {
    if f.message == TimeoutMessage then ErrorReply(504, TookTooLong)
    else if f.name == AbortErrorName then ErrorReply(499, Aborted)
    else ErrorReply(500, GenerationFailed)
  }

  /** The error a body that cannot be parsed, or is JSON `null`, raises when it is read. */
  const UnreadableBody: Failure := Failure("SyntaxError", "Unexpected token in JSON")

  /** `POST`: `hasApiKey` says whether the key is configured, `call` is how the model call
      would end if it were made. */
  function Handle(body: Option<AiBody>, hasApiKey: bool, call: ModelCall): (r: Reply)
    ensures body.None? ==> r == ErrorReply(500, GenerationFailed)
    ensures body.Some? && !(body.value.prompt.Some? && body.value.prompt.value != "") ==>
      r == ErrorReply(400, PromptRequired)
    ensures body.Some? && body.value.prompt.Some? && body.value.prompt.value != "" ==>
      r == if !hasApiKey then TextReply(200, AnswerText(MockResponse(body.value.prompt.value, KindOf(body.value))))
           else if call.Generated? then TextReply(200, call.text)
           else FailureReply(call.failure)
  {
    if body.None? then FailureReply(UnreadableBody)
    else if body.value.prompt.None? || body.value.prompt.value == "" then ErrorReply(400, PromptRequired)
    else if !hasApiKey then TextReply(200, AnswerText(MockResponse(body.value.prompt.value, KindOf(body.value))))
    else match call
      case Generated(text) => TextReply(200, text)
      case Threw(f) => FailureReply(f)
  }

  /** "image" ignores the prompt, and no other kind gets the image answer. */
  lemma ImageIgnoresPrompt(prompt: string, other: string, kind: string)
    ensures MockResponse(prompt, ImageType) == MockResponse(other, ImageType)
    ensures MockResponse(prompt, kind) == ImageAnalysis <==> kind == ImageType
  {
  }

  /** Without an API key no model call is made: the reply does not depend on how the call
      would have ended, and is never an error once the prompt is there. */
  lemma NoKeyNoCall(body: Option<AiBody>, c1: ModelCall, c2: ModelCall)
    ensures Handle(body, false, c1) == Handle(body, false, c2)
    ensures body.Some? && body.value.prompt.Some? && body.value.prompt.value != "" ==>
      Handle(body, false, c1).TextReply? && Handle(body, false, c1).status == 200
  {
  }

  /** A prompt mentioning both a task and a meeting gets the task answer, whatever the letter
      case. */
  lemma TaskBeforeMeeting()
    ensures MockResponse("Meeting TASK", DefaultType) == TaskAdvice
  {
    var s := Lower("Meeting TASK");
    assert s == "meeting task";
    assert OccursAt(s, "task", 8);
    ContainsIff(s, "task");
  }

  /** "MEETING" gets the meeting summary. */
  lemma MeetingIgnoresCase()
    ensures MockResponse("MEETING", DefaultType) == MeetingSummary
  {
    var m := Lower("MEETING");
    assert m == "meeting";
    assert StartsWith(m, "meeting");
    assert !Contains(m, "task") by {
      ContainsIff(m, "task");
      forall i | 0 <= i && i + 4 <= |m|
        ensures !OccursAt(m, "task", i)
      {
        if i < 3 {
          assert m[i..i + 4][0] != 't';
        } else {
          assert m[i..i + 4][1] != 'a';
        }
      }
    }
  }

  /** Three thrown errors and their statuses: an abort whose message happens to be the
      timeout message is reported as a timeout. */
  lemma TimeoutTestFirst()
    ensures FailureReply(Failure(AbortErrorName, TimeoutMessage)).status == 504
    ensures FailureReply(Failure(AbortErrorName, "The operation was aborted")).status == 499
    ensures FailureReply(Failure("Error", "fetch failed")).status == 500
  {
  }
}
