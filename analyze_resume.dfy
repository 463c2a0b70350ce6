/**
 * The resume analysis function (supabase/functions/analyze-resume/index.ts):
 * request validation, the prompt sent to the AI gateway, the mapping of the
 * gateway's failures, and the extraction of the JSON object from its reply
 * with a fixed fallback analysis. The gateway and JSON.parse are parameters.
 */
module AnalyzeResume {
  import opened Wrappers
  import opened JsStrings
  import opened FetchApi

  /** What the function answers with: an analysis, or an error message. */
  datatype Analysis =
    | Parsed(json: string)
    | Fallback(overallScore: int, jobMatchScore: Option<int>, matchedSkills: seq<string>,
               missingSkills: seq<string>, improvements: seq<string>, strengths: seq<string>,
               summary: string)

  datatype ReplyBody = AnalysisBody(analysis: Analysis) | ErrorBody(error: string)

  datatype Reply = Reply(status: int, body: ReplyBody)

  /** The gateway's answer: its status and `choices[0].message.content`, when that exists. */
  datatype GatewayReply = GatewayReply(status: int, content: Option<string>)

  const ResumeIntro := "Analyze this resume:\n\n"
  const JobIntro := "\n\nCompare against this job description:\n\n"

  /** The user turn sent to the model: the resume, then the job description when one is given. */
  function UserPrompt(resumeText: string, jobDescription: Option<string>): (p: string)
    ensures StartsWith(p, ResumeIntro + resumeText)
    ensures Present(jobDescription) ==> p == ResumeIntro + resumeText + JobIntro + jobDescription.value
    ensures !Present(jobDescription) ==> p == ResumeIntro + resumeText
  {
    var prompt := ResumeIntro + resumeText;
    if Present(jobDescription) then
      var p := prompt + JobIntro + jobDescription.value;
      assert p[..|prompt|] == prompt;
      p
    else prompt
  }

  /** The response for a gateway status that is not ok. */
  function GatewayFailure(status: int): (r: Reply)
    ensures status == 429 ==> r == Reply(429, ErrorBody("Rate limit exceeded. Please try again later."))
    ensures status == 402 ==> r == Reply(402, ErrorBody("AI credits exhausted. Please add funds."))
    ensures status != 429 && status != 402 ==> r == Reply(500, ErrorBody("AI analysis failed"))
  {
    if status == 429 then Reply(429, ErrorBody("Rate limit exceeded. Please try again later."))
    else if status == 402 then Reply(402, ErrorBody("AI credits exhausted. Please add funds."))
    else Reply(500, ErrorBody("AI analysis failed"))
  }

  /**
   * The match of `\{[\s\S]*\}` in the model's reply: from the first '{' to
   * the last '}', when some '}' comes after some '{' (see `ExtractJsonSpan`).
   */
  function ExtractJson(content: string): (r: Option<string>)
    ensures r.Some? <==> exists i, j :: 0 <= i < j < |content| && content[i] == '{' && content[j] == '}'
  {
    var i := IndexOf(content, '{');
    var j := LastIndexOf(content, '}');
    if 0 <= i < j then
      assert content[i] == '{' && content[j] == '}';
      Some(content[i..j + 1])
    else
      NoBracePair(content);
      None
  }

  /** When no '}' comes after the first '{', no '}' comes after any '{'. */
  lemma NoBracePair(content: string)
    requires !(0 <= IndexOf(content, '{') < LastIndexOf(content, '}'))
    ensures !exists a, b :: 0 <= a < b < |content| && content[a] == '{' && content[b] == '}'
  {
    forall a, b | 0 <= a < b < |content| && content[a] == '{'
      ensures content[b] != '}'
    {
      IndexOfIsFirst(content, '{', a);
      LastIndexOfIsLast(content, '}', b);
    }
  }

  /** With the first '{' at `a` and the last '}' at `b` after it, the extraction is the text from `a` to `b`. */
  lemma ExtractJsonSpan(content: string, a: nat, b: nat)
    requires a < b < |content|
    requires content[a] == '{' && '{' !in content[..a]
    requires content[b] == '}' && '}' !in content[b + 1..]
    ensures ExtractJson(content) == Some(content[a..b + 1])
  {
    assert IndexOf(content, '{') == a by {
      IndexOfIsFirst(content, '{', a);
      assert forall m :: 0 <= m < a ==> content[..a][m] == content[m];
    }
    assert LastIndexOf(content, '}') == b by {
      LastIndexOfIsLast(content, '}', b);
      assert forall m :: b < m < |content| ==> content[b + 1..][m - b - 1] == content[m];
    }
  }

  /** The analysis returned when the reply holds no JSON object that parses. */
  function FallbackAnalysis(content: Option<string>): (a: Analysis)
    ensures a.Fallback? && a.overallScore == 70 && a.jobMatchScore == None
    ensures a.matchedSkills == ["Communication", "Problem Solving"] && a.missingSkills == ["Could not fully analyze"]
    ensures a.improvements == ["Please try uploading again with clearer formatting"]
    ensures a.strengths == ["Resume submitted successfully"]
    ensures a.summary == (if Present(content) then content.value else "Analysis completed with partial results.")
  {
    Fallback(70, None, ["Communication", "Problem Solving"], ["Could not fully analyze"],
             ["Please try uploading again with clearer formatting"], ["Resume submitted successfully"],
             if Present(content) then content.value else "Analysis completed with partial results.")
  }

  /** The analysis made from the model's reply; `isJson` says whether JSON.parse accepts a text. */
  function AnalysisOf(content: Option<string>, isJson: string -> bool): (a: Analysis)
    ensures a.Parsed? <==> content.Some? && ExtractJson(content.value).Some? && isJson(ExtractJson(content.value).value)
    ensures a.Parsed? ==> a.json == ExtractJson(content.value).value
    ensures a.Fallback? ==> a == FallbackAnalysis(content)
  {
    if content.None? then FallbackAnalysis(content)
    else match ExtractJson(content.value)
      case None => FallbackAnalysis(content)
      case Some(json) => if isJson(json) then Parsed(json) else FallbackAnalysis(content)
  }

  /**
   * A POST to the function: a missing resume is refused with 400, a missing
   * API key is a 500, a failing gateway is mapped by its status, and an ok
   * reply yields the analysis with status 200.
   */
  function HandleAnalysis(resumeText: Option<string>, jobDescription: Option<string>, apiKey: Option<string>,
                          gateway: string -> GatewayReply, isJson: string -> bool): (r: Reply)
    ensures !Present(resumeText) ==> r == Reply(400, ErrorBody("Resume text is required"))
    ensures Present(resumeText) && !Present(apiKey) ==> r == Reply(500, ErrorBody("AI service not configured"))
    ensures Present(resumeText) && Present(apiKey) ==>
              var reply := gateway(UserPrompt(resumeText.value, jobDescription));
              && (!IsOk(reply.status) ==> r == GatewayFailure(reply.status))
              && (IsOk(reply.status) ==> r == Reply(200, AnalysisBody(AnalysisOf(reply.content, isJson))))
  {
    if !Present(resumeText) then Reply(400, ErrorBody("Resume text is required"))
    else if !Present(apiKey) then Reply(500, ErrorBody("AI service not configured"))
    else
      var reply := gateway(UserPrompt(resumeText.value, jobDescription));
      if !IsOk(reply.status) then GatewayFailure(reply.status)
      else Reply(200, AnalysisBody(AnalysisOf(reply.content, isJson)))
  }

  /** Text around a single JSON object (a fenced code block, say) is dropped by the extraction. */
  lemma ExtractsWrappedObject(before: string, obj: string, after: string)
    requires '{' !in before && '}' !in after
    requires |obj| >= 2 && obj[0] == '{' && obj[|obj| - 1] == '}'
    ensures ExtractJson(before + obj + after) == Some(obj)
  {
    var c := before + obj + after;
    var a, b := |before|, |before| + |obj| - 1;
    assert c[..a] == before;
    assert c[b + 1..] == after;
    assert c[a..b + 1] == obj;
    ExtractJsonSpan(c, a, b);
  }
}
