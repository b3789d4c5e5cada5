/**
 * The service layer that wraps the generative-AI API. The API itself is not modelled: each
 * call is replaced by its outcome (`ApiReply`, `ImageReply`), given as a parameter. What is
 * modelled is the logic around the call: the failure strings, the template choice, the
 * empty-prompt check and the location of the JSON array in the scraper's reply.
 */
module GeminiService {
  import opened Types
  import opened Text

  /** The outcome of one text-generation call: the reply's text, or an exception. */
  datatype ApiReply =
    | Reply(text: string)
      /** `message` is the exception's message when it is an `Error` instance. */
    | Thrown(message: Option<string>)

  /** The prefix every failing text generator puts on its result. */
  const ErrorPrefix: string := "Error:"

  /** A result a screen treats as a failure (`result.startsWith('Error:')`). */
  predicate IsErrorText(s: string) {
    StartsWith(s, ErrorPrefix)
  }

  /** The text generators of the service; each returns a string whatever happens. */
  datatype Generator =
    | ResearchAndSummarize | GenerateArticle | CompleteArticle | AnalyzeKpiData
    | SummarizeCrmData | PlanCampaign | WriteEmailTemplate | GenerateDerivative(kind: DerivativeType)

  /** What follows the "Error:" prefix in each generator's failure string. */
  function FailureDetail(g: Generator, message: Option<string>): string {
    match g
    case ResearchAndSummarize => " Could not perform research. Please check the console for details."
    case GenerateArticle => " Could not generate article. Please check the console for details."
    case CompleteArticle => " Could not complete the article. " + message.GetOr("Unknown error")
    case AnalyzeKpiData => " Could not analyze KPIs. Please check the console for details."
    case SummarizeCrmData => " Could not generate CRM summary. Please check the console for details."
    case PlanCampaign => " Could not generate campaign plan. Please check the console for details."
    case WriteEmailTemplate => " Could not generate email template. Please check the console for details."
    case GenerateDerivative(kind) =>
      " Could not generate " + DerivativeKey(kind) + ". Please check the console for details."
  }

  /**
   * The string a generator returns when the API call throws: it always carries the
   * "Error:" sentinel, and a derivative failure names its type.
   */
  function FailureText(g: Generator, message: Option<string>): (r: string)
    ensures IsErrorText(r)
    ensures g.GenerateDerivative? ==> Includes(r, DerivativeKey(g.kind))
  {
    var r := ErrorPrefix + FailureDetail(g, message);
    PrefixOfConcat(ErrorPrefix, FailureDetail(g, message));
    if g.GenerateDerivative? then
      var head, tail := ErrorPrefix + " Could not generate ", ". Please check the console for details.";
      assert r == head + DerivativeKey(g.kind) + tail;
      OccursInMiddle(head, DerivativeKey(g.kind), tail);
      r
    else
      r
  }

  /** What a text generator returns: the reply's text, or its failure string. */
  function GeneratorOutput(g: Generator, reply: ApiReply): (r: string)
    ensures reply.Reply? ==> r == reply.text
    ensures reply.Thrown? ==> IsErrorText(r)
  {
    match reply
    case Reply(text) => text
    case Thrown(message) => FailureText(g, message)
  }

  const PromptLead: string := "Based on the following article, write "

  /** What each derivative prompt asks for; the first words tell the three apart. */
  function DerivativeSubject(t: DerivativeType): string {
    match t
    case Shorts => "3 short-form posts"
    case Podcast => "a 2-minute podcast script"
    case Video => "a script for a short YouTube video"
  }

  /** The instructions that follow the subject in each derivative prompt. */
  function DerivativeInstructions(t: DerivativeType): string {
    match t
    case Shorts =>
      " (e.g., for Twitter or LinkedIn) to promote it. Use emojis and hashtags appropriately."
    case Podcast =>
      ". Include an intro with music cues, main points, and an outro. Format it clearly with speaker labels."
    case Video =>
      " (2-3 minutes). Structure it with a strong hook, main content with visual cues suggestions in parenthesis (e.g., [B-roll of scientists in a lab]), and a clear call to action."
  }

  /**
   * The prompt `generateDerivativeContent` sends: the template the switch picks for the
   * type, ending in a blank line and then the whole article.
   */
  function DerivativePrompt(article: string, t: DerivativeType): (r: string)
    ensures EndsWith(r, " \n\n" + article)
    ensures StartsWith(r, PromptLead + DerivativeSubject(t))
  {
    var head, tail := PromptLead + DerivativeSubject(t), " \n\n" + article;
    Framed(head, DerivativeInstructions(t), tail);
    head + DerivativeInstructions(t) + tail
  }

  /** Prompts that start with different subjects differ, whatever follows them. */
  lemma SubjectsDiffer(t1: DerivativeType, t2: DerivativeType, p1: string, p2: string)
    requires t1 != t2
    requires StartsWith(p1, PromptLead + DerivativeSubject(t1))
    requires StartsWith(p2, PromptLead + DerivativeSubject(t2))
    ensures p1 != p2
  {
    var s1, s2 := DerivativeSubject(t1), DerivativeSubject(t2);
    var h1, h2 := PromptLead + s1, PromptLead + s2;
    assert p1[|PromptLead|] == h1[|PromptLead|] == s1[0];
    assert p2[|PromptLead|] == h2[|PromptLead|] == s2[0];
    assert p1[|PromptLead| + 2] == h1[|PromptLead| + 2] == s1[2];
    assert p2[|PromptLead| + 2] == h2[|PromptLead| + 2] == s2[2];
  }

  /** Exactly one template per type: two types never produce the same prompt. */
  lemma DerivativePromptInjective(article: string, t1: DerivativeType, t2: DerivativeType)
    requires DerivativePrompt(article, t1) == DerivativePrompt(article, t2)
    ensures t1 == t2
  {
    if t1 != t2 {
      SubjectsDiffer(t1, t2, DerivativePrompt(article, t1), DerivativePrompt(article, t2));
    }
  }

  /** The outcome of one image-generation call: the images' base64 bytes, or an exception. */
  datatype ImageReply =
    | ImagesReturned(images: seq<string>)
    | ImageThrown(message: Option<string>)

  /** `{ base64Image }` or `{ error }`. */
  datatype ImageResult = ImageOk(base64Image: string) | ImageErr(error: string)

  const PromptRequiredMessage: string := "A prompt is required to generate an image."
  const NoImagesMessage: string := "Image generation succeeded but returned no images."

  /** `generateFeaturedImage`: an empty prompt is refused before any call is made. */
  function GenerateFeaturedImage(prompt: string, reply: ImageReply): (r: ImageResult)
    ensures prompt == [] ==> r == ImageErr(PromptRequiredMessage)
    ensures prompt != [] && reply.ImagesReturned? && |reply.images| > 0 ==> r == ImageOk(reply.images[0])
    ensures prompt != [] && reply.ImagesReturned? && |reply.images| == 0 ==> r == ImageErr(NoImagesMessage)
    ensures prompt != [] && reply.ImageThrown? ==> r.ImageErr?
    ensures r.ImageErr? ==> r.error != []
  {
    if prompt == [] then ImageErr(PromptRequiredMessage)
    else
      match reply
      case ImagesReturned(images) =>
        if |images| > 0 then ImageOk(images[0]) else ImageErr(NoImagesMessage)
      case ImageThrown(message) =>
        ImageErr("Error generating image. Please check the console for details. Message: "
                 + message.GetOr("Unknown error"))
  }

  // ---------------------------------------------------------------------------------------
  // Locating the JSON array in the scraper's reply

  /** `s.indexOf(c)`: the first index of `c`, or -1. */
  function IndexOf(s: string, c: char): (r: int)
    ensures -1 <= r < |s|
    ensures r == -1 <==> c !in s
    ensures r >= 0 ==> s[r] == c && c !in s[..r]
  {
    if s == [] then -1
    else if s[0] == c then 0
    else
      var k := IndexOf(s[1..], c);
      assert s == [s[0]] + s[1..];
      if k == -1 then -1
      else
        assert s[..k + 1] == [s[0]] + s[1..][..k];
        k + 1
  }

  /** `s.lastIndexOf(c)`: the last index of `c`, or -1. */
  function LastIndexOf(s: string, c: char): (r: int)
    ensures -1 <= r < |s|
    ensures r == -1 <==> c !in s
    ensures r >= 0 ==> s[r] == c && c !in s[r + 1..]
  {
    if s == [] then -1
    else if s[|s| - 1] == c then |s| - 1
    else
      var k := LastIndexOf(s[..|s| - 1], c);
      assert s == s[..|s| - 1] + [s[|s| - 1]];
      if k == -1 then -1
      else
        assert s[k + 1..] == s[..|s| - 1][k + 1..] + [s[|s| - 1]];
        k
  }

  function Clamp(x: int, lo: int, hi: int): int
    requires lo <= hi
  {
    if x < lo then lo else if x > hi then hi else x
  }

  /**
   * JavaScript's `s.substring(a, b)`: both indices are clamped into [0, |s|] and swapped
   * when the first is the larger.
   */
  function Substring(s: string, a: int, b: int): (r: string)
    ensures 0 <= a <= b <= |s| ==> r == s[a..b]
    ensures 0 <= b <= a <= |s| ==> r == s[b..a]
  {
    var x, y := Clamp(a, 0, |s|), Clamp(b, 0, |s|);
    if x <= y then s[x..y] else s[y..x]
  }

  const RefusalHead: string :=
    "The AI was unable to fulfill this request. It might be due to content policy restrictions. Response: \""
  const NoArrayMessage: string := ErrorPrefix + " Could not find a JSON array in the response from the AI."

  /** The refusal error quotes the whole reply. */
  function RefusalMessage(text: string): string {
    RefusalHead + text + "\""
  }

  /** The reply reads as a refusal: its lower-cased text mentions "i can't" or "i am unable". */
  predicate IsRefusal(text: string) {
    Includes(ToLower(text), "i can't") || Includes(ToLower(text), "i am unable")
  }

  /**
   * Either the slice handed to `JSON.parse`, or which of the two errors is returned without
   * parsing: the refusal error, or the missing-array error.
   */
  datatype Located = JsonSlice(slice: string) | Refused | NoArray

  /** Lines 180-191 of `scrapeContacts`: from the first `[` to the last `]`. */
  function LocateJsonArray(text: string): (r: Located)
    ensures r.JsonSlice? <==> '[' in text && ']' in text
    ensures r.JsonSlice? ==> |r.slice| <= |text|
  {
    var jsonStart := IndexOf(text, '[');
    var jsonEnd := LastIndexOf(text, ']');
    if jsonStart == -1 || jsonEnd == -1 then
      if IsRefusal(text) then Refused else NoArray
    else
      JsonSlice(Substring(text, jsonStart, jsonEnd + 1))
  }

  /** No slice is taken exactly when the reply lacks a `[` or lacks a `]`. */
  lemma LocateFailsIffBracketMissing(text: string)
    ensures !LocateJsonArray(text).JsonSlice? <==> ('[' !in text || ']' !in text)
  {
  }

  /** Without a bracket pair the refusal error is chosen exactly when the reply reads as one. */
  lemma LocateRefusalIff(text: string)
    requires '[' !in text || ']' !in text
    ensures LocateJsonArray(text) == Refused <==> IsRefusal(text)
    ensures LocateJsonArray(text) == NoArray <==> !IsRefusal(text)
  {
  }

  /** With both brackets present, the slice is taken by `substring(first '[', last ']' + 1)`. */
  lemma LocateSlice(text: string)
    requires '[' in text && ']' in text
    ensures LocateJsonArray(text) == JsonSlice(Substring(text, IndexOf(text, '['), LastIndexOf(text, ']') + 1))
  {
  }

  /**
   * When the first `[` comes before the last `]`, the slice runs from that `[` to that `]`
   * inclusive: it starts with `[` and ends with `]`.
   */
  lemma LocateInOrder(text: string)
    requires '[' in text && ']' in text
    requires IndexOf(text, '[') <= LastIndexOf(text, ']')
    ensures var i, j := IndexOf(text, '['), LastIndexOf(text, ']');
            LocateJsonArray(text) == JsonSlice(text[i..j + 1])
    ensures var s := LocateJsonArray(text).slice;
            |s| >= 1 && s[0] == '[' && s[|s| - 1] == ']'
  {
    var i, j := IndexOf(text, '['), LastIndexOf(text, ']');
    LocateSlice(text);
    assert Substring(text, i, j + 1) == text[i..j + 1];
    SliceEnds(text, i, j);
  }

  /** A slice taken from `i` to `j` inclusive starts with `text[i]` and ends with `text[j]`. */
  lemma SliceEnds(text: string, i: nat, j: nat)
    requires i <= j < |text|
    ensures var s := text[i..j + 1]; |s| >= 1 && s[0] == text[i] && s[|s| - 1] == text[j]
  {
  }

  /**
   * In that case the reply splits into the text before the slice (`text[i..j + 1]` above),
   * the slice and the text after it; by the contracts of `IndexOf` and `LastIndexOf` the
   * part before holds no `[` and the part after holds no `]`.
   */
  lemma LocateInOrderSpans(text: string)
    requires '[' in text && ']' in text
    requires IndexOf(text, '[') <= LastIndexOf(text, ']')
    ensures var i, j := IndexOf(text, '['), LastIndexOf(text, ']');
            text == text[..i] + text[i..j + 1] + text[j + 1..]
  {
    ThreeParts(text, IndexOf(text, '['), LastIndexOf(text, ']') + 1);
  }

  lemma ThreeParts(text: string, i: nat, k: nat)
    requires i <= k <= |text|
    ensures text == text[..i] + text[i..k] + text[k..]
  {
    assert text[..i] + text[i..k] == text[..k];
  }

  /**
   * When the last `]` comes before the first `[`, `substring` swaps its arguments: the slice
   * is the text strictly between the two brackets, which contains neither of them.
   */
  lemma LocateSwapped(text: string)
    requires '[' in text && ']' in text
    requires LastIndexOf(text, ']') < IndexOf(text, '[')
    ensures var i, j := IndexOf(text, '['), LastIndexOf(text, ']');
            LocateJsonArray(text) == JsonSlice(text[j + 1..i])
    ensures var s := LocateJsonArray(text).slice;
            '[' !in s && ']' !in s
  {
    var i, j := IndexOf(text, '['), LastIndexOf(text, ']');
    LocateSlice(text);
    assert text[j + 1..i] == text[..i][j + 1..];
    assert text[j + 1..i] == text[j + 1..][..i - j - 1];
  }

  /** `{ data?, error? }`, the value `scrapeContacts` resolves to. */
  datatype ScrapeResponse = ScrapeResponse(data: Option<seq<Contact>>, error: Option<string>)

  const ParseFailedMessage: string :=
    ErrorPrefix + " Failed to parse the contact data from the AI. The response was not valid JSON."

  /**
   * `scrapeContacts`. `parse` stands for `JSON.parse` on the located slice: `None` when it
   * throws a `SyntaxError`.
   */
  function ScrapeContacts(reply: ApiReply, parse: string -> Option<seq<Contact>>): (r: ScrapeResponse)
    ensures r.data.Some? <==> r.error.None?
    ensures r.error.Some? ==> r.error.value != []
    ensures reply.Thrown? ==> r.error.Some? && IsErrorText(r.error.value)
    ensures reply.Reply? && LocateJsonArray(reply.text) == Refused ==>
              r == ScrapeResponse(None, Some(RefusalMessage(reply.text)))
    ensures reply.Reply? && LocateJsonArray(reply.text) == NoArray ==>
              r == ScrapeResponse(None, Some(NoArrayMessage))
    ensures reply.Reply? && LocateJsonArray(reply.text).JsonSlice? ==>
              var parsed := parse(LocateJsonArray(reply.text).slice);
              r == if parsed.Some? then ScrapeResponse(parsed, None) else ScrapeResponse(None, Some(ParseFailedMessage))
  {
    match reply
    case Thrown(message) =>
      var detail := if message.Some? then " Could not perform scraping. " + message.value
                    else " An unknown error occurred during contact scraping.";
      var msg := ErrorPrefix + detail;
      PrefixOfConcat(ErrorPrefix, detail);
      ScrapeResponse(None, Some(msg))
    case Reply(text) =>
      match LocateJsonArray(text)
      case Refused => ScrapeResponse(None, Some(RefusalMessage(text)))
      case NoArray => ScrapeResponse(None, Some(NoArrayMessage))
      case JsonSlice(slice) =>
        match parse(slice)
        case None => ScrapeResponse(None, Some(ParseFailedMessage))
        case Some(data) => ScrapeResponse(Some(data), None)
  }
}
