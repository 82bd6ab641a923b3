/**
 * The content generation endpoint of src/app/api/generate/route.ts: read
 * the JSON body, insist on a topic, build one prompt from the type, mode and
 * platform, send it to the completion service and answer with its first
 * choice. The completion service is a parameter (`oracle`): whatever it
 * answers for the prompt, or the error it throws.
 *
 * Prompts are rendered as skeletons, as in the Prompts module: the first
 * line and every interpolated line, verbatim and in order.
 */
module GenerateRoute {
  import opened Wrappers
  import opened Strings

  /** A property of the JSON body: missing, `null`, or a string. */
  datatype Field = Absent | Null | Text(s: string)

  /** JavaScript truthiness of a field: a non-empty string. */
  predicate Truthy(f: Field) {
    f.Text? && f.s != ""
  }

  /** `${f}` in a template literal. */
  function Interp(f: Field): string {
    match f
    case Absent => "undefined"
    case Null => "null"
    case Text(s) => s
  }

  /** `${f || fallback}`: the fallback replaces every falsy field, the empty string included. */
  function OrElse(f: Field, fallback: string): (r: string)
    ensures Truthy(f) ==> r == f.s
    ensures !Truthy(f) ==> r == fallback
  {
    if Truthy(f) then f.s else fallback
  }

  /** The properties the endpoint destructures from the body. */
  datatype Fields = Fields(
    kind: Field, topic: Field, keywords: Field, tone: Field, length: Field,
    mode: Field, platform: Field, existingContent: Field)

  /** The body: either it could not be read as an object (the message of the error thrown), or its fields. */
  datatype Request = Malformed(message: string) | Parsed(fields: Fields)

  /** The prompt the endpoint builds, with every default and fallback resolved. */
  datatype RouteTemplate =
    | Outline(topic: string, keywords: string)
    | Headlines(topic: string, keywords: string)
    | Rewrite(tone: string, existing: string)
    | Generate(lengthGuide: string, topic: string, tone: string, keywords: string)
    | LinkedInPost(topic: string, tone: string)
    | InstagramCaption(topic: string, tone: string)
    | Tweets(topic: string, tone: string)
    | Newsletter(topic: string, tone: string)
    | Captions(platform: string, topic: string, tone: string)
    | NoPrompt

  /** The word-count band of the blog generate prompt. */
  function LengthGuide(length: Field): string {
    if length == Text("short") then "500-800 words"
    else if length == Text("long") then "2000-3000 words"
    else "1000-1500 words"
  }

  /** Only 'short' and 'long' leave the medium band, and each gets its own. */
  lemma LengthGuideBands(length: Field)
    ensures LengthGuide(length) == "500-800 words" <==> length == Text("short")
    ensures LengthGuide(length) == "2000-3000 words" <==> length == Text("long")
    ensures LengthGuide(length) == "1000-1500 words" <==> length != Text("short") && length != Text("long")
  {
  }

  /** The if/else chain that assigns `prompt`. */
  function Choose(r: Fields): RouteTemplate {
    var topic := Interp(r.topic);
    if r.kind == Text("blog") then
      if r.mode == Text("outline") then Outline(topic, OrElse(r.keywords, "none specified"))
      else if r.mode == Text("headline") then Headlines(topic, OrElse(r.keywords, "none"))
      else if r.mode == Text("rewrite") then Rewrite(OrElse(r.tone, "professional"), Interp(r.existingContent))
      else Generate(LengthGuide(r.length), topic, OrElse(r.tone, "professional"),
                    OrElse(r.keywords, "use relevant keywords naturally"))
    else if r.kind == Text("social") then
      if r.platform == Text("linkedin") then LinkedInPost(topic, OrElse(r.tone, "professional"))
      else if r.platform == Text("instagram") then InstagramCaption(topic, OrElse(r.tone, "casual"))
      else Tweets(topic, OrElse(r.tone, "casual"))
    else if r.kind == Text("email") then Newsletter(topic, OrElse(r.tone, "friendly"))
    else if r.kind == Text("caption") then
      Captions(OrElse(r.platform, "social media"), topic, OrElse(r.tone, "casual"))
    else NoPrompt
  }

  const RewriteTask := "Rewrite the following content to improve its quality and adjust the tone to be more "
  const HeadlinesTask := "Generate 10 compelling headlines for a "
  const InstagramTask := "Write an engaging Instagram caption about \""
  const NewsletterTask := "Write a newsletter email about \""

  /** The skeleton of a prompt, piece by piece. */
  function RoutePieces(t: RouteTemplate): seq<string> {
    match t
    case Outline(topic, keywords) =>
      ["Create a detailed ", "blog post", " outline for \"", topic, "\".\n", "Target keywords: ", keywords, "\n"]
    case Headlines(topic, keywords) =>
      [HeadlinesTask, "blog post", " about \"", topic, "\".\n", "Keywords to consider: ", keywords, "\n"]
    case Rewrite(tone, existing) =>
      [RewriteTask, tone, ".\n", "Original content:\n", existing, "\n"]
    case Generate(guide, topic, tone, keywords) =>
      ["Write a ", guide, " ", "blog post", " about \"", topic, "\".\n", "- Tone: ", tone, "\n",
       "- Target keywords: ", keywords, "\n"]
    case LinkedInPost(topic, tone) =>
      ["Create a professional ", "LinkedIn", " post about \"", topic, "\".\n", "- Tone: ", tone, "\n"]
    case InstagramCaption(topic, tone) =>
      [InstagramTask, topic, "\".\n", "- Tone: ", tone, "\n"]
    case Tweets(topic, tone) =>
      ["Create 5 engaging ", "tweet", "s about \"", topic, "\".\n", "- Tone: ", tone, "\n"]
    case Newsletter(topic, tone) =>
      [NewsletterTask, topic, "\".\n", "- Tone: ", tone, "\n"]
    case Captions(platform, topic, tone) =>
      ["Create 5 short captions for ", platform, " about \"", topic, "\".\n", "- Tone: ", tone, "\n"]
    case NoPrompt => []
  }

  /** The prompt text sent to the completion service. */
  function BuildPrompt(r: Fields): string {
    Join(RoutePieces(Choose(r)), "")
  }

  /** What the completion service does with a prompt: answers (the content of its first choice, if any), or throws. */
  datatype Completion = Completed(firstChoice: Option<Field>) | Failed(message: string)

  datatype Body = ContentBody(content: string) | ErrorBody(error: string)

  datatype Response = Response(status: nat, body: Body)

  /** The 500 answer for a thrown error: its message, or the fallback when the message is empty. */
  function ServerError(message: string): (r: Response)
    ensures r.status == 500 && r.body.ErrorBody? && r.body.error != ""
    ensures message != "" ==> r.body.error == message
    ensures message == "" ==> r.body.error == "Failed to generate content"
  {
    Response(500, ErrorBody(if message != "" then message else "Failed to generate content"))
  }

  /** `completion.choices[0]?.message?.content || ''`. */
  function ReplyContent(c: Option<Field>): (r: string)
    ensures r == "" <==> c.None? || !c.value.Text? || c.value.s == ""
    ensures r != "" ==> c == Some(Text(r))
  {
    if c.Some? then OrElse(c.value, "") else ""
  }

  /** `POST(request)`, with the completion service as `oracle`. */
  function Handle(req: Request, oracle: string -> Completion): Response {
    match req
    case Malformed(message) => ServerError(message)
    case Parsed(r) =>
      if !Truthy(r.topic) then Response(400, ErrorBody("Topic is required"))
      else
        match oracle(BuildPrompt(r))
        case Completed(first) => Response(200, ContentBody(ReplyContent(first)))
        case Failed(message) => ServerError(message)
  }

  // ---- Properties

  /** A missing or empty topic is refused with 400 before the completion service is asked anything. */
  lemma TopicRequired(r: Fields, oracle1: string -> Completion, oracle2: string -> Completion)
    requires !Truthy(r.topic)
    ensures Handle(Parsed(r), oracle1) == Response(400, ErrorBody("Topic is required"))
    ensures Handle(Parsed(r), oracle1) == Handle(Parsed(r), oracle2)
  {
  }

  /** With a topic, the answer depends only on what the service answers for the prompt built. */
  lemma OnlyThePromptIsAsked(r: Fields, oracle1: string -> Completion, oracle2: string -> Completion)
    requires Truthy(r.topic)
    requires oracle1(BuildPrompt(r)) == oracle2(BuildPrompt(r))
    ensures Handle(Parsed(r), oracle1) == Handle(Parsed(r), oracle2)
  {
  }

  /**
   * With a topic, an answer is a 200 carrying the first choice's text
   * verbatim, '' when there is no text; a throw is the 500 of its message.
   */
  lemma CompletionOutcomes(r: Fields, oracle: string -> Completion)
    requires Truthy(r.topic)
    ensures oracle(BuildPrompt(r)).Completed? ==>
              Handle(Parsed(r), oracle) == Response(200, ContentBody(ReplyContent(oracle(BuildPrompt(r)).firstChoice)))
    ensures forall t :: oracle(BuildPrompt(r)) == Completed(Some(Text(t))) ==>
              Handle(Parsed(r), oracle) == Response(200, ContentBody(t))
    ensures oracle(BuildPrompt(r)) == Completed(None) ==> Handle(Parsed(r), oracle) == Response(200, ContentBody(""))
    ensures oracle(BuildPrompt(r)).Failed? ==>
              Handle(Parsed(r), oracle) == ServerError(oracle(BuildPrompt(r)).message)
              && Handle(Parsed(r), oracle).status == 500
  {
    var c := oracle(BuildPrompt(r));
    if c.Completed? && c.firstChoice.Some? && c.firstChoice.value.Text? {
      var t := c.firstChoice.value.s;
      assert ReplyContent(c.firstChoice) == t;
    }
  }

  /** A body that cannot be read is a 500, whatever the service would say. */
  lemma MalformedIsServerError(message: string, oracle: string -> Completion)
    ensures Handle(Malformed(message), oracle) == ServerError(message)
    ensures Handle(Malformed(message), oracle).status == 500
    ensures message != "" ==> Handle(Malformed(message), oracle).body == ErrorBody(message)
    ensures message == "" ==> Handle(Malformed(message), oracle).body == ErrorBody("Failed to generate content")
  {
  }

  /** For a blog, 'outline', 'headline' and 'rewrite' pick their prompts; any other or missing mode generates. */
  lemma BlogByMode(r: Fields)
    requires r.kind == Text("blog")
    ensures var t := Choose(r);
            (t.Outline? <==> r.mode == Text("outline"))
            && (t.Headlines? <==> r.mode == Text("headline"))
            && (t.Rewrite? <==> r.mode == Text("rewrite"))
            && (t.Generate? <==> r.mode !in {Text("outline"), Text("headline"), Text("rewrite")})
  {
  }

  /** A social post is for LinkedIn or Instagram when the platform says so, and tweets otherwise. */
  lemma SocialByPlatform(r: Fields)
    requires r.kind == Text("social")
    ensures var t := Choose(r);
            (t.LinkedInPost? <==> r.platform == Text("linkedin"))
            && (t.InstagramCaption? <==> r.platform == Text("instagram"))
            && (t.Tweets? <==> r.platform != Text("linkedin") && r.platform != Text("instagram"))
  {
  }

  /** An e-mail is always the newsletter, whatever the mode and the platform. */
  lemma EmailIgnoresModeAndPlatform(r: Fields, mode: Field, platform: Field)
    requires r.kind == Text("email")
    ensures Choose(r).Newsletter?
    ensures Choose(r) == Choose(r.(mode := mode, platform := platform))
  {
  }

  /** An unknown or missing type leaves the prompt empty, and the empty prompt is still sent. */
  lemma UnknownTypeSendsEmptyPrompt(r: Fields)
    ensures Choose(r).NoPrompt? <==> r.kind !in {Text("blog"), Text("social"), Text("email"), Text("caption")}
    ensures Choose(r).NoPrompt? ==> BuildPrompt(r) == ""
  {
  }

  /** The prompts that carry a tone. */
  predicate HasTone(t: RouteTemplate) {
    t.Rewrite? || t.Generate? || t.LinkedInPost? || t.InstagramCaption? || t.Tweets? || t.Newsletter? || t.Captions?
  }

  /** A tone that is given and non-empty is used as it is. */
  lemma ToneKept(r: Fields)
    requires Truthy(r.tone) && HasTone(Choose(r))
    ensures Choose(r).tone == r.tone.s
  {
  }

  /** A missing or empty tone defaults by branch: professional, casual or friendly. */
  lemma ToneDefaults(r: Fields)
    requires !Truthy(r.tone)
    ensures var t := Choose(r);
            (t.Rewrite? || t.Generate? || t.LinkedInPost? ==> t.tone == "professional")
            && (t.InstagramCaption? || t.Tweets? || t.Captions? ==> t.tone == "casual")
            && (t.Newsletter? ==> t.tone == "friendly")
  {
  }

  /** Missing or empty keywords and platform get the branch's fallback text. */
  lemma Fallbacks(r: Fields)
    ensures var t := Choose(r);
            (!Truthy(r.keywords) && t.Outline? ==> t.keywords == "none specified")
            && (!Truthy(r.keywords) && t.Headlines? ==> t.keywords == "none")
            && (!Truthy(r.keywords) && t.Generate? ==> t.keywords == "use relevant keywords naturally")
            && (!Truthy(r.platform) && t.Captions? ==> t.platform == "social media")
            && (Truthy(r.keywords) && (t.Outline? || t.Headlines? || t.Generate?) ==> t.keywords == r.keywords.s)
  {
  }

  /** Every prompt but the rewrite and the empty one mentions the topic. */
  lemma PromptMentionsTopic(r: Fields)
    requires !Choose(r).Rewrite? && !Choose(r).NoPrompt?
    ensures Contains(BuildPrompt(r), Interp(r.topic))
  {
    var t := Choose(r);
    JoinContainsParts(RoutePieces(t), "", if t.Generate? then 5 else if t.InstagramCaption? || t.Newsletter? then 1 else 3);
  }

  /** A rewrite without `existingContent` asks to rewrite the text "undefined". */
  lemma RewriteOfMissingContent(r: Fields)
    requires r.kind == Text("blog") && r.mode == Text("rewrite") && r.existingContent == Absent
    ensures Contains(BuildPrompt(r), "undefined")
  {
    var t := Choose(r);
    assert t == Rewrite(OrElse(r.tone, "professional"), "undefined");
    JoinContainsParts(RoutePieces(t), "", 4);
  }

  /** The blog generate prompt states the word-count band. */
  lemma GeneratePromptStatesLength(r: Fields)
    requires Choose(r).Generate?
    ensures Contains(BuildPrompt(r), LengthGuide(r.length))
  {
    JoinContainsParts(RoutePieces(Choose(r)), "", 1);
  }
}
