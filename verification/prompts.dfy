/**
 * The prompt library of src/lib/prompts.ts: the `CONTENT_PROMPTS` templates,
 * the `getPrompt` selector, and the mock `generateContent` that picks a
 * canned reply by looking for marker words in the prompt.
 *
 * A template is rendered as its skeleton: the first line (the opening
 * instruction) and every line that interpolates a parameter, verbatim and in
 * order, each ended by its line break. The fixed instruction lines between
 * them are not reproduced, and a connector such as `ToneLine` joins the end
 * of one kept line to the start of the next. Each opening line, each
 * interpolated value and each marker word occurs verbatim in the full
 * template, so the facts of the form "the prompt contains" that rest on those
 * pieces hold for the full text too. `ClassifyUnderExtension` covers text
 * added before and after a prompt, not text between the skeleton's pieces.
 */
module Prompts {
  import opened Wrappers
  import opened Types
  import opened Strings

  /** One template of `CONTENT_PROMPTS` applied to its arguments. */
  datatype Template =
    | BlogGenerate(topic: string, keywords: seq<string>, tone: string, length: string)
    | BlogOutline(topic: string, keywords: seq<string>)
    | BlogRewrite(content: string, tone: string)
    | BlogHeadline(topic: string, keywords: seq<string>)
    | SocialTwitter(topic: string, tone: string)
    | SocialLinkedIn(topic: string, tone: string)
    | SocialInstagram(topic: string, tone: string)
    | SocialFacebook(topic: string, tone: string)
    | EmailNewsletter(topic: string, tone: string)
    | EmailPromotional(topic: string, tone: string)
    | CaptionGenerate(topic: string, platform: string, tone: string)
    | IdeationTopics(niche: string)
    | IdeationHeadlines(topic: string)
    | IdeationKeywords(topic: string)

  // The fixed text of the skeletons. A marker word that `generateContent`
  // looks for is kept as a piece of its own.
  const BlogGenerateIntro := "\nYou are an expert SEO content writer. Generate a "
  const BlogOutlineIntro := "\nYou are a content strategist. Create a detailed "
  const BlogRewriteIntro :=
    "\nYou are an expert content editor. Rewrite the following content to improve its quality and adjust the tone to be more "
  const BlogHeadlineIntro := "\nYou are a headline optimization expert. Generate 10 compelling headlines for a "
  const TwitterIntro := "\nYou are a social media expert. Create 5 engaging "
  const LinkedInIntro := "\nYou are a "
  const LinkedInTask := " content specialist. Create a professional LinkedIn post about \""
  const InstagramIntro := "\nYou are an Instagram content creator. Write an engaging Instagram caption about \""
  const FacebookIntro := "\nYou are a Facebook marketing expert. Create an engaging Facebook post about \""
  const NewsletterIntro := "\nYou are an email marketing specialist. Write a newsletter email about \""
  const PromotionalIntro := "\nYou are a conversion copywriter. Write a promotional email about \""
  const CaptionIntro := "\nYou are a social media copywriter. Create 5 captions for "
  const TopicsIntro := "\nYou are a content strategist specializing in "
  const TopicsTask := ". Generate 10 trending content ideas.\n"
  const HeadlinesIntro := "\nGenerate 10 headline variations for: \""
  const KeywordsIntro := "\nYou are an SEO expert. Generate a comprehensive keyword list for \""
  const ToneLine := "\".\n- Tone: "

  /** The rendered skeleton of a template, piece by piece. */
  function Pieces(t: Template): seq<string> {
    match t
    case BlogGenerate(topic, keywords, tone, length) =>
      [BlogGenerateIntro, length, " ", "blog post", " about \"", topic, ToneLine, tone,
       "\n- Target keywords to include naturally: ", Join(keywords, ", "), "\n"]
    case BlogOutline(topic, keywords) =>
      [BlogOutlineIntro, "blog post", " outline for \"", topic, "\".\nTarget keywords: ", Join(keywords, ", "), "\n"]
    case BlogRewrite(content, tone) =>
      [BlogRewriteIntro, tone, ".\nOriginal content:\n", content, "\n"]
    case BlogHeadline(topic, keywords) =>
      [BlogHeadlineIntro, "blog post", " about \"", topic, "\".\nKeywords to consider: ", Join(keywords, ", "), "\n"]
    case SocialTwitter(topic, tone) =>
      [TwitterIntro, "tweet", "s about \"", topic, ToneLine, tone, "\n"]
    case SocialLinkedIn(topic, tone) =>
      [LinkedInIntro, "LinkedIn", LinkedInTask, topic, ToneLine, tone, "\n"]
    case SocialInstagram(topic, tone) =>
      [InstagramIntro, topic, ToneLine, tone, "\n"]
    case SocialFacebook(topic, tone) =>
      [FacebookIntro, topic, ToneLine, tone, "\n"]
    case EmailNewsletter(topic, tone) =>
      [NewsletterIntro, topic, ToneLine, tone, "\n"]
    case EmailPromotional(topic, tone) =>
      [PromotionalIntro, topic, ToneLine, tone, "\n"]
    case CaptionGenerate(topic, platform, tone) =>
      [CaptionIntro, platform, " about \"", topic, ToneLine, tone, "\n- Appropriate length for ", platform, "\n"]
    case IdeationTopics(niche) =>
      [TopicsIntro, niche, TopicsTask]
    case IdeationHeadlines(topic) =>
      [HeadlinesIntro, topic, "\"\n"]
    case IdeationKeywords(topic) =>
      [KeywordsIntro, topic, "\".\n"]
  }

  /** The prompt text of a template. */
  function Render(t: Template): string {
    Join(Pieces(t), "")
  }

  /** The templates whose subject is the fourth piece of the skeleton. */
  lemma SubjectIsFourthPiece(t: Template)
    requires t.BlogOutline? || t.BlogHeadline? || t.SocialTwitter? || t.SocialLinkedIn? || t.CaptionGenerate? || t.BlogRewrite?
    ensures t.BlogRewrite? ==> Contains(Render(t), t.content)
    ensures !t.BlogRewrite? ==> Contains(Render(t), t.topic)
  {
    JoinContainsParts(Pieces(t), "", 3);
  }

  /** The templates whose subject is the second piece of the skeleton. */
  lemma SubjectIsSecondPiece(t: Template)
    requires t.SocialInstagram? || t.SocialFacebook? || t.EmailNewsletter? || t.EmailPromotional?
             || t.IdeationTopics? || t.IdeationHeadlines? || t.IdeationKeywords?
    ensures t.IdeationTopics? ==> Contains(Render(t), t.niche)
    ensures !t.IdeationTopics? ==> Contains(Render(t), t.topic)
  {
    JoinContainsParts(Pieces(t), "", 1);
  }

  /** Every template mentions its subject: the topic, the niche, or (for a rewrite) the content. */
  lemma RenderMentionsSubject(t: Template)
    ensures t.BlogRewrite? ==> Contains(Render(t), t.content)
    ensures t.IdeationTopics? ==> Contains(Render(t), t.niche)
    ensures !t.BlogRewrite? && !t.IdeationTopics? ==> Contains(Render(t), t.topic)
  {
    if t.BlogGenerate? {
      JoinContainsParts(Pieces(t), "", 5);
    } else if t.BlogOutline? || t.BlogHeadline? || t.SocialTwitter? || t.SocialLinkedIn? || t.CaptionGenerate? || t.BlogRewrite? {
      SubjectIsFourthPiece(t);
    } else {
      SubjectIsSecondPiece(t);
    }
  }

  /** The arguments `getPrompt` receives; `None` is a missing (undefined) property. */
  datatype Params = Params(
    topic: string,
    keywords: Option<seq<string>>,
    tone: Option<string>,
    length: Option<string>,
    platform: Option<string>,
    content: Option<string>)

  /** The destructured parameters, defaults filled in. */
  datatype Settings = Settings(
    topic: string, keywords: seq<string>, tone: string, length: string, platform: string, content: string)

  /** Destructuring with defaults: a default applies only where the property is missing. */
  function Resolve(p: Params): Settings {
    Settings(p.topic, p.keywords.GetOr([]), p.tone.GetOr("professional"), p.length.GetOr("medium"),
             p.platform.GetOr("twitter"), p.content.GetOr(""))
  }

  /** Missing parameters become 'professional', 'medium', 'twitter', [] and ''; present ones, even empty, are kept. */
  lemma ResolveDefaults(p: Params)
    ensures var s := Resolve(p);
            s.topic == p.topic
            && (s.keywords == if p.keywords.None? then [] else p.keywords.value)
            && (s.tone == if p.tone.None? then "professional" else p.tone.value)
            && (s.length == if p.length.None? then "medium" else p.length.value)
            && (s.platform == if p.platform.None? then "twitter" else p.platform.value)
            && (s.content == if p.content.None? then "" else p.content.value)
  {
  }

  /** The own keys of `CONTENT_PROMPTS.social`. */
  const SocialNames: set<string> := {"twitter", "linkedin", "instagram", "facebook"}

  /** The social template named `name`. */
  function SocialTemplate(name: string, topic: string, tone: string): Template
    requires name in SocialNames
  {
    if name == "twitter" then SocialTwitter(topic, tone)
    else if name == "linkedin" then SocialLinkedIn(topic, tone)
    else if name == "instagram" then SocialInstagram(topic, tone)
    else SocialFacebook(topic, tone)
  }

  /** The template `getPrompt` picks; the social lookup honours the template's own keys only. */
  function Select(kind: ContentType, mode: string, p: Params): Template {
    var s := Resolve(p);
    match kind
    case Blog =>
      if mode == "generate" then BlogGenerate(s.topic, s.keywords, s.tone, s.length)
      else if mode == "outline" then BlogOutline(s.topic, s.keywords)
      else if mode == "rewrite" then BlogRewrite(s.content, s.tone)
      else if mode == "headline" then BlogHeadline(s.topic, s.keywords)
      else BlogGenerate(s.topic, s.keywords, s.tone, s.length)
    case Social =>
      if s.platform in SocialNames then SocialTemplate(s.platform, s.topic, s.tone)
      else SocialTwitter(s.topic, s.tone)
    case Email =>
      if mode == "generate" then EmailNewsletter(s.topic, s.tone) else EmailPromotional(s.topic, s.tone)
    case Caption =>
      CaptionGenerate(s.topic, s.platform, s.tone)
  }

  /** `getPrompt(type, mode, params)`. */
  function GetPrompt(kind: ContentType, mode: string, p: Params): string {
    Render(Select(kind, mode, p))
  }

  /** For a blog, the mode picks the template; every other mode, 'generate' included, gets the generate template. */
  lemma SelectBlog(mode: string, p: Params)
    ensures var t := Select(Blog, mode, p);
            (t.BlogOutline? <==> mode == "outline")
            && (t.BlogRewrite? <==> mode == "rewrite")
            && (t.BlogHeadline? <==> mode == "headline")
            && (t.BlogGenerate? <==> mode !in {"outline", "rewrite", "headline"})
  {
  }

  /** The blog generate template is only ever the choice for a blog. */
  lemma GenerateOnlyForBlog(kind: ContentType, mode: string, p: Params)
    ensures Select(kind, mode, p).BlogGenerate? ==> kind == Blog
  {
  }

  /** The rewrite template embeds the content and the tone, and does not depend on the topic at all. */
  lemma RewriteIgnoresTopic(p: Params, otherTopic: string)
    ensures Select(Blog, "rewrite", p) == Select(Blog, "rewrite", p.(topic := otherTopic))
    ensures Contains(GetPrompt(Blog, "rewrite", p), Resolve(p).content)
    ensures Contains(GetPrompt(Blog, "rewrite", p), Resolve(p).tone)
  {
    var t := Select(Blog, "rewrite", p);
    JoinContainsParts(Pieces(t), "", 3);
    JoinContainsParts(Pieces(t), "", 1);
  }

  /** Every prompt but the rewrite mentions the topic. */
  lemma PromptMentionsTopic(kind: ContentType, mode: string, p: Params)
    requires !(kind == Blog && mode == "rewrite")
    ensures Contains(GetPrompt(kind, mode, p), p.topic)
  {
    RenderMentionsSubject(Select(kind, mode, p));
  }

  /** Blog prompts other than the rewrite render the keywords joined by ", ". */
  lemma BlogKeywordsJoined(mode: string, p: Params)
    requires mode != "rewrite"
    ensures Contains(GetPrompt(Blog, mode, p), Join(Resolve(p).keywords, ", "))
  {
    var t := Select(Blog, mode, p);
    if t.BlogGenerate? {
      JoinContainsParts(Pieces(t), "", 9);
    } else {
      JoinContainsParts(Pieces(t), "", 5);
    }
  }

  /** Social prompts ignore the mode. */
  lemma SocialIgnoresMode(mode1: string, mode2: string, p: Params)
    ensures Select(Social, mode1, p) == Select(Social, mode2, p)
  {
  }

  /** The platform names its template; anything else, a missing platform included, falls back to the tweets. */
  lemma SocialByPlatform(mode: string, p: Params)
    ensures var t := Select(Social, mode, p);
            var name := Resolve(p).platform;
            (t.SocialLinkedIn? <==> name == "linkedin")
            && (t.SocialInstagram? <==> name == "instagram")
            && (t.SocialFacebook? <==> name == "facebook")
            && (t.SocialTwitter? <==> name !in {"linkedin", "instagram", "facebook"})
            && t.topic == p.topic && t.tone == Resolve(p).tone
  {
  }

  /** An e-mail is a newsletter for the mode 'generate' and a promotional e-mail for every other mode. */
  lemma EmailByMode(mode: string, p: Params)
    ensures Select(Email, mode, p).EmailNewsletter? <==> mode == "generate"
    ensures Select(Email, mode, p).EmailPromotional? <==> mode != "generate"
  {
  }

  /** A caption prompt names the platform (default 'twitter') and the topic, whatever the mode. */
  lemma CaptionNamesPlatform(mode: string, p: Params)
    ensures Select(Caption, mode, p) == Select(Caption, "generate", p)
    ensures Contains(GetPrompt(Caption, mode, p), Resolve(p).platform)
    ensures Contains(GetPrompt(Caption, mode, p), p.topic)
  {
    var t := Select(Caption, mode, p);
    JoinContainsParts(Pieces(t), "", 1);
    JoinContainsParts(Pieces(t), "", 3);
  }

  // ---- The social lookup as written

  /** The properties every plain object inherits from `Object.prototype`. */
  const ObjectPrototypeMembers: set<string> := {
    "constructor", "hasOwnProperty", "isPrototypeOf", "propertyIsEnumerable", "toLocaleString",
    "toString", "valueOf", "__defineGetter__", "__defineSetter__", "__lookupGetter__",
    "__lookupSetter__", "__proto__"}

  /**
   * What `getPrompt` returns as written: a prompt, or, when the platform
   * names an inherited member, whatever that member gives when called with
   * (topic, tone) (a boolean, an object, "[object Object]", or a TypeError)
   * instead of a template.
   */
  datatype Outcome = Prompt(text: string) | InheritedMember(name: string)

  /** `getPrompt` as written: `socialPrompts[platform]` also finds the inherited members, which are truthy. */
  function GetPromptAsWritten(kind: ContentType, mode: string, p: Params): (r: Outcome)
    ensures r.InheritedMember? <==> kind == Social && Resolve(p).platform in ObjectPrototypeMembers
  {
    var s := Resolve(p);
    if kind == Social && s.platform !in SocialNames && s.platform in ObjectPrototypeMembers
    then InheritedMember(s.platform)
    else Prompt(GetPrompt(kind, mode, p))
  }

  /** Away from the inherited member names, the code as written and the own-key lookup agree. */
  lemma AsWrittenAgrees(kind: ContentType, mode: string, p: Params)
    requires kind != Social || Resolve(p).platform !in ObjectPrototypeMembers
    ensures GetPromptAsWritten(kind, mode, p) == Prompt(GetPrompt(kind, mode, p))
  {
  }

  /** The platform "toString" does not fall back to the tweets template as written; with own keys only it does. */
  lemma ToStringPlatformCounterexample()
    ensures var p := Params("AI tools", None, None, None, Some("toString"), None);
            GetPromptAsWritten(Social, "generate", p) == InheritedMember("toString")
            && GetPrompt(Social, "generate", p) == Render(SocialTwitter("AI tools", "professional"))
  {
    assert "toString" !in SocialNames;
  }

  // ---- generateContent

  /** The canned replies of `generateContent`. */
  datatype MockReply = BlogArticle | TweetList | LinkedInPost | Placeholder

  /** The reply `generateContent` picks: the first marker found, in the order 'blog post', 'tweet', 'LinkedIn'. */
  function Classify(prompt: string): MockReply {
    if Contains(prompt, "blog post") then BlogArticle
    else if Contains(prompt, "tweet") then TweetList
    else if Contains(prompt, "LinkedIn") then LinkedInPost
    else Placeholder
  }

  /** The position of a reply in the priority order. */
  function Rank(r: MockReply): nat {
    match r
    case BlogArticle => 0
    case TweetList => 1
    case LinkedInPost => 2
    case Placeholder => 3
  }

  /** Adding text around a prompt can only move its reply earlier in the priority order. */
  lemma ClassifyUnderExtension(a: string, s: string, b: string)
    ensures Rank(Classify(a + s + b)) <= Rank(Classify(s))
  {
    if Contains(s, "blog post") {
      ContainsWithin(a, s, b, "blog post");
    } else if Contains(s, "tweet") {
      ContainsWithin(a, s, b, "tweet");
    } else if Contains(s, "LinkedIn") {
      ContainsWithin(a, s, b, "LinkedIn");
    }
  }

  /** Blog prompts other than the rewrite get the blog article. */
  lemma BlogPromptsGetArticle(mode: string, p: Params)
    requires mode != "rewrite"
    ensures Classify(GetPrompt(Blog, mode, p)) == BlogArticle
  {
    var t := Select(Blog, mode, p);
    JoinContainsParts(Pieces(t), "", if t.BlogGenerate? then 3 else 1);
  }

  /** The tweets skeleton written out as one concatenation. */
  lemma TwitterRender(topic: string, tone: string)
    ensures Render(SocialTwitter(topic, tone)) == TwitterIntro + "tweet" + "s about \"" + topic + ToneLine + tone + "\n"
  {
    JoinSeven(TwitterIntro, "tweet", "s about \"", topic, ToneLine, tone, "\n");
  }

  // The fixed tweets text before the topic, in two halves.
  const TwitterHeadStart := "\nYou are a social media "
  const TwitterHeadEnd := "expert. Create 5 engaging tweets about \""

  /** The fixed tweets text before the topic is the two halves. */
  lemma TwitterHeadHalves()
    ensures TwitterIntro + "tweet" + "s about \"" == TwitterHeadStart + TwitterHeadEnd
  {
    var rest := "expert. Create 5 engaging ";
    assert TwitterHeadStart + rest == TwitterIntro;
    assert rest + "tweet" + "s about \"" == TwitterHeadEnd;
    assert TwitterHeadStart + rest + "tweet" + "s about \"" == TwitterHeadStart + (rest + "tweet" + "s about \"");
  }

  /** The first half never says 'blog post': it is three pieces shorter than that, with no way across. */
  lemma TwitterHeadStartAvoids()
    ensures !Contains(TwitterHeadStart, "blog post")
  {
    var u := "blog post";
    NotContainsAcross("\nYou are", " a socia", u);
    NotContainsAcross("\nYou are" + " a socia", "l media ", u);
    assert "\nYou are" + " a socia" + "l media " == TwitterHeadStart;
  }

  /** The start of the second half never says 'blog post'. */
  lemma TwitterExpertAvoids()
    ensures !Contains("expert. Create 5", "blog post")
  {
    NotContainsAcross("expert. ", "Create 5", "blog post");
  }

  /** The rest of the second half never says 'blog post'. */
  lemma TwitterTweetsAboutAvoids()
    ensures !Contains(" engaging tweets about \"", "blog post")
  {
    var u := "blog post";
    NotContainsAcross(" engagin", "g tweet", u);
    NotContainsAcross(" engagin" + "g tweet", "s about ", u);
    NotContainsAcross(" engagin" + "g tweet" + "s about ", "\"", u);
    assert " engagin" + "g tweet" + "s about " + "\"" == " engaging tweets about \"";
  }

  /** The second half never says 'blog post'. */
  lemma TwitterHeadEndAvoids()
    ensures !Contains(TwitterHeadEnd, "blog post")
  {
    TwitterExpertAvoids();
    TwitterTweetsAboutAvoids();
    NotContainsAcross("expert. Create 5", " engaging tweets about \"", "blog post");
    assert "expert. Create 5" + " engaging tweets about \"" == TwitterHeadEnd;
  }

  /** The fixed text before the topic in the tweets prompt never says 'blog post'. */
  lemma TwitterHeadAvoidsBlogPost()
    ensures !Contains(TwitterIntro + "tweet" + "s about \"", "blog post")
  {
    TwitterHeadStartAvoids();
    TwitterHeadEndAvoids();
    NotContainsAcross(TwitterHeadStart, TwitterHeadEnd, "blog post");
    TwitterHeadHalves();
  }

  /** The line break and tone label between topic and tone never say 'blog post'. */
  lemma ToneLineAvoidsBlogPost()
    ensures !Contains(ToneLine, "blog post")
  {
    NotContainsAcross("\".\n", "- Tone: ", "blog post");
    assert "\".\n" + "- Tone: " == ToneLine;
  }

  /** A tweets prompt whose topic or tone says 'blog post' gets the blog article. */
  lemma TweetsPromptSayingBlogPost(topic: string, tone: string)
    requires Contains(topic, "blog post") || Contains(tone, "blog post")
    ensures Classify(Render(SocialTwitter(topic, tone))) == BlogArticle
  {
    var ps := Pieces(SocialTwitter(topic, tone));
    if Contains(topic, "blog post") {
      JoinContainsParts(ps, "", 3);
      ContainsTrans(Join(ps, ""), topic, "blog post");
    } else {
      JoinContainsParts(ps, "", 5);
      ContainsTrans(Join(ps, ""), tone, "blog post");
    }
  }

  /**
   * Otherwise the tweets prompt never says 'blog post': no occurrence can
   * reach across the quotes, the line break or the "Tone: " label around
   * the two values.
   */
  lemma TweetsPromptAvoidsBlogPost(topic: string, tone: string)
    requires !Contains(topic, "blog post") && !Contains(tone, "blog post")
    ensures !Contains(Render(SocialTwitter(topic, tone)), "blog post")
  {
    var u := "blog post";
    var front := TwitterIntro + "tweet" + "s about \"" + topic + ToneLine;
    TwitterRender(topic, tone);
    TweetsFrontAvoidsBlogPost(topic);
    NotContainsAcross(front, tone, u);
    NotContainsAcross(front + tone, "\n", u);
  }

  /** The tweets prompt up to the tone never says 'blog post' when its topic does not. */
  lemma TweetsFrontAvoidsBlogPost(topic: string)
    requires !Contains(topic, "blog post")
    ensures !Contains(TwitterIntro + "tweet" + "s about \"" + topic + ToneLine, "blog post")
    ensures var front := TwitterIntro + "tweet" + "s about \"" + topic + ToneLine;
            front[|front| - 2] == ':' && front[|front| - 1] == ' '
  {
    var u := "blog post";
    var head := TwitterIntro + "tweet" + "s about \"";
    TwitterHeadAvoidsBlogPost();
    ToneLineAvoidsBlogPost();
    NotContainsAcross(head, topic, u);
    NotContainsAcross(head + topic, ToneLine, u);
  }

  /** The tweets prompt gets the tweet list, unless its topic or tone already says 'blog post'. */
  lemma TweetsPromptGetsTweets(topic: string, tone: string)
    ensures Classify(Render(SocialTwitter(topic, tone))) in {BlogArticle, TweetList}
    ensures Classify(Render(SocialTwitter(topic, tone))) == TweetList
            <==> !Contains(topic, "blog post") && !Contains(tone, "blog post")
  {
    JoinContainsParts(Pieces(SocialTwitter(topic, tone)), "", 1);
    if Contains(topic, "blog post") || Contains(tone, "blog post") {
      TweetsPromptSayingBlogPost(topic, tone);
    } else {
      TweetsPromptAvoidsBlogPost(topic, tone);
    }
  }

  /** The LinkedIn prompt never gets the placeholder. */
  lemma LinkedInPromptNotPlaceholder(topic: string, tone: string)
    ensures Classify(Render(SocialLinkedIn(topic, tone))) != Placeholder
  {
    JoinContainsParts(Pieces(SocialLinkedIn(topic, tone)), "", 1);
  }
}
