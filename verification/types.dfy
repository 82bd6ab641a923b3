/**
 * The entities of the content-marketing dashboard, as declared in
 * src/types/index.ts. Every record is a value; the stores that keep them
 * (Db, ClientStore, Auth) decide how they change. Ids and timestamps are
 * opaque strings supplied by the caller or the environment. JavaScript
 * numbers are modelled as mathematical integers.
 */
module Types {
  import opened Wrappers

  datatype Role = Admin | Editor | Viewer

  datatype Competition = Low | Medium | High

  datatype SearchIntent = Informational | Commercial | Transactional | Navigational

  datatype IdeaSource = Trending | Competitor | Keyword | Question

  datatype ContentType = Blog | Social | Email | Caption

  datatype ContentStatus = Draft | Scheduled | Published | Failed

  datatype Platform = WordPress | LinkedIn | Twitter | Instagram | Facebook | Medium

  datatype MediaType = Image | Video | Gif

  datatype MediaSource = AiGenerated | Stock | Uploaded

  datatype PostStatus = Pending | Posted | PostFailed

  /** The string a platform is written as in the application ('wordpress', 'linkedin', ...). */
  function PlatformName(p: Platform): string {
    match p
    case WordPress => "wordpress"
    case LinkedIn => "linkedin"
    case Twitter => "twitter"
    case Instagram => "instagram"
    case Facebook => "facebook"
    case Medium => "medium"
  }

  datatype User = User(
    id: string,
    email: string,
    name: string,
    avatar: Option<string>,
    role: Role,
    createdAt: string,
    workspaceId: string)

  datatype Workspace = Workspace(
    id: string,
    name: string,
    niche: string,
    description: Option<string>,
    createdAt: string,
    ownerId: string)

  datatype ContentIdea = ContentIdea(
    id: string,
    title: string,
    description: string,
    keywords: seq<string>,
    searchVolume: int,
    competition: Competition,
    searchIntent: SearchIntent,
    score: int,
    source: IdeaSource,
    createdAt: string,
    workspaceId: string)

  datatype MediaAsset = MediaAsset(
    id: string,
    url: string,
    kind: MediaType,
    source: MediaSource,
    alt: Option<string>,
    width: Option<int>,
    height: Option<int>,
    createdAt: string,
    workspaceId: string)

  /** A piece of content; the field `type` of the source is called `kind` here. */
  datatype Content = Content(
    id: string,
    title: string,
    body: string,
    kind: ContentType,
    status: ContentStatus,
    tone: string,
    seoScore: Option<int>,
    readabilityScore: Option<int>,
    keywords: seq<string>,
    platforms: seq<Platform>,
    scheduledAt: Option<string>,
    publishedAt: Option<string>,
    createdAt: string,
    updatedAt: string,
    workspaceId: string,
    authorId: string,
    ideaId: Option<string>,
    mediaAssets: seq<MediaAsset>)

  datatype BrandTemplate = BrandTemplate(
    id: string,
    name: string,
    primaryColor: string,
    secondaryColor: string,
    fontFamily: string,
    logoUrl: Option<string>,
    createdAt: string,
    workspaceId: string)

  datatype ScheduledPost = ScheduledPost(
    id: string,
    contentId: string,
    platform: Platform,
    scheduledAt: string,
    status: PostStatus,
    publishedUrl: Option<string>,
    error: Option<string>,
    createdAt: string)

  datatype Integration = Integration(
    id: string,
    platform: Platform,
    accessToken: string,
    refreshToken: Option<string>,
    expiresAt: Option<string>,
    accountName: string,
    accountId: string,
    isActive: bool,
    createdAt: string,
    workspaceId: string)

  datatype Analytics = Analytics(
    id: string,
    contentId: string,
    platform: Platform,
    impressions: int,
    clicks: int,
    engagement: int,
    shares: int,
    comments: int,
    likes: int,
    rankingPosition: Option<int>,
    date: string)

  // The `id` of each record kind, as a function value for the generic table helpers.
  function UserId(u: User): string { u.id }
  function WorkspaceId(w: Workspace): string { w.id }
  function IdeaId(i: ContentIdea): string { i.id }
  function ContentId(c: Content): string { c.id }
  function MediaId(m: MediaAsset): string { m.id }
  function PostId(p: ScheduledPost): string { p.id }
  function IntegrationId(i: Integration): string { i.id }
}
