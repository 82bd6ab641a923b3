/**
 * Object spread on records. A create stamps a record with a fresh id and
 * clock readings written AFTER the spread (`{ ...data, id, createdAt }`), so
 * they override whatever the input carried under those names: TypeScript's
 * `Omit<...>` is a compile-time restriction only. An update merges a
 * `Partial<T>` (`{ ...record, ...updates }`): every key the patch carries
 * wins. A patch field is `None` when the key is absent; for an optional
 * record field, `Some(None)` is the key present with value `undefined`.
 */
module Records {
  import opened Wrappers
  import opened Types

  /** `{ ...user, id, createdAt }` */
  function StampUser(user: User, id: string, now: string): (r: User)
    ensures r.id == id && r.createdAt == now
    ensures r.(id := user.id, createdAt := user.createdAt) == user
  {
    user.(id := id, createdAt := now)
  }

  /** `{ ...workspace, id, createdAt }` */
  function StampWorkspace(workspace: Workspace, id: string, now: string): (r: Workspace)
    ensures r.id == id && r.createdAt == now
    ensures r.(id := workspace.id, createdAt := workspace.createdAt) == workspace
  {
    workspace.(id := id, createdAt := now)
  }

  /** `{ ...idea, id, createdAt }` */
  function StampIdea(idea: ContentIdea, id: string, now: string): (r: ContentIdea)
    ensures r.id == id && r.createdAt == now
    ensures r.(id := idea.id, createdAt := idea.createdAt) == idea
  {
    idea.(id := id, createdAt := now)
  }

  /**
   * `{ ...content, id, createdAt, updatedAt }`; the two timestamps come from
   * two separate clock readings and need not be equal.
   */
  function StampContent(content: Content, id: string, createdAt: string, updatedAt: string): (r: Content)
    ensures r.id == id && r.createdAt == createdAt && r.updatedAt == updatedAt
    ensures r.(id := content.id, createdAt := content.createdAt, updatedAt := content.updatedAt) == content
  {
    content.(id := id, createdAt := createdAt, updatedAt := updatedAt)
  }

  /** `{ ...media, id, createdAt }` */
  function StampMedia(media: MediaAsset, id: string, now: string): (r: MediaAsset)
    ensures r.id == id && r.createdAt == now
    ensures r.(id := media.id, createdAt := media.createdAt) == media
  {
    media.(id := id, createdAt := now)
  }

  /** `{ ...post, id, createdAt }` */
  function StampPost(post: ScheduledPost, id: string, now: string): (r: ScheduledPost)
    ensures r.id == id && r.createdAt == now
    ensures r.(id := post.id, createdAt := post.createdAt) == post
  {
    post.(id := id, createdAt := now)
  }

  /** `{ ...integration, id, createdAt }` */
  function StampIntegration(integration: Integration, id: string, now: string): (r: Integration)
    ensures r.id == id && r.createdAt == now
    ensures r.(id := integration.id, createdAt := integration.createdAt) == integration
  {
    integration.(id := id, createdAt := now)
  }

  /** `{ ...analytics, id }`: analytics rows carry no creation time. */
  function StampAnalytics(analytics: Analytics, id: string): (r: Analytics)
    ensures r.id == id
    ensures r.(id := analytics.id) == analytics
  {
    analytics.(id := id)
  }

  /** `{ ...template, id, createdAt }` */
  function StampTemplate(template: BrandTemplate, id: string, now: string): (r: BrandTemplate)
    ensures r.id == id && r.createdAt == now
    ensures r.(id := template.id, createdAt := template.createdAt) == template
  {
    template.(id := id, createdAt := now)
  }

  /** `Partial<Content>` */
  datatype ContentPatch = ContentPatch(
    id: Option<string>,
    title: Option<string>,
    body: Option<string>,
    kind: Option<ContentType>,
    status: Option<ContentStatus>,
    tone: Option<string>,
    seoScore: Option<Option<int>>,
    readabilityScore: Option<Option<int>>,
    keywords: Option<seq<string>>,
    platforms: Option<seq<Platform>>,
    scheduledAt: Option<Option<string>>,
    publishedAt: Option<Option<string>>,
    createdAt: Option<string>,
    updatedAt: Option<string>,
    workspaceId: Option<string>,
    authorId: Option<string>,
    ideaId: Option<Option<string>>,
    mediaAssets: Option<seq<MediaAsset>>)

  /** The patch `{}`. */
  const EmptyContentPatch := ContentPatch(None, None, None, None, None, None, None, None, None,
                                          None, None, None, None, None, None, None, None, None)

  /** `{ ...c, ...u }` */
  function MergeContent(c: Content, u: ContentPatch): Content {
    Content(
      u.id.GetOr(c.id),
      u.title.GetOr(c.title),
      u.body.GetOr(c.body),
      u.kind.GetOr(c.kind),
      u.status.GetOr(c.status),
      u.tone.GetOr(c.tone),
      u.seoScore.GetOr(c.seoScore),
      u.readabilityScore.GetOr(c.readabilityScore),
      u.keywords.GetOr(c.keywords),
      u.platforms.GetOr(c.platforms),
      u.scheduledAt.GetOr(c.scheduledAt),
      u.publishedAt.GetOr(c.publishedAt),
      u.createdAt.GetOr(c.createdAt),
      u.updatedAt.GetOr(c.updatedAt),
      u.workspaceId.GetOr(c.workspaceId),
      u.authorId.GetOr(c.authorId),
      u.ideaId.GetOr(c.ideaId),
      u.mediaAssets.GetOr(c.mediaAssets))
  }

  /**
   * `{ ...c, ...updates, updatedAt: now }`, the record both content stores
   * write on update: `updatedAt` is the fresh reading even when `updates`
   * carries one; every other key of `updates` wins over `c`.
   */
  function TouchContent(c: Content, updates: ContentPatch, now: string): (r: Content)
    ensures r.updatedAt == now
    ensures r.id == updates.id.GetOr(c.id) && r.status == updates.status.GetOr(c.status)
    ensures r.(updatedAt := c.updatedAt) == MergeContent(c, updates.(updatedAt := None))
  {
    MergeContent(c, updates).(updatedAt := now)
  }

  /** Merging the empty patch changes nothing. */
  lemma MergeEmptyContent(c: Content)
    ensures MergeContent(c, EmptyContentPatch) == c
  {
  }

  /** Merging the same patch twice is merging it once. */
  lemma MergeContentIdempotent(c: Content, u: ContentPatch)
    ensures MergeContent(MergeContent(c, u), u) == MergeContent(c, u)
  {
  }

  /** `Partial<ScheduledPost>` */
  datatype PostPatch = PostPatch(
    id: Option<string>,
    contentId: Option<string>,
    platform: Option<Platform>,
    scheduledAt: Option<string>,
    status: Option<PostStatus>,
    publishedUrl: Option<Option<string>>,
    error: Option<Option<string>>,
    createdAt: Option<string>)

  /** `{ ...p, ...u }`: no field is forced, so a patch may even overwrite `id` or `createdAt`. */
  function MergePost(p: ScheduledPost, u: PostPatch): ScheduledPost {
    ScheduledPost(
      u.id.GetOr(p.id),
      u.contentId.GetOr(p.contentId),
      u.platform.GetOr(p.platform),
      u.scheduledAt.GetOr(p.scheduledAt),
      u.status.GetOr(p.status),
      u.publishedUrl.GetOr(p.publishedUrl),
      u.error.GetOr(p.error),
      u.createdAt.GetOr(p.createdAt))
  }

  /** A post patch keeps every field it does not carry and sets every field it does. */
  lemma MergePostFields(p: ScheduledPost, u: PostPatch)
    ensures u.id.None? ==> MergePost(p, u).id == p.id
    ensures u.id.Some? ==> MergePost(p, u).id == u.id.value
    ensures u.createdAt.None? ==> MergePost(p, u).createdAt == p.createdAt
    ensures u == PostPatch(None, None, None, None, None, None, None, None) ==> MergePost(p, u) == p
  {
  }

  /** Content of workspace `ws`. */
  function InWorkspace(ws: string): Content -> bool {
    (c: Content) => c.workspaceId == ws
  }

  /** Content whose status is `status`. */
  function HasStatus(status: ContentStatus): Content -> bool {
    (c: Content) => c.status == status
  }

  /** Content of workspace `ws` whose status is `status`. */
  function InWorkspaceWithStatus(ws: string, status: ContentStatus): Content -> bool {
    (c: Content) => c.workspaceId == ws && c.status == status
  }

  /** Content of kind `kind` (the source's `type`). */
  function HasKind(kind: ContentType): Content -> bool {
    (c: Content) => c.kind == kind
  }

  /** Content whose `platforms` list contains `platform`. */
  function OnPlatform(platform: Platform): Content -> bool {
    (c: Content) => platform in c.platforms
  }

  /** The update function `c => ({ ...c, ...updates, updatedAt: now })`. */
  function Touch(updates: ContentPatch, now: string): Content -> Content {
    (c: Content) => TouchContent(c, updates, now)
  }
}
