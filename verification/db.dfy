/**
 * The server-side in-memory database of src/lib/db.ts: one table per
 * entity, each a JavaScript array mutated in place. Creates append
 * (`push`), updates overwrite the first matching slot, deletes `splice`
 * out the first matching slot, and reads are `filter`/`find` expressions.
 * Ids (from `generateId`, which is random and not unique by construction)
 * and clock readings (`new Date().toISOString()`) are supplied by the caller.
 */
module Db {
  import opened Wrappers
  import opened Types
  import opened Tables
  import opened Records

  /** The clock readings the seed data is stamped with. */
  datatype SeedClock = SeedClock(now: string, weekAgo: string, tenDaysAgo: string, inTwoDays: string)

  /** The texts of the seed records. */
  const Idea1Title: string := "10 AI Tools That Will Transform Your Workflow in 2024"
  const Idea1Description: string := "A comprehensive guide to the latest AI productivity tools"
  const Idea2Title: string := "How to Build a SaaS MVP in 30 Days"
  const Idea2Description: string := "Step-by-step guide for aspiring founders"
  const Idea3Title: string := "Content Marketing ROI: What Metrics Actually Matter?"
  const Idea3Description: string := "Deep dive into measuring content performance"
  const Content1Title: string := "The Ultimate Guide to Content Automation"
  const Content1Body: string := "<h2>Introduction</h2><p>Content automation is revolutionizing how businesses create and distribute content...</p>"
  const Content2Title: string := "Excited to share our latest feature launch!"
  const Content2Body: string := "We just shipped something amazing... \U{1F680}"

  function SeedUsers(clock: SeedClock): seq<User> {
    [User("user-1", "demo@contentflow.io", "Demo User", None, Admin, clock.now, "workspace-1")]
  }

  function SeedWorkspaces(clock: SeedClock): seq<Workspace> {
    [Workspace("workspace-1", "My Workspace", "Technology & SaaS", Some("Content for tech startups"),
               clock.now, "user-1")]
  }

  function SeedIdeas(clock: SeedClock): seq<ContentIdea> {
    [ ContentIdea("idea-1", Idea1Title, Idea1Description,
                  ["AI tools", "productivity", "automation", "workflow"], 12500,
                  Competition.Medium, Informational, 85, Trending, clock.now, "workspace-1"),
      ContentIdea("idea-2", Idea2Title, Idea2Description,
                  ["SaaS", "MVP", "startup", "development"], 8200,
                  High, Informational, 78, Keyword, clock.now, "workspace-1"),
      ContentIdea("idea-3", Idea3Title, Idea3Description,
                  ["content marketing", "ROI", "metrics", "analytics"], 5400,
                  Low, Commercial, 92, Question, clock.now, "workspace-1") ]
  }

  function SeedContent(clock: SeedClock): seq<Content> {
    [ Content("content-1", Content1Title, Content1Body,
              Blog, Published, "professional", Some(87), Some(72),
              ["content automation", "AI writing", "productivity"], [WordPress, LinkedIn],
              None, Some(clock.weekAgo), clock.tenDaysAgo, clock.weekAgo,
              "workspace-1", "user-1", None, []),
      Content("content-2", Content2Title, Content2Body,
              Social, Scheduled, "casual", None, None,
              ["product launch", "startup"], [Twitter, LinkedIn],
              Some(clock.inTwoDays), None, clock.now, clock.now,
              "workspace-1", "user-1", None, []) ]
  }

  function SeedAnalytics(clock: SeedClock): seq<Analytics> {
    [ Analytics("analytics-1", "content-1", WordPress, 2450, 312, 45, 28, 12, 89, None, clock.now),
      Analytics("analytics-2", "content-1", LinkedIn, 8900, 567, 234, 45, 67, 312, None, clock.now) ]
  }

  function UserEmail(u: User): string { u.email }

  class Database {
    var users: seq<User>
    var workspaces: seq<Workspace>
    var ideas: seq<ContentIdea>
    var content: seq<Content>
    var media: seq<MediaAsset>
    var scheduledPosts: seq<ScheduledPost>
    var integrations: seq<Integration>
    var analytics: seq<Analytics>
    var brandTemplates: seq<BrandTemplate>

    /** The seeded database the module starts with. */
    constructor (clock: SeedClock)
      ensures users == SeedUsers(clock) && workspaces == SeedWorkspaces(clock)
      ensures ideas == SeedIdeas(clock) && content == SeedContent(clock)
      ensures analytics == SeedAnalytics(clock)
      ensures media == [] && scheduledPosts == [] && integrations == [] && brandTemplates == []
    {
      users := SeedUsers(clock);
      workspaces := SeedWorkspaces(clock);
      ideas := SeedIdeas(clock);
      content := SeedContent(clock);
      media := [];
      scheduledPosts := [];
      integrations := [];
      analytics := SeedAnalytics(clock);
      brandTemplates := [];
    }

    // ---- Users

    /** The live table itself (the caller receives the array, not a copy). */
    function GetUsers(): seq<User>
      reads this
    {
      users
    }

    function GetUserById(id: string): (r: Option<User>)
      reads this
      ensures r.Some? ==> r.value in users && r.value.id == id
      ensures r.None? <==> forall u :: u in users ==> u.id != id
      ensures var k := IndexOfKey(users, UserId, id);
              r == if k == -1 then None else Some(users[k])
    {
      FindByKey(users, UserId, id)
    }

    function GetUserByEmail(email: string): (r: Option<User>)
      reads this
      ensures r.Some? ==> r.value in users && r.value.email == email
      ensures r.None? <==> forall u :: u in users ==> u.email != email
      ensures var k := IndexOfKey(users, UserEmail, email);
              r == if k == -1 then None else Some(users[k])
    {
      FindByKey(users, UserEmail, email)
    }

    method CreateUser(user: User, newId: string, now: string) returns (r: User)
      modifies this`users
      ensures r == StampUser(user, newId, now)
      ensures users == old(users) + [r]
    {
      r := StampUser(user, newId, now);
      users := users + [r];
    }

    // ---- Workspaces

    function GetWorkspaces(): seq<Workspace>
      reads this
    {
      workspaces
    }

    function GetWorkspaceById(id: string): (r: Option<Workspace>)
      reads this
      ensures r.Some? ==> r.value in workspaces && r.value.id == id
      ensures r.None? <==> forall w :: w in workspaces ==> w.id != id
      ensures var k := IndexOfKey(workspaces, WorkspaceId, id);
              r == if k == -1 then None else Some(workspaces[k])
    {
      FindByKey(workspaces, WorkspaceId, id)
    }

    function GetWorkspacesByUser(userId: string): (r: seq<Workspace>)
      reads this
      ensures forall w :: w in r <==> w in workspaces && w.ownerId == userId
      ensures forall w :: multiset(r)[w] == if w.ownerId == userId then multiset(workspaces)[w] else 0
      ensures Subsequence(r, workspaces)
    {
      var keep := (w: Workspace) => w.ownerId == userId;
      FilterCounts(workspaces, keep);
      FilterIsSubsequence(workspaces, keep);
      Filter(workspaces, keep)
    }

    method CreateWorkspace(workspace: Workspace, newId: string, now: string) returns (r: Workspace)
      modifies this`workspaces
      ensures r == StampWorkspace(workspace, newId, now)
      ensures workspaces == old(workspaces) + [r]
    {
      r := StampWorkspace(workspace, newId, now);
      workspaces := workspaces + [r];
    }

    // ---- Ideas

    function GetIdeas(workspaceId: string): (r: seq<ContentIdea>)
      reads this
      ensures forall i :: i in r <==> i in ideas && i.workspaceId == workspaceId
      ensures forall i :: multiset(r)[i] == if i.workspaceId == workspaceId then multiset(ideas)[i] else 0
      ensures Subsequence(r, ideas)
    {
      var keep := (i: ContentIdea) => i.workspaceId == workspaceId;
      FilterCounts(ideas, keep);
      FilterIsSubsequence(ideas, keep);
      Filter(ideas, keep)
    }

    function GetIdeaById(id: string): (r: Option<ContentIdea>)
      reads this
      ensures r.Some? ==> r.value in ideas && r.value.id == id
      ensures r.None? <==> forall i :: i in ideas ==> i.id != id
      ensures var k := IndexOfKey(ideas, IdeaId, id);
              r == if k == -1 then None else Some(ideas[k])
    {
      FindByKey(ideas, IdeaId, id)
    }

    method CreateIdea(idea: ContentIdea, newId: string, now: string) returns (r: ContentIdea)
      modifies this`ideas
      ensures r == StampIdea(idea, newId, now)
      ensures ideas == old(ideas) + [r]
    {
      r := StampIdea(idea, newId, now);
      ideas := ideas + [r];
    }

    method DeleteIdea(id: string)
      modifies this`ideas
      ensures ideas == DeleteFirstKey(old(ideas), IdeaId, id)
      ensures (forall i :: i in old(ideas) ==> i.id != id) ==> ideas == old(ideas)
      ensures (exists i :: i in old(ideas) && i.id == id) ==> |ideas| == |old(ideas)| - 1
    {
      var index := IndexOfKey(ideas, IdeaId, id);
      if index > -1 {
        ideas := RemoveAt(ideas, index);
      }
    }

    // ---- Content

    function GetContent(workspaceId: string): (r: seq<Content>)
      reads this
      ensures forall c :: c in r <==> c in content && c.workspaceId == workspaceId
      ensures forall c :: multiset(r)[c] == if c.workspaceId == workspaceId then multiset(content)[c] else 0
      ensures Subsequence(r, content)
    {
      var keep := InWorkspace(workspaceId);
      FilterCounts(content, keep);
      FilterIsSubsequence(content, keep);
      Filter(content, keep)
    }

    function GetContentById(id: string): (r: Option<Content>)
      reads this
      ensures r.Some? ==> r.value in content && r.value.id == id
      ensures r.None? <==> forall c :: c in content ==> c.id != id
      ensures var k := IndexOfKey(content, ContentId, id);
              r == if k == -1 then None else Some(content[k])
    {
      FindByKey(content, ContentId, id)
    }

    function GetContentByStatus(workspaceId: string, status: ContentStatus): (r: seq<Content>)
      reads this
      ensures forall c :: c in r <==> c in content && c.workspaceId == workspaceId && c.status == status
      ensures forall c :: multiset(r)[c] == if c.workspaceId == workspaceId && c.status == status then multiset(content)[c] else 0
      ensures Subsequence(r, content)
    {
      var keep := InWorkspaceWithStatus(workspaceId, status);
      FilterCounts(content, keep);
      FilterIsSubsequence(content, keep);
      Filter(content, keep)
    }

    /** The status query is the workspace query further filtered by status, order included. */
    lemma ContentByStatusFiltersWorkspace(workspaceId: string, status: ContentStatus)
      ensures GetContentByStatus(workspaceId, status) == Filter(GetContent(workspaceId), HasStatus(status))
    {
      FilterThenFilter(content, InWorkspace(workspaceId), HasStatus(status),
                       InWorkspaceWithStatus(workspaceId, status));
    }

    method CreateContent(c: Content, newId: string, createdAt: string, updatedAt: string) returns (r: Content)
      modifies this`content
      ensures r == StampContent(c, newId, createdAt, updatedAt)
      ensures content == old(content) + [r]
    {
      r := StampContent(c, newId, createdAt, updatedAt);
      content := content + [r];
    }

    /**
     * Overwrites the first record with `id` by `{ ...record, ...updates, updatedAt: now }`
     * and returns it; `null` (None) and no change when there is none.
     */
    method UpdateContent(id: string, updates: ContentPatch, now: string) returns (r: Option<Content>)
      modifies this`content
      ensures var i := IndexOfKey(old(content), ContentId, id);
              if i == -1 then r == None && content == old(content)
              else content == old(content)[i := TouchContent(old(content)[i], updates, now)]
                   && r == Some(content[i])
      ensures |content| == |old(content)|
    {
      var index := IndexOfKey(content, ContentId, id);
      if index > -1 {
        content := content[index := TouchContent(content[index], updates, now)];
        r := Some(content[index]);
      } else {
        r := None;
      }
    }

    method DeleteContent(id: string)
      modifies this`content
      ensures content == DeleteFirstKey(old(content), ContentId, id)
      ensures (forall c :: c in old(content) ==> c.id != id) ==> content == old(content)
      ensures (exists c :: c in old(content) && c.id == id) ==> |content| == |old(content)| - 1
    {
      var index := IndexOfKey(content, ContentId, id);
      if index > -1 {
        content := RemoveAt(content, index);
      }
    }

    // ---- Media

    function GetMedia(workspaceId: string): (r: seq<MediaAsset>)
      reads this
      ensures forall m :: m in r <==> m in media && m.workspaceId == workspaceId
      ensures forall m :: multiset(r)[m] == if m.workspaceId == workspaceId then multiset(media)[m] else 0
      ensures Subsequence(r, media)
    {
      var keep := (m: MediaAsset) => m.workspaceId == workspaceId;
      FilterCounts(media, keep);
      FilterIsSubsequence(media, keep);
      Filter(media, keep)
    }

    method CreateMedia(m: MediaAsset, newId: string, now: string) returns (r: MediaAsset)
      modifies this`media
      ensures r == StampMedia(m, newId, now)
      ensures media == old(media) + [r]
    {
      r := StampMedia(m, newId, now);
      media := media + [r];
    }

    // ---- Scheduled posts

    function GetScheduledPosts(contentId: string): (r: seq<ScheduledPost>)
      reads this
      ensures forall p :: p in r <==> p in scheduledPosts && p.contentId == contentId
      ensures forall p :: multiset(r)[p] == if p.contentId == contentId then multiset(scheduledPosts)[p] else 0
      ensures Subsequence(r, scheduledPosts)
    {
      var keep := (p: ScheduledPost) => p.contentId == contentId;
      FilterCounts(scheduledPosts, keep);
      FilterIsSubsequence(scheduledPosts, keep);
      Filter(scheduledPosts, keep)
    }

    method CreateScheduledPost(post: ScheduledPost, newId: string, now: string) returns (r: ScheduledPost)
      modifies this`scheduledPosts
      ensures r == StampPost(post, newId, now)
      ensures scheduledPosts == old(scheduledPosts) + [r]
    {
      r := StampPost(post, newId, now);
      scheduledPosts := scheduledPosts + [r];
    }

    /** Overwrites the first post with `id` by `{ ...post, ...updates }`; no field is forced. */
    method UpdateScheduledPost(id: string, updates: PostPatch) returns (r: Option<ScheduledPost>)
      modifies this`scheduledPosts
      ensures var i := IndexOfKey(old(scheduledPosts), PostId, id);
              if i == -1 then r == None && scheduledPosts == old(scheduledPosts)
              else scheduledPosts == old(scheduledPosts)[i := MergePost(old(scheduledPosts)[i], updates)]
                   && r == Some(scheduledPosts[i])
      ensures |scheduledPosts| == |old(scheduledPosts)|
    {
      var index := IndexOfKey(scheduledPosts, PostId, id);
      if index > -1 {
        scheduledPosts := scheduledPosts[index := MergePost(scheduledPosts[index], updates)];
        r := Some(scheduledPosts[index]);
      } else {
        r := None;
      }
    }

    // ---- Integrations

    function GetIntegrations(workspaceId: string): (r: seq<Integration>)
      reads this
      ensures forall i :: i in r <==> i in integrations && i.workspaceId == workspaceId
      ensures forall i :: multiset(r)[i] == if i.workspaceId == workspaceId then multiset(integrations)[i] else 0
      ensures Subsequence(r, integrations)
    {
      var keep := (i: Integration) => i.workspaceId == workspaceId;
      FilterCounts(integrations, keep);
      FilterIsSubsequence(integrations, keep);
      Filter(integrations, keep)
    }

    method CreateIntegration(integration: Integration, newId: string, now: string) returns (r: Integration)
      modifies this`integrations
      ensures r == StampIntegration(integration, newId, now)
      ensures integrations == old(integrations) + [r]
    {
      r := StampIntegration(integration, newId, now);
      integrations := integrations + [r];
    }

    method DeleteIntegration(id: string)
      modifies this`integrations
      ensures integrations == DeleteFirstKey(old(integrations), IntegrationId, id)
      ensures (forall i :: i in old(integrations) ==> i.id != id) ==> integrations == old(integrations)
      ensures (exists i :: i in old(integrations) && i.id == id) ==> |integrations| == |old(integrations)| - 1
    {
      var index := IndexOfKey(integrations, IntegrationId, id);
      if index > -1 {
        integrations := RemoveAt(integrations, index);
      }
    }

    // ---- Analytics

    function GetAnalytics(contentId: string): (r: seq<Analytics>)
      reads this
      ensures forall a :: a in r <==> a in analytics && a.contentId == contentId
      ensures forall a :: multiset(r)[a] == if a.contentId == contentId then multiset(analytics)[a] else 0
      ensures Subsequence(r, analytics)
    {
      var keep := (a: Analytics) => a.contentId == contentId;
      FilterCounts(analytics, keep);
      FilterIsSubsequence(analytics, keep);
      Filter(analytics, keep)
    }

    /** The analytics rows of every content of the workspace, in analytics-table order. */
    function GetAnalyticsByWorkspace(workspaceId: string): (r: seq<Analytics>)
      reads this
      ensures forall a :: a in r <==>
                a in analytics && exists c :: c in content && c.workspaceId == workspaceId && c.id == a.contentId
      ensures forall a :: a !in analytics ==> multiset(r)[a] == 0
      ensures forall a :: a in r ==> multiset(r)[a] == multiset(analytics)[a]
      ensures Subsequence(r, analytics)
    {
      var contentIds := KeysOf(Filter(content, InWorkspace(workspaceId)), ContentId);
      var keep := (a: Analytics) => a.contentId in contentIds;
      FilterCounts(analytics, keep);
      FilterIsSubsequence(analytics, keep);
      Filter(analytics, keep)
    }

    method CreateAnalytics(a: Analytics, newId: string) returns (r: Analytics)
      modifies this`analytics
      ensures r == StampAnalytics(a, newId)
      ensures analytics == old(analytics) + [r]
    {
      r := StampAnalytics(a, newId);
      analytics := analytics + [r];
    }

    // ---- Brand templates

    function GetBrandTemplates(workspaceId: string): (r: seq<BrandTemplate>)
      reads this
      ensures forall b :: b in r <==> b in brandTemplates && b.workspaceId == workspaceId
      ensures forall b :: multiset(r)[b] == if b.workspaceId == workspaceId then multiset(brandTemplates)[b] else 0
      ensures Subsequence(r, brandTemplates)
    {
      var keep := (b: BrandTemplate) => b.workspaceId == workspaceId;
      FilterCounts(brandTemplates, keep);
      FilterIsSubsequence(brandTemplates, keep);
      Filter(brandTemplates, keep)
    }

    method CreateBrandTemplate(template: BrandTemplate, newId: string, now: string) returns (r: BrandTemplate)
      modifies this`brandTemplates
      ensures r == StampTemplate(template, newId, now)
      ensures brandTemplates == old(brandTemplates) + [r]
    {
      r := StampTemplate(template, newId, now);
      brandTemplates := brandTemplates + [r];
    }
  }

  /** In the seed, the user owns the workspace it belongs to. */
  lemma SeedUserOwnsWorkspace(clock: SeedClock)
    ensures SeedWorkspaces(clock)[0].ownerId == SeedUsers(clock)[0].id
    ensures SeedUsers(clock)[0].workspaceId == SeedWorkspaces(clock)[0].id
  {
  }

  /** All seeded content is in the seeded workspace, so querying it returns the whole seed, in order. */
  lemma SeedContentInWorkspace(clock: SeedClock)
    ensures Filter(SeedContent(clock), InWorkspace(SeedWorkspaces(clock)[0].id)) == SeedContent(clock)
  {
    var content, ws := SeedContent(clock), SeedWorkspaces(clock)[0].id;
    assert content[0].workspaceId == ws;
    assert content[1].workspaceId == ws;
    FilterKeepsAll(content, InWorkspace(ws));
  }
}
