/**
 * The client-side content store of src/store/content.ts: a zustand store
 * whose slices (ideas, content, media, analytics) are replaced wholesale by
 * `set`. Unlike the server tables in Db, adds PREPEND, removes drop EVERY
 * record with the id (a `filter`), and an update maps over every record
 * with the id; the filters read the current slice without changing it.
 */
module ClientStore {
  import opened Types
  import opened Tables
  import opened Records

  class ContentStore {
    var ideas: seq<ContentIdea>
    var content: seq<Content>
    var media: seq<MediaAsset>
    var analytics: seq<Analytics>
    var isLoading: bool

    /** The initial state: the seed slices, no media, not loading. */
    constructor (seedIdeas: seq<ContentIdea>, seedContent: seq<Content>, seedAnalytics: seq<Analytics>)
      ensures ideas == seedIdeas && content == seedContent && analytics == seedAnalytics
      ensures media == [] && !isLoading
    {
      ideas := seedIdeas;
      content := seedContent;
      media := [];
      analytics := seedAnalytics;
      isLoading := false;
    }

    // ---- Ideas

    method SetIdeas(newIdeas: seq<ContentIdea>)
      modifies this`ideas
      ensures ideas == newIdeas
    {
      ideas := newIdeas;
    }

    /** Stamps the idea, puts it in front of the old list and returns it. */
    method AddIdea(ideaData: ContentIdea, newId: string, now: string) returns (r: ContentIdea)
      modifies this`ideas
      ensures r == StampIdea(ideaData, newId, now)
      ensures ideas == [r] + old(ideas)
      ensures |ideas| == |old(ideas)| + 1 && ideas[0] == r && ideas[1..] == old(ideas)
    {
      r := StampIdea(ideaData, newId, now);
      ideas := [r] + ideas;
    }

    method RemoveIdea(id: string)
      modifies this`ideas
      ensures ideas == WithoutKey(old(ideas), IdeaId, id)
      ensures forall i :: i in ideas <==> i in old(ideas) && i.id != id
      ensures forall i: ContentIdea :: i.id != id ==> multiset(ideas)[i] == multiset(old(ideas))[i]
      ensures Subsequence(ideas, old(ideas))
    {
      FilterCounts(ideas, KeyIsNot(IdeaId, id));
      FilterIsSubsequence(ideas, KeyIsNot(IdeaId, id));
      ideas := WithoutKey(ideas, IdeaId, id);
    }

    // ---- Content

    method SetContent(newContent: seq<Content>)
      modifies this`content
      ensures content == newContent
    {
      content := newContent;
    }

    /** Stamps the content (two clock readings), puts it in front and returns it. */
    method AddContent(contentData: Content, newId: string, createdAt: string, updatedAt: string) returns (r: Content)
      modifies this`content
      ensures r == StampContent(contentData, newId, createdAt, updatedAt)
      ensures content == [r] + old(content)
      ensures |content| == |old(content)| + 1 && content[0] == r && content[1..] == old(content)
    {
      r := StampContent(contentData, newId, createdAt, updatedAt);
      content := [r] + content;
    }

    /** Merges `updates` into EVERY record with `id` and refreshes its `updatedAt`; the rest is untouched. */
    method UpdateContent(id: string, updates: ContentPatch, now: string)
      modifies this`content
      ensures content == MapKey(old(content), ContentId, id, Touch(updates, now))
      ensures |content| == |old(content)|
      ensures forall j :: 0 <= j < |content| ==>
                content[j] == if old(content)[j].id == id then TouchContent(old(content)[j], updates, now)
                              else old(content)[j]
    {
      content := MapKey(content, ContentId, id, Touch(updates, now));
    }

    method RemoveContent(id: string)
      modifies this`content
      ensures content == WithoutKey(old(content), ContentId, id)
      ensures forall c :: c in content <==> c in old(content) && c.id != id
      ensures forall c: Content :: c.id != id ==> multiset(content)[c] == multiset(old(content))[c]
      ensures Subsequence(content, old(content))
    {
      FilterCounts(content, KeyIsNot(ContentId, id));
      FilterIsSubsequence(content, KeyIsNot(ContentId, id));
      content := WithoutKey(content, ContentId, id);
    }

    // ---- Media

    method SetMedia(newMedia: seq<MediaAsset>)
      modifies this`media
      ensures media == newMedia
    {
      media := newMedia;
    }

    method AddMedia(mediaData: MediaAsset, newId: string, now: string) returns (r: MediaAsset)
      modifies this`media
      ensures r == StampMedia(mediaData, newId, now)
      ensures media == [r] + old(media)
      ensures |media| == |old(media)| + 1 && media[0] == r && media[1..] == old(media)
    {
      r := StampMedia(mediaData, newId, now);
      media := [r] + media;
    }

    // ---- Analytics

    method SetAnalytics(newAnalytics: seq<Analytics>)
      modifies this`analytics
      ensures analytics == newAnalytics
    {
      analytics := newAnalytics;
    }

    // ---- Filters

    function FilterByStatus(status: ContentStatus): (r: seq<Content>)
      reads this
      ensures forall c :: c in r <==> c in content && c.status == status
      ensures forall c :: multiset(r)[c] == if c.status == status then multiset(content)[c] else 0
      ensures Subsequence(r, content)
    {
      FilterCounts(content, HasStatus(status));
      FilterIsSubsequence(content, HasStatus(status));
      Filter(content, HasStatus(status))
    }

    function FilterByPlatform(platform: Platform): (r: seq<Content>)
      reads this
      ensures forall c :: c in r <==> c in content && platform in c.platforms
      ensures forall c :: multiset(r)[c] == if platform in c.platforms then multiset(content)[c] else 0
      ensures Subsequence(r, content)
    {
      FilterCounts(content, OnPlatform(platform));
      FilterIsSubsequence(content, OnPlatform(platform));
      Filter(content, OnPlatform(platform))
    }

    function FilterByType(kind: ContentType): (r: seq<Content>)
      reads this
      ensures forall c :: c in r <==> c in content && c.kind == kind
      ensures forall c :: multiset(r)[c] == if c.kind == kind then multiset(content)[c] else 0
      ensures Subsequence(r, content)
    {
      FilterCounts(content, HasKind(kind));
      FilterIsSubsequence(content, HasKind(kind));
      Filter(content, HasKind(kind))
    }
  }

  /** Adding content and then filtering by its status puts it in front of the old matches. */
  lemma AddedContentLeadsItsStatus(added: Content, old_content: seq<Content>)
    ensures Filter([added] + old_content, HasStatus(added.status)) == [added] + Filter(old_content, HasStatus(added.status))
  {
    FilterAppend([added], old_content, HasStatus(added.status));
    FilterSingleton(added, HasStatus(added.status));
  }

  /** Removing an id and updating that id commute to nothing: an update after a remove finds no record. */
  lemma UpdateAfterRemoveChangesNothing(s: seq<Content>, id: string, updates: ContentPatch, now: string)
    ensures MapKey(WithoutKey(s, ContentId, id), ContentId, id, Touch(updates, now)) == WithoutKey(s, ContentId, id)
  {
    var w := WithoutKey(s, ContentId, id);
    var m := MapKey(w, ContentId, id, Touch(updates, now));
    forall j | 0 <= j < |w| ensures m[j] == w[j] {
      assert w[j] in w;
    }
  }
}
