# ContentFlow core, modelled in Dafny

ContentFlow is a Next.js prototype for planning, writing and scheduling
marketing content with the help of a language model. This project models the
parts of it that have stateable behaviour and proves properties about them:

- **Db** (`db.dfy`): the server-side in-memory database. It is a class with
  one `seq` per table. Creates append a record stamped with a supplied id and
  clock reading. Lookups return the first record with the id. Workspace reads
  are order-preserving filters. `updateContent` and `updateScheduledPost`
  overwrite the first matching slot. Deletes splice out the first matching
  slot. The seed data is the constructor's postcondition.
- **ClientStore** (`content_store.dfy`): the browser-side content store.
  Its rules differ from the server tables: adds prepend, removes drop every
  record with the id, and an update rewrites every record with the id.
  `Tables.DeletesAgreeOnUniqueKey` (the id occurs at most once, so they
  agree) and `Tables.DeletesDifferOnDuplicateKey` (the id occurs twice, so
  they differ) state exactly when the two delete rules agree.
- **Auth** (`auth_store.dfy`): the session store. Login and signup always
  succeed and leave a user and workspace that are linked (the workspace is
  owned by the user and is the one the user points at). `setWorkspace`
  checks nothing, so it can break that link.
- **Utils** (`utils.dfy`): `truncate`, `slugify` and `getInitials`.
- **Prompts** (`prompts.dfy`): the prompt templates, the `getPrompt`
  selector and the mock `generateContent` classifier.
- **GenerateRoute** (`generate_route.dfy`): the `POST /api/generate`
  handler. The completion service is a function parameter.
- **Sidebar** (`sidebar.dfy`): the active-link rule and the avatar and
  workspace-badge fallbacks.
- Support modules: **Wrappers** (`Option`), **Types** (the enumerations and
  records of `src/types/index.ts`), **Tables** (generic `filter`, `find`,
  `findIndex`, `splice`, `map` over a table keyed by id), **Records**
  (`{ ...input, id, createdAt }` stamping and `Partial<T>` patches) and
  **Strings** (`startsWith`, `includes`, `join`, `split`, decimal rendering).

Modelling conventions:

- Ids from `generateId` and readings of `new Date().toISOString()` and
  `Date.now()` are parameters. Nothing assumes ids are unique.
- `Partial<T>` is a patch with one `Option` per field. A field that is
  itself optional gets `Option<Option<X>>`, so "key present with value
  `undefined`" can be told apart from "key absent".
- A source expression that reads the clock twice, such as `createdAt` and
  `updatedAt` in one create, gets two separate readings.
- A JSON body property in the route is `Absent`, `Null` or `Text(s)`. This
  is what the `||` defaults and the `${...}` interpolation depend on.
- Prompt templates are rendered as skeletons. A skeleton keeps the first
  line and every line that interpolates a value, verbatim and in order.
  The fixed instruction lines between them are left out. Some connecting
  pieces of a skeleton join the end of one kept line to the start of the
  next (`".` and `- Tone: ` with one line break between them), so a
  skeleton is not a substring of the full template. What does occur
  verbatim in the full template is each opening line, each interpolated
  value and each marker word. `Prompts.RenderMentionsSubject`,
  `Prompts.BlogKeywordsJoined`, `Prompts.BlogPromptsGetArticle` and
  `Prompts.LinkedInPromptNotPlaceholder` rest on those alone, so they
  hold for the full prompts as well.
- `Prompts.TweetsPromptGetsTweets` proves that the tweets skeleton gets
  the tweet list exactly when neither its topic nor its tone says "blog
  post". The "no" direction rests on the whole skeleton, connectors
  included. For the full prompt it also needs the fixed instruction
  lines of the tweets template (prompts.ts:84 and 86-92) not to say "blog
  post". They do not, but the model does not contain them.
  `Prompts.ClassifyUnderExtension` covers text added before and after a
  prompt only, not text between the skeleton's pieces.

Where the code and its design description disagree, the model follows the
code:

- The endpoint interpolates `keywords` verbatim. It does not split or trim
  it; that happens only when content is saved.
- The endpoint always builds the newsletter prompt for an e-mail, whatever
  the mode. `getPrompt` picks the promotional template for every mode other
  than `generate`.
- Mutations other than the adds do not assign an id or a timestamp.
  `updateContent` refreshes `updatedAt` and nothing else.

## Model

| member | source | states |
|---|---|---|
| Db.Database.constructor | src/lib/db.ts:30-158 | the tables start as the seed: one user, one workspace, three ideas, two content items, two analytics rows; the other tables are empty |
| Db.SeedUserOwnsWorkspace | src/lib/db.ts:31-50 | in the seed, the workspace is owned by the user and is the user's workspace |
| Db.SeedContentInWorkspace | src/lib/db.ts:93-125 | every seeded content item is in the seeded workspace, so the workspace query returns the whole seed in order |
| Db.Database.GetUsers | src/lib/db.ts:163 | no contract of its own: it returns the live users table (aliasing is under Left out) |
| Db.Database.GetUserById | src/lib/db.ts:164 | `find`: the first user of the table with that id, the one at the index `findIndex` reports, and nothing exactly when none has it |
| Db.Database.GetUserByEmail | src/lib/db.ts:165 | `find`: the first user of the table with that e-mail, the one at the index `findIndex` reports, and nothing exactly when none has it |
| Db.Database.CreateUser | src/lib/db.ts:166-174 | appends exactly the stamped record at the end and returns it; the other tables are not in its frame |
| Db.Database.GetWorkspaces | src/lib/db.ts:177 | no contract of its own: it returns the live workspaces table (aliasing is under Left out) |
| Db.Database.GetWorkspaceById | src/lib/db.ts:178 | `find`: the first workspace of the table with that id, the one at the index `findIndex` reports, and nothing exactly when none has it |
| Db.Database.GetWorkspacesByUser | src/lib/db.ts:179 | returns exactly the workspaces owned by the user, each as often as it is stored and in stored order (a subsequence of the table) |
| Db.Database.CreateWorkspace | src/lib/db.ts:180-188 | appends exactly the stamped record and returns it |
| Db.Database.GetIdeas | src/lib/db.ts:191 | returns exactly the ideas of the workspace, each as often as it is stored and in stored order (a subsequence of the table) |
| Db.Database.GetIdeaById | src/lib/db.ts:192 | `find`: the first idea of the table with that id, the one at the index `findIndex` reports, and nothing exactly when none has it |
| Db.Database.CreateIdea | src/lib/db.ts:193-201 | appends exactly the stamped record and returns it |
| Db.Database.DeleteIdea | src/lib/db.ts:202-205 | the table becomes the old one without its first record with the id; no change when the id is absent, one record fewer when present |
| Db.Database.GetContent | src/lib/db.ts:208 | returns exactly the content of the workspace, each as often as it is stored and in stored order (a subsequence of the table) |
| Db.Database.GetContentById | src/lib/db.ts:209 | `find`: the first content item of the table with that id, the one at the index `findIndex` reports, and nothing exactly when none has it |
| Db.Database.GetContentByStatus | src/lib/db.ts:210-211 | returns exactly the content of the workspace with the status, each as often as it is stored and in stored order (a subsequence of the table) |
| Db.Database.ContentByStatusFiltersWorkspace | src/lib/db.ts:208-211 | the status query equals the workspace query filtered again by status, order included |
| Db.Database.CreateContent | src/lib/db.ts:212-221 | appends exactly the record stamped with an id and two clock readings, and returns it |
| Db.Database.UpdateContent | src/lib/db.ts:222-233 | absent id: returns None and changes nothing; otherwise only the first matching slot is rewritten with the merged, freshly stamped record, which is returned, and the length is kept |
| Db.Database.DeleteContent | src/lib/db.ts:234-237 | removes the first record with the id; no change when absent, one fewer when present |
| Db.Database.GetMedia | src/lib/db.ts:240 | returns exactly the media of the workspace, each as often as it is stored and in stored order (a subsequence of the table) |
| Db.Database.CreateMedia | src/lib/db.ts:241-249 | appends exactly the stamped record and returns it |
| Db.Database.GetScheduledPosts | src/lib/db.ts:252 | returns exactly the posts of the content, each as often as it is stored and in stored order (a subsequence of the table) |
| Db.Database.CreateScheduledPost | src/lib/db.ts:253-261 | appends exactly the stamped record and returns it |
| Db.Database.UpdateScheduledPost | src/lib/db.ts:262-269 | absent id: None and no change; otherwise the first matching slot becomes the plain merge, with no forced field |
| Db.Database.GetIntegrations | src/lib/db.ts:272 | returns exactly the integrations of the workspace, each as often as it is stored and in stored order (a subsequence of the table) |
| Db.Database.CreateIntegration | src/lib/db.ts:273-281 | appends exactly the stamped record and returns it |
| Db.Database.DeleteIntegration | src/lib/db.ts:282-285 | removes the first record with the id; no change when absent, one fewer when present |
| Db.Database.GetAnalytics | src/lib/db.ts:288 | returns exactly the analytics rows of the content, each as often as it is stored and in stored order (a subsequence of the table) |
| Db.Database.GetAnalyticsByWorkspace | src/lib/db.ts:289-292 | returns exactly the analytics rows whose content id is the id of some content of the workspace, each as often as it is stored and in stored order |
| Db.Database.CreateAnalytics | src/lib/db.ts:293-300 | appends exactly the record stamped with an id (analytics have no createdAt) and returns it |
| Db.Database.GetBrandTemplates | src/lib/db.ts:303 | returns exactly the brand templates of the workspace, each as often as it is stored and in stored order (a subsequence of the table) |
| Db.Database.CreateBrandTemplate | src/lib/db.ts:304-312 | appends exactly the stamped record and returns it |
| Records.StampUser | src/lib/db.ts:167-171 | the generated id and clock reading override the input's; every other field is the input's |
| Records.StampWorkspace | src/lib/db.ts:181-185 | id and createdAt override the input's; the rest is kept |
| Records.StampIdea | src/lib/db.ts:194-198 | id and createdAt override the input's; the rest is kept |
| Records.StampContent | src/lib/db.ts:213-218 | id, createdAt and updatedAt override the input's; the rest is kept |
| Records.StampMedia | src/lib/db.ts:242-246 | id and createdAt override the input's; the rest is kept |
| Records.StampPost | src/lib/db.ts:254-258 | id and createdAt override the input's; the rest is kept |
| Records.StampIntegration | src/lib/db.ts:274-278 | id and createdAt override the input's; the rest is kept |
| Records.StampAnalytics | src/lib/db.ts:294-297 | the id overrides the input's; the rest is kept |
| Records.StampTemplate | src/lib/db.ts:305-309 | id and createdAt override the input's; the rest is kept |
| Records.MergeContent | src/lib/db.ts:225-228 | no contract of its own: `{ ...record, ...updates }`; its promises are in Records.MergeEmptyContent, Records.MergeContentIdempotent and Records.TouchContent |
| Records.TouchContent | src/lib/db.ts:225-229 | updatedAt is the fresh reading even when the patch carries one; apart from it the result is the record merged with the patch |
| Records.MergeEmptyContent | src/lib/db.ts:225-228 | merging an empty patch changes nothing |
| Records.MergeContentIdempotent | src/lib/db.ts:225-228 | merging the same patch twice is merging it once |
| Records.MergePost | src/lib/db.ts:265 | no contract of its own: `{ ...post, ...updates }`; its promises are in Records.MergePostFields |
| Records.MergePostFields | src/lib/db.ts:265 | a post patch keeps every field it does not carry, may overwrite id and createdAt, and the empty patch changes nothing |
| Tables.Filter | src/lib/db.ts:191 | `filter`: the result holds exactly the elements satisfying the predicate and is no longer than the input |
| Tables.FilterAppend | src/store/content.ts:285 | filtering a concatenation is concatenating the filtered parts, so filters preserve order |
| Tables.FilterCounts | src/lib/db.ts:208 | every value occurs in the result as often as in the input if it satisfies the predicate, and never otherwise |
| Tables.FilterIsSubsequence | src/lib/db.ts:191 | the result keeps the input's order: it is the input with some elements left out |
| Tables.FilterSingleton | src/store/content.ts:285 | a one-element list filters to itself or to nothing |
| Tables.FilterKeepsAll | src/lib/db.ts:208 | filtering a list whose every element passes gives the list back |
| Tables.FilterIdempotent | src/store/content.ts:285 | filtering twice by a predicate is filtering once |
| Tables.FilterThenFilter | src/lib/db.ts:210-211 | filtering by p then q is filtering by their conjunction |
| Tables.IndexOfKey | src/lib/db.ts:203 | `findIndex`: the first index with the id, or -1 exactly when there is none |
| Tables.FindByKey | src/lib/db.ts:164 | `find`: the element at the first index with the id (the one `findIndex` reports), or nothing exactly when none has it |
| Tables.RemoveAt | src/lib/db.ts:204 | `splice(i, 1)`: the elements before i stay, those after shift down by one, and exactly one occurrence of the removed element is lost |
| Tables.DeleteFirstKey | src/lib/db.ts:202-205 | unchanged when no element has the id; otherwise one element fewer and the same multiset minus that element |
| Tables.DeleteFirstKeyKeepsLaterMatches | src/lib/db.ts:202-205 | the first-match delete keeps the records before the first match in place, shifts every later record down by one, and so keeps every later record with the same id |
| Tables.WithoutKey | src/store/content.ts:242-244 | the result holds exactly the elements whose id differs |
| Tables.WithoutKeyIdempotent | src/store/content.ts:242-244 | removing an id twice is removing it once |
| Tables.WithoutAbsentKey | src/store/content.ts:265-267 | removing an absent id changes nothing |
| Tables.MapKey | src/store/content.ts:258-264 | the length is kept; every element with the id is transformed and every other is kept, position by position |
| Tables.KeysOf | src/lib/db.ts:290 | the ids of the list, position by position |
| Tables.DeleteFirstKeyCons | src/lib/db.ts:202-205 | the first-match delete skips a leading record with another id |
| Tables.DeletesAgreeOnUniqueKey | src/lib/db.ts:202-205 | when the id occurs at most once, the server's first-match delete and the client's filter delete agree |
| Tables.DeletesDifferOnDuplicateKey | src/store/content.ts:242-244 | for any list in which the id occurs twice, the later copy survives the server's delete but not the client's, so the two results differ |
| ClientStore.ContentStore.constructor | src/store/content.ts:224-229 | the store starts with the seed slices, no media, not loading |
| ClientStore.ContentStore.SetIdeas | src/store/content.ts:232 | replaces the ideas slice only |
| ClientStore.ContentStore.AddIdea | src/store/content.ts:233-241 | the stamped idea is returned and put in front of the old list, which follows in its old order |
| ClientStore.ContentStore.RemoveIdea | src/store/content.ts:242-244 | drops every idea with the id and keeps the others in order |
| ClientStore.ContentStore.SetContent | src/store/content.ts:247 | replaces the content slice only |
| ClientStore.ContentStore.AddContent | src/store/content.ts:248-257 | the record stamped with an id and two readings is returned and prepended |
| ClientStore.ContentStore.UpdateContent | src/store/content.ts:258-264 | same length and order; every record with the id is merged and restamped, every other is untouched |
| ClientStore.ContentStore.RemoveContent | src/store/content.ts:265-267 | drops every record with the id and keeps the others in order |
| ClientStore.ContentStore.SetMedia | src/store/content.ts:270 | replaces the media slice only |
| ClientStore.ContentStore.AddMedia | src/store/content.ts:271-279 | the stamped asset is returned and prepended |
| ClientStore.ContentStore.SetAnalytics | src/store/content.ts:282 | replaces the analytics slice only |
| ClientStore.ContentStore.FilterByStatus | src/store/content.ts:285 | returns exactly the content with the status, each as often as it is stored and in stored order (a subsequence of the table) |
| ClientStore.ContentStore.FilterByPlatform | src/store/content.ts:286 | returns exactly the content whose platform list contains the platform, each as often as it is stored and in stored order (a subsequence of the table) |
| ClientStore.ContentStore.FilterByType | src/store/content.ts:287 | returns exactly the content of the type, each as often as it is stored and in stored order (a subsequence of the table) |
| ClientStore.AddedContentLeadsItsStatus | src/store/content.ts:255 | after an add, the status filter lists the new record first, then the old matches in order |
| ClientStore.UpdateAfterRemoveChangesNothing | src/store/content.ts:258-267 | updating an id that was just removed changes nothing |
| Auth.LocalPart | src/store/auth.ts:36 | the user name is a prefix of the e-mail with no '@', followed in the e-mail by '@' or by nothing |
| Auth.LoginUser | src/store/auth.ts:33-40 | the ids are 'user-1' and 'workspace-1', the e-mail is kept verbatim, the role is admin, and the name is the local part of the e-mail |
| Auth.LoginWorkspace | src/store/auth.ts:42-49 | the workspace id is 'workspace-1', the owner is the user passed in, the name is 'My Workspace', the niche 'Technology & SaaS' and the description 'Content for tech startups' |
| Auth.SignupUser | src/store/auth.ts:60-67 | name and e-mail are kept, the role is admin, the user id is 'user-' and the workspace id 'workspace-', each followed by the decimal digits of its clock reading |
| Auth.SignupWorkspace | src/store/auth.ts:69-75 | the workspace id is the user's workspace id, the owner is the user, the name is the user name followed by "'s Workspace", the niche is empty |
| Auth.LoginLinked | src/store/auth.ts:33-49 | a login always yields a linked user and workspace |
| Auth.LoginIdsFixed | src/store/auth.ts:34 | every login gets the same user and workspace ids, whatever the e-mail |
| Auth.SignupLinked | src/store/auth.ts:60-75 | a signup always yields a linked user and workspace |
| Auth.SignupIdsDiffer | src/store/auth.ts:61 | signups at different clock readings get different user ids |
| Auth.RenameKeepsLink | src/store/auth.ts:85-87 | the `{ ...workspace, name, niche }` update the onboarding and settings pages make keeps the workspace's id and its link with the user |
| Auth.AuthStore.constructor | src/store/auth.ts:21-24 | nobody is signed in, nothing is loading, and the state is consistent |
| Auth.AuthStore.Login | src/store/auth.ts:26-53 | any password is accepted; returns true; the demo user and workspace are stored, signed in, not loading, consistent |
| Auth.AuthStore.Signup | src/store/auth.ts:55-79 | returns true; the new user and workspace are stored, signed in, not loading, consistent |
| Auth.AuthStore.Logout | src/store/auth.ts:81-83 | user and workspace cleared and signed out; the loading flag is not in the frame |
| Auth.AuthStore.SetWorkspace | src/store/auth.ts:85-87 | only the workspace changes; when signed in, the session stays consistent exactly when the new workspace is linked to the user, so a workspace owned by someone else breaks it |
| Utils.Truncate | src/lib/utils.ts:33-36 | the input when no longer than n; otherwise its first n characters followed by "...", n + 3 characters in all |
| Utils.TruncateIdempotent | src/lib/utils.ts:33-36 | truncating again to the same length changes nothing |
| Utils.Lower | src/lib/utils.ts:40 | `toLowerCase`, character by character |
| Utils.DropWhile | src/lib/utils.ts:42-43 | what a `+` run consumes: a suffix that does not start with a class character, everything before it in the class |
| Utils.ReplaceRuns | src/lib/utils.ts:42-43 | `replace(/x+/g, b)`: empty exactly for empty input; the first character is b or the input's first |
| Utils.ReplaceRunsChars | src/lib/utils.ts:42-43 | every output character is b or an input character outside the class |
| Utils.ReplaceRunsNoDoubles | src/lib/utils.ts:42-43 | the output never has two class characters in a row |
| Utils.ReplaceRunsLast | src/lib/utils.ts:42-43 | the last output character is b when the input ends in the class, else the input's last |
| Utils.ReplaceRunsKeeps | src/lib/utils.ts:42-43 | a string without runs, whose class characters are all b, is left as it is |
| Utils.Trim | src/lib/utils.ts:44 | `trim`: the result is a slice of the input, everything cut before and after it is whitespace, and it neither starts nor ends with whitespace |
| Utils.Slugify | src/lib/utils.ts:38-45 | no contract of its own: its promises are in Utils.SlugifyCharset, Utils.SlugifyShape, Utils.SlugifyIdempotent, Utils.SlugifyTrimIsNoOp, Utils.SlugifyLeadingSpace and Utils.SlugifyTrailingSpace |
| Utils.KeptChars | src/lib/utils.ts:40-41 | after the first replacement only word characters, whitespace and '-' remain, none upper case |
| Utils.SlugBeforeTrimShape | src/lib/utils.ts:39-43 | before trim, the slug is made of [a-z0-9_-] and has no "--" |
| Utils.TrimKeepsSpaceless | src/lib/utils.ts:44 | trim leaves a string without whitespace unchanged |
| Utils.SlugifyTrimIsNoOp | src/lib/utils.ts:42-44 | the final trim never has anything to remove |
| Utils.SlugifyCharset | src/lib/utils.ts:38-45 | every slug character is in [a-z0-9_-] |
| Utils.SlugifyShape | src/lib/utils.ts:38-45 | a slug has no whitespace and no two '-' in a row |
| Utils.SlugifyLeadingSpace | src/lib/utils.ts:38-45 | leading whitespace is not stripped: the slug starts with '-' |
| Utils.SlugifyTrailingSpace | src/lib/utils.ts:38-45 | trailing whitespace is not stripped: the slug ends with '-' |
| Utils.LowerKeeps | src/lib/utils.ts:40 | lower-casing a string without capitals changes nothing |
| Utils.SlugCharFacts | src/lib/utils.ts:41-42 | a slug character is not whitespace, not a capital, and survives the first replacement |
| Utils.SlugCharsKept | src/lib/utils.ts:39-42 | the first three steps leave a string of [a-z0-9_-] unchanged |
| Utils.SlugIsFixed | src/lib/utils.ts:38-45 | a string of [a-z0-9_-] without "--" is its own slug |
| Utils.SlugifyIdempotent | src/lib/utils.ts:38-45 | slugifying a slug gives the same slug |
| Utils.Upper | src/lib/utils.ts:52 | `toUpperCase`, character by character |
| Utils.FirstChars | src/lib/utils.ts:50-51 | no contract of its own: `map(word => word[0]).join('')`; tied to Utils.WordStarts by Utils.WordStartsSplit |
| Utils.WordStarts | src/lib/utils.ts:49-51 | no contract of its own: the independent definition of the word initials (non-space characters after a space or at the start) that Utils.WordStartsSplit and Utils.GetInitials are stated against |
| Utils.GetInitials | src/lib/utils.ts:47-54 | at most two characters: the upper-cased first characters of the non-empty space-separated words, in order, all of them when there are fewer than two |
| Utils.WordStartsSplit | src/lib/utils.ts:49-51 | the first characters of the `split(' ')` pieces are exactly the characters that start a word |
| Utils.GetInitialsOfEmpty | src/lib/utils.ts:47-54 | the empty name has no initials |
| Strings.IndexOfChar | src/store/auth.ts:36 | the first index of the character, or -1 exactly when it does not occur |
| Strings.Split | src/lib/utils.ts:49 | `split(c)`: at least one piece, none containing c |
| Strings.JoinSplit | src/lib/utils.ts:49-51 | joining the pieces of a split with the separator gives the string back |
| Strings.JoinContainsParts | src/lib/prompts.ts:12 | every joined part occurs in the joined string |
| Strings.ContainsWithin | src/lib/prompts.ts:304 | `includes` survives adding text on either side |
| Strings.ContainsTrans | src/lib/prompts.ts:304 | `includes` is transitive |
| Strings.ContainsAcross | src/lib/prompts.ts:304 | an occurrence in a concatenation that cannot straddle the boundary lies in one of the two parts |
| Strings.NotContainsAcross | src/lib/prompts.ts:304 | two texts that do not `include` a word, joined at a boundary no occurrence can straddle, do not include it together |
| Strings.Decimal | src/store/auth.ts:61 | `String(n)` for a clock reading: at least one character, all decimal digits |
| Strings.DecimalRoundTrip | src/store/auth.ts:61 | the decimal rendering reads back as the number, so distinct readings render differently |
| Prompts.Render | src/lib/prompts.ts:4-255 | no contract of its own: a template's skeleton text; its promises are in Prompts.RenderMentionsSubject, Prompts.BlogKeywordsJoined and Prompts.RewriteIgnoresTopic |
| Prompts.RenderMentionsSubject | src/lib/prompts.ts:4-255 | every template mentions its topic; the ideation topics template its niche; the rewrite template its content |
| Prompts.Resolve | src/lib/prompts.ts:258-270 | no contract of its own: the destructuring defaults; its promises are in Prompts.ResolveDefaults |
| Prompts.ResolveDefaults | src/lib/prompts.ts:270 | missing parameters become 'professional', 'medium', 'twitter', [] and ''; present ones, even empty strings, are kept |
| Prompts.Select | src/lib/prompts.ts:272-295 | no contract of its own: the type and mode switch; its promises are in Prompts.SelectBlog, Prompts.GenerateOnlyForBlog, Prompts.SocialIgnoresMode, Prompts.SocialByPlatform, Prompts.EmailByMode and Prompts.CaptionNamesPlatform |
| Prompts.GetPrompt | src/lib/prompts.ts:258-296 | no contract of its own: Render after Select; its promises are in Prompts.PromptMentionsTopic, Prompts.RewriteIgnoresTopic and Prompts.BlogKeywordsJoined |
| Prompts.SelectBlog | src/lib/prompts.ts:273-278 | for a blog, outline, rewrite and headline pick their templates, and every other mode the generate template (iff) |
| Prompts.GenerateOnlyForBlog | src/lib/prompts.ts:272-295 | the blog generate template is chosen only for the blog type |
| Prompts.RewriteIgnoresTopic | src/lib/prompts.ts:46-61 | the rewrite prompt does not depend on the topic and embeds the content and the tone |
| Prompts.PromptMentionsTopic | src/lib/prompts.ts:258-296 | every prompt but the blog rewrite contains the topic |
| Prompts.BlogKeywordsJoined | src/lib/prompts.ts:12 | blog prompts other than the rewrite contain the keywords joined by ", " |
| Prompts.SocialIgnoresMode | src/lib/prompts.ts:280-285 | the social template does not depend on the mode |
| Prompts.SocialByPlatform | src/lib/prompts.ts:280-285 | linkedin, instagram and facebook name their templates, and every other platform, a missing one included, gets the tweets template (iff) |
| Prompts.EmailByMode | src/lib/prompts.ts:287-289 | newsletter exactly for the mode 'generate', promotional for every other mode |
| Prompts.CaptionNamesPlatform | src/lib/prompts.ts:291-292 | the caption prompt ignores the mode and contains the platform and the topic |
| Prompts.GetPromptAsWritten | src/lib/prompts.ts:281-285 | as written, the social lookup yields an inherited Object.prototype member exactly when the platform names one |
| Prompts.AsWrittenAgrees | src/lib/prompts.ts:281-285 | away from those names, the code as written and the own-key lookup give the same prompt |
| Prompts.ToStringPlatformCounterexample | src/lib/prompts.ts:281-285 | the platform "toString" reaches an inherited member as written, while the own-key lookup falls back to the tweets template |
| Prompts.Classify | src/lib/prompts.ts:299-366 | no contract of its own: which canned reply `generateContent` picks; its promises are in Prompts.ClassifyUnderExtension, Prompts.BlogPromptsGetArticle, Prompts.TweetsPromptGetsTweets and Prompts.LinkedInPromptNotPlaceholder |
| Prompts.ClassifyUnderExtension | src/lib/prompts.ts:304-365 | adding text around a prompt can only move its mock reply earlier in the order blog post, tweet, LinkedIn, placeholder |
| Prompts.BlogPromptsGetArticle | src/lib/prompts.ts:304-331 | blog prompts other than the rewrite always get the blog article reply |
| Prompts.TweetsPromptGetsTweets | src/lib/prompts.ts:304-343 | the tweets prompt gets the blog article or the tweet list, and the tweet list exactly when neither its topic nor its tone contains 'blog post' |
| Prompts.TweetsPromptSayingBlogPost | src/lib/prompts.ts:304-331 | a tweets prompt whose topic or tone contains 'blog post' gets the blog article |
| Prompts.TweetsPromptAvoidsBlogPost | src/lib/prompts.ts:82-85 | when topic and tone do not contain 'blog post', the tweets prompt does not either: no occurrence reaches across the quotes, the line break or the 'Tone: ' label |
| Prompts.LinkedInPromptNotPlaceholder | src/lib/prompts.ts:345-365 | the LinkedIn prompt never gets the placeholder |
| GenerateRoute.LengthGuide | src/app/api/generate/route.ts:62 | no contract of its own: its promises are in GenerateRoute.LengthGuideBands |
| GenerateRoute.LengthGuideBands | src/app/api/generate/route.ts:62 | 'short' gives 500-800 words, 'long' 2000-3000 words, anything else 1000-1500 words (iff) |
| GenerateRoute.ServerError | src/app/api/generate/route.ts:161-166 | status 500 with the error's message, or 'Failed to generate content' when it has none |
| GenerateRoute.ReplyContent | src/app/api/generate/route.ts:158 | '' exactly when there is no first choice or its content is missing, null or empty; any other result is that content itself |
| GenerateRoute.Handle | src/app/api/generate/route.ts:8-168 | no contract of its own: the POST handler; its promises are in GenerateRoute.TopicRequired, GenerateRoute.OnlyThePromptIsAsked, GenerateRoute.CompletionOutcomes and GenerateRoute.MalformedIsServerError |
| GenerateRoute.TopicRequired | src/app/api/generate/route.ts:12-14 | a missing or empty topic gives 400 'Topic is required', whatever the completion service would do |
| GenerateRoute.OnlyThePromptIsAsked | src/app/api/generate/route.ts:142-160 | with a topic, the response depends only on the service's answer to the prompt built |
| GenerateRoute.CompletionOutcomes | src/app/api/generate/route.ts:142-166 | an answer gives 200 with `ReplyContent` of the first choice: its text verbatim, '' when there is no choice; a failure gives exactly the 500 of its message |
| GenerateRoute.MalformedIsServerError | src/app/api/generate/route.ts:10-166 | a body that cannot be read gives exactly the 500 of its error: `{ error: message }`, or 'Failed to generate content' when the message is empty |
| GenerateRoute.Choose | src/app/api/generate/route.ts:16-140 | no contract of its own: the if/else chain that picks the prompt; its promises are in GenerateRoute.BlogByMode, GenerateRoute.SocialByPlatform, GenerateRoute.EmailIgnoresModeAndPlatform, GenerateRoute.UnknownTypeSendsEmptyPrompt, GenerateRoute.ToneKept, GenerateRoute.ToneDefaults and GenerateRoute.Fallbacks |
| GenerateRoute.BlogByMode | src/app/api/generate/route.ts:19-75 | outline, headline and rewrite pick their prompts; any other or missing mode generates (iff) |
| GenerateRoute.SocialByPlatform | src/app/api/generate/route.ts:76-114 | linkedin and instagram pick their prompts; every other platform, a missing one included, gets tweets (iff) |
| GenerateRoute.EmailIgnoresModeAndPlatform | src/app/api/generate/route.ts:115-128 | an e-mail is always the newsletter, whatever the mode and the platform |
| GenerateRoute.UnknownTypeSendsEmptyPrompt | src/app/api/generate/route.ts:16-140 | the prompt stays empty exactly when the type is none of the four, and is still sent |
| GenerateRoute.ToneKept | src/app/api/generate/route.ts:49 | a non-empty tone is used as it is |
| GenerateRoute.ToneDefaults | src/app/api/generate/route.ts:49-133 | a missing or empty tone is 'professional' for rewrite, generate and LinkedIn, 'casual' for Instagram, tweets and captions, 'friendly' for e-mail |
| GenerateRoute.Fallbacks | src/app/api/generate/route.ts:23-130 | missing keywords become 'none specified', 'none' or 'use relevant keywords naturally' by mode; a missing platform becomes 'social media' for captions; given keywords are used verbatim |
| GenerateRoute.BuildPrompt | src/app/api/generate/route.ts:16-140 | no contract of its own: the prompt text; its promises are in GenerateRoute.PromptMentionsTopic, GenerateRoute.RewriteOfMissingContent and GenerateRoute.GeneratePromptStatesLength |
| GenerateRoute.PromptMentionsTopic | src/app/api/generate/route.ts:21-139 | every prompt but the rewrite and the empty one contains the topic |
| GenerateRoute.RewriteOfMissingContent | src/app/api/generate/route.ts:48-52 | a rewrite without existingContent asks to rewrite the text "undefined" |
| GenerateRoute.GeneratePromptStatesLength | src/app/api/generate/route.ts:62-63 | the generate prompt contains its word-count band |
| Sidebar.IsActive | src/components/layout/Sidebar.tsx:100 | no contract of its own: `pathname === href \|\| pathname.startsWith(href + '/')`; its promises are in Sidebar.BoundaryRequired, Sidebar.SlashAfterHref, Sidebar.ActiveHrefsAgree and Sidebar.AtMostOneActive |
| Sidebar.SettingsActive | src/components/layout/Sidebar.tsx:125-126 | no contract of its own: equality with '/settings'; its promises are in Sidebar.SettingsSubPathNotActive |
| Sidebar.BoundaryRequired | src/components/layout/Sidebar.tsx:100 | a path that extends an href without a '/' boundary does not activate it |
| Sidebar.ContentExamples | src/components/layout/Sidebar.tsx:100 | '/contentx' does not activate '/content'; '/content' and '/content/42' do |
| Sidebar.SettingsSubPathNotActive | src/components/layout/Sidebar.tsx:125-126 | below '/settings' the navigation rule would activate the link but the Settings rule does not |
| Sidebar.SlashAfterHref | src/components/layout/Sidebar.tsx:100 | a path longer than an href it activates has '/' right after the href |
| Sidebar.ActiveHrefsAgree | src/components/layout/Sidebar.tsx:100 | two one-segment hrefs activated by the same path are equal |
| Sidebar.NavigationShape | src/components/layout/Sidebar.tsx:33-41 | every navigation href is one segment and all are distinct |
| Sidebar.AtMostOneActive | src/components/layout/Sidebar.tsx:33-41 | for any path, at most one navigation entry is active |
| Sidebar.AvatarText | src/components/layout/Sidebar.tsx:142 | 'U' when there is no user or the name is empty, else the initials; never more than two characters |
| Sidebar.BlankNameGivesBlankAvatar | src/components/layout/Sidebar.tsx:142 | a name of one space gets no fallback and an empty avatar |
| Sidebar.WorkspaceBadge | src/components/layout/Sidebar.tsx:67 | one character: 'W' without a workspace or name, else the name's first character |
| Sidebar.WorkspaceLabel | src/components/layout/Sidebar.tsx:70 | never empty: the workspace name, or 'Workspace' |
| Sidebar.BadgeAfterLogin | src/components/layout/Sidebar.tsx:67 | after a login the badge reads 'M' |
| Sidebar.BadgeAfterSignup | src/components/layout/Sidebar.tsx:67 | after a signup the badge is the first letter of the name, or the apostrophe when the name is empty |

## Left out

- I/O and timing: the OpenAI call is the `oracle` parameter of `GenerateRoute.Handle`. The simulated delays (`setTimeout` in the prompts and auth code), the zustand `persist` storage and `console.error` are not modelled.
- The transient `isLoading = true` that login and signup set while they wait is not modelled. Each action is one atomic step, and only its final state is stated.
- `generateId`: ids are parameters and are not assumed unique. `formatDate`, `formatDateTime` and `cn` are date- and class-name library wrappers, so they are not modelled.
- The prose of the prompt templates and of the mock replies: prompts are skeletons (see above). The classifier returns which canned reply it picks, not the reply text.
- The ideas endpoint (`src/app/api/ideas/route.ts`), the pages and the header are presentation or JSON-library work, so they are not modelled.
- Request bodies whose properties are not strings (numbers, arrays, booleans) are not modelled. Neither are errors whose `message` is not a string: a missing message is modelled as the empty string.
- String lengths and indices count Dafny characters, not UTF-16 code units. Case mapping covers ASCII letters only; `toLowerCase`/`toUpperCase` outside ASCII (for example 'ß' to "SS") is not modelled.
- JavaScript numbers are mathematical integers. Scores, counts and clock readings never overflow or lose precision here.
- The seed timestamps use one reading per offset (`now`, a week ago, ten days ago, in two days). The source reads the clock separately for each seed record.
- The client store's seed slices are constructor parameters; their literal contents are not reproduced.
- A `Partial<T>` patch that sets a required field to `undefined` is not modelled: a patch either carries a value for a required field or leaves it alone.
- Aliasing is not modelled. `getUsers` and `getWorkspaces` return the live arrays. Every create, find and update returns the stored object itself (for example db.ts:173, 230 and 266). So a caller that mutates a returned array or record changes the table. The model hands out values.
- ClientStore.ContentStore.UpdateContent: uses one clock reading for all matching records. The source reads the clock once per matching record.
- Utils.Truncate: the length is a natural number. JavaScript `slice` with a negative or fractional length is not modelled.

## Findings

| source | as written | input that shows it | evidently intended | confidence | as-written member | corrected member |
|---|---|---|---|---|---|---|
| src/lib/prompts.ts:281-285 | `socialPrompts[platform]` also finds the members every object inherits from `Object.prototype`. They are truthy, so the tweets fallback is skipped and the inherited member is called with (topic, tone) | `getPrompt('social', 'generate', { topic: 'AI tools', platform: 'toString' })` | an unknown platform falls back to the tweets template | low, not executed (`getPrompt` has no caller in the app, and the platform comes from a fixed list there) | Prompts.ToStringPlatformCounterexample | Prompts.SocialByPlatform |
