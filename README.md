# Villavix post feed and access rules, in Dafny

This project models the decision logic of the Villavix web application. Villavix is a Next.js
site where citizens and staff publish posts with optional images and hashtags. A hosted backend
provides authentication, a document store, object storage and live queries. Every call into that
backend appears here as an argument: a reply that may be `Threw`, a status code, or a success flag.
What the model keeps is the logic around those calls:

- **Feed window** (`Feed`, `PostList`). It holds a list of posts, `hasMore` and `isLoading`.
  - A live snapshot replaces the list.
  - `loadMorePosts` is guarded, appends one page, and infers `hasMore` from whether the page was full.
  - The list view picks an empty state, a load-more sentinel or an end message.
  - Over an unchanging store, loading until the guard stops shows the whole collection, in order.
    This holds when each load-more query resumes right after the last post shown.
  - A collection that is an exact multiple of the page size costs one extra, empty fetch.
- **`createdAt` decoding** (`Timestamps`). This covers every shape the store may return. The feed
  and the server listings decode it differently: the listings throw on anything truthy that is
  not a store timestamp.
- **Post composition** (`Compose`, `NewPost`, `PostPage`):
  - the form schema and the 5 MiB image cap;
  - the space-separated hashtag tokeniser, with its limit of three;
  - index-based tag removal;
  - the submission sequence: validate, upload, create, then reset.

  The tag text left after a removal is proved to tokenise back to the remaining tags. The page
  form sends form data that always passes `createPost`'s field check. The dialog sends a plain
  object, which `createPost` cannot read, so its submissions always end in `'Failed to create post'`.
- **Post card** (`PostCard`). Cutting at 40 space-separated words is proved to show a proper prefix
  of the content that ends right before a space, followed by "...".
- **Registration** (`Register`). The age is proved to be at least *n* exactly when the *n*-th
  birthday has come. An unparsable birth date gives NaN, which passes the under-18 gate.
- **Server actions** (`Actions`):
  - the session and field checks;
  - the storage object path, proved to parse back to its parts for uids without '/', so uploads
    that differ in user, millisecond or file name get different paths (two uploads of the same
    file name by the same user in the same millisecond share one);
  - the public URL, proved to give back the object path after the bucket's prefix;
  - the record written, with author fields taken from the verified claims;
  - the listings and their defaults.
- **Access decisions**:
  - the `/home` prefix gate (`Middleware`);
  - the staff-role check of the verify endpoint (`VerifyRoute`);
  - role defaulting in the claims endpoint (`SetClaimsRoute`);
  - the header-hiding predicate (`ConditionalHeader`).

  Gate and endpoint together are proved to let a protected path through exactly for a decodable
  token with a staff role. A user stored without a role gets 'ciudadano', which that check refuses.
- **Search box and demo feed** (`SearchBar`, `MainFeed`):
  - `q` is set or deleted, with every other parameter kept;
  - the target is "/resumenes?" plus the serialised parameters;
  - submitted text is prepended to the demo feed.

Shared modules:
- `Text` holds the JavaScript string operations the code relies on: `split`, `join`, `trim`,
  UTF-16 `length` and `||` defaults.
- `Params` models `URLSearchParams` as an ordered list of pairs, with `get`, `set`, `delete`
  and form-urlencoded serialisation, which is proved to read back to the original text.

Three points about the code that the model keeps as written:
- **`createdAt` decoding differs between paths.** The feed accepts several shapes. The server
  listings call `toDate()` on any truthy value and so throw on anything that is not a store timestamp.
- **The seconds field.** The feed decoder reads `_seconds`, not `seconds`.
- **The verify endpoint** answers 401 when the request body is not JSON, as well as when decoding fails.

## Model

| member | source | states |
|---|---|---|
| Timestamps.DecodeCreatedAt | src/lib/useRealtimePosts.tsx:31-43 | falsy becomes now; a store timestamp or Date gives its instant; a non-empty string passes through verbatim; `_seconds` gives seconds*1000 ms; booleans, numbers and other objects become now |
| Timestamps.ListingCreatedAt | src/app/actions.ts:127 | the listing decoder throws exactly on a truthy value that is not a store timestamp, and otherwise agrees with the feed decoder |
| Feed.MapDoc | src/lib/useRealtimePosts.tsx:45-54 | the id is kept; missing title/content become ""; a non-empty author name or avatar is kept, a missing or empty author becomes "Usuario" and a missing or empty avatar ""; an empty image URL becomes null and a non-empty one is kept; hashtags are kept when an array and [] otherwise; createdAt is the decoded instant |
| Feed.MapDocs | src/lib/useRealtimePosts.tsx:87-116 | the page keeps the documents' order and maps each with the same rule as the live path |
| Feed.MapDocsAppend | src/lib/useRealtimePosts.tsx:118 | mapping two pages together equals mapping each and concatenating |
| Feed.Initial | src/lib/useRealtimePosts.tsx:10-12 | the hook starts with the initial posts, hasMore true, not loading |
| Feed.Snapshot | src/lib/useRealtimePosts.tsx:58-59 | a snapshot replaces the whole list; hasMore is whether it was a full page |
| Feed.CanLoadMore | src/lib/useRealtimePosts.tsx:70 | a load goes ahead only when not loading, more is expected and the list is non-empty |
| Feed.LoadMore | src/lib/useRealtimePosts.tsx:69-125 | no change when loading, exhausted or empty; otherwise the old list is an unchanged prefix and the page follows it in order, hasMore is whether the page was full; on a failed fetch list and hasMore stay; loading always ends false |
| Feed.FeedWindow.constructor | src/lib/useRealtimePosts.tsx:9-12 | the window starts in the initial state with the given page size |
| Feed.FeedWindow.ApplySnapshot | src/lib/useRealtimePosts.tsx:24-59 | the window's new state is the snapshot of the mapped documents |
| Feed.FeedWindow.LoadMorePosts | src/lib/useRealtimePosts.tsx:69-125 | the new state is LoadMore of the old one with the fetched page; the query starts after the last post's id exactly when the guard passes |
| Feed.StorePage | src/lib/useRealtimePosts.tsx:78-83 | taking the cursor to resume right after the n-th post shown, the query answers the next posts in order, a full page unless the collection ends first |
| Feed.LoadAllShowsCollection | src/lib/useRealtimePosts.tsx:69-125 | over an unchanging store whose pages are StorePage (each query resumes right after the last post shown), loading from any reachable state until the guard stops shows the whole collection in order and clears hasMore |
| Feed.PagingShowsCollection | src/lib/useRealtimePosts.tsx:58-119 | the first snapshot followed by loading to the end shows exactly the collection |
| Feed.ExactPageReportsMore | src/lib/useRealtimePosts.tsx:59-119 | a collection of exactly one page still reports hasMore, and one empty fetch is needed to clear it |
| PostList.View | src/components/postList.tsx:37-78 | empty list gives the empty state with a link to /post and nothing else; otherwise posts in list order, the sentinel iff hasMore (spinner and caption by isLoading), the end message iff not hasMore |
| PostList.ShouldRequestMore | src/components/postList.tsx:27-31 | the list asks for more only when the sentinel is in view, more is expected and nothing is loading |
| PostList.TriggerPassesHookGuard | src/components/postList.tsx:27-31 | when the rendered sentinel is in view and the list's condition holds, the hook's guard passes too |
| PostList.Mount | src/components/postList.tsx:16-18 | the hook gets the initial posts and page size 5; initialHasMore is ignored and hasMore starts true |
| PostList.OnInView | src/components/postList.tsx:27-35 | a load happens only when in view, hasMore and not loading; otherwise nothing changes |
| Compose.TitleContentIssues | src/components/newpost.tsx:35-41 | title shorter than 3 or content shorter than 10 UTF-16 units is an issue, and nothing else is |
| Compose.HashtagIssues | src/components/newpost.tsx:42-45 | no issue iff hashtags are absent or at most 3 non-empty ones; more than 3 and each empty tag are reported |
| Compose.KeepHashtags | src/components/newpost.tsx:177 | kept tokens are exactly the pieces starting with '#' and longer than one character |
| Compose.KeepHashtagsAppend | src/components/newpost.tsx:177 | the filter keeps input order (distributes over concatenation) |
| Compose.KeepHashtagsAll | src/components/newpost.tsx:177 | a list of hashtag tokens passes the filter unchanged |
| Compose.KeptTokens | src/components/newpost.tsx:176-177 | every kept token is a hashtag token without a space |
| Compose.TokeniseHashtags | src/components/newpost.tsx:175-198 | runs iff the input ends with a space and is not blank; stores the first min(3, kept) tokens; warns iff more than 3 were kept; the stored tags always satisfy the schema |
| Compose.RemoveAt | src/components/newpost.tsx:203-206 | removes exactly the element at the index, keeping the rest in order; an index out of range changes nothing |
| Compose.RemoveAtConforms | src/components/newpost.tsx:203-206 | removal keeps the tag list within the schema |
| Compose.RemovalTextRetokenises | src/components/newpost.tsx:216 | when at least one tag remains and no tag ends in whitespace, the input text after a removal (tags joined by single spaces plus a space) tokenises back to exactly the remaining tags without a warning |
| Compose.UploadStepOf | src/components/newpost.tsx:107-123 | without an image nothing is uploaded; a thrown or erroring upload stops before createPost; a successful upload's URL is handed on, and a non-empty URL handed on is one the upload returned |
| NewPost.SchemaIssues | src/components/newpost.tsx:35-46 | the dialog's schema passes iff title, content and hashtag rules all hold |
| NewPost.ConformingTagsPassSchema | src/components/newpost.tsx:42-45 | with tags from the tokeniser or removal, only title and content can fail |
| NewPost.DialogPayload | src/components/newpost.tsx:126-131 | the dialog sends a plain object with the form values, and imageUrl undefined when no URL came back |
| NewPost.DialogCreateFails | src/components/newpost.tsx:126-131 | for every session, claims, id and write outcome, createPost answers the dialog's payload with 'Failed to create post' and writes nothing |
| NewPost.RemovalNotice | src/components/newpost.tsx:219-223 | the notice lists the remaining tags after "Hashtags: ", or says all were removed |
| NewPost.NewPostForm.constructor | src/components/newpost.tsx:54-69 | the dialog starts closed with empty values, no tags, no image |
| NewPost.NewPostForm.SetDialogOpen | src/components/newpost.tsx:228 | the dialog's open state follows the trigger |
| NewPost.NewPostForm.EditTitle | src/components/newpost.tsx:251-256 | the title field takes the typed value |
| NewPost.NewPostForm.EditContent | src/components/newpost.tsx:311-316 | the content field takes the typed value |
| NewPost.NewPostForm.HandleImageChange | src/components/newpost.tsx:72-93 | the first file is kept unless it exceeds 5 MiB (exactly 5 MiB is accepted), in which case the selection is unchanged and a warning is raised |
| NewPost.NewPostForm.PreviewLoaded | src/components/newpost.tsx:87-89 | the preview becomes the data URL read |
| NewPost.NewPostForm.RemoveImage | src/components/newpost.tsx:96-99 | image and preview are both cleared |
| NewPost.NewPostForm.HandleHashtagsChange | src/components/newpost.tsx:170-200 | the input always takes the text; when the tokeniser runs its tags are stored and shown and the warning follows it; shown tags stay the stored ones and within the schema |
| NewPost.NewPostForm.RemoveHashtag | src/components/newpost.tsx:203-224 | the stored tags lose the given index, the input becomes their space-joined text plus a space, and the notice reports them |
| NewPost.NewPostForm.Submit | src/components/newpost.tsx:103-163 | schema failure changes nothing; an upload failure stops before createPost and keeps the draft; otherwise the plain-object payload is sent; a create error keeps the draft; success resets everything, closes the dialog and goes to /home; isUploading ends false |
| PostPage.PagePayload | src/app/post/page.tsx:114-119 | the form data carries title and content, and imageUrl exactly when the upload produced a non-empty URL |
| PostPage.PagePayloadPassesServerCheck | src/app/post/page.tsx:114-121 | whatever passes the page schema passes createPost's title/content check, and the stored image is the uploaded URL exactly when there is one |
| PostPage.CreatePostForm.constructor | src/app/post/page.tsx:46-58 | the page starts with empty title and content and no image |
| PostPage.CreatePostForm.EditTitle | src/app/post/page.tsx:156-171 | the title field takes the typed value |
| PostPage.CreatePostForm.EditContent | src/app/post/page.tsx:174-189 | the content field takes the typed value |
| PostPage.CreatePostForm.HandleImageChange | src/app/post/page.tsx:61-82 | a file over 5 MiB is rejected and the image is unchanged; otherwise the first file is selected |
| PostPage.CreatePostForm.PreviewLoaded | src/app/post/page.tsx:76-80 | the preview becomes the data URL read |
| PostPage.CreatePostForm.RemoveImage | src/app/post/page.tsx:85-88 | image and preview are both cleared |
| PostPage.CreatePostForm.Submit | src/app/post/page.tsx:91-149 | schema failure changes nothing; an upload error stops before createPost; the form data has imageUrl only for a non-empty URL; success clears title, content, image and preview and goes to /dashboard; isUploading ends false |
| PostCard.TruncatedText | src/components/post.tsx:23-25 | content with at most 40 space-separated pieces is shown unchanged; longer content ends in "..." |
| PostCard.TruncationIsPrefix | src/components/post.tsx:23-25 | a cut card shows content[..k] + "..." where k < length, content[k] is a space, and content[..k] is exactly the first 40 words |
| PostCard.RenderCard | src/components/post.tsx:27-72 | expanded shows the full content, collapsed the truncated text; the toggle exists iff truncation applies, labelled "Ver menos"/"Ver más"; the avatar is the author's imageuser; the image iff a non-empty URL; hashtags in their order |
| PostCard.ShownTextComesFromContent | src/components/post.tsx:43 | the text shown is always the content or a cut prefix of it followed by "..." |
| PostCard.PostCardState.constructor | src/components/post.tsx:21 | a card starts collapsed |
| PostCard.PostCardState.Toggle | src/components/post.tsx:44-49 | the button flips the expanded state |
| Register.CalculateAge | src/app/register/page.tsx:25-33 | the age is the year difference, or one less exactly while this year's birthday has not come |
| Register.AgeAtLeastIff | src/app/register/page.tsx:25-33 | the age is at least n exactly when the n-th birthday is on or before today |
| Register.AgeOf | src/app/register/page.tsx:49-50 | the age is computed from a parsed birth date; an unparsable date gives NaN |
| Register.GateOpensOnEighteenthBirthday | src/app/register/page.tsx:52-56 | the gate admits a parsed date exactly from the 18th birthday on, that day included |
| Register.RegisterForm.constructor | src/app/register/page.tsx:22-23 | no error, not loading |
| Register.RegisterForm.HandleSubmit | src/app/register/page.tsx:37-75 | under 18 sets the message and never calls register; otherwise register is called with the age; success writes the session cookie and goes to /; failure shows its message; loading is false after every outcome |
| Actions.DecimalRoundTrip | src/app/actions.ts:41 | the rendered timestamp digits parse back to the number |
| Actions.ObjectPath | src/app/actions.ts:41 | the path is "posts/" + uid + "/" + timestamp + "-" + file name |
| Actions.PublicUrl | src/app/actions.ts:61 | the URL is "https://storage.googleapis.com/" + bucket + "/" + path: that prefix, then the path, and nothing between |
| Actions.PublicUrlRoundTrip | src/app/actions.ts:61 | the object path reads back from the URL as everything after "https://storage.googleapis.com/" + bucket + "/" |
| Actions.ObjectPathRoundTrip | src/app/actions.ts:41 | a path parses back to its uid, timestamp and file name |
| Actions.ObjectPathsDistinct | src/app/actions.ts:40-41 | different uid, timestamp or name give different paths |
| Actions.UploadImage | src/app/actions.ts:21-68 | no session or a failed check gives 'Failed to upload image'; a missing or empty file gives 'No file provided'; otherwise the object is saved at the path and the public URL returned, or the generic failure |
| Actions.ShapeRecord | src/app/actions.ts:90-97 | author id and email from the claims, author name from the claims or 'Usuario', an empty image URL stored as null |
| Actions.CreatePost | src/app/actions.ts:71-107 | no session fails; a plain-object payload fails; a missing or empty title or content gives 'Title and content are required' and writes nothing; with valid fields the post is created iff the write succeeds, with the shaped record |
| Actions.ListPost | src/app/actions.ts:116-128 | fields are copied, a missing author becomes 'Usuario', a falsy createdAt becomes now; a truthy createdAt that is not a store timestamp throws |
| Actions.ListPosts | src/app/actions.ts:116-129 | the listing keeps the store's order and fails if any entry throws |
| Actions.GetPosts | src/app/actions.ts:110-136 | every post in order, or [] on any failure |
| Actions.GetUserPosts | src/app/actions.ts:139-171 | no session gives [] without a query; the query filters on the verified uid; a signed-in user whose query succeeds gets every post of the listing, in order, each decoded as the listing decodes it; any failure gives [] |
| Middleware.IsProtected | src/middleware.ts:8 | a path is gated exactly when it starts with /home |
| Middleware.LoginRedirect | src/middleware.ts:19-20 | the redirect goes to /login with returnUrl set to the original path |
| Middleware.Gate | src/middleware.ts:5-50 | only paths starting with /home are gated; no token redirects without deleting the cookie; a gated path passes iff the verify call answers ok; a non-ok answer or a failed fetch redirects and deletes the cookie |
| Middleware.GateAdmitsOnlyStaff | src/middleware.ts:27-41 | with the real verify endpoint, a gated path passes exactly for a present token that decodes with role admin or funcionario |
| Middleware.UnprotectedIgnoresSession | src/middleware.ts:8-13 | for ungated paths, the token and the verify call make no difference |
| VerifyRoute.StaffRole | src/app/api/auth/verify/route.ts:22 | a role passes exactly when it is present, non-empty and 'admin' or 'funcionario' |
| VerifyRoute.FailureMessage | src/app/api/auth/verify/route.ts:38 | the error carries the exception's message, or exactly 'Invalid token' when it is empty |
| VerifyRoute.Verify | src/app/api/auth/verify/route.ts:4-44 | missing token gives 400; a failed decode or unreadable body gives 401 with the message; a missing or non-staff role gives 403 'Unauthorized role'; otherwise 200 with valid, uid and role |
| VerifyRoute.RefusalsExplainThemselves | src/app/api/auth/verify/route.ts:9-43 | every refusal carries a non-empty error |
| SetClaimsRoute.SetClaims | src/app/api/auth/setClaims/route.ts:4-29 | missing user gives 404 and no claim; the role is the stored one or 'ciudadano'; the claim is exactly that role and 200 echoes it; any failure gives 500 'Internal Server Error' |
| SetClaimsRoute.WrittenRoleIsNeverEmpty | src/app/api/auth/setClaims/route.ts:14 | a written role is never empty; an absent or empty stored role becomes 'ciudadano' |
| SetClaimsRoute.DefaultRoleIsRefusedByVerify | src/app/api/auth/setClaims/route.ts:14-16 | a user stored without a role is given a claim the verify endpoint refuses with 403 |
| ConditionalHeader.ShowsHeader | src/components/ConditionalHeader.tsx:10-14 | the header is hidden exactly on /login, /register and /home, by exact match on the pathname |
| ConditionalHeader.GatedPathsShowHeaderBelowHome | src/components/ConditionalHeader.tsx:10 | among gated paths only /home itself hides the header, so a path under it such as /home/x is gated and shows the header |
| SearchBar.SearchParams | src/components/search-bar.tsx:25-30 | a non-blank query sets q to the untrimmed query, a blank one deletes q, every other parameter is kept |
| SearchBar.SearchKeepsOtherParams | src/components/search-bar.tsx:25 | two searches from the same address differ only in q |
| SearchBar.SearchBarState.constructor | src/components/search-bar.tsx:13 | the query starts as the default value |
| SearchBar.SearchBarState.Type | src/components/search-bar.tsx:43 | typing replaces the query |
| SearchBar.SearchBarState.OnParamsChanged | src/components/search-bar.tsx:16-19 | after the address changes the query is its q parameter, or "" |
| SearchBar.SearchBarState.HandleSearch | src/components/search-bar.tsx:21-35 | q set or deleted as above, others kept; the target is "/resumenes?" followed by the serialised parameters |
| MainFeed.AfterSubmit | src/components/main-feed.tsx:20-21 | blank text leaves the list; other text is prepended as-is by "Usuario Actual" with the older posts after it in order |
| MainFeed.SubmitKeepsOlderPosts | src/components/main-feed.tsx:21 | the list before a submission is always the tail of the list after |
| MainFeed.MainFeedState.constructor | src/components/main-feed.tsx:11-14 | the list starts with the two sample posts, ids 1 and 2 |
| MainFeed.MainFeedState.HandlePostSubmit | src/components/main-feed.tsx:16-24 | the list becomes AfterSubmit of the old one; the form is reset iff the text was not blank |
| Text.Trim | src/components/newpost.tsx:175-176 | the result is the slice of the text between a blank prefix and a blank suffix; it is "" exactly for blank text, and otherwise starts and ends with non-whitespace |
| Text.TrimDropsTrailingSpace | src/components/newpost.tsx:216 | trimming text plus one space gives the text back when its ends are not whitespace |
| Text.JsLength | src/components/newpost.tsx:36-41 | UTF-16 length is between the code-point count and twice it, zero only for "", and one character counts its UTF-16 units (2 above U+FFFF, else 1) |
| Text.JsLengthAppend | src/components/newpost.tsx:36-41 | the UTF-16 length of a concatenation is the sum of the lengths |
| Text.JsLengthBmp | src/components/newpost.tsx:36-41 | text with no character above U+FFFF has a UTF-16 length equal to its character count |
| Text.Split | src/components/post.tsx:23 | split gives at least one piece and no piece contains the separator |
| Text.JoinSplit | src/components/post.tsx:23-25 | joining the pieces of a split with the separator gives back the string |
| Text.SplitJoin | src/components/newpost.tsx:177 | splitting a join of separator-free pieces gives back the pieces |
| Text.JoinAt | src/components/post.tsx:25 | a join is the join of the first n pieces, the separator, and the join of the rest |
| Text.OrElse | src/lib/useRealtimePosts.tsx:47-51 | `a || fallback` keeps a non-empty string and otherwise takes the fallback |
| Params.Get | src/components/search-bar.tsx:17 | get answers the value of the pair at the first index carrying the name, and nothing exactly when no pair carries it |
| Params.GetAt | src/components/search-bar.tsx:17 | at the first index with the name, get answers that pair's value |
| Params.Set | src/components/search-bar.tsx:27 | without a pair of that name the pair is appended; otherwise the first such pair takes the value in place, the later ones go and the pairs before it stay; afterwards exactly one pair carries the name, get answers the value, and deleting the name gives what deleting it did before |
| Params.ReplaceFirstInPlace | src/components/search-bar.tsx:27 | replacing keeps the pairs before the first named one, puts the new pair at its index and drops later named pairs |
| Params.Delete | src/components/search-bar.tsx:29 | delete keeps exactly the pairs without the name; a single pair goes exactly when it carries the name |
| Params.DeleteAppend | src/components/search-bar.tsx:29 | delete works pair by pair and keeps the order: deleting from a concatenation concatenates the results |
| Params.GetAfterDelete | src/components/search-bar.tsx:29 | after delete the name is absent |
| Params.Encode | src/components/search-bar.tsx:33 | serialised names and values use only unreserved characters, '+' and percent escapes |
| Params.Decode | src/components/search-bar.tsx:33 | a string that reads back is no longer than its encoding and uses only unreserved characters, '+' and percent escapes |
| Params.Utf8ReadsBack | src/components/search-bar.tsx:33 | the UTF-8 lead byte of a character announces the sequence length, and the sequence decodes to the character |
| Params.DecodeEncode | src/components/search-bar.tsx:33 | reading the serialisation of any string back gives the string: '+' is a space, escapes spell the UTF-8 bytes of one character |
| Params.SerializedPairsSeparate | src/components/search-bar.tsx:33 | the serialised query splits on '&' into exactly the encoded pairs, in order |

## Left out

- The backend SDKs are not modelled. Each call is an argument instead: token verification, document
  reads, writes and queries, live snapshots, `startAfter` cursors, storage save and `makePublic`,
  custom claims, and account creation.
- Feed.FeedWindow: the live subscription and `loadMorePosts` can run at the same time; the model
  applies each one as a single atomic step, so their interleaving is not captured.
- Timestamps: the clock and `toISOString` are a `Clock` argument. Out-of-range dates that make
  `toISOString` throw, and fractional numbers, are not modelled.
- Register.AgeOf: the birth date arrives already read out as (year, month, day). `new Date("YYYY-MM-DD")`
  parses as UTC while the getters read local time, so west of UTC the date is one day early; this is not modelled.
- Actions.CreatePost: `revalidatePath` and the store's server timestamp are left out. The shown
  `createPost` never stores hashtags, so the model does not either.
- Actions: form fields that are not strings, and the file bytes, are left out.
- Feed.StorePage: the model assumes each load-more query resumes right after the last post shown.
  The code passes `startAfter` a document reference built from that post's id while ordering by
  `createdAt`; what the store makes of that cursor, ties in `createdAt`, and a store that changes
  between pages are not modelled.
- SearchBar.SearchBarState.HandleSearch: reparsing `searchParams.toString()` into a new
  `URLSearchParams` is modelled as the identity. `Params.DecodeEncode` shows that each encoded
  name and value reads back to itself; splitting a query on '=' and parsing lenient input are not modelled.
- Toasts, dialogs, the FileReader, router refresh, rendering markup and console logging are not
  modelled. Toast texts appear only where they are the observable result, as in NewPost.RemovalNotice.
- `src/lib/useRealtimePosts.tsx` imports `PostProps` from `src/app/actions.ts`, which exports only
  `Post`. The model uses one post type for the feed and the card.
- VerifyRoute.Verify and SetClaimsRoute.SetClaims: JSON fields of a type other than string are left out.
- Server-action calls that fail in transit are modelled as `Threw`. They lead to the forms'
  catch-all outcome.
