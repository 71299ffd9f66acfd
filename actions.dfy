/**
 * The server actions of src/app/actions.ts: `uploadImage`, `createPost`,
 * `getPosts` and `getUserPosts`. Each is a sequence of awaited steps with
 * early returns inside one `try`; every exception ends in the catch. The
 * session cookie, the token verifier, the object store and the document
 * store are inputs: what the cookie holds, what `verifyIdToken` answers,
 * whether `save`/`makePublic`/`set` succeed, and what a query returns.
 */
module Actions {
  import opened Wrappers
  import opened Text
  import opened Params
  import opened Timestamps

  /** The decoded token claims the actions read. */
  datatype Claims = Claims(uid: string, name: Option<string>, email: string)

  /** A browser `File`. */
  datatype FileInfo = FileInfo(name: string, size: nat, mimeType: string)

  datatype UploadResult = ImageUploaded(imageUrl: string) | UploadError(error: string)

  datatype CreateResult = PostCreated(postId: string) | CreateError(error: string)

  /**
   * What a caller hands to `createPost`: a `FormData`, or a plain object
   * (which has no `get` method, so reading a field from it throws).
   */
  datatype CreatePayload =
    | FormPayload(entries: seq<Pair>)
    | ObjectPayload(title: string, content: string, hashtags: Option<seq<string>>, imageUrl: Option<string>)

  /** The document `createPost` writes; the store fills `createdAt` with its server timestamp. */
  datatype PostRecord = PostRecord(
    title: string,
    content: string,
    imageUrl: Option<string>,
    authorId: string,
    authorName: string,
    authorEmail: string)

  const UploadFailure := "Failed to upload image"
  const NoFileProvided := "No file provided"
  const CreateFailure := "Failed to create post"
  const FieldsRequired := "Title and content are required"
  const DefaultAuthorName := "Usuario"
  const StorageHost := "https://storage.googleapis.com/"

  predicate IsDigit(c: char) {
    '0' <= c <= '9'
  }

  /** The decimal text of a non-negative integer, as a template literal renders `Date.now()`. */
  function Decimal(n: nat): (s: string)
    ensures s != []
    ensures forall i :: 0 <= i < |s| ==> IsDigit(s[i])
  {
    var d := ('0' as int + n % 10) as char;
    if n < 10 then [d] else Decimal(n / 10) + [d]
  }

  function ParseDecimal(s: string): nat
    requires forall i :: 0 <= i < |s| ==> IsDigit(s[i])
  {
    if s == [] then 0
    else
      assert IsDigit(s[|s| - 1]);
      10 * ParseDecimal(s[..|s| - 1]) + (s[|s| - 1] as int - '0' as int)
  }

  lemma {:induction false} DecimalRoundTrip(n: nat)
    ensures ParseDecimal(Decimal(n)) == n
  {
    if n >= 10 {
      var s := Decimal(n);
      assert s[..|s| - 1] == Decimal(n / 10);
      DecimalRoundTrip(n / 10);
    }
  }

  /** The object name of an upload: "posts/{uid}/{milliseconds}-{file name}". */
  function ObjectPath(uid: string, nowMs: nat, fileName: string): (path: string)
    ensures StartsWith(path, "posts/" + uid + "/")
    ensures EndsWith(path, "-" + fileName)
  {
    var path := "posts/" + uid + "/" + Decimal(nowMs) + "-" + fileName;
    assert path[..|"posts/" + uid + "/"|] == "posts/" + uid + "/";
    assert path[|path| - |"-" + fileName|..] == "-" + fileName;
    path
  }

  /** The public URL of an object in a bucket. */
  function PublicUrl(bucket: string, path: string): (url: string)
    ensures StartsWith(url, StorageHost + bucket + "/")
    ensures EndsWith(url, path)
    ensures |url| == |StorageHost| + |bucket| + 1 + |path|
  {
    var url := StorageHost + bucket + "/" + path;
    assert url[..|StorageHost + bucket + "/"|] == StorageHost + bucket + "/";
    assert url[|url| - |path|..] == path;
    url
  }

  /** The object path reads back from a public URL: it is everything after the bucket's prefix. */
  lemma PublicUrlRoundTrip(bucket: string, path: string)
    ensures var url := PublicUrl(bucket, path);
      url[..|StorageHost| + |bucket| + 1] == StorageHost + bucket + "/"
      && url[|StorageHost| + |bucket| + 1..] == path
  {
    var url := PublicUrl(bucket, path);
    assert url[|url| - |path|..] == path;
  }

  /** The first position of `c` in `s`. */
  function FirstIndex(s: string, c: char): (r: Option<nat>)
    ensures r.None? <==> c !in s
    ensures r.Some? ==> r.value < |s| && s[r.value] == c && c !in s[..r.value]
  {
    if s == [] then None
    else if s[0] == c then Some(0)
    else
      var r := FirstIndex(s[1..], c);
      if r.None? then None
      else
        assert s[..r.value + 1] == [s[0]] + s[1..][..r.value];
        Some(r.value + 1)
  }

  lemma FirstIndexAfter(a: string, c: char, b: string)
    requires c !in a
    ensures FirstIndex(a + [c] + b, c) == Some(|a|)
  {
    var s := a + [c] + b;
    assert s[|a|] == c;
    assert s[..|a|] == a;
  }

  /** Reads "{milliseconds}-{file name}" back. */
  function ParseStamped(tail: string): Option<(nat, string)> {
    match FirstIndex(tail, '-')
    case None => None
    case Some(j) =>
      var digits := tail[..j];
      if forall k :: 0 <= k < |digits| ==> IsDigit(digits[k]) then Some((ParseDecimal(digits), tail[j + 1..]))
      else None
  }

  /** Reads an object name back into its owner, its millisecond stamp and the file name. */
  function ParseObjectPath(path: string): Option<(string, nat, string)> {
    if !StartsWith(path, "posts/") then None
    else
      var rest := path[6..];
      match FirstIndex(rest, '/')
      case None => None
      case Some(i) =>
        match ParseStamped(rest[i + 1..])
        case None => None
        case Some(stamped) => Some((rest[..i], stamped.0, stamped.1))
  }

  lemma ParseStampedRoundTrip(nowMs: nat, fileName: string)
    ensures ParseStamped(Decimal(nowMs) + "-" + fileName) == Some((nowMs, fileName))
  {
    var digits := Decimal(nowMs);
    var tail := digits + "-" + fileName;
    assert '-' !in digits by {
      forall k | 0 <= k < |digits| ensures digits[k] != '-' {
        assert IsDigit(digits[k]);
      }
    }
    assert tail == digits + ['-'] + fileName;
    FirstIndexAfter(digits, '-', fileName);
    assert tail[..|digits|] == digits;
    assert tail[|digits| + 1..] == fileName;
    DecimalRoundTrip(nowMs);
  }

  /** An object name gives back who uploaded what, and when. */
  lemma ObjectPathRoundTrip(uid: string, nowMs: nat, fileName: string)
    requires '/' !in uid
    ensures ParseObjectPath(ObjectPath(uid, nowMs, fileName)) == Some((uid, nowMs, fileName))
  {
    var tail := Decimal(nowMs) + "-" + fileName;
    var path := ObjectPath(uid, nowMs, fileName);
    assert path == "posts/" + (uid + ['/'] + tail);
    var rest := path[6..];
    assert rest == uid + ['/'] + tail;
    FirstIndexAfter(uid, '/', tail);
    assert rest[..|uid|] == uid;
    assert rest[|uid| + 1..] == tail;
    ParseStampedRoundTrip(nowMs, fileName);
  }

  /**
   * The timestamp keeps uploads apart: two uploads that differ in owner,
   * millisecond or file name get different object names.
   */
  lemma ObjectPathsDistinct(uid1: string, ms1: nat, name1: string, uid2: string, ms2: nat, name2: string)
    requires '/' !in uid1 && '/' !in uid2
    requires (uid1, ms1, name1) != (uid2, ms2, name2)
    ensures ObjectPath(uid1, ms1, name1) != ObjectPath(uid2, ms2, name2)
  {
    ObjectPathRoundTrip(uid1, ms1, name1);
    ObjectPathRoundTrip(uid2, ms2, name2);
  }

  /**
   * `uploadImage`. `saved` and `madePublic` say whether the two storage calls
   * succeed; `stored` is the object name written, if the save succeeded.
   */
  method UploadImage(
    sessionCookie: Option<string>, verify: Reply<Claims>, file: Option<FileInfo>,
    nowMs: nat, bucket: string, saved: bool, madePublic: bool)
    returns (r: UploadResult, stored: Option<string>)
    ensures !Filled(sessionCookie) || verify.Threw? ==> r == UploadError(UploadFailure) && stored.None?
    ensures Filled(sessionCookie) && verify.Returned? && (file.None? || file.value.size == 0) ==>
      r == UploadError(NoFileProvided) && stored.None?
    ensures Filled(sessionCookie) && verify.Returned? && file.Some? && file.value.size > 0 ==>
      var path := ObjectPath(verify.value.uid, nowMs, file.value.name);
      && stored == (if saved then Some(path) else None)
      && r == (if saved && madePublic then ImageUploaded(PublicUrl(bucket, path)) else UploadError(UploadFailure))
    ensures r.ImageUploaded? ==> stored.Some? && EndsWith(r.imageUrl, stored.value)
  {
    stored := None;
    if !Filled(sessionCookie) {
      return UploadError(UploadFailure), None;
    }
    if verify.Threw? {
      return UploadError(UploadFailure), None;
    }
    var claims := verify.value;
    if file.None? || file.value.size == 0 {
      return UploadError(NoFileProvided), None;
    }
    var filename := ObjectPath(claims.uid, nowMs, file.value.name);
    if !saved {
      return UploadError(UploadFailure), None;
    }
    stored := Some(filename);
    if !madePublic {
      return UploadError(UploadFailure), stored;
    }
    r := ImageUploaded(PublicUrl(bucket, filename));
  }

  /** The record `createPost` writes for the given fields and claims. */
  function ShapeRecord(title: string, content: string, imageUrl: Option<string>, claims: Claims): (rec: PostRecord)
    ensures rec.title == title && rec.content == content
    ensures rec.authorId == claims.uid && rec.authorEmail == claims.email
    ensures rec.authorName == (if claims.name.Some? && claims.name.value != "" then claims.name.value else DefaultAuthorName)
    ensures rec.imageUrl.Some? <==> imageUrl.Some? && imageUrl.value != ""
    ensures rec.imageUrl.Some? ==> rec.imageUrl == imageUrl
  {
    PostRecord(
      title, content,
      if imageUrl.Some? && imageUrl.value != "" then imageUrl else None,
      claims.uid, OrElse(claims.name, DefaultAuthorName), claims.email)
  }

  /**
   * `createPost`. `newId` is the id the store assigns; `written` says whether
   * the write succeeds; `record` is what was written, if anything.
   */
  method CreatePost(
    sessionCookie: Option<string>, verify: Reply<Claims>, payload: CreatePayload,
    newId: string, written: bool)
    returns (r: CreateResult, record: Option<PostRecord>)
    ensures !Filled(sessionCookie) || verify.Threw? ==> r == CreateError(CreateFailure) && record.None?
    ensures payload.ObjectPayload? ==> r == CreateError(CreateFailure) && record.None?
    ensures r.PostCreated? <==> record.Some?
    ensures r.PostCreated? ==> r.postId == newId && written
    ensures
      (Filled(sessionCookie) && verify.Returned? && payload.FormPayload?
       && Filled(Get(payload.entries, "title")) && Filled(Get(payload.entries, "content"))) ==>
      (r.PostCreated? <==> written)
    ensures r == CreateError(FieldsRequired) <==>
      && Filled(sessionCookie) && verify.Returned? && payload.FormPayload?
      && (!Filled(Get(payload.entries, "title")) || !Filled(Get(payload.entries, "content")))
    ensures record.Some? ==>
      && payload.FormPayload? && verify.Returned?
      && Get(payload.entries, "title") == Some(record.value.title) && record.value.title != ""
      && Get(payload.entries, "content") == Some(record.value.content) && record.value.content != ""
      && record.value == ShapeRecord(record.value.title, record.value.content, Get(payload.entries, "imageUrl"), verify.value)
  {
    if !Filled(sessionCookie) || verify.Threw? {
      return CreateError(CreateFailure), None;
    }
    var claims := verify.value;
    if payload.ObjectPayload? {
      // formData.get is not a function on a plain object: the read throws.
      return CreateError(CreateFailure), None;
    }
    var title := Get(payload.entries, "title");
    var content := Get(payload.entries, "content");
    var imageUrl := Get(payload.entries, "imageUrl");
    if !Filled(title) || !Filled(content) {
      return CreateError(FieldsRequired), None;
    }
    var rec := ShapeRecord(title.value, content.value, imageUrl, claims);
    if !written {
      return CreateError(CreateFailure), None;
    }
    r, record := PostCreated(newId), Some(rec);
  }

  /** A stored post document as the listings read it. */
  datatype StoredPost = StoredPost(
    id: string,
    title: Option<string>,
    content: Option<string>,
    imageUrl: Option<string>,
    authorId: Option<string>,
    authorName: Option<string>,
    authorEmail: Option<string>,
    createdAt: RawTime)

  /** A listed post (the `Post` interface). */
  datatype ListedPost = ListedPost(
    id: string,
    title: Option<string>,
    content: Option<string>,
    imageUrl: Option<string>,
    authorId: Option<string>,
    authorName: string,
    authorEmail: Option<string>,
    createdAt: string)

  /** One listing entry; None when reading its `createdAt` throws. */
  function ListPost(d: StoredPost, clock: Clock): (r: Option<ListedPost>)
    ensures r.None? <==> ListingCreatedAt(d.createdAt).None?
    ensures r.Some? ==>
      && r.value.id == d.id && r.value.title == d.title && r.value.content == d.content
      && r.value.imageUrl == d.imageUrl && r.value.authorId == d.authorId && r.value.authorEmail == d.authorEmail
      && r.value.authorName == OrElse(d.authorName, DefaultAuthorName)
      && r.value.createdAt == (if Truthy(d.createdAt) then clock.toIso(d.createdAt.millis) else clock.nowIso)
  {
    match ListingCreatedAt(d.createdAt)
    case None => None
    case Some(instant) =>
      Some(ListedPost(
        d.id, d.title, d.content, d.imageUrl, d.authorId,
        OrElse(d.authorName, DefaultAuthorName), d.authorEmail, Render(instant, clock)))
  }

  /** The `map` over the query result; one throwing entry makes the whole map throw. */
  function ListPosts(docs: seq<StoredPost>, clock: Clock): (r: Option<seq<ListedPost>>)
    ensures r.None? <==> exists i :: 0 <= i < |docs| && ListPost(docs[i], clock).None?
    ensures r.Some? ==> |r.value| == |docs| && forall i :: 0 <= i < |docs| ==> Some(r.value[i]) == ListPost(docs[i], clock)
  {
    if docs == [] then Some([])
    else
      var head := ListPost(docs[0], clock);
      var tail := ListPosts(docs[1..], clock);
      if head.None? then None
      else if tail.None? then
        var i :| 0 <= i < |docs[1..]| && ListPost(docs[1..][i], clock).None?;
        assert docs[i + 1] == docs[1..][i];
        None
      else
        assert forall i :: 1 <= i < |docs| ==> docs[i] == docs[1..][i - 1];
        Some([head.value] + tail.value)
  }

  /** `getPosts`: every post, newest first as the store orders them; any failure gives []. */
  method GetPosts(query: Reply<seq<StoredPost>>, clock: Clock) returns (posts: seq<ListedPost>)
    ensures query.Threw? ==> posts == []
    ensures query.Returned? && ListPosts(query.value, clock).None? ==> posts == []
    ensures query.Returned? && ListPosts(query.value, clock).Some? ==>
      |posts| == |query.value| && forall i :: 0 <= i < |posts| ==> Some(posts[i]) == ListPost(query.value[i], clock)
  {
    match query {
      case Threw => posts := [];
      case Returned(docs) => posts := ListPosts(docs, clock).GetOr([]);
    }
  }

  /**
   * `getUserPosts`: the signed-in user's posts. `queriedUid` is the author
   * id the query filters on, None when no query is made.
   */
  method GetUserPosts(sessionCookie: Option<string>, verify: Reply<Claims>, query: Reply<seq<StoredPost>>, clock: Clock)
    returns (posts: seq<ListedPost>, queriedUid: Option<string>)
    ensures !Filled(sessionCookie) || verify.Threw? ==> posts == [] && queriedUid.None?
    ensures Filled(sessionCookie) && verify.Returned? ==> queriedUid == Some(verify.value.uid)
    ensures query.Threw? ==> posts == []
    ensures Filled(sessionCookie) && verify.Returned? && query.Returned? && ListPosts(query.value, clock).Some? ==>
      |posts| == |query.value| && forall i :: 0 <= i < |posts| ==> Some(posts[i]) == ListPost(query.value[i], clock)
    ensures query.Returned? && ListPosts(query.value, clock).None? ==> posts == []
    ensures posts != [] ==>
      && queriedUid.Some? && query.Returned? && ListPosts(query.value, clock).Some?
      && |posts| == |query.value| && forall i :: 0 <= i < |posts| ==> Some(posts[i]) == ListPost(query.value[i], clock)
  {
    if !Filled(sessionCookie) {
      return [], None;
    }
    if verify.Threw? {
      return [], None;
    }
    queriedUid := Some(verify.value.uid);
    match query {
      case Threw => posts := [];
      case Returned(docs) => posts := ListPosts(docs, clock).GetOr([]);
    }
  }
}
