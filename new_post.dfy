/**
 * The new-post dialog of src/components/newpost.tsx: the form values (title,
 * content, hashtags), the tag input and the tags it shows, the selected image
 * and its preview, whether the dialog is open, and `isUploading`.
 *
 * The two server actions are called through their answers: `upload` and
 * `create` are what `uploadImage` and `createPost` would return, or `Threw`
 * when the call itself fails.
 */
module NewPost {
  import opened Wrappers
  import opened Text
  import opened Actions
  import opened Compose

  /** Everything the dialog holds apart from `isUploading`. */
  datatype Draft = Draft(
    title: string,
    content: string,
    hashtags: seq<string>,
    hashtagInput: string,
    shownTags: seq<string>,
    image: Option<FileInfo>,
    imagePreview: Option<string>,
    dialogOpen: bool)

  /** The dialog as it starts, and as a successful post leaves it. */
  const Cleared := Draft("", "", [], "", [], None, None, false)

  /** The dialog's schema: title, content and the optional hashtag list. */
  function SchemaIssues(title: string, content: string, hashtags: seq<string>): (issues: set<Issue>)
    ensures issues == {} <==>
      JsLength(title) >= MinTitleLength && JsLength(content) >= MinContentLength && HashtagsConform(Some(hashtags))
  {
    TitleContentIssues(title, content) + HashtagIssues(Some(hashtags))
  }

  /** Tags the tokeniser and removal produce can never fail the schema: only title and content can. */
  lemma ConformingTagsPassSchema(title: string, content: string, hashtags: seq<string>)
    requires HashtagsConform(Some(hashtags))
    ensures SchemaIssues(title, content, hashtags) == TitleContentIssues(title, content)
  {
  }

  /**
   * What `onSubmit` hands to `createPost`: a plain object whose `imageUrl` is
   * left undefined when no URL came back. `createPost` reads form data, so it
   * answers every such payload with its generic failure.
   */
  function DialogPayload(d: Draft, imageUrl: string): (p: CreatePayload)
    ensures p.ObjectPayload?
    ensures p.title == d.title && p.content == d.content && p.hashtags == Some(d.hashtags)
    ensures p.imageUrl.Some? <==> imageUrl != ""
    ensures p.imageUrl.Some? ==> p.imageUrl.value == imageUrl
  {
    ObjectPayload(d.title, d.content, Some(d.hashtags), if imageUrl != "" then Some(imageUrl) else None)
  }

  /**
   * The dialog's submission reaching `createPost`: whatever the session, the
   * claims, the new id and the write would be, the answer is the generic
   * failure and nothing is written.
   */
  method DialogCreateFails(
    sessionCookie: Option<string>, verify: Reply<Claims>, d: Draft, imageUrl: string,
    newId: string, written: bool)
    returns (r: CreateResult, record: Option<PostRecord>)
    ensures r == CreateError(CreateFailure) && record.None?
  {
    r, record := CreatePost(sessionCookie, verify, DialogPayload(d, imageUrl), newId, written);
  }

  /** The tag input is rendered only while fewer than three tags are stored. */
  predicate TagInputShown(d: Draft) {
    |d.hashtags| < MaxHashtags
  }

  /** The toast text after a removal. */
  function RemovalNotice(tags: seq<string>): (notice: string)
    ensures tags == [] ==> notice == "Se han eliminado todos los hashtags"
    ensures tags != [] ==> StartsWith(notice, "Hashtags: ") && notice[|"Hashtags: "|..] == Join(tags, ", ")
  {
    if |tags| > 0 then "Hashtags: " + Join(tags, ", ") else "Se han eliminado todos los hashtags"
  }

  class NewPostForm {
    var title: string
    var content: string
    var hashtags: seq<string>
    var hashtagInput: string
    var shownTags: seq<string>
    var image: Option<FileInfo>
    var imagePreview: Option<string>
    var dialogOpen: bool
    var isUploading: bool

    function Current(): Draft
      reads this
    {
      Draft(title, content, hashtags, hashtagInput, shownTags, image, imagePreview, dialogOpen)
    }

    /**
     * Between events: the shown tags are the stored ones, the stored ones
     * keep the hashtag rule, and no submission is under way.
     */
    predicate Valid()
      reads this
    {
      shownTags == hashtags && HashtagsConform(Some(hashtags)) && !isUploading
    }

    constructor ()
      ensures Valid()
      ensures Current() == Cleared
    {
      title, content, hashtags := "", "", [];
      hashtagInput, shownTags := "", [];
      image, imagePreview := None, None;
      dialogOpen, isUploading := false, false;
    }

    /** `onOpenChange`. */
    method SetDialogOpen(open: bool)
      modifies this`dialogOpen
      ensures dialogOpen == open
    {
      dialogOpen := open;
    }

    method EditTitle(value: string)
      modifies this`title
      ensures title == value
    {
      title := value;
    }

    method EditContent(value: string)
      modifies this`content
      ensures content == value
    {
      content := value;
    }

    /**
     * `handleImageChange` with the chosen files: the first one is kept unless
     * it is over the cap, in which case the selection is left as it was.
     */
    method HandleImageChange(files: seq<FileInfo>) returns (tooLarge: bool)
      modifies this`image
      ensures tooLarge <==> |files| > 0 && !ImageAccepted(files[0])
      ensures image == (if |files| > 0 && ImageAccepted(files[0]) then Some(files[0]) else old(image))
    {
      tooLarge := false;
      if |files| > 0 {
        var file := files[0];
        if file.size > MaxImageBytes {
          tooLarge := true;
          return;
        }
        image := Some(file);
      }
    }

    /** The preview reader finished with the image's data URL. */
    method PreviewLoaded(dataUrl: string)
      modifies this`imagePreview
      ensures imagePreview == Some(dataUrl)
    {
      imagePreview := Some(dataUrl);
    }

    /** `handleRemoveImage`. */
    method RemoveImage()
      modifies this`image, this`imagePreview
      ensures image.None? && imagePreview.None?
    {
      image := None;
      imagePreview := None;
    }

    /**
     * `handleHashtagsChange`: the input always takes the new text; when the
     * tokeniser runs, its tags are stored and shown, and the limit warning is
     * raised exactly when it dropped tags.
     */
    method HandleHashtagsChange(inputValue: string) returns (limitWarning: bool)
      requires Valid()
      modifies this`hashtagInput, this`hashtags, this`shownTags
      ensures Valid()
      ensures hashtagInput == inputValue
      ensures TokeniseHashtags(inputValue).None? ==>
        hashtags == old(hashtags) && shownTags == old(shownTags) && !limitWarning
      ensures TokeniseHashtags(inputValue).Some? ==>
        hashtags == TokeniseHashtags(inputValue).value.tags
        && limitWarning == TokeniseHashtags(inputValue).value.limitWarning
    {
      hashtagInput := inputValue;
      limitWarning := false;
      var update := TokeniseHashtags(inputValue);
      if update.Some? {
        hashtags := update.value.tags;
        shownTags := update.value.tags;
        limitWarning := update.value.limitWarning;
      }
    }

    /**
     * `removeHashtag`: drops the tag at `indexToRemove` (nothing when there
     * is none), rewrites the input from the remaining tags and reports them.
     */
    method RemoveHashtag(indexToRemove: int) returns (notice: string)
      requires Valid()
      modifies this`hashtagInput, this`hashtags, this`shownTags
      ensures Valid()
      ensures hashtags == RemoveAt(old(hashtags), indexToRemove)
      ensures hashtagInput == InputAfterRemoval(hashtags)
      ensures notice == RemovalNotice(hashtags)
    {
      var updated := RemoveAt(hashtags, indexToRemove);
      RemoveAtConforms(hashtags, indexToRemove);
      hashtags := updated;
      shownTags := updated;
      hashtagInput := Join(updated, " ") + " ";
      notice := RemovalNotice(updated);
    }

    /**
     * `form.handleSubmit(onSubmit)`. The schema runs first and nothing else
     * happens when it fails. Then the image, if any, is uploaded; an upload
     * that fails stops before `createPost`. The payload sent is returned in
     * `sent`. On success the dialog is reset and closed and the router goes
     * to "/home"; otherwise the dialog keeps what it held.
     */
    method Submit(upload: Reply<UploadResult>, create: Reply<CreateResult>)
      returns (outcome: SubmitOutcome, sent: Option<CreatePayload>)
      requires Valid()
      modifies this
      ensures Valid()
      ensures SchemaIssues(old(title), old(content), old(hashtags)) != {} ==>
        outcome == Invalid(SchemaIssues(old(title), old(content), old(hashtags)))
        && sent.None? && Current() == old(Current())
      ensures SchemaIssues(old(title), old(content), old(hashtags)) == {} && UploadStepOf(old(image), upload).StopWith? ==>
        outcome == UploadStepOf(old(image), upload).outcome && sent.None? && Current() == old(Current())
      ensures SchemaIssues(old(title), old(content), old(hashtags)) == {} && UploadStepOf(old(image), upload).GoOn? ==>
        && sent == Some(DialogPayload(old(Current()), UploadStepOf(old(image), upload).imageUrl))
        && (create.Threw? ==> outcome == Unexpected && Current() == old(Current()))
        && (create.Returned? && CreateErrorText(create.value) != "" ==>
              outcome == CreateFailed(create.value.error) && Current() == old(Current()))
        && (create.Returned? && CreateErrorText(create.value) == "" ==>
              outcome == Created("/home") && Current() == Cleared)
    {
      sent := None;
      var issues := SchemaIssues(title, content, hashtags);
      if issues != {} {
        return Invalid(issues), None;
      }
      isUploading := true;
      var imageUrl := "";
      if image.Some? {
        match upload {
          case Threw =>
            isUploading := false;
            return Unexpected, None;
          case Returned(result) =>
            if UploadErrorText(result) != "" {
              isUploading := false;
              return UploadFailed(UploadErrorText(result)), None;
            }
            imageUrl := UploadedUrl(result);
        }
      }
      var payload := DialogPayload(Current(), imageUrl);
      sent := Some(payload);
      match create {
        case Threw =>
          outcome := Unexpected;
        case Returned(result) =>
          if CreateErrorText(result) != "" {
            outcome := CreateFailed(CreateErrorText(result));
          } else {
            title, content, hashtags := "", "", [];
            hashtagInput, shownTags := "", [];
            image, imagePreview := None, None;
            dialogOpen := false;
            outcome := Created("/home");
          }
      }
      isUploading := false;
    }
  }
}
