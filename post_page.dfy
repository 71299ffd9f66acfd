/**
 * The create-post page of src/app/post/page.tsx: title and content, the
 * selected image and its preview, and `isUploading`. Unlike the dialog it
 * sends `createPost` real form data, adding `imageUrl` only when the upload
 * produced one.
 */
module PostPage {
  import opened Wrappers
  import opened Text
  import opened Params
  import opened Actions
  import opened Compose

  /** Everything the page holds apart from `isUploading`. */
  datatype PageDraft = PageDraft(title: string, content: string, image: Option<FileInfo>, imagePreview: Option<string>)

  /** The page as it starts, and as a successful post leaves it. */
  const ClearedPage := PageDraft("", "", None, None)

  /** The form data `onSubmit` builds: title, content, then `imageUrl` only when it is non-empty. */
  function PagePayload(title: string, content: string, imageUrl: string): (p: CreatePayload)
    ensures p.FormPayload?
    ensures Get(p.entries, "title") == Some(title)
    ensures Get(p.entries, "content") == Some(content)
    ensures Get(p.entries, "imageUrl").Some? <==> imageUrl != ""
    ensures Get(p.entries, "imageUrl").Some? ==> Get(p.entries, "imageUrl").value == imageUrl
  {
    var base := [Pair("title", title), Pair("content", content)];
    assert base[0].name != "imageUrl" && base[1].name != "imageUrl";
    if imageUrl != "" then
      var entries := base + [Pair("imageUrl", imageUrl)];
      assert entries[2] == Pair("imageUrl", imageUrl);
      FormPayload(entries)
    else
      FormPayload(base)
  }

  /**
   * Whatever passes the page's schema also passes `createPost`'s own field
   * check, and the record's image is the uploaded URL exactly when there is one.
   */
  lemma PagePayloadPassesServerCheck(title: string, content: string, imageUrl: string, claims: Claims)
    requires TitleContentIssues(title, content) == {}
    ensures Filled(Get(PagePayload(title, content, imageUrl).entries, "title"))
    ensures Filled(Get(PagePayload(title, content, imageUrl).entries, "content"))
    ensures
      var rec := ShapeRecord(title, content, Get(PagePayload(title, content, imageUrl).entries, "imageUrl"), claims);
      (rec.imageUrl.Some? <==> imageUrl != "") && (rec.imageUrl.Some? ==> rec.imageUrl.value == imageUrl)
  {
    assert JsLength(title) >= MinTitleLength;
    assert JsLength(content) >= MinContentLength;
  }

  class CreatePostForm {
    var title: string
    var content: string
    var image: Option<FileInfo>
    var imagePreview: Option<string>
    var isUploading: bool

    function Current(): PageDraft
      reads this
    {
      PageDraft(title, content, image, imagePreview)
    }

    constructor ()
      ensures Current() == ClearedPage && !isUploading
    {
      title, content := "", "";
      image, imagePreview := None, None;
      isUploading := false;
    }

    method EditTitle(value: string)
      modifies this`title
      ensures title == value
    {
      title := value;
    }

    method EditContent(value: string)
      modifies this`content
      ensures content == value
    {
      content := value;
    }

    /** `handleImageChange`: a file over the cap leaves the selection as it was. */
    method HandleImageChange(files: seq<FileInfo>) returns (tooLarge: bool)
      modifies this`image
      ensures tooLarge <==> |files| > 0 && !ImageAccepted(files[0])
      ensures image == (if |files| > 0 && ImageAccepted(files[0]) then Some(files[0]) else old(image))
    {
      tooLarge := false;
      if |files| > 0 {
        var file := files[0];
        if file.size > MaxImageBytes {
          tooLarge := true;
          return;
        }
        image := Some(file);
      }
    }

    /** The preview reader finished with the image's data URL. */
    method PreviewLoaded(dataUrl: string)
      modifies this`imagePreview
      ensures imagePreview == Some(dataUrl)
    {
      imagePreview := Some(dataUrl);
    }

    /** `handleRemoveImage`: both the image and its preview go. */
    method RemoveImage()
      modifies this`image, this`imagePreview
      ensures image.None? && imagePreview.None?
    {
      image := None;
      imagePreview := None;
    }

    /**
     * `form.handleSubmit(onSubmit)`: the schema, then the upload step, then
     * `createPost` with `PagePayload`. On success the page is cleared and the
     * router goes to "/dashboard"; otherwise the page keeps what it held.
     */
    method Submit(upload: Reply<UploadResult>, create: Reply<CreateResult>)
      returns (outcome: SubmitOutcome, sent: Option<CreatePayload>)
      requires !isUploading
      modifies this
      ensures !isUploading
      ensures TitleContentIssues(old(title), old(content)) != {} ==>
        outcome == Invalid(TitleContentIssues(old(title), old(content)))
        && sent.None? && Current() == old(Current())
      ensures TitleContentIssues(old(title), old(content)) == {} && UploadStepOf(old(image), upload).StopWith? ==>
        outcome == UploadStepOf(old(image), upload).outcome && sent.None? && Current() == old(Current())
      ensures TitleContentIssues(old(title), old(content)) == {} && UploadStepOf(old(image), upload).GoOn? ==>
        && sent == Some(PagePayload(old(title), old(content), UploadStepOf(old(image), upload).imageUrl))
        && (create.Threw? ==> outcome == Unexpected && Current() == old(Current()))
        && (create.Returned? && CreateErrorText(create.value) != "" ==>
              outcome == CreateFailed(create.value.error) && Current() == old(Current()))
        && (create.Returned? && CreateErrorText(create.value) == "" ==>
              outcome == Created("/dashboard") && Current() == ClearedPage)
    {
      sent := None;
      var issues := TitleContentIssues(title, content);
      if issues != {} {
        return Invalid(issues), None;
      }
      isUploading := true;
      var imageUrl := "";
      if image.Some? {
        match upload {
          case Threw =>
            isUploading := false;
            return Unexpected, None;
          case Returned(result) =>
            if UploadErrorText(result) != "" {
              isUploading := false;
              return UploadFailed(UploadErrorText(result)), None;
            }
            imageUrl := UploadedUrl(result);
        }
      }
      var payload := PagePayload(title, content, imageUrl);
      sent := Some(payload);
      match create {
        case Threw =>
          outcome := Unexpected;
        case Returned(result) =>
          if CreateErrorText(result) != "" {
            outcome := CreateFailed(CreateErrorText(result));
          } else {
            title, content := "", "";
            image, imagePreview := None, None;
            outcome := Created("/dashboard");
          }
      }
      isUploading := false;
    }
  }
}
