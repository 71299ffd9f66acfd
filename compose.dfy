/**
 * The rules the two post-composition forms (src/components/newpost.tsx and
 * src/app/post/page.tsx) apply before and around `createPost`: the form
 * schema, the 5 MiB image cap, the hashtag tokeniser and tag removal, and
 * how the result of `uploadImage` decides whether submission goes on.
 */
module Compose {
  import opened Wrappers
  import opened Text
  import opened Actions

  /** The largest image either form accepts, in bytes. */
  const MaxImageBytes := 5 * 1024 * 1024

  /** The size check of `handleImageChange`: a file over the cap is refused. */
  predicate ImageAccepted(f: FileInfo) {
    f.size <= MaxImageBytes
  }

  // ---- the form schema ----

  datatype Issue = TitleTooShort | ContentTooShort | TooManyHashtags | EmptyHashtag(index: nat)

  /** The message the schema attaches to each issue. */
  function Message(i: Issue): string {
    match i
    case TitleTooShort => "El título debe tener al menos 3 caracteres."
    case ContentTooShort => "El contenido debe tener al menos 10 caracteres."
    case TooManyHashtags => "No puedes agregar más de 3 hashtags."
    case EmptyHashtag(_) => "Cada hashtag debe tener al menos 1 carácter."
  }

  const MinTitleLength := 3
  const MinContentLength := 10
  const MaxHashtags := 3

  /** The title and content rules both schemas share. */
  function TitleContentIssues(title: string, content: string): (issues: set<Issue>)
    ensures TitleTooShort in issues <==> JsLength(title) < MinTitleLength
    ensures ContentTooShort in issues <==> JsLength(content) < MinContentLength
    ensures issues <= {TitleTooShort, ContentTooShort}
  {
    (if JsLength(title) < MinTitleLength then {TitleTooShort} else {})
    + (if JsLength(content) < MinContentLength then {ContentTooShort} else {})
  }

  /** The hashtag rule: optional, at most three, none empty. */
  predicate HashtagsConform(tags: Option<seq<string>>) {
    tags.None? || (|tags.value| <= MaxHashtags && forall i :: 0 <= i < |tags.value| ==> JsLength(tags.value[i]) >= 1)
  }

  function HashtagIssues(tags: Option<seq<string>>): (issues: set<Issue>)
    ensures issues == {} <==> HashtagsConform(tags)
    ensures TooManyHashtags in issues <==> tags.Some? && |tags.value| > MaxHashtags
    ensures forall i: nat :: EmptyHashtag(i) in issues <==> tags.Some? && i < |tags.value| && tags.value[i] == ""
  {
    if tags.None? then {}
    else
      var h := tags.value;
      var empties := set i | 0 <= i < |h| && h[i] == "" :: EmptyHashtag(i);
      var issues := (if |h| > MaxHashtags then {TooManyHashtags} else {}) + empties;
      assert issues == {} ==> HashtagsConform(tags) by {
        if issues == {} {
          forall i | 0 <= i < |h| ensures JsLength(h[i]) >= 1 {
            assert EmptyHashtag(i) !in empties;
          }
        }
      }
      assert HashtagsConform(tags) ==> issues == {} by {
        if HashtagsConform(tags) {
          assert forall i :: 0 <= i < |h| ==> h[i] != "" by {
            forall i | 0 <= i < |h| ensures h[i] != "" {
              assert JsLength(h[i]) >= 1;
            }
          }
          assert empties == {};
        }
      }
      issues
  }

  // ---- the hashtag tokeniser ----

  /** A kept piece: it starts with '#' and is longer than one character. */
  predicate IsHashtagToken(t: string) {
    |t| > 0 && t[0] == '#' && JsLength(t) > 1
  }

  /** `filter(tag => tag.startsWith('#') && tag.length > 1)`. */
  function KeepHashtags(pieces: seq<string>): (kept: seq<string>)
    ensures |kept| <= |pieces|
    ensures forall t :: t in kept ==> t in pieces && IsHashtagToken(t)
    ensures forall t :: t in pieces && IsHashtagToken(t) ==> t in kept
  {
    if pieces == [] then []
    else
      var rest := KeepHashtags(pieces[1..]);
      assert forall t :: t in pieces <==> t == pieces[0] || t in pieces[1..];
      if IsHashtagToken(pieces[0]) then [pieces[0]] + rest else rest
  }

  /** Filtering keeps input order: it distributes over concatenation. */
  lemma {:induction false} KeepHashtagsAppend(a: seq<string>, b: seq<string>)
    ensures KeepHashtags(a + b) == KeepHashtags(a) + KeepHashtags(b)
  {
    if a != [] {
      assert (a + b)[0] == a[0];
      assert (a + b)[1..] == a[1..] + b;
      KeepHashtagsAppend(a[1..], b);
    } else {
      assert a + b == b;
    }
  }

  /** A list made only of hashtag tokens passes the filter unchanged. */
  lemma {:induction false} KeepHashtagsAll(pieces: seq<string>)
    requires forall t :: t in pieces ==> IsHashtagToken(t)
    ensures KeepHashtags(pieces) == pieces
  {
    if pieces != [] {
      assert forall t :: t in pieces[1..] ==> t in pieces;
      KeepHashtagsAll(pieces[1..]);
    }
  }

  /** The tokens kept from an input: the trimmed input split on single spaces, then filtered. */
  function KeptTokens(input: string): (kept: seq<string>)
    ensures forall t :: t in kept ==> IsHashtagToken(t) && ' ' !in t
  {
    KeepHashtags(Split(Trim(input), ' '))
  }

  /** The tokeniser runs only when the input ends with a space and is not blank. */
  predicate TokeniserRuns(input: string) {
    EndsWith(input, " ") && !IsBlank(input)
  }

  /** What one run of the tokeniser stores, and whether it warns about the limit. */
  datatype TagUpdate = TagUpdate(tags: seq<string>, limitWarning: bool)

  /** The tokenising part of `handleHashtagsChange`; None when it does not run. */
  function TokeniseHashtags(input: string): (u: Option<TagUpdate>)
    ensures u.Some? <==> TokeniserRuns(input)
    ensures u.Some? ==>
      var kept := KeptTokens(input);
      && |u.value.tags| == (if |kept| < MaxHashtags then |kept| else MaxHashtags)
      && u.value.tags == kept[..|u.value.tags|]
      && (u.value.limitWarning <==> |kept| > MaxHashtags)
    ensures u.Some? ==> HashtagsConform(Some(u.value.tags))
    ensures u.Some? ==> forall t :: t in u.value.tags ==> IsHashtagToken(t) && ' ' !in t
  {
    if !TokeniserRuns(input) then None
    else
      var kept := KeptTokens(input);
      var limited := if |kept| <= MaxHashtags then kept else kept[..MaxHashtags];
      assert forall i :: 0 <= i < |limited| ==> limited[i] in kept;
      Some(TagUpdate(limited, |kept| > MaxHashtags))
  }

  /** `filter((_, i) => i !== index)`: drops the element at `index`, if there is one. */
  function RemoveAt(tags: seq<string>, index: int): (r: seq<string>)
    ensures 0 <= index < |tags| ==> r == tags[..index] + tags[index + 1..]
    ensures !(0 <= index < |tags|) ==> r == tags
  {
    if tags == [] then []
    else
      var rest := RemoveAt(tags[1..], index - 1);
      if index == 0 then rest else [tags[0]] + rest
  }

  /** Removing a tag keeps the list within the hashtag rule. */
  lemma RemoveAtConforms(tags: seq<string>, index: int)
    requires HashtagsConform(Some(tags))
    ensures HashtagsConform(Some(RemoveAt(tags, index)))
  {
    var r := RemoveAt(tags, index);
    if 0 <= index < |tags| {
      forall i | 0 <= i < |r| ensures JsLength(r[i]) >= 1 {
        if i < index { assert r[i] == tags[i]; } else { assert r[i] == tags[i + 1]; }
      }
    }
  }

  /** The text the tag input holds after a removal: the remaining tags, space-separated, and one more space. */
  function InputAfterRemoval(tags: seq<string>): string {
    Join(tags, " ") + " "
  }

  lemma {:induction false} JoinEnds(ps: seq<string>)
    requires ps != [] && forall i :: 0 <= i < |ps| ==> ps[i] != []
    ensures Join(ps, " ") != []
    ensures Join(ps, " ")[0] == ps[0][0]
    ensures Join(ps, " ")[|Join(ps, " ")| - 1] == ps[|ps| - 1][|ps[|ps| - 1]| - 1]
  {
    if |ps| > 1 {
      JoinEnds(ps[1..]);
    }
  }

  /**
   * The text left in the input after a removal tokenises back to exactly the
   * remaining tags, provided no tag ends in whitespace that `trim` would cut.
   */
  lemma RemovalTextRetokenises(tags: seq<string>)
    requires tags != [] && |tags| <= MaxHashtags
    requires forall t :: t in tags ==> IsHashtagToken(t) && ' ' !in t && !IsWhitespace(t[|t| - 1])
    ensures TokeniseHashtags(InputAfterRemoval(tags)) == Some(TagUpdate(tags, false))
  {
    var s := Join(tags, " ");
    JoinEnds(tags);
    assert tags[|tags| - 1] in tags;
    TrimDropsTrailingSpace(s);
    var input := s + " ";
    assert input[0] == '#';
    assert EndsWith(input, " ");
    SplitJoin(tags, ' ');
    KeepHashtagsAll(tags);
  }

  // ---- how a submission goes on after each server answer ----

  /** The `result.error` of an upload answer; "" when there is none, which JavaScript reads as false. */
  function UploadErrorText(r: UploadResult): string {
    if r.UploadError? then r.error else ""
  }

  /** The `result.error` of a create answer; "" when there is none. */
  function CreateErrorText(r: CreateResult): string {
    if r.CreateError? then r.error else ""
  }

  /** `result.imageUrl || ''` after an upload that reported no error. */
  function UploadedUrl(r: UploadResult): string {
    if r.ImageUploaded? then r.imageUrl else ""
  }

  /**
   * Where a submission ends. `Unexpected` is the catch-all branch, taken when
   * a call to the server throws.
   */
  datatype SubmitOutcome =
    | Invalid(issues: set<Issue>)
    | UploadFailed(error: string)
    | CreateFailed(error: string)
    | Created(route: string)
    | Unexpected

  /** What the upload step of both forms decides: go on with a URL ("" for none), or stop. */
  datatype UploadStep = GoOn(imageUrl: string) | StopWith(outcome: SubmitOutcome)

  /**
   * The upload step: nothing is uploaded without an image; an upload that
   * throws or reports an error stops the submission before `createPost`.
   */
  function UploadStepOf(image: Option<FileInfo>, upload: Reply<UploadResult>): (step: UploadStep)
    ensures image.None? ==> step == GoOn("")
    ensures image.Some? && upload.Threw? ==> step == StopWith(Unexpected)
    ensures image.Some? && upload.Returned? && UploadErrorText(upload.value) != "" ==>
      step == StopWith(UploadFailed(upload.value.error))
    ensures image.Some? && upload.Returned? && upload.value.ImageUploaded? ==> step == GoOn(upload.value.imageUrl)
    ensures step.GoOn? && step.imageUrl != "" ==> image.Some? && upload == Returned(ImageUploaded(step.imageUrl))
  {
    if image.None? then GoOn("")
    else match upload
      case Threw => StopWith(Unexpected)
      case Returned(r) =>
        if UploadErrorText(r) != "" then StopWith(UploadFailed(UploadErrorText(r))) else GoOn(UploadedUrl(r))
  }
}
