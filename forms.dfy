/** The post and comment forms: which fields a submission carries and
    the two text validators. */
module Forms {
  import opened Wrappers
  import opened Models

  /** The validation errors the two `clean_text` hooks raise. */
  datatype FormError = MissingExclamation | CommentTooShort

  /** The shortest comment text the comment form accepts. */
  const MIN_COMMENT_LEN: nat := 1

  /** A post form submission. It holds exactly the form's fields (text,
      group, image): there is no author field, so a submission cannot
      choose the author. `image == None` means no file was uploaded. */
  datatype PostFormData = PostFormData(text: string, group: Option<GroupId>, image: Option<Image>)

  /** A comment form submission: its only field is the text. */
  datatype CommentFormData = CommentFormData(text: string)

  /** `PostForm.clean_text`: post text is accepted iff it holds an
      exclamation mark somewhere, and it is accepted unchanged. */
  function CleanPostText(data: string): (r: Result<string, FormError>)
    ensures r.Success? <==> exists i :: 0 <= i < |data| && data[i] == '!'
    ensures r.Success? ==> r.value == data
    ensures r.Failure? ==> r.error == MissingExclamation
  {
    if '!' !in data then Failure(MissingExclamation) else Success(data)
  }

  /** `CommentForm.clean_text`: comment text is rejected iff it is
      shorter than MIN_COMMENT_LEN, which is to say only when it is empty;
      accepted text is returned unchanged. */
  function CleanCommentText(data: string): (r: Result<string, FormError>)
    ensures r.Failure? <==> data == []
    ensures r.Failure? ==> r.error == CommentTooShort
    ensures r.Success? ==> r.value == data
  {
    if |data| < MIN_COMMENT_LEN then Failure(CommentTooShort) else Success(data)
  }

  /** `form.is_valid()` for a bound post form: it holds exactly when the
      text passes clean_text, that is, holds an exclamation mark. */
  predicate PostFormValid(data: PostFormData)
    ensures PostFormValid(data) <==> exists i :: 0 <= i < |data.text| && data.text[i] == '!'
  {
    CleanPostText(data.text).Success?
  }

  /** `form.is_valid()` for a bound comment form: it holds exactly when
      the text passes clean_text, that is, is not empty. */
  predicate CommentFormValid(data: CommentFormData)
    ensures CommentFormValid(data) <==> |data.text| >= MIN_COMMENT_LEN
  {
    CleanCommentText(data.text).Success?
  }

  /** `form.save()` of a post form bound to an existing post: the form's
      own fields are written, everything else (id, author) is kept; an
      image field without a new upload keeps the stored file. */
  function SaveInto(instance: Post, data: PostFormData): (r: Post)
    ensures r.id == instance.id && r.author == instance.author
    ensures r.text == data.text && r.group == data.group
    ensures data.image.Some? ==> r.image == data.image
    ensures data.image.None? ==> r.image == instance.image
  {
    instance.(text := data.text, group := data.group,
              image := if data.image.Some? then data.image else instance.image)
  }

  /** `form.save(commit=False)` followed by `form.author = request.user`:
      the new row takes the form's fields and the requester as author. */
  function NewPost(id: PostId, author: UserId, data: PostFormData): (r: Post)
    ensures r.id == id && r.author == author
    ensures r.text == data.text && r.group == data.group && r.image == data.image
  {
    Post(id, author, data.group, data.text, data.image)
  }
}
