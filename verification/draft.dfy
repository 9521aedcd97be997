/** The page's state and its four handlers. Each handler runs as one atomic
    step; uploads, the server and the router are inputs and outputs. */
module CreateListingPage {
  import opened ListingForm
  import opened ListingRules

  /** The component state of the "Create a Listing" page: the form record
      (its image list apart) and the four flags that drive the messages and
      the disabled buttons. */
  class Draft {
    var imageUrls: seq<string>
    var fields: map<string, Value>
    var imageUploadError: Notice
    var uploading: bool
    var error: Notice
    var loading: bool

    /** The image list holds at most six URLs, and lives outside `fields`. */
    ghost predicate Valid()
      reads this
    {
      |imageUrls| <= MaxImages && ImageUrlsKey !in fields
    }

    /** The page as first rendered: no image, the default record, no flag set. */
    constructor ()
      ensures Valid()
      ensures imageUrls == [] && fields == InitialFields()
      ensures imageUploadError == NoNotice && !uploading
      ensures error == NoNotice && !loading
    {
      imageUrls := [];
      fields := InitialFields();
      imageUploadError := NoNotice;
      uploading := false;
      error := NoNotice;
      loading := false;
    }

    /** The upload button. A batch that fails the pre-check only shows the
        six-image notice. An accepted batch appends all its URLs in file
        order or, when any upload fails, nothing, and shows the failure
        notice; either way it ends with `uploading` false. */
    method HandleImageSubmit(files: seq<File>, store: File -> Option<string>)
      requires Valid()
      modifies this
      ensures Valid()
      ensures fields == old(fields) && error == old(error) && loading == old(loading)
      ensures !UploadAllowed(|files|, |old(imageUrls)|) ==>
                imageUrls == old(imageUrls) && uploading == old(uploading)
                && imageUploadError == Shown(TooManyImagesMessage)
      ensures UploadAllowed(|files|, |old(imageUrls)|) ==> !uploading
      ensures UploadAllowed(|files|, |old(imageUrls)|) && UploadBatch(files, store).Some? ==>
                imageUrls == old(imageUrls) + UploadBatch(files, store).value
                && |imageUrls| == |old(imageUrls)| + |files|
                && imageUploadError == NoNotice
      ensures UploadAllowed(|files|, |old(imageUrls)|) && UploadBatch(files, store).None? ==>
                imageUrls == old(imageUrls) && imageUploadError == Shown(UploadFailedMessage)
    {
      if |files| > 0 && |files| + |imageUrls| < 7 {
        uploading := true;
        imageUploadError := NoNotice;
        var urls := UploadBatch(files, store);
        match urls {
          case Some(batch) =>
            AcceptedBatchKeepsCap(imageUrls, files, store);
            imageUrls := imageUrls + batch;
          case None =>
            imageUploadError := Shown(UploadFailedMessage);
        }
        uploading := false;
      } else {
        imageUploadError := Shown(TooManyImagesMessage);
      }
    }

    /** The Delete button of the image at `index`: the image at that
        position goes, the rest keep their order; nothing else changes. */
    method HandleRemoveImage(index: int)
      requires Valid()
      modifies this
      ensures Valid()
      ensures imageUrls == FilterIndex(old(imageUrls), index)
      ensures 0 <= index < |old(imageUrls)| ==>
                imageUrls == old(imageUrls)[..index] + old(imageUrls)[index + 1..]
      ensures !(0 <= index < |old(imageUrls)|) ==> imageUrls == old(imageUrls)
      ensures fields == old(fields) && imageUploadError == old(imageUploadError)
      ensures uploading == old(uploading) && error == old(error) && loading == old(loading)
    {
      FilterIndexRemovesPosition(imageUrls, index);
      imageUrls := FilterIndex(imageUrls, index);
    }

    /** A text input or checkbox changed: only the key named by its id is
        written, with the box's checked state or the input's text. */
    method HandleChange(target: InputTarget)
      requires Valid()
      requires target.id != ImageUrlsKey
      modifies this
      ensures Valid()
      ensures fields == ChangeField(old(fields), target)
      ensures imageUrls == old(imageUrls) && imageUploadError == old(imageUploadError)
      ensures uploading == old(uploading) && error == old(error) && loading == old(loading)
    {
      fields := ChangeField(fields, target);
    }

    /** The form's submit. A failed check shows its message, sends nothing
        and leaves `loading` alone. Otherwise the whole draft goes out with
        the user's id, `loading` ends false, and the outcome decides between
        an error notice and navigating to the new listing. */
    method HandleSubmit(userId: string, outcome: ServerOutcome)
      returns (request: Option<Listing>, navigateTo: Option<string>)
      requires Valid()
      modifies this
      ensures Valid()
      ensures imageUrls == old(imageUrls) && fields == old(fields)
      ensures imageUploadError == old(imageUploadError) && uploading == old(uploading)
      ensures Validate(imageUrls, fields).Some? ==>
                error == Shown(Validate(imageUrls, fields).value) && loading == old(loading)
                && request == None && navigateTo == None
      ensures Validate(imageUrls, fields).None? ==>
                request == Some(Listing(fields, imageUrls, userId)) && !loading
                && (error, navigateTo) == Settle(outcome)
    {
      request, navigateTo := None, None;
      if |imageUrls| < 1 {
        error := Shown(NoImageMessage);
        return;
      }
      if DiscountExceedsRegular(fields) {
        error := Shown(DiscountTooHighMessage);
        return;
      }
      loading := true;
      error := NoNotice;
      request := Some(Listing(fields, imageUrls, userId));
      match outcome {
        case Thrown(message) =>
          error := Shown(message);
          loading := false;
        case SuccessFalse(message) =>
          loading := false;
          error := Shown(message);
        case Created(id) =>
          loading := false;
          navigateTo := Some(ListingRoute(id));
      }
    }
  }
}
