/** The collection page (src/pages/Collection.tsx): a signed-in user's view
    of the stored images. Its handlers update the page's state fields; each
    awaited request is replaced by its outcome, and each handler runs to
    completion on that outcome. */
module Collection {
  import opened Wrappers
  import opened Api

  /** `images.filter((image) => image.id !== id)`. */
  function RemoveById(images: seq<ImageData>, id: int): (r: seq<ImageData>)
    ensures forall x :: x in r <==> x in images && x.id != id
    ensures |r| <= |images|
  {
    if images == [] then []
    else if images[0].id != id then [images[0]] + RemoveById(images[1..], id)
    else RemoveById(images[1..], id)
  }

  /** The filter works piece by piece, so the images left keep their order. */
  lemma {:induction false} RemoveByIdAppend(a: seq<ImageData>, b: seq<ImageData>, id: int)
    ensures RemoveById(a + b, id) == RemoveById(a, id) + RemoveById(b, id)
    decreases |a|
  {
    if a == [] {
      assert a + b == b;
    } else {
      assert (a + b)[0] == a[0] && (a + b)[1..] == a[1..] + b;
      RemoveByIdAppend(a[1..], b, id);
    }
  }

  /** Removing an id a second time changes nothing. */
  lemma {:induction false} RemoveByIdIdempotent(images: seq<ImageData>, id: int)
    ensures RemoveById(RemoveById(images, id), id) == RemoveById(images, id)
    decreases |images|
  {
    if images != [] {
      RemoveByIdIdempotent(images[1..], id);
    }
  }

  /** When no image has the id, the list is left as it was. */
  lemma {:induction false} RemoveByIdAbsent(images: seq<ImageData>, id: int)
    requires forall i :: 0 <= i < |images| ==> images[i].id != id
    ensures RemoveById(images, id) == images
    decreases |images|
  {
    if images != [] {
      RemoveByIdAbsent(images[1..], id);
    }
  }

  /** Every record with the id goes, the others stay in order. */
  lemma RemoveByIdExample()
    ensures RemoveById([ImageData(1, "a", "", "u1"), ImageData(2, "b", "", "u2"),
                        ImageData(1, "c", "", "u3"), ImageData(3, "d", "", "u4")], 1)
         == [ImageData(2, "b", "", "u2"), ImageData(3, "d", "", "u4")]
  {
    var images := [ImageData(1, "a", "", "u1"), ImageData(2, "b", "", "u2"),
                   ImageData(1, "c", "", "u3"), ImageData(3, "d", "", "u4")];
    assert images[1..][1..][1..][1..] == [];
  }

  /** The page's state as a value. */
  datatype PageState = PageState(images: seq<ImageData>, loading: bool, error: Option<string>,
                                 showImages: bool, showUploadForm: bool, selectedImage: Option<ImageData>)

  /** The state after `handleShowImages` has settled on `outcome`: the list is
      replaced on success, the error set on failure (and never cleared), and
      either way loading is over and the list is shown. */
  function AfterShowImages(s: PageState, outcome: Outcome<seq<ImageData>>): (t: PageState)
    ensures !t.loading && t.showImages
    ensures t.showUploadForm == s.showUploadForm && t.selectedImage == s.selectedImage
    ensures outcome.Ok? ==> t.images == outcome.data && t.error == s.error
    ensures outcome.Fail? ==> t.images == s.images && t.error.Some? && t.error.value != ""
  {
    match FetchAllImages(outcome)
    case Success(data) => s.(images := data, loading := false, showImages := true)
    case Failure(thrown) =>
      s.(error := Some(if Message(thrown) != "" then Message(thrown) else "Failed to load images"),
         loading := false, showImages := true)
  }

  /** The page's fallback text never shows: the listing wrapper always throws
      an `Error` with a non-empty message, and that message is what the page
      displays. */
  lemma FetchFallbackUnreachable(s: PageState, err: AxiosError)
    ensures AfterShowImages(s, Fail(err)).error == Some(Message(FetchAllImages<seq<ImageData>>(Fail(err)).error))
  {
  }

  /** The state after `handleDelete(id)` on `outcome`. The selection is
      cleared when it is the deleted image. */
  function AfterDelete(s: PageState, id: int, outcome: Outcome<()>): (t: PageState)
    ensures outcome.Ok? ==> t.images == RemoveById(s.images, id)
    ensures outcome.Ok? ==> (t.selectedImage == None <==> s.selectedImage == None || s.selectedImage.value.id == id)
    ensures outcome.Ok? && t.selectedImage.Some? ==> t.selectedImage == s.selectedImage
    ensures outcome.Fail? ==> t == s
    ensures t.loading == s.loading && t.error == s.error && t.showImages == s.showImages && t.showUploadForm == s.showUploadForm
  {
    match DeleteImageById(outcome)
    case Success(_) =>
      s.(images := RemoveById(s.images, id),
         selectedImage := if s.selectedImage.Some? && s.selectedImage.value.id == id then None else s.selectedImage)
    case Failure(_) => s
  }

  /** The alert a delete shows. */
  function DeleteAlert(outcome: Outcome<()>): string {
    if outcome.Ok? then "Image deleted successfully" else "Failed to delete image"
  }

  /** Where an unauthenticated visitor is sent. */
  const NotAllowedPath := "/im-not-supposed-here"

  /** What the page renders: the redirect, or the page itself. */
  datatype View = Redirect(to: string) | CollectionView

  /** The user interactions the rendered page offers. */
  datatype Event =
    | ShowClicked(fetched: Outcome<seq<ImageData>>)
    | HideClicked
    | DeleteClicked(id: int, deleted: Outcome<()>)
    | ImageClicked(image: ImageData)
    | ModalDeleteClicked(deleted: Outcome<()>)
    | ModalClosed
    | UploadClicked
    | UploadFormClosed(fetched: Outcome<seq<ImageData>>)

  class CollectionPage {
    var images: seq<ImageData>
    var loading: bool
    var error: Option<string>
    var showImages: bool
    var showUploadForm: bool
    var selectedImage: Option<ImageData>

    function State(): PageState
      reads this
    {
      PageState(images, loading, error, showImages, showUploadForm, selectedImage)
    }

    /** The initial `useState` values. */
    constructor ()
      ensures State() == PageState([], false, None, false, false, None)
    {
      images := [];
      loading := false;
      error := None;
      showImages := false;
      showUploadForm := false;
      selectedImage := None;
    }

    /** `handleShowImages`: set loading, await the listing, then settle. */
    method HandleShowImages(outcome: Outcome<seq<ImageData>>)
      modifies this
      ensures State() == AfterShowImages(old(State()), outcome)
    {
      loading := true;
      var result := FetchAllImages(outcome);
      match result {
        case Success(data) =>
          images := data;
        case Failure(thrown) =>
          var message := Message(thrown);
          error := Some(if message != "" then message else "Failed to load images");
      }
      loading := false;
      showImages := true;
    }

    method HandleHideImages()
      modifies this
      ensures State() == old(State()).(showImages := false)
    {
      showImages := false;
    }

    /** `handleDelete(id)`; returns the text it alerts. */
    method HandleDelete(id: int, outcome: Outcome<()>) returns (alert: string)
      modifies this
      ensures State() == AfterDelete(old(State()), id, outcome)
      ensures alert == DeleteAlert(outcome)
    {
      var result := DeleteImageById(outcome);
      if result.Success? {
        images := RemoveById(images, id);
        alert := "Image deleted successfully";
        if selectedImage.Some? && selectedImage.value.id == id {
          selectedImage := None;
        }
      } else {
        alert := "Failed to delete image";
      }
    }

    method HandleImageClick(image: ImageData)
      modifies this
      ensures State() == old(State()).(selectedImage := Some(image))
    {
      selectedImage := Some(image);
    }

    /** The modal's Delete button: delete the open image and close the modal
        whether or not the delete succeeds. */
    method ModalDelete(outcome: Outcome<()>) returns (alert: string)
      requires selectedImage.Some?
      modifies this
      ensures State() == AfterDelete(old(State()), old(selectedImage).value.id, outcome).(selectedImage := None)
    {
      alert := HandleDelete(selectedImage.value.id, outcome);
      selectedImage := None;
    }

    /** Dispatching one interaction. A visitor who is not signed in is
        redirected before any handler exists, so nothing runs and nothing is
        requested. */
    method Dispatch(isAuthenticated: bool, event: Event) returns (view: View, requests: nat)
      modifies this
      ensures !isAuthenticated ==> view == Redirect(NotAllowedPath) && requests == 0 && State() == old(State())
      ensures isAuthenticated ==> view == CollectionView
      ensures isAuthenticated && event.ShowClicked? ==> State() == AfterShowImages(old(State()), event.fetched) && requests == 1
      ensures isAuthenticated && event.DeleteClicked? ==> State() == AfterDelete(old(State()), event.id, event.deleted) && requests == 1
      ensures isAuthenticated && event.UploadFormClosed? ==>
        State() == AfterShowImages(old(State()).(showUploadForm := false), event.fetched) && requests == 1
    {
      if !isAuthenticated {
        return Redirect(NotAllowedPath), 0;
      }
      view := CollectionView;
      requests := 0;
      match event {
        case ShowClicked(fetched) =>
          HandleShowImages(fetched);
          requests := 1;
        case HideClicked =>
          HandleHideImages();
        case DeleteClicked(id, deleted) =>
          var _ := HandleDelete(id, deleted);
          requests := 1;
        case ImageClicked(image) =>
          HandleImageClick(image);
        case ModalDeleteClicked(deleted) =>
          if selectedImage.Some? {
            var _ := ModalDelete(deleted);
            requests := 1;
          }
        case ModalClosed =>
          selectedImage := None;
        case UploadClicked =>
          showUploadForm := true;
        case UploadFormClosed(fetched) =>
          showUploadForm := false;
          HandleShowImages(fetched);
          requests := 1;
      }
    }
  }

  /** A successful delete removes the image from the page for good: a second
      successful delete of the same id leaves the list as it is. */
  lemma DeleteTwice(s: PageState, id: int)
    ensures AfterDelete(AfterDelete(s, id, Ok(())), id, Ok(())).images == AfterDelete(s, id, Ok(())).images
  {
    RemoveByIdIdempotent(s.images, id);
  }

  /** A failed fetch keeps the earlier snapshot, so showing after a success
      and then failing still shows the first list, with the error. */
  lemma FailedRefreshKeepsSnapshot(s: PageState, data: seq<ImageData>, err: AxiosError)
    ensures var t := AfterShowImages(AfterShowImages(s, Ok(data)), Fail(err));
      t.images == data && t.error.Some?
  {
  }
}
