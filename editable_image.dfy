/** The editable image widget: a thumbnail that opens a modal in which the
    user picks a replacement file, previews it, and saves or cancels, or
    deletes the current image. The five pieces of component state are the
    fields of `Widget`; each event handler is a method. The asynchronous
    file read is split into the pick (`PickFile`) and its completion
    (`ReadCompleted`); the `onSave` / `onDelete` promises are inputs that say
    how the awaited call settled. */
module EditableImage {
  import opened Common
  import Avatar

  /** What is drawn for an image slot. */
  datatype Picture =
    | Photo(url: string)
    | Placeholder(name: string, size: Avatar.Size, shape: Avatar.Shape)
    | Blank

  /** `renderImage`: the persisted image when `src` is truthy, otherwise an
      avatar keyed on the name when a name is given, otherwise nothing. */
  function Thumbnail(src: Option<string>, name: Option<string>,
                     size: Avatar.Size, shape: Avatar.Shape): (r: Picture)
    ensures r.Photo? <==> Truthy(src)
    ensures r.Photo? ==> r.url == src.value
    ensures r.Placeholder? <==> !Truthy(src) && Truthy(name)
    ensures r.Placeholder? ==> r == Placeholder(name.value, size, shape)
    ensures r.Blank? <==> !Truthy(src) && !Truthy(name)
  {
    if Truthy(src) then Photo(src.value)
    else if Truthy(name) then Placeholder(name.value, size, shape)
    else Blank
  }

  /** The picture inside the modal: the preview URL when it is truthy,
      otherwise an extra-large avatar keyed on the name, otherwise nothing. */
  function ModalPicture(previewUrl: Option<string>, name: Option<string>,
                        shape: Avatar.Shape): (r: Picture)
    ensures r.Photo? <==> Truthy(previewUrl)
    ensures r.Photo? ==> r.url == previewUrl.value
    ensures r.Placeholder? <==> !Truthy(previewUrl) && Truthy(name)
    ensures r.Placeholder? ==> r == Placeholder(name.value, Avatar.XL, shape)
    ensures r.Blank? <==> !Truthy(previewUrl) && !Truthy(name)
  {
    if Truthy(previewUrl) then Photo(previewUrl.value)
    else if Truthy(name) then Placeholder(name.value, Avatar.XL, shape)
    else Blank
  }

  datatype FooterButton = Delete | Edit | Cancel | Save | Continue | Close

  /** `renderModalFooter`: the buttons shown, in order. */
  function Footer(src: Option<string>, hasOnDelete: bool, isEditing: bool,
                  showContinue: bool): (r: seq<FooterButton>)
    ensures Delete in r <==> Truthy(src) && hasOnDelete && !isEditing
    ensures Edit in r <==> !isEditing
    ensures Close in r <==> !isEditing
    ensures Cancel in r <==> isEditing
    ensures Save in r <==> isEditing && !showContinue
    ensures Continue in r <==> isEditing && showContinue
    ensures isEditing ==> |r| == 2
    ensures !isEditing ==> r[|r| - 1] == Close
  {
    (if Truthy(src) && hasOnDelete && !isEditing then [Delete] else [])
    + (if !isEditing then [Edit] else [])
    + (if isEditing then [Cancel, if showContinue then Continue else Save] else [])
    + (if !isEditing then [Close] else [])
  }

  class Widget {
    // props
    var src: Option<string>
    const name: Option<string>
    const size: Avatar.Size
    const shape: Avatar.Shape
    const hasOnDelete: bool
    const showContinue: bool
    // component state
    var isHovering: bool
    var showModal: bool
    var selectedImage: Option<File>
    var previewUrl: Option<string>
    var isEditing: bool

    /** Mounting: the defaults of the optional props (size md, shape circle,
        no "continue" wording), the initial state, and the first run of the
        effect that copies a truthy `src` into the preview. */
    constructor (src: Option<string>, name: Option<string>, size: Option<Avatar.Size>,
                 shape: Option<Avatar.Shape>, hasOnDelete: bool, showContinue: Option<bool>)
      ensures this.src == src && this.name == name && this.hasOnDelete == hasOnDelete
      ensures this.size == size.GetOr(Avatar.MD) && this.shape == shape.GetOr(Avatar.Circle)
      ensures this.showContinue == showContinue.GetOr(false)
      ensures !isHovering && !showModal && !isEditing && selectedImage == None
      ensures previewUrl == if Truthy(src) then src else None
    {
      this.src := src;
      this.name := name;
      this.size := size.GetOr(Avatar.MD);
      this.shape := shape.GetOr(Avatar.Circle);
      this.hasOnDelete := hasOnDelete;
      this.showContinue := showContinue.GetOr(false);
      isHovering := false;
      showModal := false;
      selectedImage := None;
      previewUrl := None;
      isEditing := false;
      if Truthy(src) {
        previewUrl := src;
      }
    }

    function Buttons(): (r: seq<FooterButton>)
      reads this
    {
      Footer(src, hasOnDelete, isEditing, showContinue)
    }

    function Shown(): Picture
      reads this
    {
      Thumbnail(src, name, size, shape)
    }

    function Previewed(): Picture
      reads this
    {
      ModalPicture(previewUrl, name, shape)
    }

    /** The parent re-renders with another `src`. The effect runs only when
        the value changed, and copies it into the preview only when it is
        truthy; a falsy `src` leaves the preview as it was. */
    method SetSource(newSrc: Option<string>)
      modifies this`src, this`previewUrl
      ensures src == newSrc
      ensures previewUrl == if newSrc != old(src) && Truthy(newSrc) then newSrc else old(previewUrl)
    {
      if newSrc != src {
        src := newSrc;
        if Truthy(newSrc) {
          previewUrl := newSrc;
        }
      }
    }

    method MouseEnter()
      modifies this`isHovering
      ensures isHovering
    {
      isHovering := true;
    }

    method MouseLeave()
      modifies this`isHovering
      ensures !isHovering
    {
      isHovering := false;
    }

    /** Clicking the thumbnail only opens the modal. */
    method ClickThumbnail()
      modifies this`showModal
      ensures showModal
    {
      showModal := true;
    }

    /** The footer's close button and the modal header's close both only
        hide the modal; an edit in progress stays in progress. */
    method Close()
      modifies this`showModal
      ensures !showModal
    {
      showModal := false;
    }

    /** `handleImageChange`: a picked file starts a read and switches to
        editing at once; the preview and the selection change only when the
        read completes. Picking nothing changes nothing. */
    method PickFile(file: Option<File>)
      modifies this`isEditing
      ensures isEditing == (old(isEditing) || file.Some?)
    {
      if file.Some? {
        isEditing := true;
      }
    }

    /** The read of `file` completed with `result` (absent when the read
        failed): the preview shows it and the file becomes the selection. */
    method ReadCompleted(file: File, result: Option<string>)
      modifies this`previewUrl, this`selectedImage
      ensures previewUrl == result && selectedImage == Some(file)
    {
      previewUrl := result;
      selectedImage := Some(file);
    }

    /** `handleSave`: with no selection nothing happens. Otherwise `onSave`
        is called once with the selected file; when it settles without
        throwing the modal closes and editing ends. The selection itself is
        kept. `saved` is the argument `onSave` received, if it was called. */
    method HandleSave(onSave: Outcome) returns (saved: Option<File>)
      modifies this`showModal, this`isEditing
      ensures saved == old(selectedImage)
      ensures showModal == if saved.Some? && onSave.Resolved? then false else old(showModal)
      ensures isEditing == if saved.Some? && onSave.Resolved? then false else old(isEditing)
    {
      saved := selectedImage;
      if selectedImage.Some? {
        if onSave.Resolved? {
          showModal := false;
          isEditing := false;
        }
      }
    }

    /** `handleDelete`: without an `onDelete` prop nothing happens. Otherwise
        it is called; when it settles without throwing the preview is cleared
        and the modal closes. `isEditing` is not touched. */
    method HandleDelete(onDelete: Outcome) returns (called: bool)
      modifies this`previewUrl, this`showModal
      ensures called == hasOnDelete
      ensures previewUrl == if called && onDelete.Resolved? then None else old(previewUrl)
      ensures showModal == if called && onDelete.Resolved? then false else old(showModal)
    {
      called := hasOnDelete;
      if hasOnDelete {
        if onDelete.Resolved? {
          previewUrl := None;
          showModal := false;
        }
      }
    }

    /** `handleCancel`: the preview goes back to `src`, editing ends and the
        selection is dropped; the modal stays as it was. */
    method HandleCancel()
      modifies this`previewUrl, this`isEditing, this`selectedImage
      ensures previewUrl == src && !isEditing && selectedImage == None
      ensures Buttons() == Footer(src, hasOnDelete, false, showContinue)
    {
      previewUrl := src;
      isEditing := false;
      selectedImage := None;
    }
  }

  /** The walk-through of a widget with image "photo.png" and name
      "Jane Doe": open, pick a file, preview it, cancel, and the modal shows
      the original image with edit, delete and close again. */
  method PhotoScenario(newFile: File, newPreview: string)
    requires newPreview != "" && newPreview != "photo.png"
  {
    var w := new Widget(Some("photo.png"), Some("Jane Doe"), None, None, true, None);
    assert w.Shown() == Photo("photo.png");
    w.ClickThumbnail();
    assert w.showModal && w.Previewed() == Photo("photo.png");
    w.PickFile(Some(newFile));
    assert w.Buttons() == [Cancel, Save];
    w.ReadCompleted(newFile, Some(newPreview));
    assert w.Previewed() == Photo(newPreview);
    w.HandleCancel();
    assert w.showModal && w.Previewed() == Photo("photo.png");
    assert w.Buttons() == [Delete, Edit, Close];
  }

  /** A widget with no image and a name: the placeholder is drawn from the
      name both in the slot and in the modal, and no delete is offered. */
  method PlaceholderScenario()
  {
    var w := new Widget(None, Some("Jane Doe"), None, None, true, None);
    assert w.Shown() == Placeholder("Jane Doe", Avatar.MD, Avatar.Circle);
    w.ClickThumbnail();
    assert w.Previewed() == Placeholder("Jane Doe", Avatar.XL, Avatar.Circle);
    assert Delete !in w.Buttons();
  }

  /** Closing the modal from its header while a picked file is previewed
      does not revert anything: reopening shows the pending preview, still
      in editing mode. */
  method CloseWhileEditingScenario(newFile: File, newPreview: string)
    requires newPreview != ""
  {
    var w := new Widget(Some("photo.png"), None, None, None, false, None);
    w.ClickThumbnail();
    w.PickFile(Some(newFile));
    w.ReadCompleted(newFile, Some(newPreview));
    w.Close();
    w.ClickThumbnail();
    assert w.isEditing && w.selectedImage == Some(newFile);
    assert w.Previewed() == Photo(newPreview);
  }
}
