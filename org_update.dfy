/** The organisation update form: name, description, an eight-field
    address edited one key at a time, two switches, the variables of the
    update mutation, and a second image-preview flow (pick a file, preview
    it in a modal once the read completes, upload or cancel). */
module OrgUpdate {
  import opened Common

  datatype AddressField =
    | City | CountryCode | DependentLocality | Line1 | Line2 | PostalCode | SortingCode | State

  datatype Address = Address(city: string, countryCode: string, dependentLocality: string,
                             line1: string, line2: string, postalCode: string,
                             sortingCode: string, state: string)

  const EmptyAddress := Address("", "", "", "", "", "", "", "")

  function Get(a: Address, f: AddressField): string {
    match f
    case City => a.city
    case CountryCode => a.countryCode
    case DependentLocality => a.dependentLocality
    case Line1 => a.line1
    case Line2 => a.line2
    case PostalCode => a.postalCode
    case SortingCode => a.sortingCode
    case State => a.state
  }

  /** `{...prevState.address, [fieldName]: value}`. */
  function With(a: Address, f: AddressField, v: string): (r: Address)
    ensures Get(r, f) == v
    ensures forall g :: g != f ==> Get(r, g) == Get(a, g)
  {
    match f
    case City => a.(city := v)
    case CountryCode => a.(countryCode := v)
    case DependentLocality => a.(dependentLocality := v)
    case Line1 => a.(line1 := v)
    case Line2 => a.(line2 := v)
    case PostalCode => a.(postalCode := v)
    case SortingCode => a.(sortingCode := v)
    case State => a.(state := v)
  }

  /** Edits of two different address keys commute. */
  lemma EditsCommute(a: Address, f: AddressField, v: string, g: AddressField, w: string)
    requires f != g
    ensures With(With(a, f, v), g, w) == With(With(a, g, w), f, v)
  {
  }

  /** The variables of the update mutation. */
  datatype UpdateVariables = UpdateVariables(id: string, name: string, description: string,
                                             address: Address, userRegistrationRequired: bool,
                                             visibleInSearch: bool)

  /** `onSaveChangesClicked` rebuilds the address key by key; every key
      passes through unchanged. */
  function SaveVariables(orgId: string, orgName: string, orgDescrip: string, address: Address,
                         registrationRequired: bool, visible: bool): (r: UpdateVariables)
    ensures r.address == address
    ensures forall f :: Get(r.address, f) == Get(address, f)
    ensures r.id == orgId && r.name == orgName && r.description == orgDescrip
    ensures r.userRegistrationRequired == registrationRequired && r.visibleInSearch == visible
  {
    var sent := Address(address.city, address.countryCode, address.dependentLocality,
                        address.line1, address.line2, address.postalCode,
                        address.sortingCode, address.state);
    UpdateVariables(orgId, orgName, orgDescrip, sent, registrationRequired, visible)
  }

  /** The preview modal is rendered only when it is to be shown and there
      is a truthy preview URL. */
  function PreviewModalRendered(showPreviewModal: bool, previewUrl: Option<string>): (r: bool)
    ensures r ==> Truthy(previewUrl)
    ensures r <==> showPreviewModal && Truthy(previewUrl)
  {
    showPreviewModal && Truthy(previewUrl)
  }

  /** How the image upload request ended: the request or the parsing of
      its JSON body threw, the response was not ok, or it was ok and its
      body parsed (whatever that body is). */
  datatype UploadResult = Threw | NotOk | Ok

  /** The organisation as the query returns it. */
  datatype Organization = Organization(name: string, description: string, address: Address,
                                       userRegistrationRequired: bool, visibleInSearch: bool)

  class Form {
    const orgId: string
    var orgName: string
    var orgDescrip: string
    var address: Address
    var orgImage: Option<string>
    var previewUrl: Option<string>
    var showPreviewModal: bool
    var selectedImage: Option<File>
    var userRegistrationRequired: bool
    var visibleInSearch: bool

    constructor (orgId: string)
      ensures this.orgId == orgId
      ensures orgName == "" && orgDescrip == "" && address == EmptyAddress && orgImage == None
      ensures previewUrl == None && !showPreviewModal && selectedImage == None
      ensures !userRegistrationRequired && !visibleInSearch
    {
      this.orgId := orgId;
      orgName, orgDescrip, address, orgImage := "", "", EmptyAddress, None;
      previewUrl, showPreviewModal, selectedImage := None, false, None;
      userRegistrationRequired, visibleInSearch := false, false;
    }

    function PreviewShown(): bool
      reads this
    {
      PreviewModalRendered(showPreviewModal, previewUrl)
    }

    /** The data effect: the first organisation returned fills the name,
        description, address and both switches; the image is kept. */
    method Loaded(org: Organization)
      modifies this`orgName, this`orgDescrip, this`address, this`userRegistrationRequired,
               this`visibleInSearch
      ensures orgName == org.name && orgDescrip == org.description && address == org.address
      ensures userRegistrationRequired == org.userRegistrationRequired
      ensures visibleInSearch == org.visibleInSearch
    {
      orgName := org.name;
      orgDescrip := org.description;
      address := org.address;
      userRegistrationRequired := org.userRegistrationRequired;
      visibleInSearch := org.visibleInSearch;
    }

    method SetName(v: string)
      modifies this`orgName
      ensures orgName == v
    {
      orgName := v;
    }

    method SetDescription(v: string)
      modifies this`orgDescrip
      ensures orgDescrip == v
    {
      orgDescrip := v;
    }

    /** `handleInputChange`: only the named address key changes. */
    method HandleInputChange(f: AddressField, v: string)
      modifies this`address
      ensures address == With(old(address), f, v)
    {
      address := With(address, f, v);
    }

    method ToggleRegistrationRequired()
      modifies this`userRegistrationRequired
      ensures userRegistrationRequired == !old(userRegistrationRequired)
    {
      userRegistrationRequired := !userRegistrationRequired;
    }

    method ToggleVisibleInSearch()
      modifies this`visibleInSearch
      ensures visibleInSearch == !old(visibleInSearch)
    {
      visibleInSearch := !visibleInSearch;
    }

    /** The save button: the mutation's variables; its result changes no
        form state. */
    method SaveChanges() returns (sent: UpdateVariables)
      ensures sent == SaveVariables(orgId, orgName, orgDescrip, address,
                                    userRegistrationRequired, visibleInSearch)
    {
      sent := SaveVariables(orgId, orgName, orgDescrip, address,
                            userRegistrationRequired, visibleInSearch);
    }

    /** `handleImageChange`: a picked file is recorded at once and its read
        starts; picking nothing changes nothing. */
    method HandleImageChange(file: Option<File>)
      modifies this`selectedImage
      ensures selectedImage == if file.Some? then file else old(selectedImage)
    {
      if file.Some? {
        selectedImage := file;
      }
    }

    /** The read completed: the preview shows its result and the modal is
        asked to open. */
    method ReadCompleted(result: Option<string>)
      modifies this`previewUrl, this`showPreviewModal
      ensures previewUrl == result && showPreviewModal
      ensures PreviewShown() <==> Truthy(result)
    {
      previewUrl := result;
      showPreviewModal := true;
    }

    /** `handleSaveImage`: with no selection nothing is sent. Otherwise the
        file is uploaded; an ok response closes the modal and drops the
        selection (the preview URL stays), anything else changes nothing. */
    method HandleSaveImage(result: UploadResult) returns (uploaded: Option<File>)
      modifies this`showPreviewModal, this`selectedImage
      ensures uploaded == old(selectedImage)
      ensures uploaded.Some? && result == Ok ==> !showPreviewModal && selectedImage == None
      ensures !(uploaded.Some? && result == Ok) ==>
                showPreviewModal == old(showPreviewModal) && selectedImage == old(selectedImage)
    {
      uploaded := selectedImage;
      if selectedImage.Some? {
        if result == Ok {
          showPreviewModal := false;
          selectedImage := None;
        }
      }
    }

    /** `handleCancelImage` (the cancel button and the modal's close): the
        preview and the selection are cleared and the modal closes. */
    method HandleCancelImage()
      modifies this`previewUrl, this`selectedImage, this`showPreviewModal
      ensures previewUrl == None && selectedImage == None && !showPreviewModal
      ensures !PreviewShown()
    {
      previewUrl := None;
      selectedImage := None;
      showPreviewModal := false;
    }
  }

  /** Pick, preview, upload: after an ok upload the modal is gone. */
  method UploadScenario(file: File, preview: string)
    requires preview != ""
  {
    var form := new Form("org1");
    form.HandleImageChange(Some(file));
    assert !form.PreviewShown();
    form.ReadCompleted(Some(preview));
    assert form.PreviewShown();
    var uploaded := form.HandleSaveImage(Ok);
    assert uploaded == Some(file) && !form.PreviewShown() && form.selectedImage == None;
  }
}
