/** The page on which a companion views and edits its own public profile. A profile
    that does not exist yet (the server answers 404) switches the page to creating. */
module MyProfile {
  import opened Common
  import opened Domain
  import opened ProfileForm

  /** The address shown for a stored location: the object's address, or the plain
      string of an older record, or nothing. */
  function AddressOf(l: Location): (a: string)
    ensures l.LocationObject? ==> a == l.address
    ensures l.LocationText? ==> a == l.text
    ensures l.NoLocation? ==> a == ""
  {
    match l
    case LocationObject(address, _) => address
    case LocationText(t) => t
    case NoLocation => ""
  }

  /** `coordinates[k] || null`: a missing or zero coordinate reads as none. */
  function Coordinate(l: Location, k: nat): (c: Option<real>)
    ensures c.Some? <==> l.LocationObject? && k < |l.coordinates| && l.coordinates[k] != 0.0
    ensures c.Some? ==> c.value == l.coordinates[k]
  {
    if l.LocationObject? && k < |l.coordinates| && l.coordinates[k] != 0.0 then Some(l.coordinates[k]) else None
  }

  /** `n || ""` for a number shown in a text input. */
  function NumberText(n: nat): (s: string)
    ensures s == "" <==> n == 0
  {
    if n == 0 then "" else NatToString(n)
  }

  /** The text of a number reads back as that number, zero included. */
  lemma NumberTextReadsBack(n: nat)
    ensures ToNumber(NumberText(n)) == Int(n)
  {
    if n != 0 {
      ToNumberOfNat(n);
    }
  }

  /** The form filled from a loaded profile. GeoJSON keeps longitude first, so the
      latitude is coordinate 1 and the longitude coordinate 0. */
  function FormFromProfile(b: Boyfriend): (f: Form)
    ensures f.name == b.name && f.bio == b.bio && f.instagram == b.instagram
    ensures f.profileImage == b.profileImage && f.images == b.images
    ensures f.address == AddressOf(b.location)
    ensures f.latitude == Coordinate(b.location, 1) && f.longitude == Coordinate(b.location, 0)
    ensures f.traits == ShowTraits(b.traits)
    ensures f.age == NumberText(b.age) && f.pricePerHour == NumberText(b.pricePerHour)
  {
    Form(b.name, NumberText(b.age), b.bio, NumberText(b.pricePerHour), AddressOf(b.location),
         Coordinate(b.location, 1), Coordinate(b.location, 0), ShowTraits(b.traits), b.instagram,
         b.profileImage, b.images)
  }

  /** Whether some trait would change when shown and read back: none when the list
      is non-empty and no trait holds a comma or edge whitespace. */
  predicate TraitsSurviveForm(ts: seq<string>) {
    |ts| >= 1 && forall i :: 0 <= i < |ts| ==> ',' !in ts[i] && (ts[i] == "" || (!IsSpace(ts[i][0]) && !IsSpace(ts[i][|ts[i]| - 1])))
  }

  /** Saving a loaded profile without editing it sends back what was loaded. */
  lemma SaveUnedited(b: Boyfriend)
    requires TraitsSurviveForm(b.traits)
    ensures var p := PayloadOf(FormFromProfile(b));
      p.name == b.name && p.age == Int(b.age) && p.pricePerHour == Int(b.pricePerHour)
      && p.traits == b.traits && p.images == b.images && p.profileImage == b.profileImage
      && p.location == AddressOf(b.location)
  {
    ShowThenParse(b.traits);
    NumberTextReadsBack(b.age);
    NumberTextReadsBack(b.pricePerHour);
  }

  /** A profile without traits comes back with a single empty trait. */
  lemma SaveWithoutTraits(b: Boyfriend)
    requires b.traits == []
    ensures PayloadOf(FormFromProfile(b)).traits == [""]
  {
    assert ShowTraits([]) == "";
    EmptyTraitsText();
  }

  const SaveFailedMessage := "Failed to save profile"

  /** The request a submission sends. */
  datatype SaveRequest = CreateRequest(payload: Payload) | UpdateRequest(payload: Payload)

  /** The request `handleSubmit` sends: a creation while the profile does not exist yet,
      an update otherwise, both carrying the converted form. */
  function RequestFor(creating: bool, f: Form): (r: SaveRequest)
    ensures r.CreateRequest? <==> creating
    ensures r.payload == PayloadOf(f)
  {
    if creating then CreateRequest(PayloadOf(f)) else UpdateRequest(PayloadOf(f))
  }

  class Editor {
    var boyfriend: Option<Boyfriend>
    var form: Form
    var loading: bool
    var saving: bool
    var uploading: bool
    var isEditing: bool
    var isCreating: bool

    constructor(accountName: string)
      ensures boyfriend == None && form == InitialForm(accountName)
      ensures loading && !saving && !uploading && !isEditing && !isCreating
    {
      boyfriend := None;
      form := InitialForm(accountName);
      loading := true;
      saving := false;
      uploading := false;
      isEditing := false;
      isCreating := false;
    }

    /** The form is shown while editing or creating; the edit button otherwise. */
    predicate ShowsForm()
      reads this
    {
      isEditing || isCreating
    }

    /** `fetchProfile`: a loaded profile fills the form; a 404 switches to creating;
        any other failure leaves the page as it was. */
    method FetchProfile(reply: Reply<Boyfriend>)
      modifies this
      ensures !loading
      ensures reply.Ok? ==> boyfriend == Some(reply.data) && form == FormFromProfile(reply.data)
      ensures reply.Ok? ==> isCreating == old(isCreating) && isEditing == old(isEditing)
      ensures reply.Err? ==> boyfriend == old(boyfriend) && form == old(form)
      ensures reply.Err? && reply.status == 404 ==> isCreating && isEditing
      ensures reply.Err? && reply.status != 404 ==> isCreating == old(isCreating) && isEditing == old(isEditing)
      ensures saving == old(saving) && uploading == old(uploading)
    {
      if reply.Ok? {
        boyfriend := Some(reply.data);
        form := FormFromProfile(reply.data);
      } else if reply.status == 404 {
        isCreating := true;
        isEditing := true;
      }
      loading := false;
    }

    method StartEditing()
      modifies this
      ensures isEditing && ShowsForm()
      ensures isCreating == old(isCreating) && form == old(form) && boyfriend == old(boyfriend)
      ensures loading == old(loading) && saving == old(saving) && uploading == old(uploading)
    {
      isEditing := true;
    }

    /** The Cancel button; the edits stay in the form. */
    method CancelEditing()
      modifies this
      ensures !isEditing
      ensures isCreating == old(isCreating) && form == old(form) && boyfriend == old(boyfriend)
      ensures loading == old(loading) && saving == old(saving) && uploading == old(uploading)
    {
      isEditing := false;
    }

    method HandleChange(e: FieldEdit)
      modifies this
      ensures form == ApplyEdit(old(form), e)
      ensures boyfriend == old(boyfriend) && isEditing == old(isEditing) && isCreating == old(isCreating)
      ensures loading == old(loading) && saving == old(saving) && uploading == old(uploading)
    {
      form := ApplyEdit(form, e);
    }

    /** `handleLocation`; the upload spinner doubles as the location spinner. */
    method HandleLocation(geolocationAvailable: bool, position: Option<(real, real)>)
      modifies this
      ensures !geolocationAvailable ==> form == old(form) && uploading == old(uploading)
      ensures geolocationAvailable ==> !uploading
      ensures geolocationAvailable && position.Some? ==> form == WithPosition(old(form), position.value.0, position.value.1)
      ensures geolocationAvailable && position.None? ==> form == old(form)
      ensures boyfriend == old(boyfriend) && isEditing == old(isEditing) && isCreating == old(isCreating)
      ensures loading == old(loading) && saving == old(saving)
    {
      if geolocationAvailable {
        uploading := true;
        if position.Some? {
          form := WithPosition(form, position.value.0, position.value.1);
        }
        uploading := false;
      }
    }

    method UploadProfileImage(fileChosen: bool, reply: Reply<UploadResponse>)
      modifies this
      ensures !fileChosen ==> form == old(form) && uploading == old(uploading)
      ensures fileChosen ==> !uploading
      ensures fileChosen && reply.Ok? ==> form == old(form).(profileImage := UploadedUrl(reply.data))
      ensures fileChosen && reply.Err? ==> form == old(form)
      ensures boyfriend == old(boyfriend) && isEditing == old(isEditing) && isCreating == old(isCreating)
      ensures loading == old(loading) && saving == old(saving)
    {
      if fileChosen {
        uploading := true;
        if reply.Ok? {
          form := form.(profileImage := UploadedUrl(reply.data));
        }
        uploading := false;
      }
    }

    method UploadGallery(fileCount: nat, reply: Reply<seq<UploadResponse>>)
      requires reply.Ok? ==> |reply.data| == fileCount
      modifies this
      ensures fileCount == 0 ==> form == old(form) && uploading == old(uploading)
      ensures fileCount > 0 ==> !uploading
      ensures fileCount > 0 && reply.Ok? ==> form == old(form).(images := AppendUploads(old(form).images, reply.data))
      ensures fileCount > 0 && reply.Err? ==> form == old(form)
      ensures boyfriend == old(boyfriend) && isEditing == old(isEditing) && isCreating == old(isCreating)
      ensures loading == old(loading) && saving == old(saving)
    {
      if fileCount > 0 {
        uploading := true;
        if reply.Ok? {
          form := form.(images := AppendUploads(form.images, reply.data));
        }
        uploading := false;
      }
    }

    method RemoveGalleryImage(index: int)
      modifies this
      ensures form == old(form).(images := RemoveAt(old(form).images, index))
      ensures boyfriend == old(boyfriend) && isEditing == old(isEditing) && isCreating == old(isCreating)
      ensures loading == old(loading) && saving == old(saving) && uploading == old(uploading)
    {
      form := form.(images := RemoveAt(form.images, index));
    }

    /** `handleSubmit`: creates while creating, updates otherwise. A saved profile
        ends editing (and creating); a failure leaves both modes as they were and
        the failure text is returned. */
    method HandleSubmit(reply: Reply<Boyfriend>) returns (request: SaveRequest, failure: Option<string>)
      modifies this
      ensures request == RequestFor(old(isCreating), old(form))
      ensures !saving && form == old(form)
      ensures reply.Ok? ==> boyfriend == Some(reply.data) && !isEditing && !isCreating && failure == None
      ensures reply.Err? ==> boyfriend == old(boyfriend) && isEditing == old(isEditing) && isCreating == old(isCreating)
      ensures reply.Err? ==> failure == Some(OrElse(reply.serverMessage, SaveFailedMessage))
      ensures loading == old(loading) && uploading == old(uploading)
    {
      var creating := isCreating;
      saving := true;
      request := RequestFor(creating, form);
      if reply.Ok? {
        boyfriend, isEditing, isCreating, failure := Some(reply.data), false, false, None;
      } else {
        failure := Some(OrElse(reply.serverMessage, SaveFailedMessage));
      }
      saving := false;
    }
  }
}
