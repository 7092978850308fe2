/** The page on which a companion account creates its public profile: the form, the
    uploads, the two refusals before anything is sent, and the live preview card. */
module CreateProfile {
  import opened Common
  import opened Domain
  import opened ProfileForm

  const MainPhotoAlert := "Please upload a main profile photo."
  const GalleryAlert := "Please upload at least 3 photos for your gallery."
  const CreateFailedAlert := "Failed to create profile"
  const MinGallery: nat := 3

  /** The alert that stops a submission before any request, if any. */
  function SubmitRefusal(f: Form): (alert: Option<string>)
    ensures alert.None? <==> f.profileImage != "" && |f.images| >= MinGallery
    ensures f.profileImage == "" ==> alert == Some(MainPhotoAlert)
    ensures f.profileImage != "" && |f.images| < MinGallery ==> alert == Some(GalleryAlert)
  {
    if f.profileImage == "" then Some(MainPhotoAlert)
    else if |f.images| < MinGallery then Some(GalleryAlert)
    else None
  }

  /** How a submission ended. */
  datatype Outcome = Refused(alert: string) | Created | Failed(alert: string)

  /** The card shown beside the form; age and price keep the text of their inputs. */
  datatype PreviewCard = PreviewCard(
    id: string,
    name: string,
    age: string,
    location: string,
    pricePerHour: string,
    profileImage: string,
    images: seq<string>,
    bio: string,
    traits: seq<string>,
    instagram: string,
    rating: real)

  const PreviewId := "preview"
  const StockPhoto := "https://images.unsplash.com/photo-1506794778202-cad84cf45f1d?w=500&auto=format&fit=crop&q=60"
  const PlaceholderTraits := ["Charming", "Fun"]

  /** The preview: every empty field falls back to a placeholder, the photo to the
      account's photo and then to a stock photo. */
  function Preview(f: Form, accountImage: string): (c: PreviewCard)
    ensures c.id == PreviewId && c.rating == 5.0 && c.images == f.images
    ensures c.name == (if f.name == "" then "Your Name" else f.name)
    ensures c.age == (if f.age == "" then "25" else f.age)
    ensures c.location == (if f.address == "" then "Your City" else f.address)
    ensures c.pricePerHour == (if f.pricePerHour == "" then "500" else f.pricePerHour)
    ensures f.profileImage != "" ==> c.profileImage == f.profileImage
    ensures f.profileImage == "" && accountImage != "" ==> c.profileImage == accountImage
    ensures f.profileImage == "" && accountImage == "" ==> c.profileImage == StockPhoto
    ensures c.traits == (if f.traits == "" then PlaceholderTraits else ParseTraits(f.traits))
    ensures c.bio == (if f.bio == "" then "Your amazing bio will appear here..." else f.bio)
    ensures c.instagram == f.instagram
  {
    PreviewCard(
      PreviewId,
      OrElse(f.name, "Your Name"),
      OrElse(f.age, "25"),
      OrElse(f.address, "Your City"),
      OrElse(f.pricePerHour, "500"),
      OrElse(f.profileImage, OrElse(accountImage, StockPhoto)),
      f.images,
      OrElse(f.bio, "Your amazing bio will appear here..."),
      if f.traits == "" then PlaceholderTraits else ParseTraits(f.traits),
      f.instagram,
      5.0)
  }

  /** Whatever the preview shows from a filled-in field is what a submission sends. */
  lemma PreviewShowsPayload(f: Form, accountImage: string)
    ensures var c := Preview(f, accountImage); var p := PayloadOf(f);
      (f.name != "" ==> c.name == p.name)
      && (f.address != "" ==> c.location == p.location)
      && (f.traits != "" ==> c.traits == p.traits)
      && (f.profileImage != "" ==> c.profileImage == p.profileImage)
      && c.images == p.images
  {
  }

  /** A blank form previews the placeholder traits, but would send one empty trait. */
  lemma BlankTraitsPreviewDiffers(f: Form, accountImage: string)
    requires f.traits == ""
    ensures Preview(f, accountImage).traits == PlaceholderTraits
    ensures PayloadOf(f).traits == [""]
  {
    EmptyTraitsText();
  }

  class Creator {
    var form: Form
    var loading: bool
    var uploading: bool
    const accountImage: string

    constructor(accountName: string, accountPhoto: string)
      ensures form == InitialForm(accountName) && accountImage == accountPhoto
      ensures !loading && !uploading
    {
      form := InitialForm(accountName);
      loading := false;
      uploading := false;
      accountImage := accountPhoto;
    }

    function Card(): PreviewCard
      reads this
    {
      Preview(form, accountImage)
    }

    method HandleChange(e: FieldEdit)
      modifies this
      ensures form == ApplyEdit(old(form), e)
      ensures loading == old(loading) && uploading == old(uploading)
    {
      form := ApplyEdit(form, e);
    }

    /** `handleLocation`; `position` is what the browser reported (None on error). */
    method HandleLocation(geolocationAvailable: bool, position: Option<(real, real)>)
      modifies this
      ensures !geolocationAvailable ==> form == old(form) && loading == old(loading)
      ensures geolocationAvailable ==> !loading
      ensures geolocationAvailable && position.Some? ==> form == WithPosition(old(form), position.value.0, position.value.1)
      ensures geolocationAvailable && position.None? ==> form == old(form)
      ensures uploading == old(uploading)
    {
      if geolocationAvailable {
        loading := true;
        if position.Some? {
          form := WithPosition(form, position.value.0, position.value.1);
        }
        loading := false;
      }
    }

    /** `handleProfileImageUpload`. */
    method UploadProfileImage(fileChosen: bool, reply: Reply<UploadResponse>)
      modifies this
      ensures !fileChosen ==> form == old(form) && uploading == old(uploading)
      ensures fileChosen ==> !uploading
      ensures fileChosen && reply.Ok? ==> form == old(form).(profileImage := UploadedUrl(reply.data))
      ensures fileChosen && reply.Err? ==> form == old(form)
      ensures loading == old(loading)
    {
      if fileChosen {
        uploading := true;
        if reply.Ok? {
          form := form.(profileImage := UploadedUrl(reply.data));
        }
        uploading := false;
      }
    }

    /** `handleGalleryUpload`: all uploads together, as `Promise.all`; one failure
        adds none of them. */
    method UploadGallery(fileCount: nat, reply: Reply<seq<UploadResponse>>)
      requires reply.Ok? ==> |reply.data| == fileCount
      modifies this
      ensures fileCount == 0 ==> form == old(form) && uploading == old(uploading)
      ensures fileCount > 0 ==> !uploading
      ensures fileCount > 0 && reply.Ok? ==> form == old(form).(images := AppendUploads(old(form).images, reply.data))
      ensures fileCount > 0 && reply.Err? ==> form == old(form)
      ensures loading == old(loading)
    {
      if fileCount > 0 {
        uploading := true;
        if reply.Ok? {
          form := form.(images := AppendUploads(form.images, reply.data));
        }
        uploading := false;
      }
    }

    method RemoveGalleryImage(index: int)
      modifies this
      ensures form == old(form).(images := RemoveAt(old(form).images, index))
      ensures loading == old(loading) && uploading == old(uploading)
    {
      form := form.(images := RemoveAt(form.images, index));
    }

    /** `handleSubmit`; `reply` is the answer of `createBoyfriend`, used only when a
        request is sent. On success the page moves on to identity verification. */
    method HandleSubmit(reply: Reply<()>) returns (sent: Option<Payload>, outcome: Outcome, navigateTo: Option<string>)
      modifies this
      ensures sent.None? <==> SubmitRefusal(form).Some?
      ensures sent.None? ==> outcome == Refused(SubmitRefusal(form).value) && navigateTo == None && loading == old(loading)
      ensures sent.Some? ==> sent.value == PayloadOf(form) && !loading
      ensures sent.Some? && reply.Ok? ==> outcome == Created && navigateTo == Some("/verify")
      ensures sent.Some? && reply.Err? ==> outcome == Failed(OrElse(reply.serverMessage, CreateFailedAlert)) && navigateTo == None
      ensures form == old(form) && uploading == old(uploading)
    {
      var refusal := SubmitRefusal(form);
      if refusal.Some? {
        return None, Refused(refusal.value), None;
      }
      loading := true;
      sent := Some(PayloadOf(form));
      if reply.Ok? {
        outcome, navigateTo := Created, Some("/verify");
      } else {
        outcome, navigateTo := Failed(OrElse(reply.serverMessage, CreateFailedAlert)), None;
      }
      loading := false;
    }
  }
}
