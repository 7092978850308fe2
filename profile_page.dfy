/** The account settings page of an ordinary user: the name and photo can be edited;
    a companion account is sent to its public-profile page instead. */
module ProfilePage {
  import opened Common
  import opened Domain
  import AuthStore

  const CompanionPage := "/boyfriends/me"
  const RandomAvatarPrefix := "https://api.dicebear.com/7.x/avataaars/svg?seed="

  /** The redirect effect: only a companion account leaves the page. */
  function RoleRedirect(user: Option<User>): (to: Option<string>)
    ensures to.Some? <==> user.Some? && IsBoyfriend(user.value)
    ensures to.Some? ==> to.value == CompanionPage
  {
    if user.Some? && IsBoyfriend(user.value) then Some(CompanionPage) else None
  }

  /** The body of `updateUserProfile`: the e-mail address is never sent. */
  datatype ProfileUpdate = ProfileUpdate(name: string, profileImage: string)

  class Settings {
    var name: string
    var email: string
    var profileImage: string
    var isEditing: bool
    var loading: bool
    var uploading: bool

    constructor(user: Option<User>)
      ensures user.Some? ==> name == user.value.name && email == user.value.email && profileImage == user.value.profileImage
      ensures user.None? ==> name == "" && email == "" && profileImage == ""
      ensures !isEditing && !loading && !uploading
    {
      name := if user.Some? then user.value.name else "";
      email := if user.Some? then user.value.email else "";
      profileImage := if user.Some? then user.value.profileImage else "";
      isEditing, loading, uploading := false, false, false;
    }

    /** The effect on the stored user: a user, when there is one, refills the form. */
    method Resync(user: Option<User>)
      modifies this
      ensures user.Some? ==> name == user.value.name && email == user.value.email && profileImage == user.value.profileImage
      ensures user.None? ==> name == old(name) && email == old(email) && profileImage == old(profileImage)
      ensures isEditing == old(isEditing) && loading == old(loading) && uploading == old(uploading)
    {
      if user.Some? {
        name, email, profileImage := user.value.name, user.value.email, user.value.profileImage;
      }
    }

    method StartEditing()
      modifies this
      ensures isEditing
      ensures name == old(name) && email == old(email) && profileImage == old(profileImage)
      ensures loading == old(loading) && uploading == old(uploading)
    {
      isEditing := true;
    }

    method EditName(newName: string)
      modifies this
      ensures name == newName
      ensures email == old(email) && profileImage == old(profileImage) && isEditing == old(isEditing)
      ensures loading == old(loading) && uploading == old(uploading)
    {
      name := newName;
    }

    /** `handleImageUpload`: the upload body becomes the photo. */
    method UploadImage(fileChosen: bool, reply: Reply<string>)
      modifies this
      ensures !fileChosen ==> profileImage == old(profileImage) && uploading == old(uploading)
      ensures fileChosen ==> !uploading
      ensures fileChosen && reply.Ok? ==> profileImage == reply.data
      ensures fileChosen && reply.Err? ==> profileImage == old(profileImage)
      ensures name == old(name) && email == old(email) && isEditing == old(isEditing) && loading == old(loading)
    {
      if fileChosen {
        uploading := true;
        if reply.Ok? {
          profileImage := reply.data;
        }
        uploading := false;
      }
    }

    /** `handleRandomizeAvatar`; `seed` stands for the random text the page draws. */
    method RandomizeAvatar(seed: string)
      modifies this
      ensures profileImage == RandomAvatarPrefix + seed
      ensures name == old(name) && email == old(email) && isEditing == old(isEditing)
      ensures loading == old(loading) && uploading == old(uploading)
    {
      profileImage := RandomAvatarPrefix + seed;
    }

    /** `handleSaveChanges`: sends the name and photo; the answer goes into the store
        and editing ends. A failure keeps the store and the edit mode. */
    method SaveChanges(reply: Reply<User>, store: AuthStore.Store) returns (sent: ProfileUpdate)
      modifies this, store
      ensures sent == ProfileUpdate(old(name), old(profileImage))
      ensures !loading
      ensures reply.Ok? ==> store.user == Some(reply.data) && !isEditing
      ensures reply.Err? ==> store.user == old(store.user) && isEditing == old(isEditing)
      ensures store.isCheckingAuth == old(store.isCheckingAuth)
      ensures name == old(name) && email == old(email) && profileImage == old(profileImage)
      ensures uploading == old(uploading)
    {
      loading := true;
      sent := ProfileUpdate(name, profileImage);
      if reply.Ok? {
        store.Login(reply.data);
        isEditing := false;
      }
      loading := false;
    }

    /** `handleCancel`: the name and photo come back from the stored user. */
    method Cancel(user: Option<User>)
      modifies this
      ensures !isEditing
      ensures name == (if user.Some? then user.value.name else "")
      ensures profileImage == (if user.Some? then user.value.profileImage else "")
      ensures email == old(email) && loading == old(loading) && uploading == old(uploading)
    {
      name := if user.Some? then user.value.name else "";
      profileImage := if user.Some? then user.value.profileImage else "";
      isEditing := false;
    }
  }
}
