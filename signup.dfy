/** The sign-up page: an ordinary account needs name, e-mail, password; a companion
    account also needs a photo and a position, and sends its phone number and photo. */
module Signup {
  import opened Common
  import opened Domain

  const CompanionIncompleteAlert := "Please upload a profile image and enable location for Boyfriend profile."
  const FailureFallback := "Registration failed"

  /** The body of `signupUser`; the last two fields exist only for companions. */
  datatype UserData = UserData(
    name: string,
    email: string,
    password: string,
    role: string,
    phoneNumber: Option<string>,
    profileImage: Option<string>)

  class Form {
    var name: string
    var email: string
    var password: string
    var phoneNumber: string
    var role: string
    var image: string
    var uploading: bool
    var loading: bool
    var location: Option<(real, real)>
    var locating: bool
    var success: bool

    constructor()
      ensures name == "" && email == "" && password == "" && phoneNumber == "" && role == "user"
      ensures image == "" && !uploading && !loading && location == None && !locating && !success
    {
      name, email, password, phoneNumber, role := "", "", "", "", "user";
      image, uploading, loading := "", false, false;
      location, locating, success := None, false, false;
    }

    /** The text inputs and the two role buttons. */
    method Edit(newName: string, newEmail: string, newPassword: string, newPhone: string, newRole: string)
      modifies this
      ensures name == newName && email == newEmail && password == newPassword
      ensures phoneNumber == newPhone && role == newRole
      ensures image == old(image) && location == old(location) && loading == old(loading)
      ensures uploading == old(uploading) && locating == old(locating) && success == old(success)
    {
      name, email, password, phoneNumber, role := newName, newEmail, newPassword, newPhone, newRole;
    }

    /** `handleImageUpload`: the upload body is kept as the photo. */
    method UploadImage(fileChosen: bool, reply: Reply<string>)
      modifies this
      ensures !fileChosen ==> image == old(image) && uploading == old(uploading)
      ensures fileChosen ==> !uploading
      ensures fileChosen && reply.Ok? ==> image == reply.data
      ensures fileChosen && reply.Err? ==> image == old(image)
      ensures name == old(name) && email == old(email) && password == old(password)
      ensures phoneNumber == old(phoneNumber) && role == old(role) && location == old(location)
      ensures loading == old(loading) && locating == old(locating) && success == old(success)
    {
      if fileChosen {
        uploading := true;
        if reply.Ok? {
          image := reply.data;
        }
        uploading := false;
      }
    }

    /** `getLocation`; `position` is what the browser reported (None on error). */
    method GetLocation(geolocationAvailable: bool, position: Option<(real, real)>)
      modifies this
      ensures geolocationAvailable && position.Some? ==> location == position
      ensures !(geolocationAvailable && position.Some?) ==> location == old(location)
      ensures geolocationAvailable ==> !locating
      ensures !geolocationAvailable ==> locating == old(locating)
      ensures name == old(name) && email == old(email) && password == old(password)
      ensures phoneNumber == old(phoneNumber) && role == old(role) && image == old(image)
      ensures loading == old(loading) && uploading == old(uploading) && success == old(success)
    {
      if geolocationAvailable {
        locating := true;
        if position.Some? {
          location := position;
        }
        locating := false;
      }
    }

    /** The body `handleSignup` would send, or none when a companion account lacks its
        photo or its position. */
    method BuildUserData() returns (data: Option<UserData>)
      ensures data.None? <==> role == BoyfriendRole && (image == "" || location.None?)
      ensures data.Some? ==>
        data.value.name == name && data.value.email == email
        && data.value.password == password && data.value.role == role
      ensures data.Some? ==> (data.value.phoneNumber.Some? <==> role == BoyfriendRole)
      ensures data.Some? ==> (data.value.profileImage.Some? <==> role == BoyfriendRole)
      ensures data.Some? && role == BoyfriendRole ==>
        data.value.phoneNumber == Some(phoneNumber) && data.value.profileImage == Some(image)
    {
      var userData := UserData(name, email, password, role, None, None);
      if role == BoyfriendRole {
        if image == "" || location.None? {
          return None;
        }
        userData := userData.(phoneNumber := Some(phoneNumber));
        userData := userData.(profileImage := Some(image));
      }
      data := Some(userData);
    }

    /** `handleSignup`; `reply` is the answer of `signupUser`. Success shows the
        confirmation and signs nobody in; the spinner then stays on. */
    method HandleSignup(reply: Reply<()>) returns (sent: Option<UserData>, alert: Option<string>)
      modifies this
      ensures sent.None? <==> role == BoyfriendRole && (image == "" || location.None?)
      ensures sent.None? ==> !loading && success == old(success) && alert == Some(CompanionIncompleteAlert)
      ensures sent.Some? && reply.Ok? ==> success && loading && alert == None
      ensures sent.Some? && reply.Err? ==>
        !loading && success == old(success) && alert == Some(OrElse(reply.serverMessage, FailureFallback))
      ensures sent.Some? ==>
        sent.value.name == name && sent.value.email == email
        && sent.value.password == password && sent.value.role == role
      ensures sent.Some? ==> (sent.value.phoneNumber.Some? <==> role == BoyfriendRole)
      ensures sent.Some? ==> (sent.value.profileImage.Some? <==> role == BoyfriendRole)
      ensures sent.Some? && role == BoyfriendRole ==>
        sent.value.phoneNumber == Some(phoneNumber) && sent.value.profileImage == Some(image)
      ensures name == old(name) && email == old(email) && password == old(password)
      ensures phoneNumber == old(phoneNumber) && role == old(role) && image == old(image)
      ensures location == old(location) && uploading == old(uploading) && locating == old(locating)
    {
      loading := true;
      sent := BuildUserData();
      if sent.None? {
        loading := false;
        return sent, Some(CompanionIncompleteAlert);
      }
      if reply.Ok? {
        success := true;
        alert := None;
      } else {
        loading := false;
        alert := Some(OrElse(reply.serverMessage, FailureFallback));
      }
    }
  }
}
