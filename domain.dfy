/** The records the server sends and the client reads. Only the fields some decision
    rule of the client looks at are kept; a string field the server may omit is "". */
module Domain {
  import opened Common

  /** The account record returned by the authentication endpoints and stored in the
      session store. */
  datatype User = User(
    id: string,
    name: string,
    email: string,
    role: string,
    profileImage: string,
    isAccountVerified: bool,    // the e-mail address has been confirmed
    isVerified: bool)           // the face check has succeeded

  const BoyfriendRole: string := "boyfriend"

  predicate IsBoyfriend(u: User) {
    u.role == BoyfriendRole
  }

  /** The `location` field of a companion profile: absent, a plain string (older
      records), or an object with an address and GeoJSON `[longitude, latitude]`. */
  datatype Location =
    | NoLocation
    | LocationText(text: string)
    | LocationObject(address: string, coordinates: seq<real>)

  /** The place line of a profile card or page:
      `typeof location === 'string' ? location : location?.address || fallback`. */
  function LocationOr(l: Location, fallback: string): (shown: string)
    ensures l.LocationText? ==> shown == l.text
    ensures l.LocationObject? && l.address != "" ==> shown == l.address
    ensures l.NoLocation? || (l.LocationObject? && l.address == "") ==> shown == fallback
  {
    match l
    case LocationText(t) => t
    case LocationObject(a, _) => OrElse(a, fallback)
    case NoLocation => fallback
  }

  /** A companion profile. `account` is the populated `user` reference, when the server
      populated it; `accountId` is the reference when it did not ("" when absent). */
  datatype Boyfriend = Boyfriend(
    id: string,
    account: Option<User>,
    accountId: string,
    name: string,
    age: nat,
    bio: string,
    pricePerHour: nat,
    location: Location,
    latitude: real,
    longitude: real,
    traits: seq<string>,
    instagram: string,
    profileImage: string,
    images: seq<string>,
    rating: real,
    isVerified: bool)

  /** What the upload endpoint may answer with: a bare URL or an object with `url`
      and/or `imageUrl` ("" when absent). */
  datatype UploadResponse = UploadedText(text: string) | UploadedObject(url: string, imageUrl: string)
}
