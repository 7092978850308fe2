/** The card that shows one companion in the browse grid and in the live preview. */
module BoyfriendCard {
  import opened Common
  import opened Domain

  const DefaultImage := "https://images.unsplash.com/photo-1500648767791-00dcc994a43e?w=500&auto=format&fit=crop&q=60&ixlib=rb-4.0.3&ixid=M3wxMjA3fDB8MHxzZWFyY2h8Mnx8Ym95ZnJpZW5kfGVufDB8fDB8fHww"
  const DefaultRating: real := 4.5
  const MaxTraits: nat := 3

  /** A click opens the profile for a signed-in viewer and the login page otherwise. */
  function ClickRoute(signedIn: bool, id: string): (route: string)
    ensures !signedIn ==> route == "/login"
    ensures signedIn ==> route == "/boyfriends/" + id
  {
    if signedIn then "/boyfriends/" + id else "/login"
  }

  /** The photo: the profile photo, else the first gallery image, else a stock photo. */
  function CardImage(b: Boyfriend): (src: string)
    ensures src != ""
    ensures b.profileImage != "" ==> src == b.profileImage
    ensures b.profileImage == "" && |b.images| > 0 && b.images[0] != "" ==> src == b.images[0]
    ensures b.profileImage == "" && (|b.images| == 0 || b.images[0] == "") ==> src == DefaultImage
  {
    OrElse(b.profileImage, OrElse(if |b.images| > 0 then b.images[0] else "", DefaultImage))
  }

  /** The place line, with "Unknown Location" as the fallback. */
  function LocationLine(b: Boyfriend): string {
    LocationOr(b.location, "Unknown Location")
  }

  /** The rating badge: a missing (zero) rating shows 4.5. */
  function RatingShown(rating: real): (r: real)
    ensures rating != 0.0 ==> r == rating
    ensures rating == 0.0 ==> r == DefaultRating
  {
    if rating != 0.0 then rating else DefaultRating
  }

  /** `traits.slice(0, 3)`: at most the first three, in order. */
  function ShownTraits(traits: seq<string>): (ts: seq<string>)
    ensures |ts| == if |traits| < MaxTraits then |traits| else MaxTraits
    ensures ts <= traits
  {
    if |traits| <= MaxTraits then traits else traits[..MaxTraits]
  }

  /** The photo is blurred and locked for a signed-out viewer. */
  function Locked(signedIn: bool): bool {
    !signedIn
  }

  /** The lock overlay and the click share one condition: a card shows the lock
      exactly when clicking it leads to the login page. */
  lemma LockedGoesToLogin(signedIn: bool, id: string)
    ensures Locked(signedIn) <==> ClickRoute(signedIn, id) == "/login"
  {
  }
}
