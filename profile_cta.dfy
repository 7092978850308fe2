/** The banner that urges a companion to activate the account, verify the face or
    create the public profile (`BoyfriendProfileCTA`). */
module ProfileCta {
  import opened Common
  import opened Domain

  datatype Prompt = Activate | Verify | Create

  /** The prompt after `checkProfile`, given the prompt before it, the signed-in user
      and the answer of `GET /boyfriends/me` (read only when that request is made). */
  function NextPrompt(before: Option<Prompt>, user: Option<User>, profile: Reply<()>): (p: Option<Prompt>)
    ensures (user.None? || !IsBoyfriend(user.value)) ==> p == before
    ensures user.Some? && IsBoyfriend(user.value) && !user.value.isAccountVerified ==> p == Some(Activate)
    ensures user.Some? && IsBoyfriend(user.value) && user.value.isAccountVerified ==>
      (profile.Ok? ==> p == (if user.value.isVerified then None else Some(Verify)))
      && (profile.Err? && profile.status == 404 ==> p == Some(Create))
      && (profile.Err? && profile.status != 404 ==> p == before)
  {
    if user.Some? && IsBoyfriend(user.value) then
      if !user.value.isAccountVerified then Some(Activate)
      else match profile
        case Ok(_) => if !user.value.isVerified then Some(Verify) else None
        case Err(status, _, _) => if status == 404 then Some(Create) else before
    else before
  }

  /** Starting from the initial null prompt, a user who is not a companion never gets one. */
  lemma NoPromptForOthers(user: Option<User>, profile: Reply<()>)
    requires user.None? || !IsBoyfriend(user.value)
    ensures NextPrompt(None, user, profile) == None
  {
  }

  /** "create" is chosen only after a 404, and "verify" only when the profile exists. */
  lemma PromptCauses(before: Option<Prompt>, user: Option<User>, profile: Reply<()>)
    requires before == None
    ensures NextPrompt(before, user, profile) == Some(Create) ==> profile.Err? && profile.status == 404
    ensures NextPrompt(before, user, profile) == Some(Verify) ==> profile.Ok? && !user.value.isVerified
  {
  }

  datatype Banner = Banner(title: string, buttonText: string, link: string)

  /** The link of each banner. */
  function LinkFor(p: Prompt): (link: string)
    ensures p == Activate ==> link == "/profile"
    ensures p == Verify ==> link == "/verify"
    ensures p == Create ==> link == "/boyfriends/me"
  {
    match p
    case Activate => "/profile"
    case Verify => "/verify"
    case Create => "/boyfriends/me"
  }

  /** The banner rendered, if any: nothing while loading or without a prompt. */
  function BannerFor(loading: bool, prompt: Option<Prompt>): (b: Option<Banner>)
    ensures b.Some? <==> !loading && prompt.Some?
    ensures b.Some? ==> b.value.link == LinkFor(prompt.value)
  {
    if loading || prompt.None? then None
    else match prompt.value
      case Activate => Some(Banner("Activate your Account!", "Check Email", LinkFor(Activate)))
      case Verify => Some(Banner("Verify your Identity!", "Verify Now", LinkFor(Verify)))
      case Create => Some(Banner("Your Boyfriend Profile is incomplete!", "Create Profile", LinkFor(Create)))
  }

  /** The three banners lead to three different pages. */
  lemma LinksDistinct(p: Prompt, q: Prompt)
    requires p != q
    ensures LinkFor(p) != LinkFor(q)
  {
  }

  class Cta {
    var promptType: Option<Prompt>
    var loading: bool

    constructor()
      ensures promptType == None && loading
    {
      promptType := None;
      loading := true;
    }

    /** `checkProfile`, run whenever the user changes. Reports whether the profile
        endpoint was called. */
    method CheckProfile(user: Option<User>, profile: Reply<()>) returns (calledProfile: bool)
      modifies this
      ensures calledProfile <==> user.Some? && IsBoyfriend(user.value) && user.value.isAccountVerified
      ensures promptType == NextPrompt(old(promptType), user, profile)
      ensures !loading
    {
      calledProfile := false;
      if user.Some? && user.value.role == "boyfriend" {
        if !user.value.isAccountVerified {
          promptType := Some(Activate);
          loading := false;
          return;
        }
        calledProfile := true;
        match profile {
          case Ok(_) =>
            if !user.value.isVerified {
              promptType := Some(Verify);
            } else {
              promptType := None;
            }
          case Err(status, _, _) =>
            if status == 404 {
              promptType := Some(Create);
            }
        }
      }
      loading := false;
    }

  }
}
