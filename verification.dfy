/** The face-verification page (`Verification`): it loads the recognition models,
    extracts a descriptor from the reference photo, compares a live webcam capture
    against it, and on a desktop offers a QR code that hands the session over to a
    phone while it polls for the phone's result.

    The recognition library is not modelled: each detection is an input (no face, or a
    face at some distance from the reference), and so is every server answer. */
module Verification {
  import opened Common
  import opened Domain
  import opened Url

  /** A face descriptor, as the recognition library produces it. */
  type Descriptor = seq<real>

  /** Live captures whose distance lies strictly below this are accepted. */
  const MatchThreshold: real := 0.6

  predicate Accepts(distance: real) {
    distance < MatchThreshold
  }

  /** What comparing the live webcam frame gave: an exception (no screenshot, or an
      error inside the library), no face, or a face at `distance` from the reference. */
  datatype LiveCapture = CaptureThrew | NoFace | Face(distance: real)

  /** What processing the reference photo gave: an error with its message ("" when the
      error has none), no face, or a face with its descriptor. */
  datatype ReferenceDetection = ReferenceThrew(message: string) | ReferenceNoFace | ReferenceFace(descriptor: Descriptor)

  const VerifiedMessage := "Verified! Redirecting..."
  const NoFaceMessage := "No face detected. Please ensure your face is clearly visible."
  const MismatchMessage := "Face does not match profile photo. Please try again."
  const FailedMessage := "Verification failed."

  /** The outcome of one `verifyFace` run once it had a webcam and a reference
      descriptor: the message left on screen, whether `verifying` stays set, and
      whether `POST /users/verify` was sent (its answer is `reply`). */
  datatype VerifyResult = VerifyResult(message: string, verifying: bool, calledVerify: bool)

  function VerifyStep(live: LiveCapture, reply: Reply<()>): (r: VerifyResult)
    ensures r.calledVerify <==> live.Face? && Accepts(live.distance)
    ensures live == NoFace ==> r == VerifyResult(NoFaceMessage, false, false)
    ensures live == CaptureThrew ==> r == VerifyResult(FailedMessage, false, false)
    ensures live.Face? && !Accepts(live.distance) ==> r == VerifyResult(MismatchMessage, false, false)
    ensures live.Face? && Accepts(live.distance) && reply.Err? ==> r == VerifyResult(FailedMessage, false, true)
    ensures r.verifying <==> r.message == VerifiedMessage
    ensures r.message == VerifiedMessage <==> live.Face? && Accepts(live.distance) && reply.Ok?
  {
    match live
    case CaptureThrew => VerifyResult(FailedMessage, false, false)
    case NoFace => VerifyResult(NoFaceMessage, false, false)
    case Face(d) =>
      if d < 0.6 then
        match reply
        case Ok(_) => VerifyResult(VerifiedMessage, true, true)
        case Err(_, _, _) => VerifyResult(FailedMessage, false, true)
      else VerifyResult(MismatchMessage, false, false)
  }

  /** The threshold is strict: a face exactly at 0.6 is rejected without a server call. */
  lemma ThresholdIsStrict(reply: Reply<()>)
    ensures !VerifyStep(Face(0.6), reply).calledVerify
    ensures VerifyStep(Face(0.6), reply).message == MismatchMessage
  {
  }

  /** The photo the live capture is compared with: the account's image, replaced by the
      companion profile's image when the account is a companion's, that profile could be
      fetched, and its image is set. "" when there is none. */
  function ReferencePhoto(account: User, companion: Reply<Boyfriend>): (url: string)
    ensures !IsBoyfriend(account) || companion.Err? || companion.data.profileImage == "" ==> url == account.profileImage
    ensures IsBoyfriend(account) && companion.Ok? && companion.data.profileImage != "" ==> url == companion.data.profileImage
  {
    if account.role == "boyfriend" then
      match companion
      case Ok(bf) => if bf.profileImage != "" then bf.profileImage else account.profileImage
      case Err(_, _, _) => account.profileImage
    else account.profileImage
  }

  const PrepareFallback := "Error preparing verification."
  const NoPhotoMessage := "No profile image found. Please upload one first."
  const NoReferenceFaceMessage := "Could not detect a face in your profile photo."
  const ReadyMessage := "Ready for Verification"

  /** The outcome of `prepareVerification`: the message left on screen, the descriptor
      it stores (None: the stored one is kept) and the photo fetched ("" when none). */
  datatype Preparation = Preparation(message: string, descriptor: Option<Descriptor>, fetchedPhoto: string)

  function Prepare(profile: Reply<User>, companion: Reply<Boyfriend>, detection: ReferenceDetection): (p: Preparation)
    ensures p.descriptor.Some? <==> profile.Ok? && ReferencePhoto(profile.data, companion) != "" && detection.ReferenceFace?
    ensures p.descriptor.Some? ==> p.descriptor.value == detection.descriptor && p.message == ReadyMessage
    ensures p.fetchedPhoto != "" <==> profile.Ok? && ReferencePhoto(profile.data, companion) != ""
    ensures p.fetchedPhoto != "" ==> p.fetchedPhoto == ReferencePhoto(profile.data, companion)
    ensures profile.Ok? && ReferencePhoto(profile.data, companion) == "" ==> p.message == NoPhotoMessage
    ensures profile.Ok? && p.fetchedPhoto != "" && detection == ReferenceNoFace ==> p.message == NoReferenceFaceMessage
    ensures profile.Err? ==> p.message == OrElse(profile.errorMessage, PrepareFallback)
  {
    match profile
    case Err(_, _, e) => Preparation(OrElse(e, PrepareFallback), None, "")
    case Ok(account) =>
      var url := ReferencePhoto(account, companion);
      if url == "" then Preparation(NoPhotoMessage, None, "")
      else match detection
        case ReferenceThrew(m) => Preparation(OrElse(m, PrepareFallback), None, url)
        case ReferenceNoFace => Preparation(NoReferenceFaceMessage, None, url)
        case ReferenceFace(d) => Preparation(ReadyMessage, Some(d), url)
  }

  /** A companion whose profile cannot be fetched is still compared with the account
      photo. */
  lemma FailedCompanionFetchKeepsAccountPhoto(account: User, status: int, m: string, e: string)
    ensures ReferencePhoto(account, Err(status, m, e)) == account.profileImage
  {
  }

  /** The index of the first poll that saw the account verified. */
  function FirstVerified(polls: seq<Reply<User>>): (r: Option<nat>)
    ensures r.Some? ==> r.value < |polls| && polls[r.value].Ok? && polls[r.value].data.isVerified
    ensures r.Some? ==> forall j :: 0 <= j < r.value ==> !(polls[j].Ok? && polls[j].data.isVerified)
    ensures r.None? ==> forall j :: 0 <= j < |polls| ==> !(polls[j].Ok? && polls[j].data.isVerified)
  {
    if polls == [] then None
    else if polls[0].Ok? && polls[0].data.isVerified then Some(0)
    else match FirstVerified(polls[1..])
      case None => None
      case Some(i) => Some(i + 1)
  }

  /** The QR payload: the public URL without one trailing '/', then the handover path
      carrying the token; nothing unless both are known. */
  function QrValue(publicUrl: string, token: string): (r: Option<string>)
    ensures r.Some? <==> publicUrl != "" && token != ""
  {
    if publicUrl != "" && token != "" then Some(StripTrailingSlash(publicUrl) + "/handover?t=" + token) else None
  }

  /** `s.replace(/\/$/, "")`. */
  function StripTrailingSlash(s: string): (r: string)
    ensures s != "" && s[|s| - 1] == '/' ==> r == s[..|s| - 1]
    ensures s == "" || s[|s| - 1] != '/' ==> r == s
  {
    if s != "" && s[|s| - 1] == '/' then s[..|s| - 1] else s
  }

  /** Whatever the page reading the QR code does with its URL, the `t` parameter it finds
      there is the token, and the path is the handover page under the public URL. */
  lemma HandoverRoundTrip(publicUrl: string, token: string)
    requires publicUrl != "" && token != ""
    requires '?' !in publicUrl && '#' !in publicUrl && PlainValue(token)
    ensures QrValue(publicUrl, token).Some?
    ensures Path(QrValue(publicUrl, token).value) == StripTrailingSlash(publicUrl) + "/handover"
    ensures SearchParam(QrValue(publicUrl, token).value, "t") == Some(token)
  {
    var prefix := StripTrailingSlash(publicUrl) + "/handover";
    assert '?' !in StripTrailingSlash(publicUrl) && '#' !in StripTrailingSlash(publicUrl);
    assert QrValue(publicUrl, token).value == prefix + "?" + ("t=" + token);
    assert "t=" + token == "t" + "=" + token;
    QueryOf(prefix, "t=" + token);
    PairValue("t", token);
  }

  class Page {
    var loading: bool
    var verifying: bool
    var message: string
    var isMobile: bool
    var profileDescriptor: Option<Descriptor>
    var publicUrl: string
    var handoverToken: string
    var tokenError: string

    /** The page as first rendered, for a viewport of the given kind and the configured
        public URL ("" when unset). */
    constructor(mobile: bool, configuredPublicUrl: string)
      ensures loading && !verifying && message == "Loading models..."
      ensures isMobile == mobile && profileDescriptor == None
      ensures publicUrl == configuredPublicUrl && handoverToken == "" && tokenError == ""
    {
      loading := true;
      verifying := false;
      message := "Loading models...";
      isMobile := mobile;
      profileDescriptor := None;
      publicUrl := configuredPublicUrl;
      handoverToken := "";
      tokenError := "";
    }

    /** The Verify button is disabled while verifying or before the models are ready. */
    predicate ButtonDisabled()
      reads this
    {
      verifying || loading
    }

    /** The model-load effect: on success `loading` is cleared; on failure it stays
        set, which keeps the Verify button disabled. */
    method LoadModels(loaded: bool)
      modifies this
      ensures loaded ==> !loading && message == "Loading AI models..."
      ensures !loaded ==> loading == old(loading) && message == "Error loading AI models."
      ensures loaded ==> (ButtonDisabled() <==> verifying)
      ensures !loaded ==> ButtonDisabled() == old(ButtonDisabled())
      ensures verifying == old(verifying) && profileDescriptor == old(profileDescriptor)
      ensures isMobile == old(isMobile) && publicUrl == old(publicUrl)
      ensures handoverToken == old(handoverToken) && tokenError == old(tokenError)
    {
      message := "Loading AI models...";
      if loaded {
        loading := false;
      } else {
        message := "Error loading AI models.";
      }
    }

    /** The preparation effect, fired with the signed-in flag of the store. It runs only
        with a user and loaded models; `ran` reports whether it did. */
    method PrepareVerification(signedIn: bool, profile: Reply<User>, companion: Reply<Boyfriend>,
                               detection: ReferenceDetection)
      returns (ran: bool, fetchedPhoto: string)
      modifies this
      ensures ran <==> signedIn && !old(loading)
      ensures !ran ==> message == old(message) && profileDescriptor == old(profileDescriptor) && fetchedPhoto == ""
      ensures ran ==> message == Prepare(profile, companion, detection).message
      ensures ran ==> fetchedPhoto == Prepare(profile, companion, detection).fetchedPhoto
      ensures ran && Prepare(profile, companion, detection).descriptor.Some? ==>
        profileDescriptor == Prepare(profile, companion, detection).descriptor
      ensures !ran || Prepare(profile, companion, detection).descriptor.None? ==>
        profileDescriptor == old(profileDescriptor)
      ensures loading == old(loading) && verifying == old(verifying) && isMobile == old(isMobile)
      ensures publicUrl == old(publicUrl) && handoverToken == old(handoverToken) && tokenError == old(tokenError)
    {
      ran := signedIn && !loading;
      fetchedPhoto := "";
      if !ran {
        return;
      }
      var p := Prepare(profile, companion, detection);
      message := p.message;
      fetchedPhoto := p.fetchedPhoto;
      if p.descriptor.Some? {
        profileDescriptor := p.descriptor;
      }
    }

    /** `verifyFace`, with the webcam's presence and the live comparison as inputs.
        Without a webcam or a reference descriptor it does nothing at all. */
    method VerifyFace(webcamReady: bool, live: LiveCapture, reply: Reply<()>) returns (calledVerify: bool)
      modifies this
      ensures !webcamReady || old(profileDescriptor).None? ==>
        !calledVerify && message == old(message) && verifying == old(verifying)
      ensures webcamReady && old(profileDescriptor).Some? ==>
        message == VerifyStep(live, reply).message && verifying == VerifyStep(live, reply).verifying
        && calledVerify == VerifyStep(live, reply).calledVerify
      ensures loading == old(loading) && isMobile == old(isMobile) && profileDescriptor == old(profileDescriptor)
      ensures publicUrl == old(publicUrl) && handoverToken == old(handoverToken) && tokenError == old(tokenError)
    {
      calledVerify := false;
      if !webcamReady || profileDescriptor.None? {
        return;
      }
      verifying := true;
      message := "Verifying...";
      var r := VerifyStep(live, reply);
      message := r.message;
      verifying := r.verifying;
      calledVerify := r.calledVerify;
    }

    /** The polling effect, run over the answers of successive `GET /users/profile`
        polls. A desktop polls until the first one that sees the account verified (a
        failed poll is only logged); a phone does not poll. Returns how many polls were
        made. */
    method PollStatus(polls: seq<Reply<User>>) returns (requests: nat)
      modifies this
      ensures isMobile ==> requests == 0 && message == old(message)
      ensures !isMobile && FirstVerified(polls).Some? ==>
        requests == FirstVerified(polls).value + 1 && message == "Verified on mobile! Redirecting..."
      ensures !isMobile && FirstVerified(polls).None? ==> requests == |polls| && message == old(message)
      ensures loading == old(loading) && verifying == old(verifying) && isMobile == old(isMobile)
      ensures profileDescriptor == old(profileDescriptor) && publicUrl == old(publicUrl)
      ensures handoverToken == old(handoverToken) && tokenError == old(tokenError)
    {
      requests := 0;
      if isMobile {
        return;
      }
      var i := 0;
      var done := false;
      while i < |polls| && !done
        invariant 0 <= i <= |polls|
        invariant requests == i
        invariant !done ==> forall j :: 0 <= j < i ==> !(polls[j].Ok? && polls[j].data.isVerified)
        invariant !done ==> message == old(message)
        invariant done ==> i >= 1 && FirstVerified(polls) == Some(i - 1) && message == "Verified on mobile! Redirecting..."
        invariant loading == old(loading) && verifying == old(verifying) && isMobile == old(isMobile)
        invariant profileDescriptor == old(profileDescriptor) && publicUrl == old(publicUrl)
        invariant handoverToken == old(handoverToken) && tokenError == old(tokenError)
        decreases |polls| - i
      {
        var answer := polls[i];
        requests := requests + 1;
        if answer.Ok? && answer.data.isVerified {
          message := "Verified on mobile! Redirecting...";
          FirstVerifiedAt(polls, i);
          done := true;
        }
        i := i + 1;
      }
      if !done {
        NoneVerified(polls);
      }
    }

    /** The handover-token effect: a desktop asks for a token once; a phone does not.
        Returns whether the request was made. */
    method FetchHandoverToken(reply: Reply<string>) returns (requested: bool)
      modifies this
      ensures requested <==> !isMobile
      ensures !isMobile && reply.Ok? ==> handoverToken == reply.data && tokenError == old(tokenError)
      ensures !isMobile && reply.Err? ==>
        handoverToken == old(handoverToken)
        && tokenError == OrElse(reply.serverMessage, OrElse(reply.errorMessage, "Failed to fetch token"))
      ensures isMobile ==> handoverToken == old(handoverToken) && tokenError == old(tokenError)
      ensures loading == old(loading) && verifying == old(verifying) && message == old(message)
      ensures isMobile == old(isMobile) && profileDescriptor == old(profileDescriptor) && publicUrl == old(publicUrl)
    {
      requested := !isMobile;
      if isMobile {
        return;
      }
      match reply {
        case Ok(t) => handoverToken := t;
        case Err(_, m, e) => tokenError := OrElse(m, OrElse(e, "Failed to fetch token"));
      }
    }

    function Qr(): (r: Option<string>)
      reads this
      ensures r.Some? <==> publicUrl != "" && handoverToken != ""
    {
      QrValue(publicUrl, handoverToken)
    }
  }

  lemma {:induction false} FirstVerifiedAt(polls: seq<Reply<User>>, i: nat)
    requires i < |polls| && polls[i].Ok? && polls[i].data.isVerified
    requires forall j :: 0 <= j < i ==> !(polls[j].Ok? && polls[j].data.isVerified)
    ensures FirstVerified(polls) == Some(i)
  {
    if i > 0 {
      FirstVerifiedAt(polls[1..], i - 1);
    }
  }

  lemma NoneVerified(polls: seq<Reply<User>>)
    requires forall j :: 0 <= j < |polls| ==> !(polls[j].Ok? && polls[j].data.isVerified)
    ensures FirstVerified(polls) == None
  {
  }

  /** The mount check: an account already verified is sent to the home page. */
  function AlreadyVerified(profile: Reply<User>): (goHome: bool)
    ensures goHome <==> profile.Ok? && profile.data.isVerified
  {
    match profile
    case Ok(u) => u.isVerified
    case Err(_, _, _) => false
  }
}
