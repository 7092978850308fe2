/** The companion-profile form shared by the create page and the edit page: the form
    fields, the upload results, the gallery edits, the traits text and the payload
    sent to the server. */
module ProfileForm {
  import opened Common
  import opened Domain

  /** The form state. Age and price hold the text of their inputs; the coordinates
      are null until detected. */
  datatype Form = Form(
    name: string,
    age: string,
    bio: string,
    pricePerHour: string,
    address: string,
    latitude: Option<real>,
    longitude: Option<real>,
    traits: string,
    instagram: string,
    profileImage: string,
    images: seq<string>)

  /** The form before any input: the first word of the account name, and nothing else. */
  function InitialForm(accountName: string): (f: Form)
    ensures f.name == Split(accountName, ' ')[0]
    ensures f.age == "" && f.pricePerHour == "" && f.traits == "" && f.images == []
    ensures f.latitude == None && f.longitude == None && f.profileImage == ""
    ensures f.bio == "" && f.address == "" && f.instagram == ""
  {
    Form(Split(accountName, ' ')[0], "", "", "", "", None, None, "", "", "", [])
  }

  /** One `handleChange`: a text input or the age select changed. */
  datatype FieldEdit =
    | EditName(v: string) | EditAge(v: string) | EditBio(v: string) | EditPrice(v: string)
    | EditAddress(v: string) | EditTraits(v: string) | EditInstagram(v: string)

  function ApplyEdit(f: Form, e: FieldEdit): (g: Form)
    ensures g.latitude == f.latitude && g.longitude == f.longitude
    ensures g.profileImage == f.profileImage && g.images == f.images
    ensures e.EditName? ==> g == f.(name := e.v)
    ensures e.EditAge? ==> g == f.(age := e.v)
    ensures e.EditBio? ==> g == f.(bio := e.v)
    ensures e.EditPrice? ==> g == f.(pricePerHour := e.v)
    ensures e.EditAddress? ==> g == f.(address := e.v)
    ensures e.EditTraits? ==> g == f.(traits := e.v)
    ensures e.EditInstagram? ==> g == f.(instagram := e.v)
  {
    match e
    case EditName(v) => f.(name := v)
    case EditAge(v) => f.(age := v)
    case EditBio(v) => f.(bio := v)
    case EditPrice(v) => f.(pricePerHour := v)
    case EditAddress(v) => f.(address := v)
    case EditTraits(v) => f.(traits := v)
    case EditInstagram(v) => f.(instagram := v)
  }

  const DetectedAddress := "Current Location (Detected)"

  /** A detected position: the coordinates are stored; a typed address is kept,
      otherwise the placeholder address is set. */
  function WithPosition(f: Form, lat: real, lng: real): (g: Form)
    ensures g.latitude == Some(lat) && g.longitude == Some(lng)
    ensures f.address != "" ==> g.address == f.address
    ensures f.address == "" ==> g.address == DetectedAddress
    ensures g.(latitude := f.latitude, longitude := f.longitude, address := f.address) == f
  {
    f.(latitude := Some(lat), longitude := Some(lng), address := OrElse(f.address, DetectedAddress))
  }

  /** The URL an upload answered with: the answer itself when it is a string,
      otherwise its `url`, otherwise its `imageUrl`. */
  function UploadedUrl(r: UploadResponse): (url: string)
    ensures r.UploadedText? ==> url == r.text
    ensures r.UploadedObject? && r.url != "" ==> url == r.url
    ensures r.UploadedObject? && r.url == "" ==> url == r.imageUrl
  {
    match r
    case UploadedText(t) => t
    case UploadedObject(u, i) => OrElse(u, i)
  }

  function UploadedUrls(rs: seq<UploadResponse>): (urls: seq<string>)
    ensures |urls| == |rs| && forall i :: 0 <= i < |rs| ==> urls[i] == UploadedUrl(rs[i])
  {
    seq(|rs|, i requires 0 <= i < |rs| => UploadedUrl(rs[i]))
  }

  /** A gallery upload: the new images follow the existing ones in upload order. */
  function AppendUploads(images: seq<string>, rs: seq<UploadResponse>): (r: seq<string>)
    ensures |r| == |images| + |rs|
    ensures r[..|images|] == images
    ensures forall i :: 0 <= i < |rs| ==> r[|images| + i] == UploadedUrl(rs[i])
  {
    images + UploadedUrls(rs)
  }

  /** `images.filter((_, i) => i !== index)`. */
  function RemoveAt(images: seq<string>, index: int): (r: seq<string>)
    ensures 0 <= index < |images| ==> r == images[..index] + images[index + 1..]
    ensures !(0 <= index < |images|) ==> r == images
  {
    if 0 <= index < |images| then images[..index] + images[index + 1..] else images
  }

  /** Removing the image just appended undoes the append of a single upload. */
  lemma RemoveUndoesAppend(images: seq<string>, upload: UploadResponse)
    ensures RemoveAt(AppendUploads(images, [upload]), |images|) == images
  {
    assert AppendUploads(images, [upload])[..|images|] == images;
  }

  // ---------------------------------------------------------------- traits

  /** `traits.split(",").map(t => t.trim())`. */
  function ParseTraits(text: string): (ts: seq<string>)
    ensures |ts| >= 1
    ensures forall i :: 0 <= i < |ts| ==> ',' !in ts[i] && Trim(ts[i]) == ts[i]
    ensures |ts| == |Split(text, ',')|
    ensures forall i :: 0 <= i < |ts| ==> ts[i] == Trim(Split(text, ',')[i])
  {
    var pieces := Split(text, ',');
    var ts := TrimAll(pieces);
    assert forall i :: 0 <= i < |ts| ==> ',' !in ts[i] && Trim(ts[i]) == ts[i] by {
      forall i | 0 <= i < |ts|
        ensures ',' !in ts[i] && Trim(ts[i]) == ts[i]
      {
        TrimOfTrimmed(Trim(pieces[i]));
        TrimIsInfix(pieces[i]);
      }
    }
    ts
  }

  /** `traits.join(", ")`, the text the edit form shows. */
  function ShowTraits(ts: seq<string>): string {
    Join(ts, ", ")
  }

  /** Trimming keeps a contiguous part of the string, so it adds no characters. */
  lemma TrimIsInfix(s: string)
    ensures forall c :: c in Trim(s) ==> c in s
  {
    var start := SpacesFrom(s, 0);
    assert Trim(s) == s[start..SpacesBefore(s, start, |s|)];
  }

  /** An empty traits field is sent as one empty trait, not as no traits. */
  lemma EmptyTraitsText()
    ensures ParseTraits("") == [""]
  {
  }

  /** The pieces of `prefix + join(ts, ", ")` split on ','. */
  lemma {:induction false} SplitShown(prefix: string, ts: seq<string>)
    requires |ts| >= 1 && ',' !in prefix
    requires forall i :: 0 <= i < |ts| ==> ',' !in ts[i]
    ensures |Split(prefix + Join(ts, ", "), ',')| == |ts|
    ensures Split(prefix + Join(ts, ", "), ',')[0] == prefix + ts[0]
    ensures forall i :: 1 <= i < |ts| ==> Split(prefix + Join(ts, ", "), ',')[i] == " " + ts[i]
    decreases |ts|
  {
    if |ts| == 1 {
      SplitNoSep(prefix + ts[0], ',');
    } else {
      var rest := Join(ts[1..], ", ");
      assert Join(ts, ", ") == ts[0] + ", " + rest;
      assert prefix + Join(ts, ", ") == (prefix + ts[0]) + [','] + (" " + rest);
      SplitAtFirst(prefix + ts[0], ',', " " + rest);
      SplitShown(" ", ts[1..]);
      var whole := Split(prefix + Join(ts, ", "), ',');
      var tail := Split(" " + rest, ',');
      assert whole == [prefix + ts[0]] + tail;
      forall i | 1 <= i < |ts|
        ensures whole[i] == " " + ts[i]
      {
        assert whole[i] == tail[i - 1];
        assert ts[1..][i - 1] == ts[i];
      }
    }
  }

  /** Traits shown with `join(", ")` and saved back through `split(",")` and `trim` come
      back unchanged, provided there is at least one and none contains a comma or
      starts or ends with whitespace. */
  lemma ShowThenParse(ts: seq<string>)
    requires |ts| >= 1
    requires forall i :: 0 <= i < |ts| ==> ',' !in ts[i] && (ts[i] == "" || (!IsSpace(ts[i][0]) && !IsSpace(ts[i][|ts[i]| - 1])))
    ensures ParseTraits(ShowTraits(ts)) == ts
  {
    SplitShown("", ts);
    assert "" + Join(ts, ", ") == Join(ts, ", ");
    var pieces := Split(Join(ts, ", "), ',');
    forall i | 0 <= i < |ts|
      ensures Trim(pieces[i]) == ts[i]
    {
      if i == 0 {
        TrimOfTrimmed(ts[0]);
      } else {
        TrimLeadingSpace(ts[i]);
      }
    }
  }

  // ---------------------------------------------------------------- payload

  /** The body of `createBoyfriend` / `updateBoyfriend`. */
  datatype Payload = Payload(
    name: string,
    age: JsNumber,
    bio: string,
    pricePerHour: JsNumber,
    location: string,
    latitude: Option<real>,
    longitude: Option<real>,
    traits: seq<string>,
    instagram: string,
    profileImage: string,
    images: seq<string>)

  function PayloadOf(f: Form): (p: Payload)
    ensures p.location == f.address && p.traits == ParseTraits(f.traits)
    ensures p.age == ToNumber(f.age) && p.pricePerHour == ToNumber(f.pricePerHour)
    ensures p.name == f.name && p.images == f.images && p.profileImage == f.profileImage
    ensures p.latitude == f.latitude && p.longitude == f.longitude && p.instagram == f.instagram
    ensures p.bio == f.bio
  {
    Payload(f.name, ToNumber(f.age), f.bio, ToNumber(f.pricePerHour), f.address, f.latitude, f.longitude,
            ParseTraits(f.traits), f.instagram, f.profileImage, f.images)
  }

  /** Age options of the select: 18 to 70. */
  function AgeOptions(): (r: seq<nat>)
    ensures |r| == 70 - 18 + 1
    ensures forall i :: 0 <= i < |r| ==> r[i] == 18 + i
  {
    seq(70 - 18 + 1, i requires 0 <= i < 70 - 18 + 1 => 18 + i)
  }

  /** An age is offered exactly when it lies between 18 and 70. */
  lemma AgeOffered(age: nat)
    ensures age in AgeOptions() <==> 18 <= age <= 70
  {
    if 18 <= age <= 70 {
      assert AgeOptions()[age - 18] == age;
    }
  }
}
