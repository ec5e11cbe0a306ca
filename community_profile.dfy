/** The community profile form: eleven text fields loaded from the server
    (absent values become empty strings), edited one at a time, cleared by
    a reset, and sent with the social-media URLs renamed to the keys the
    update endpoint expects. The save and reset buttons are disabled while
    the name, website link and logo are all empty. */
module CommunityProfile {
  import opened Common

  datatype Field =
    | Name | WebsiteLink | LogoUrl
    | Facebook | Instagram | X | LinkedIn | Github | Youtube | Reddit | Slack

  /** The three fields that decide whether the buttons are enabled. */
  predicate IsKeyField(f: Field) {
    f == Name || f == WebsiteLink || f == LogoUrl
  }

  /** `profileVariable`. */
  datatype Profile = Profile(name: string, websiteLink: string, logoUrl: string,
                             facebook: string, instagram: string, x: string, linkedIn: string,
                             github: string, youtube: string, reddit: string, slack: string)

  const Empty := Profile("", "", "", "", "", "", "", "", "", "", "")

  function Get(p: Profile, f: Field): string {
    match f
    case Name => p.name
    case WebsiteLink => p.websiteLink
    case LogoUrl => p.logoUrl
    case Facebook => p.facebook
    case Instagram => p.instagram
    case X => p.x
    case LinkedIn => p.linkedIn
    case Github => p.github
    case Youtube => p.youtube
    case Reddit => p.reddit
    case Slack => p.slack
  }

  /** `{...profileVariable, [name]: value}`: only the named field changes. */
  function With(p: Profile, f: Field, v: string): (r: Profile)
    ensures Get(r, f) == v
    ensures forall g :: g != f ==> Get(r, g) == Get(p, g)
  {
    match f
    case Name => p.(name := v)
    case WebsiteLink => p.(websiteLink := v)
    case LogoUrl => p.(logoUrl := v)
    case Facebook => p.(facebook := v)
    case Instagram => p.(instagram := v)
    case X => p.(x := v)
    case LinkedIn => p.(linkedIn := v)
    case Github => p.(github := v)
    case Youtube => p.(youtube := v)
    case Reddit => p.(reddit := v)
    case Slack => p.(slack := v)
  }

  /** A profile is determined by its fields. */
  lemma FieldsDetermineProfile(p: Profile, q: Profile)
    requires forall f :: Get(p, f) == Get(q, f)
    ensures p == q
  {
    assert Get(p, Name) == Get(q, Name) && Get(p, WebsiteLink) == Get(q, WebsiteLink);
    assert Get(p, LogoUrl) == Get(q, LogoUrl) && Get(p, Facebook) == Get(q, Facebook);
    assert Get(p, Instagram) == Get(q, Instagram) && Get(p, X) == Get(q, X);
    assert Get(p, LinkedIn) == Get(q, LinkedIn) && Get(p, Github) == Get(q, Github);
    assert Get(p, Youtube) == Get(q, Youtube) && Get(p, Reddit) == Get(q, Reddit);
    assert Get(p, Slack) == Get(q, Slack);
  }

  /** Writing back the value a field already holds changes nothing, and a
      second write to the same field wins over the first. */
  lemma WithLaws(p: Profile, f: Field, v: string, w: string)
    ensures With(p, f, Get(p, f)) == p
    ensures With(With(p, f, v), f, w) == With(p, f, w)
  {
    FieldsDetermineProfile(With(p, f, Get(p, f)), p);
    FieldsDetermineProfile(With(With(p, f, v), f, w), With(p, f, w));
  }

  /** `isDisabled`: the name, the website link and the logo are all empty. */
  function IsDisabled(p: Profile): (r: bool)
    ensures r <==> forall f :: IsKeyField(f) ==> Get(p, f) == ""
  {
    assert IsKeyField(Name) && IsKeyField(WebsiteLink) && IsKeyField(LogoUrl);
    p.name == "" && p.websiteLink == "" && p.logoUrl == ""
  }

  /** Editing a social-media field never enables or disables the buttons. */
  lemma SocialFieldsIrrelevant(p: Profile, f: Field, v: string)
    requires !IsKeyField(f)
    ensures IsDisabled(With(p, f, v)) == IsDisabled(p)
  {
    assert Get(With(p, f, v), Name) == Get(p, Name);
    assert Get(With(p, f, v), WebsiteLink) == Get(p, WebsiteLink);
    assert Get(With(p, f, v), LogoUrl) == Get(p, LogoUrl);
  }

  /** The reset profile has every field empty and disables the buttons. */
  lemma ResetDisables()
    ensures forall f :: Get(Empty, f) == ""
    ensures IsDisabled(Empty)
  {
  }

  /** The community data returned by the query. The id may be null. The
      social-media URLs are keyed as the server sends them ("gitHub",
      "youTube", "X", ...); a key that is missing stands for a null or
      absent URL. */
  datatype CommunityData = CommunityData(id: Option<string>, name: Option<string>, websiteLink: Option<string>,
                                         logoUrl: Option<string>, socialMediaUrls: map<string, string>)

  /** The key under which the query returns a social-media field. */
  function LoadKey(f: Field): string
    requires !IsKeyField(f)
  {
    match f
    case Facebook => "facebook"
    case Instagram => "instagram"
    case X => "X"
    case LinkedIn => "linkedIn"
    case Github => "gitHub"
    case Youtube => "youTube"
    case Reddit => "reddit"
    case Slack => "slack"
  }

  /** The key under which the update request sends a social-media field. */
  function SubmitKey(f: Field): string
    requires !IsKeyField(f)
  {
    match f
    case Facebook => "facebook"
    case Instagram => "instagram"
    case X => "twitter"
    case LinkedIn => "linkedIn"
    case Github => "gitHub"
    case Youtube => "youTube"
    case Reddit => "reddit"
    case Slack => "slack"
  }

  /** Only the X field is sent under another key than the one it is loaded
      from. */
  lemma OnlyXIsRenamed(f: Field)
    requires !IsKeyField(f)
    ensures LoadKey(f) != SubmitKey(f) <==> f == X
  {
  }

  /** The data effect: every field is copied, an absent value becoming "". */
  function Load(d: CommunityData): (r: Profile)
    ensures r.name == OrEmpty(d.name) && r.websiteLink == OrEmpty(d.websiteLink)
    ensures r.logoUrl == OrEmpty(d.logoUrl)
    ensures forall f :: !IsKeyField(f) ==> Get(r, f) == OrEmpty(Lookup(d.socialMediaUrls, LoadKey(f)))
  {
    var s := d.socialMediaUrls;
    Profile(OrEmpty(d.name), OrEmpty(d.websiteLink), OrEmpty(d.logoUrl),
            OrEmpty(Lookup(s, "facebook")), OrEmpty(Lookup(s, "instagram")),
            OrEmpty(Lookup(s, "X")), OrEmpty(Lookup(s, "linkedIn")),
            OrEmpty(Lookup(s, "gitHub")), OrEmpty(Lookup(s, "youTube")),
            OrEmpty(Lookup(s, "reddit")), OrEmpty(Lookup(s, "slack")))
  }

  /** The form data posted by `handleOnSubmit`. */
  datatype SubmitPayload = SubmitPayload(name: string, websiteLink: string, logoUrl: string,
                                         file: Option<File>, socialMediaUrls: map<string, string>)

  const SubmitKeys: set<string> :=
    {"facebook", "instagram", "twitter", "linkedIn", "gitHub", "youTube", "reddit", "slack"}

  /** The payload keeps every value; the social-media URLs are keyed by
      `SubmitKey`, so X goes out as "twitter"; the file is attached exactly
      when one was selected. */
  function Payload(p: Profile, selectedImage: Option<File>): (r: SubmitPayload)
    ensures r.name == p.name && r.websiteLink == p.websiteLink && r.logoUrl == p.logoUrl
    ensures r.file == selectedImage
    ensures r.socialMediaUrls.Keys == SubmitKeys && "X" !in r.socialMediaUrls
    ensures forall f :: !IsKeyField(f) ==> r.socialMediaUrls[SubmitKey(f)] == Get(p, f)
  {
    var urls := map["facebook" := p.facebook, "instagram" := p.instagram, "twitter" := p.x,
                    "linkedIn" := p.linkedIn, "gitHub" := p.github, "youTube" := p.youtube,
                    "reddit" := p.reddit, "slack" := p.slack];
    SubmitPayload(p.name, p.websiteLink, p.logoUrl, selectedImage, urls)
  }

  /** Loading and then submitting unedited sends every social-media URL the
      server gave (or "" for a missing one) under the submit key of its
      field: the same key for all but X, which moves from "X" to "twitter". */
  lemma {:induction false} LoadThenSubmit(d: CommunityData, selectedImage: Option<File>, f: Field)
    requires !IsKeyField(f)
    ensures Payload(Load(d), selectedImage).socialMediaUrls[SubmitKey(f)]
            == OrEmpty(Lookup(d.socialMediaUrls, LoadKey(f)))
    ensures f != X ==> Payload(Load(d), selectedImage).socialMediaUrls[LoadKey(f)]
                       == OrEmpty(Lookup(d.socialMediaUrls, LoadKey(f)))
    ensures Payload(Load(d), selectedImage).socialMediaUrls["twitter"]
            == OrEmpty(Lookup(d.socialMediaUrls, "X"))
  {
    var r := Load(d);
    assert Get(r, f) == OrEmpty(Lookup(d.socialMediaUrls, LoadKey(f)));
    assert Get(r, X) == OrEmpty(Lookup(d.socialMediaUrls, LoadKey(X)));
    assert SubmitKey(X) == "twitter";
    OnlyXIsRenamed(f);
  }

  class Form {
    var profile: Profile
    var selectedImage: Option<File>

    constructor ()
      ensures profile == Empty && selectedImage == None
      ensures IsDisabled(profile)
    {
      profile := Empty;
      selectedImage := None;
    }

    /** The data effect: loaded data replaces the whole profile. */
    method Loaded(data: Option<CommunityData>)
      modifies this`profile
      ensures profile == if data.Some? then Load(data.value) else old(profile)
    {
      if data.Some? {
        profile := Load(data.value);
      }
    }

    /** `handleOnChange` for the input named `f`. */
    method HandleOnChange(f: Field, v: string)
      modifies this`profile
      ensures profile == With(old(profile), f, v)
    {
      profile := With(profile, f, v);
    }

    /** `handleImageChange`, called by the logo widget's save with the picked
        file once it has been encoded: the file is recorded and the logo
        becomes the encoded text, or "" when the encoder gave nothing. */
    method HandleImageChange(file: File, encoded: Option<string>)
      modifies this`profile, this`selectedImage
      ensures selectedImage == Some(file)
      ensures profile == With(old(profile), LogoUrl, OrEmpty(encoded))
    {
      selectedImage := Some(file);
      profile := With(profile, LogoUrl, OrEmpty(encoded));
    }

    /** `resetData`: every field is cleared before the reset mutation is
        sent, whatever its outcome; the mutation carries the loaded
        community's id, absent when no community was loaded or its id is
        null. */
    method ResetData(data: Option<CommunityData>, result: Outcome) returns (resetId: Option<string>)
      modifies this`profile
      ensures profile == Empty && IsDisabled(profile)
      ensures data.Some? ==> resetId == data.value.id
      ensures data.None? ==> resetId == None
    {
      profile := Empty;
      resetId := if data.Some? then data.value.id else None;
    }

    /** The request `handleOnSubmit` posts; the response changes none of the
        form's state. */
    method Submit() returns (payload: SubmitPayload)
      ensures payload == Payload(profile, selectedImage)
      ensures payload.file.Some? <==> selectedImage.Some?
    {
      payload := Payload(profile, selectedImage);
    }
  }
}
