/** Building `profileFields` from the body of `POST api/profile`, and the
    `$set` that applies it to a stored profile or the document created from it. */
module ProfileFields {
  import opened ProfileData
  import opened JsStrings
  import Validation

  /** `profileFields` after line 103: `user`, the optional keys that were set,
      and `social`, which is always set. */
  datatype Fields = Fields(
    user: UserId,
    company: Option<string>,
    website: Option<string>,
    location: Option<string>,
    bio: Option<string>,
    status: Option<string>,
    githubusername: Option<string>,
    skills: Option<seq<string>>,
    social: Social)

  /** `.map(skill => skill.trim())`. */
  function TrimEach(xs: seq<string>): (r: seq<string>)
    ensures |r| == |xs|
    ensures forall i :: 0 <= i < |xs| ==> r[i] == Trim(xs[i])
  {
    if xs == [] then [] else [Trim(xs[0])] + TrimEach(xs[1..])
  }

  /** `skills.split(',').map(skill => skill.trim())`: one token per
      comma-separated piece, in order, each trimmed; empty pieces are kept. */
  function NormaliseSkills(s: string): (r: seq<string>)
    ensures |r| == |Split(s, ',')| == Count(s, ',') + 1
    ensures forall i :: 0 <= i < |r| ==> r[i] == Trim(Split(s, ',')[i])
    ensures forall i :: 0 <= i < |r| ==> IsTrimmed(r[i]) && ',' !in r[i]
  {
    SplitCount(s, ',');
    SplitPiecesAvoidSeparator(s, ',');
    var r := TrimEach(Split(s, ','));
    forall i | 0 <= i < |r| ensures ',' !in r[i] {
      TrimKeepsAbsent(Split(s, ',')[i], ',');
    }
    r
  }

  /** A trailing comma leaves an empty last token. */
  lemma TrailingCommaKeepsEmptyToken(s: string)
    ensures NormaliseSkills(s + ",")[|NormaliseSkills(s + ",")| - 1] == ""
  {
    SplitEndsEmpty(s, ',');
    var pieces := Split(s + ",", ',');
    assert pieces[|pieces| - 1] == "";
    assert Trim("") == "";
  }

  /** Normalising a comma-joined list of comma-free trimmed skills gives the
      list back; the client prefills the edit form with that join. */
  lemma NormaliseJoin(xs: seq<string>)
    requires |xs| >= 1
    requires forall i :: 0 <= i < |xs| ==> ',' !in xs[i] && IsTrimmed(xs[i])
    ensures NormaliseSkills(Join(xs, ',')) == xs
  {
    SplitJoin(xs, ',');
    forall i | 0 <= i < |xs| ensures Trim(xs[i]) == xs[i] {
      TrimmedIsFixed(xs[i]);
    }
  }

  /** The optional key `o` holds the body value `s` exactly when `s` is truthy. */
  predicate CopiedIfTruthy(o: Option<string>, s: string) {
    (o.Some? <==> Truthy(s)) && (o.Some? ==> o.value == s)
  }

  /** The top-level text keys of `profileFields` (lines 63-82): `user`
      always, and each optional key exactly when its input is truthy,
      holding that input. */
  predicate TopLevelFrom(pf: Fields, user: UserId, body: ProfileBody) {
    && pf.user == user
    && CopiedIfTruthy(pf.company, body.company)
    && CopiedIfTruthy(pf.website, body.website)
    && CopiedIfTruthy(pf.location, body.location)
    && CopiedIfTruthy(pf.bio, body.bio)
    && CopiedIfTruthy(pf.status, body.status)
    && CopiedIfTruthy(pf.githubusername, body.githubusername)
  }

  /** The `skills` key (lines 83-85): present exactly when the input is
      truthy, holding the normalised tokens. */
  predicate SkillsFrom(skills: Option<seq<string>>, s: string) {
    (skills.Some? <==> Truthy(s)) && (skills.Some? ==> skills.value == NormaliseSkills(s))
  }

  /** What lines 63-103 build from the body: the top-level keys, the skills,
      and `social`, which is always set and holds exactly the truthy links. */
  predicate BuiltFrom(pf: Fields, user: UserId, body: ProfileBody) {
    && TopLevelFrom(pf, user, body)
    && SkillsFrom(pf.skills, body.skills)
    && SocialFrom(pf.social, body)
  }

  /** Lines 63-82: an object that starts with `user` and gains one key per
      truthy text input. Each key is set independently of the others, so
      each is held in its own local until the object is assembled. */
  method CopyTopLevel(user: UserId, body: ProfileBody) returns (pf: Fields)
    ensures TopLevelFrom(pf, user, body)
    ensures pf.skills == None && pf.social == NoSocial
  {
    var company, website, location, bio, status, githubusername := None, None, None, None, None, None;
    if Truthy(body.company) {
      company := Some(body.company);
    }
    if Truthy(body.website) {
      website := Some(body.website);
    }
    if Truthy(body.location) {
      location := Some(body.location);
    }
    if Truthy(body.bio) {
      bio := Some(body.bio);
    }
    if Truthy(body.status) {
      status := Some(body.status);
    }
    if Truthy(body.githubusername) {
      githubusername := Some(body.githubusername);
    }
    pf := Fields(user, company, website, location, bio, status, githubusername, None, NoSocial);
  }

  /** The builder as the handler runs it: the top-level keys, then the
      skills (lines 83-85), then the `social` object (lines 88-103). */
  method BuildProfileFields(user: UserId, body: ProfileBody) returns (pf: Fields)
    ensures BuiltFrom(pf, user, body)
  {
    pf := CopyTopLevel(user, body);
    if Truthy(body.skills) {
      pf := pf.(skills := Some(NormaliseSkills(body.skills)));
    }
    var social := BuildSocial(body);
    pf := pf.(social := social);
  }

  /** The links of `social` hold exactly the truthy social inputs. */
  predicate SocialFrom(social: Social, body: ProfileBody) {
    && CopiedIfTruthy(social.youtube, body.youtube)
    && CopiedIfTruthy(social.facebook, body.facebook)
    && CopiedIfTruthy(social.linkedin, body.linkedin)
    && CopiedIfTruthy(social.instagram, body.instagram)
    && CopiedIfTruthy(social.twitter, body.twitter)
  }

  /** `profileFields.social = {}` followed by one key per truthy link. */
  method BuildSocial(body: ProfileBody) returns (social: Social)
    ensures SocialFrom(social, body)
  {
    social := NoSocial;
    if Truthy(body.youtube) {
      social := social.(youtube := Some(body.youtube));
    }
    if Truthy(body.facebook) {
      social := social.(facebook := Some(body.facebook));
    }
    if Truthy(body.linkedin) {
      social := social.(linkedin := Some(body.linkedin));
    }
    if Truthy(body.instagram) {
      social := social.(instagram := Some(body.instagram));
    }
    if Truthy(body.twitter) {
      social := social.(twitter := Some(body.twitter));
    }
  }

  /** Only one `Fields` value is built from a given user and body. */
  lemma BuiltFromIsUnique(pf: Fields, pf': Fields, user: UserId, body: ProfileBody)
    requires BuiltFrom(pf, user, body) && BuiltFrom(pf', user, body)
    ensures pf == pf'
  {
  }

  /** The value of a key after `$set`: the set value when the key is in the
      update, the stored value otherwise. */
  function Override<T>(given: Option<T>, kept: Option<T>): Option<T> {
    if given.Some? then given else kept
  }

  /** `findOneAndUpdate({ user }, { $set: profileFields })` on a stored profile. */
  function ApplySet(p: Profile, pf: Fields): (r: Profile)
    ensures r.user == pf.user && r.social == pf.social
    ensures r.experience == p.experience && r.education == p.education
  {
    p.(user := pf.user,
       company := Override(pf.company, p.company),
       website := Override(pf.website, p.website),
       location := Override(pf.location, p.location),
       bio := Override(pf.bio, p.bio),
       status := Override(pf.status, p.status),
       githubusername := Override(pf.githubusername, p.githubusername),
       skills := Override(pf.skills, p.skills),
       social := pf.social)
  }

  /** `new Profile(profileFields)`: the embedded lists start empty. */
  function NewProfile(pf: Fields): (r: Profile)
    ensures r.user == pf.user && r.social == pf.social
    ensures r.experience == [] && r.education == []
  {
    Profile(pf.user, pf.company, pf.website, pf.location, pf.bio, pf.status,
            pf.githubusername, pf.skills, pf.social, [], [])
  }

  /** Updating an existing profile: every submitted (truthy) key takes the
      submitted value, every omitted key keeps its stored value, the embedded
      lists are untouched, and `social` is replaced by the submitted links
      only, so a stored link that is not resubmitted is gone. */
  lemma UpdateOverwritesSubmittedKeepsOmitted(p: Profile, pf: Fields, body: ProfileBody)
    requires BuiltFrom(pf, p.user, body)
    ensures ApplySet(p, pf).user == p.user
    ensures ApplySet(p, pf).company == (if Truthy(body.company) then Some(body.company) else p.company)
    ensures ApplySet(p, pf).website == (if Truthy(body.website) then Some(body.website) else p.website)
    ensures ApplySet(p, pf).location == (if Truthy(body.location) then Some(body.location) else p.location)
    ensures ApplySet(p, pf).bio == (if Truthy(body.bio) then Some(body.bio) else p.bio)
    ensures ApplySet(p, pf).status == (if Truthy(body.status) then Some(body.status) else p.status)
    ensures ApplySet(p, pf).githubusername ==
            (if Truthy(body.githubusername) then Some(body.githubusername) else p.githubusername)
    ensures ApplySet(p, pf).skills ==
            (if Truthy(body.skills) then Some(NormaliseSkills(body.skills)) else p.skills)
    ensures ApplySet(p, pf).social == pf.social
    ensures ApplySet(p, pf).experience == p.experience && ApplySet(p, pf).education == p.education
    ensures !Truthy(body.youtube) ==> ApplySet(p, pf).social.youtube == None
  {
  }

  /** Applying the same update twice is the same as applying it once. */
  lemma ApplySetIdempotent(p: Profile, pf: Fields)
    ensures ApplySet(ApplySet(p, pf), pf) == ApplySet(p, pf)
  {
  }

  /** Creating a profile stores exactly the submitted (truthy) fields, the
      normalised skills and the submitted links, with no entries. */
  lemma CreateStoresExactlySubmitted(user: UserId, pf: Fields, body: ProfileBody)
    requires BuiltFrom(pf, user, body)
    ensures NewProfile(pf).user == user
    ensures NewProfile(pf).company == IfTruthy(body.company)
    ensures NewProfile(pf).website == IfTruthy(body.website)
    ensures NewProfile(pf).location == IfTruthy(body.location)
    ensures NewProfile(pf).bio == IfTruthy(body.bio)
    ensures NewProfile(pf).status == IfTruthy(body.status)
    ensures NewProfile(pf).githubusername == IfTruthy(body.githubusername)
    ensures NewProfile(pf).skills == if Truthy(body.skills) then Some(NormaliseSkills(body.skills)) else None
    ensures NewProfile(pf).social == Social(IfTruthy(body.youtube), IfTruthy(body.facebook),
                                            IfTruthy(body.linkedin), IfTruthy(body.instagram),
                                            IfTruthy(body.twitter))
    ensures NewProfile(pf).experience == [] && NewProfile(pf).education == []
  {
  }

  /** An optional string key is absent or non-empty. */
  predicate NonEmptyIfSet(o: Option<string>) {
    o.Some? ==> o.value != ""
  }

  /** Skills as the normaliser leaves them: at least one token, each
      comma-free and trimmed. */
  predicate NormalSkills(xs: seq<string>) {
    |xs| >= 1 && forall i :: 0 <= i < |xs| ==> ',' !in xs[i] && IsTrimmed(xs[i])
  }

  /** The shape every profile written by this resource has: no optional key
      holds "", `status` is set, and `skills` is set and normal. */
  predicate WellFormed(p: Profile) {
    && NonEmptyIfSet(p.company) && NonEmptyIfSet(p.website) && NonEmptyIfSet(p.location)
    && NonEmptyIfSet(p.bio) && NonEmptyIfSet(p.githubusername)
    && p.status.Some? && p.status.value != ""
    && p.skills.Some? && NormalSkills(p.skills.value)
    && NonEmptyIfSet(p.social.youtube) && NonEmptyIfSet(p.social.facebook)
    && NonEmptyIfSet(p.social.linkedin) && NonEmptyIfSet(p.social.instagram)
    && NonEmptyIfSet(p.social.twitter)
  }

  /** Normalised skills are always normal. */
  lemma NormaliseSkillsIsNormal(s: string)
    ensures NormalSkills(NormaliseSkills(s))
  {
  }

  /** A body that passes validation yields a well-formed new profile. */
  lemma ValidBodyMakesWellFormed(user: UserId, pf: Fields, body: ProfileBody)
    requires BuiltFrom(pf, user, body)
    requires Validation.ValidateProfile(body) == []
    ensures WellFormed(NewProfile(pf))
  {
    NormaliseSkillsIsNormal(body.skills);
  }

  /** A body that passes validation keeps a stored profile well-formed when
      applied with `$set`. */
  lemma ValidBodyKeepsWellFormed(p: Profile, user: UserId, pf: Fields, body: ProfileBody)
    requires BuiltFrom(pf, user, body)
    requires Validation.ValidateProfile(body) == []
    requires WellFormed(p)
    ensures WellFormed(ApplySet(p, pf))
  {
    NormaliseSkillsIsNormal(body.skills);
  }
}
