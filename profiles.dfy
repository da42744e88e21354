/**
 * The profile document and the logic of the create/update handler that turns a
 * request body into a field patch and applies it: set-if-truthy per scalar field,
 * skills parsed from a comma-separated string, a fresh social object on every call,
 * and `$set` semantics when the owner already has a profile.
 */
module Profiles {
  import opened Wrappers
  import opened JsStrings
  import opened SubRecords

  /** The id of the owning user. */
  type OwnerId = string

  /** The social links sub-object; an absent link is None. */
  datatype Social = Social(
    youtube: Option<string>,
    twitter: Option<string>,
    facebook: Option<string>,
    linkedin: Option<string>,
    instagram: Option<string>)

  /** The fields of an experience entry as copied from the request. */
  datatype Experience = Experience(
    title: string,
    company: string,
    location: Option<string>,
    from: string,
    to: Option<string>,
    current: Option<bool>,
    description: Option<string>)

  /** The fields of an education entry as copied from the request. */
  datatype Education = Education(
    school: string,
    degree: string,
    fieldofstudy: string,
    from: string,
    to: Option<string>,
    current: Option<bool>,
    description: Option<string>)

  /** A stored profile document; an unset scalar field is None. */
  datatype Profile = Profile(
    user: OwnerId,
    company: Option<string>,
    website: Option<string>,
    location: Option<string>,
    bio: Option<string>,
    status: Option<string>,
    githubusername: Option<string>,
    skills: seq<string>,
    social: Social,
    experience: seq<Entry<Experience>>,
    education: seq<Entry<Education>>)

  /** The string fields of the create/update request body; a missing field is None. */
  datatype ProfileInput = ProfileInput(
    company: Option<string>,
    location: Option<string>,
    bio: Option<string>,
    status: Option<string>,
    githubusername: Option<string>,
    website: Option<string>,
    skills: Option<string>,
    youtube: Option<string>,
    twitter: Option<string>,
    instagram: Option<string>,
    linkedin: Option<string>,
    facebook: Option<string>)

  /** The patch object the handler builds: a key that is absent from the object is None. */
  datatype Patch = Patch(
    user: OwnerId,
    company: Option<string>,
    website: Option<string>,
    location: Option<string>,
    bio: Option<string>,
    status: Option<string>,
    githubusername: Option<string>,
    skills: Option<seq<string>>,
    social: Social)

  /** JavaScript truthiness of a string field: missing and "" are falsy. */
  predicate Truthy(v: Option<string>) {
    v.Some? && v.value != ""
  }

  /** A patch field that is present exactly when the input is truthy, and then holds the input. */
  predicate CopiedIfTruthy(input: Option<string>, field: Option<string>) {
    (field.Some? <==> Truthy(input)) && (field.Some? ==> field == input)
  }

  /** `if (x) patch.f = x`: the guarded copy of one field. */
  function IfTruthy(v: Option<string>): (r: Option<string>)
    ensures CopiedIfTruthy(v, r)
  {
    if Truthy(v) then v else None
  }

  /** `skills.split(',').map(skill => skill.trim())`: one entry per comma-separated
      piece, in order, each trimmed, empty pieces kept. */
  function ParseSkills(s: string): (r: seq<string>)
    ensures |r| == |Split(s)| == CommaCount(s) + 1
    ensures forall i :: 0 <= i < |r| ==> Trimmed(r[i]) && ',' !in r[i]
    ensures forall i :: 0 <= i < |r| ==> r[i] == Trim(Split(s)[i])
  {
    var pieces := Split(s);
    SplitCount(s);
    SplitPiecesCommaFree(s);
    var r := seq(|pieces|, i requires 0 <= i < |pieces| => Trim(pieces[i]));
    forall i | 0 <= i < |r| ensures ',' !in r[i] {
      TrimKeepsOnlyInputCharacters(pieces[i]);
    }
    r
  }

  /** The patch built from the request body for the requesting owner: `user` always
      set, every scalar and social field copied exactly when truthy, skills parsed when
      truthy, and a social object always present. */
  function BuildPatch(owner: OwnerId, input: ProfileInput): (p: Patch)
    ensures p.user == owner
    ensures CopiedIfTruthy(input.company, p.company)
    ensures CopiedIfTruthy(input.website, p.website)
    ensures CopiedIfTruthy(input.location, p.location)
    ensures CopiedIfTruthy(input.bio, p.bio)
    ensures CopiedIfTruthy(input.status, p.status)
    ensures CopiedIfTruthy(input.githubusername, p.githubusername)
    ensures p.skills.Some? <==> Truthy(input.skills)
    ensures p.skills.Some? ==> p.skills.value == ParseSkills(input.skills.value)
    ensures CopiedIfTruthy(input.youtube, p.social.youtube)
    ensures CopiedIfTruthy(input.twitter, p.social.twitter)
    ensures CopiedIfTruthy(input.facebook, p.social.facebook)
    ensures CopiedIfTruthy(input.linkedin, p.social.linkedin)
    ensures CopiedIfTruthy(input.instagram, p.social.instagram)
  {
    Patch(
      owner,
      IfTruthy(input.company),
      IfTruthy(input.website),
      IfTruthy(input.location),
      IfTruthy(input.bio),
      IfTruthy(input.status),
      IfTruthy(input.githubusername),
      if Truthy(input.skills) then Some(ParseSkills(input.skills.value)) else None,
      Social(
        IfTruthy(input.youtube),
        IfTruthy(input.twitter),
        IfTruthy(input.facebook),
        IfTruthy(input.linkedin),
        IfTruthy(input.instagram)))
  }

  /** `findOneAndUpdate` with `{ $set: patch }`: every key in the patch overwrites the
      stored field, every other top-level field keeps its stored value, the social
      object is replaced as a whole, and the sub-record lists are untouched. */
  function Merge(stored: Profile, patch: Patch): (q: Profile)
    ensures q.user == patch.user && q.social == patch.social
    ensures q.experience == stored.experience && q.education == stored.education
    ensures q.company == (if patch.company.Some? then patch.company else stored.company)
    ensures q.website == (if patch.website.Some? then patch.website else stored.website)
    ensures q.location == (if patch.location.Some? then patch.location else stored.location)
    ensures q.bio == (if patch.bio.Some? then patch.bio else stored.bio)
    ensures q.status == (if patch.status.Some? then patch.status else stored.status)
    ensures q.githubusername ==
              (if patch.githubusername.Some? then patch.githubusername else stored.githubusername)
    ensures q.skills == (if patch.skills.Some? then patch.skills.value else stored.skills)
  {
    stored.(
      user := patch.user,
      company := Overwrite(stored.company, patch.company),
      website := Overwrite(stored.website, patch.website),
      location := Overwrite(stored.location, patch.location),
      bio := Overwrite(stored.bio, patch.bio),
      status := Overwrite(stored.status, patch.status),
      githubusername := Overwrite(stored.githubusername, patch.githubusername),
      skills := if patch.skills.Some? then patch.skills.value else stored.skills,
      social := patch.social)
  }

  function Overwrite(stored: Option<string>, update: Option<string>): (r: Option<string>) {
    if update.Some? then update else stored
  }

  /** A document with nothing but its owner: empty lists, no scalar fields, no links. */
  function EmptyProfile(owner: OwnerId): (p: Profile)
    ensures p.user == owner && p.skills == [] && p.experience == [] && p.education == []
    ensures p.company == None && p.website == None && p.location == None
    ensures p.bio == None && p.status == None && p.githubusername == None
    ensures p.social == Social(None, None, None, None, None)
  {
    Profile(owner, None, None, None, None, None, None, [],
            Social(None, None, None, None, None), [], [])
  }

  /** `new Profile(patch)`: a document holding exactly the patch's keys, with the
      array fields starting empty. */
  function Create(patch: Patch): (q: Profile)
    ensures q.user == patch.user && q.social == patch.social
    ensures q.experience == [] && q.education == []
    ensures q.company == patch.company && q.website == patch.website
    ensures q.location == patch.location && q.bio == patch.bio
    ensures q.status == patch.status && q.githubusername == patch.githubusername
    ensures patch.skills.Some? ==> q.skills == patch.skills.value
    ensures patch.skills.None? ==> q.skills == []
  {
    Profile(
      patch.user, patch.company, patch.website, patch.location, patch.bio,
      patch.status, patch.githubusername,
      if patch.skills.Some? then patch.skills.value else [],
      patch.social, [], [])
  }

  /** A stored document is well formed under its key: it names that owner and
      both sub-record lists have unique ids. */
  ghost predicate WellFormed(owner: OwnerId, p: Profile) {
    p.user == owner && UniqueIds(p.experience) && UniqueIds(p.education)
  }

  /** Creating from a patch is the same as applying the patch to an empty document. */
  lemma {:induction false} CreateIsMergeOntoEmpty(patch: Patch)
    ensures Create(patch) == Merge(EmptyProfile(patch.user), patch)
  {
  }

  /** Upserting for an owner whose document is well formed, or who has none,
      leaves a well-formed document under that owner. */
  lemma {:induction false} UpsertKeepsWellFormed(owner: OwnerId, stored: Option<Profile>, input: ProfileInput)
    requires stored.Some? ==> WellFormed(owner, stored.value)
    ensures var patch := BuildPatch(owner, input);
      WellFormed(owner, if stored.Some? then Merge(stored.value, patch) else Create(patch))
  {
  }

  /** Updating an existing document: a field that is falsy in the request keeps its
      stored value, a truthy one takes the request's value, and the social links
      become exactly the truthy links of the request. */
  lemma {:induction false} UpdateFieldByField(stored: Profile, owner: OwnerId, input: ProfileInput)
    ensures var q := Merge(stored, BuildPatch(owner, input));
      && q.user == owner
      && q.company == (if Truthy(input.company) then input.company else stored.company)
      && q.website == (if Truthy(input.website) then input.website else stored.website)
      && q.location == (if Truthy(input.location) then input.location else stored.location)
      && q.bio == (if Truthy(input.bio) then input.bio else stored.bio)
      && q.status == (if Truthy(input.status) then input.status else stored.status)
      && q.githubusername ==
           (if Truthy(input.githubusername) then input.githubusername else stored.githubusername)
      && q.skills == (if Truthy(input.skills) then ParseSkills(input.skills.value) else stored.skills)
      && q.social == Social(IfTruthy(input.youtube), IfTruthy(input.twitter),
                            IfTruthy(input.facebook), IfTruthy(input.linkedin),
                            IfTruthy(input.instagram))
      && q.experience == stored.experience && q.education == stored.education
  {
  }

  /** Applying the same request twice is the same as applying it once. */
  lemma {:induction false} UpdateIdempotent(stored: Profile, owner: OwnerId, input: ProfileInput)
    ensures var patch := BuildPatch(owner, input);
      Merge(Merge(stored, patch), patch) == Merge(stored, patch)
  {
  }

  /** Two updates in a row: the second request's truthy fields win, the first
      request's truthy fields survive where the second is falsy, and the social
      links are those of the second request alone. */
  lemma {:induction false} SecondUpdateWins(stored: Profile, owner: OwnerId, first: ProfileInput, second: ProfileInput)
    ensures var q := Merge(Merge(stored, BuildPatch(owner, first)), BuildPatch(owner, second));
      && q.user == owner
      && q.social == BuildPatch(owner, second).social
      && q.company == (if Truthy(second.company) then second.company
                       else if Truthy(first.company) then first.company else stored.company)
      && q.website == (if Truthy(second.website) then second.website
                       else if Truthy(first.website) then first.website else stored.website)
      && q.location == (if Truthy(second.location) then second.location
                        else if Truthy(first.location) then first.location else stored.location)
      && q.bio == (if Truthy(second.bio) then second.bio
                   else if Truthy(first.bio) then first.bio else stored.bio)
      && q.status == (if Truthy(second.status) then second.status
                      else if Truthy(first.status) then first.status else stored.status)
      && q.githubusername == (if Truthy(second.githubusername) then second.githubusername
                              else if Truthy(first.githubusername) then first.githubusername
                              else stored.githubusername)
      && q.skills == (if Truthy(second.skills) then ParseSkills(second.skills.value)
                      else if Truthy(first.skills) then ParseSkills(first.skills.value)
                      else stored.skills)
      && q.experience == stored.experience && q.education == stored.education
  {
  }

  /** Skills written as trimmed, comma-free entries joined by commas are stored
      exactly as those entries, in order. */
  lemma {:induction false} ParseSkillsOfJoin(entries: seq<string>)
    requires entries != []
    requires forall i :: 0 <= i < |entries| ==> ',' !in entries[i] && Trimmed(entries[i])
    ensures ParseSkills(Join(entries)) == entries
  {
    SplitJoin(entries);
    var r := ParseSkills(Join(entries));
    forall i | 0 <= i < |entries| ensures r[i] == entries[i] {
      TrimOfTrimmed(entries[i]);
    }
  }

  /** Padding around the entries does not reach the stored skills: each stored entry
      is the piece between two commas with its surrounding white space removed. */
  lemma {:induction false} ParseSkillsOfPaddedJoin(entries: seq<string>, pads: seq<(string, string)>)
    requires entries != [] && |pads| == |entries|
    requires forall i :: 0 <= i < |entries| ==> ',' !in entries[i] && Trimmed(entries[i])
    requires forall i :: 0 <= i < |pads| ==>
               AllWhiteSpace(pads[i].0) && AllWhiteSpace(pads[i].1)
    ensures ParseSkills(Join(seq(|entries|, i requires 0 <= i < |entries| =>
                                   pads[i].0 + entries[i] + pads[i].1))) == entries
  {
    var padded := seq(|entries|, i requires 0 <= i < |entries| => pads[i].0 + entries[i] + pads[i].1);
    PrintableIsNotWhiteSpace(',');
    forall i | 0 <= i < |padded| ensures ',' !in padded[i] {
      assert padded[i] == pads[i].0 + entries[i] + pads[i].1;
    }
    SplitJoin(padded);
    var r := ParseSkills(Join(padded));
    forall i | 0 <= i < |entries| ensures r[i] == entries[i] {
      TrimUnique(pads[i].0, entries[i], pads[i].1);
    }
  }
}
