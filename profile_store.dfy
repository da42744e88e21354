/**
 * The profile collection as the handlers use it: at most one document per owner,
 * read with findOne and written back with findOneAndUpdate or save. Each method is
 * one handler's read-modify-write on this in-memory store.
 */
module ProfileStore {
  import opened Wrappers
  import opened SubRecords
  import opened Profiles

  /** Handler failures: a missing document reported as such, or a TypeError turned
      into a server error by the handler's catch block. */
  datatype Error = ProfileNotFound | ServerError

  class Store {
    /** The documents, keyed by owner: a key holds the only document of that owner. */
    var profiles: map<OwnerId, Profile>

    /** Every document sits under its own owner and has unique sub-record ids. */
    ghost predicate Valid()
      reads this
    {
      forall owner :: owner in profiles ==> WellFormed(owner, profiles[owner])
    }

    constructor ()
      ensures Valid() && profiles == map[]
    {
      profiles := map[];
    }

    /** `Profile.findOne({ user })` for the public lookup: the owner's document, or
        ProfileNotFound when there is none. */
    method FindByOwner(owner: OwnerId) returns (r: Result<Profile, Error>)
      requires Valid()
      ensures r.Success? <==> owner in profiles
      ensures r.Success? ==> r.value == profiles[owner] && r.value.user == owner
      ensures r.Failure? ==> r.error == ProfileNotFound
    {
      if owner in profiles {
        r := Success(profiles[owner]);
      } else {
        r := Failure(ProfileNotFound);
      }
    }

    /** Create-or-update: build the patch from the request; an owner with a document
        gets the patch applied with `$set`, an owner without one gets a new document
        made from the patch. Other owners' documents do not change. */
    method Upsert(owner: OwnerId, input: ProfileInput) returns (p: Profile)
      requires Valid()
      modifies this
      ensures Valid()
      ensures profiles == old(profiles)[owner := p]
      ensures owner in old(profiles) ==> p == Merge(old(profiles)[owner], BuildPatch(owner, input))
      ensures owner !in old(profiles) ==> p == Create(BuildPatch(owner, input))
    {
      var patch := BuildPatch(owner, input);
      if owner in profiles {
        UpsertKeepsWellFormed(owner, Some(profiles[owner]), input);
        p := Merge(profiles[owner], patch);
      } else {
        UpsertKeepsWellFormed(owner, None, input);
        p := Create(patch);
      }
      profiles := profiles[owner := p];
    }

    /** Deletes the owner's document, if any (`Profile.findOneAndRemove({ user })`). */
    method Delete(owner: OwnerId)
      requires Valid()
      modifies this
      ensures Valid()
      ensures profiles == old(profiles) - {owner}
    {
      profiles := profiles - {owner};
    }

    /** Adds an experience entry in front of the owner's list. Without a document the
        handler dereferences null: a server error, and nothing is saved. */
    method AddExperience(owner: OwnerId, id: EntryId, exp: Experience) returns (r: Result<Profile, Error>)
      requires Valid()
      requires owner in profiles ==> id !in Ids(profiles[owner].experience)
      modifies this
      ensures Valid()
      ensures owner !in old(profiles) ==> r == Failure(ServerError) && profiles == old(profiles)
      ensures owner in old(profiles) ==>
                && r.Success?
                && r.value == old(profiles)[owner].(experience :=
                     Prepend(old(profiles)[owner].experience, Entry(id, exp)))
                && profiles == old(profiles)[owner := r.value]
    {
      if owner !in profiles {
        return Failure(ServerError);
      }
      var profile := profiles[owner];
      PrependKeepsUniqueIds(profile.experience, Entry(id, exp));
      profile := profile.(experience := Prepend(profile.experience, Entry(id, exp)));
      profiles := profiles[owner := profile];
      r := Success(profile);
    }

    /** Removes an experience entry by id as the handler does: indexOf over the ids,
        then splice at that index, so an absent id drops the last entry. Without a
        document: a server error, and nothing is saved. */
    method RemoveExperience(owner: OwnerId, id: EntryId) returns (r: Result<Profile, Error>)
      requires Valid()
      modifies this
      ensures Valid()
      ensures owner !in old(profiles) ==> r == Failure(ServerError) && profiles == old(profiles)
      ensures owner in old(profiles) ==>
                && r.Success?
                && r.value == old(profiles)[owner].(experience :=
                     RemoveById(old(profiles)[owner].experience, id))
                && profiles == old(profiles)[owner := r.value]
    {
      if owner !in profiles {
        return Failure(ServerError);
      }
      var profile := profiles[owner];
      RemoveKeepsUniqueIds(profile.experience, id);
      profile := profile.(experience := RemoveById(profile.experience, id));
      profiles := profiles[owner := profile];
      r := Success(profile);
    }

    /** Adds an education entry in front of the owner's list; without a document,
        a server error and nothing saved. */
    method AddEducation(owner: OwnerId, id: EntryId, edu: Education) returns (r: Result<Profile, Error>)
      requires Valid()
      requires owner in profiles ==> id !in Ids(profiles[owner].education)
      modifies this
      ensures Valid()
      ensures owner !in old(profiles) ==> r == Failure(ServerError) && profiles == old(profiles)
      ensures owner in old(profiles) ==>
                && r.Success?
                && r.value == old(profiles)[owner].(education :=
                     Prepend(old(profiles)[owner].education, Entry(id, edu)))
                && profiles == old(profiles)[owner := r.value]
    {
      if owner !in profiles {
        return Failure(ServerError);
      }
      var profile := profiles[owner];
      PrependKeepsUniqueIds(profile.education, Entry(id, edu));
      profile := profile.(education := Prepend(profile.education, Entry(id, edu)));
      profiles := profiles[owner := profile];
      r := Success(profile);
    }

    /** Removes an education entry by id with indexOf and splice, as the handler
        does; without a document, a server error and nothing saved. */
    method RemoveEducation(owner: OwnerId, id: EntryId) returns (r: Result<Profile, Error>)
      requires Valid()
      modifies this
      ensures Valid()
      ensures owner !in old(profiles) ==> r == Failure(ServerError) && profiles == old(profiles)
      ensures owner in old(profiles) ==>
                && r.Success?
                && r.value == old(profiles)[owner].(education :=
                     RemoveById(old(profiles)[owner].education, id))
                && profiles == old(profiles)[owner := r.value]
    {
      if owner !in profiles {
        return Failure(ServerError);
      }
      var profile := profiles[owner];
      RemoveKeepsUniqueIds(profile.education, id);
      profile := profile.(education := RemoveById(profile.education, id));
      profiles := profiles[owner := profile];
      r := Success(profile);
    }
  }
}
