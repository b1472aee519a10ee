/** The profile page: a five-field form filled from the stored profile, the
    edit mode, and the save and cancel handlers with their loading, error and
    success flags. */
module UserProfile {
  import opened JsText
  import opened ServiceCall

  /** The stored profile's editable fields, any of which may be missing. */
  datatype StoredProfile = StoredProfile(
    fullName: Option<string>,
    username: Option<string>,
    bio: Option<string>,
    location: Option<string>,
    avatarUrl: Option<string>)

  /** The form. */
  datatype ProfileData = ProfileData(fullName: string, username: string, bio: string, location: string, avatarUrl: string)

  const EmptyProfileData: ProfileData := ProfileData("", "", "", "", "")

  /** `field || ''` for a field of the stored profile. */
  function FieldOrEmpty(f: Option<string>): (s: string)
    ensures f.Some? ==> s == f.value
    ensures f.None? ==> s == ""
  {
    OrElse(f, "")
  }

  /** The form filled from a stored profile: each field is the profile's,
      or empty when the profile has none. */
  function FormOf(p: StoredProfile): (d: ProfileData)
    ensures d.fullName == FieldOrEmpty(p.fullName) && d.username == FieldOrEmpty(p.username)
    ensures d.bio == FieldOrEmpty(p.bio) && d.location == FieldOrEmpty(p.location)
    ensures d.avatarUrl == FieldOrEmpty(p.avatarUrl)
  {
    ProfileData(OrElse(p.fullName, ""), OrElse(p.username, ""), OrElse(p.bio, ""), OrElse(p.location, ""), OrElse(p.avatarUrl, ""))
  }

  /** A profile with every field present fills the form with exactly those
      values, so filling loses nothing. */
  lemma FormOfCompleteProfile(d: ProfileData)
    ensures FormOf(StoredProfile(Some(d.fullName), Some(d.username), Some(d.bio), Some(d.location), Some(d.avatarUrl))) == d
  {
  }

  const FallbackError: string := "Failed to update profile"
  const ThrownError: string := "Something went wrong updating your profile"

  class Page {
    /** The signed-in user's id, when there is a user. */
    const userId: Option<string>
    /** The session's error. */
    const authError: Option<string>
    /** The session's stored profile, when it has loaded. */
    var userProfile: Option<StoredProfile>
    var isEditing: bool
    var profileData: ProfileData
    var saveLoading: bool
    var saveError: Option<string>
    var saveSuccess: bool

    constructor (userId: Option<string>, authError: Option<string>)
      ensures this.userId == userId && this.authError == authError && userProfile == None
      ensures !isEditing && profileData == EmptyProfileData
      ensures !saveLoading && saveError == None && !saveSuccess
    {
      this.userId := userId;
      this.authError := authError;
      userProfile := None;
      isEditing := false;
      profileData := EmptyProfileData;
      saveLoading := false;
      saveError := None;
      saveSuccess := false;
    }

    /** The effect that runs when the session's profile changes: a present
        profile refills the form; an absent one leaves it. */
    method ProfileChanged(p: Option<StoredProfile>)
      modifies this`userProfile, this`profileData
      ensures userProfile == p
      ensures p.Some? ==> profileData == FormOf(p.value)
      ensures p.None? ==> profileData == old(profileData)
    {
      userProfile := p;
      if p.Some? {
        profileData := FormOf(p.value);
      }
    }

    method StartEditing()
      modifies this`isEditing
      ensures isEditing
    {
      isEditing := true;
    }

    /** The edit form's changes and the avatar picker. */
    method Edit(d: ProfileData)
      modifies this`profileData
      ensures profileData == d
    {
      profileData := d;
    }

    method ChangeAvatar(url: string)
      modifies this`profileData
      ensures profileData == old(profileData).(avatarUrl := url)
    {
      profileData := profileData.(avatarUrl := url);
    }

    /** The synchronous part of `handleSaveProfile`: without a user id
        nothing happens and nothing is sent; otherwise loading starts, both
        flags are cleared, and the form is sent. */
    method BeginSave() returns (request: Option<ProfileData>)
      modifies this
      ensures request.None? <==> !Truthy(userId)
      ensures request.None? ==>
        && saveLoading == old(saveLoading) && saveError == old(saveError) && saveSuccess == old(saveSuccess)
      ensures request.Some? ==> request.value == profileData && saveLoading && saveError == None && !saveSuccess
      ensures isEditing == old(isEditing) && profileData == old(profileData) && userProfile == old(userProfile)
    {
      if !Truthy(userId) {
        return None;
      }
      saveLoading := true;
      saveError := None;
      saveSuccess := false;
      request := Some(profileData);
    }

    /** The rest of `handleSaveProfile`: success shows the success flag and
        leaves edit mode; a failure shows its error, or the fallback text,
        and stays in edit mode; a throw shows the generic text. Loading ends
        on every path. */
    method FinishSave(outcome: Settled<Outcome<Unit>>)
      modifies this
      ensures !saveLoading
      ensures outcome.Resolved? && outcome.result.Some? && outcome.result.value.success ==>
        saveSuccess && !isEditing && saveError == old(saveError)
      ensures outcome.Resolved? && (outcome.result.None? || !outcome.result.value.success) ==>
        && saveError == Some(if outcome.result.Some? then OrElse(outcome.result.value.error, FallbackError) else FallbackError)
        && isEditing == old(isEditing) && saveSuccess == old(saveSuccess)
      ensures outcome.Rejected? ==> saveError == Some(ThrownError) && isEditing == old(isEditing) && saveSuccess == old(saveSuccess)
      ensures profileData == old(profileData) && userProfile == old(userProfile)
    {
      match outcome {
        case Rejected =>
          saveError := Some(ThrownError);
        case Resolved(result) =>
          if result.Some? && result.value.success {
            saveSuccess := true;
            isEditing := false;
          } else {
            saveError := Some(if result.Some? then OrElse(result.value.error, FallbackError) else FallbackError);
          }
      }
      saveLoading := false;
    }

    /** The timer that hides the success flag three seconds after a save. */
    method HideSuccess()
      modifies this`saveSuccess
      ensures !saveSuccess
    {
      saveSuccess := false;
    }

    /** `handleCancelEdit`: the form is refilled from the profile when there
        is one, edit mode ends and both flags are cleared. */
    method HandleCancelEdit()
      modifies this
      ensures userProfile.Some? ==> profileData == FormOf(userProfile.value)
      ensures userProfile.None? ==> profileData == old(profileData)
      ensures !isEditing && saveError == None && !saveSuccess
      ensures saveLoading == old(saveLoading) && userProfile == old(userProfile)
    {
      if userProfile.Some? {
        profileData := FormOf(userProfile.value);
      }
      isEditing := false;
      saveError := None;
      saveSuccess := false;
    }

    /** The error banner: the save error when it is set, else the session's
        error; nothing when neither is. */
    function Banner(): (b: Option<string>)
      reads this
      ensures b.Some? <==> Truthy(saveError) || Truthy(authError)
      ensures Truthy(saveError) ==> b == saveError
      ensures !Truthy(saveError) && Truthy(authError) ==> b == authError
    {
      if Truthy(saveError) then saveError
      else if Truthy(authError) then authError
      else None
    }

    /** Cancelling clears the save error, after which the banner shows
        the session's error if there is one and disappears otherwise. */
    lemma BannerAfterCancel()
      requires saveError == None
      ensures Banner() == (if Truthy(authError) then authError else None)
    {
    }
  }
}
