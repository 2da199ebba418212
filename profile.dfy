/** The profile page (src/app/profile/page.tsx): edits the name, bio and
    photo of the stored user. */
module Profile {
  import opened Wrappers
  import opened Text
  import opened Users

  const NotLoggedInMessage: string := "Connecte-toi d’abord."
  const UpdatedMessage: string := "Profil mis à jour ✅"

  /** The record `onSave` stores: the loaded user with the trimmed name
      (the loaded name when the input is blank), the trimmed bio and the
      current photo; id and email are kept. */
  function Updated(u: UserProfile, name: string, bio: string, photoUrl: Option<string>): (r: UserProfile)
    ensures r.id == u.id && r.email == u.email
    ensures r.name == (if IsBlank(name) then u.name else Trim(name))
    ensures u.name != [] ==> r.name != []
    ensures r.bio == Some(Trim(bio))
    ensures Trim(r.bio.value) == r.bio.value
    ensures r.photoUrl == photoUrl
  {
    TrimIdempotent(bio);
    UserProfile(u.id, if Trim(name) != [] then Trim(name) else u.name, u.email, Some(Trim(bio)), photoUrl)
  }

  /** Saving the loaded values again changes nothing but a bio with
      surrounding blanks, which becomes trimmed. */
  lemma SaveUnchangedKeepsUser(u: UserProfile)
    requires u.name == Trim(u.name) && u.bio.Some? && u.bio.value == Trim(u.bio.value)
    ensures Updated(u, u.name, u.bio.value, u.photoUrl) == u
  {
  }

  /** The page state: the user loaded at mount and the form fields. */
  class ProfilePage {
    var user: Option<UserProfile>
    var name: string
    var bio: string
    var photoUrl: Option<string>
    var toast: Option<string>

    constructor ()
      ensures user == None && name == "" && bio == "" && photoUrl == None && toast == None
    {
      user := None;
      name := "";
      bio := "";
      photoUrl := None;
      toast := None;
    }

    /** The mount effect: load the stored user, defaulting the fields. */
    method Load(slot: UserSlot)
      modifies this`user, this`name, this`bio, this`photoUrl
      ensures user == slot.user
      ensures name == (if slot.user.Some? then slot.user.value.name else "")
      ensures bio == (if slot.user.Some? then slot.user.value.bio.GetOr("") else "")
      ensures photoUrl == (if slot.user.Some? then slot.user.value.photoUrl else None)
    {
      user := slot.user;
      match slot.user
      case None =>
        name := "";
        bio := "";
        photoUrl := None;
      case Some(u) =>
        name := u.name;
        bio := u.bio.GetOr("");
        photoUrl := u.photoUrl;
    }

    /** `onPhotoChange`: a chosen file becomes the (object URL of the)
        photo; no file changes nothing. */
    method OnPhotoChange(file: Option<string>)
      modifies this`photoUrl
      ensures photoUrl == (if file.Some? then file else old(photoUrl))
    {
      if file.Some? {
        photoUrl := file;
      }
    }

    /** `onSave`: without a loaded user nothing is stored. The page's own
        `user` is not refreshed, so a later save starts again from the
        record loaded at mount. */
    method OnSave(slot: UserSlot) returns (saved: bool)
      modifies slot, this`toast
      ensures saved <==> user.Some?
      ensures saved ==> slot.user == Some(Updated(user.value, name, bio, photoUrl))
      ensures saved ==> toast == Some(UpdatedMessage)
      ensures !saved ==> slot.user == old(slot.user) && toast == Some(NotLoggedInMessage)
    {
      if user.None? {
        toast := Some(NotLoggedInMessage);
        return false;
      }
      var u := user.value;
      slot.SetUser(Updated(u, name, bio, photoUrl));
      toast := Some(UpdatedMessage);
      saved := true;
    }
  }
}
