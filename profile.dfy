/** `ProfileSection`: editing the first user's name and picture through a draft
    (`tempUserName`, `tempProfilePicture`) that Save copies into the user and
    Cancel reloads from it, and `ProfileImage`, which picks the picture shown. */
module Profile {
  import opened Records

  /** Image bytes as stored in the `profilePicture` attribute. */
  type Data = seq<bv8>

  /** A `PhotosPickerItem`, known here only by its identifier. */
  datatype PhotoItem = PhotoItem(identifier: string)

  /** The name shown when the user has none. */
  const DefaultName := "Jan Kowalski"

  /** A `User` managed object. */
  class User {
    var name: Option<string>
    var profilePicture: Option<Data>

    constructor (name: Option<string>, profilePicture: Option<Data>)
      ensures this.name == name && this.profilePicture == profilePicture
    {
      this.name, this.profilePicture := name, profilePicture;
    }
  }

  /** What a `ProfileImage` draws. */
  datatype Picture = Photo(data: Data) | Placeholder

  /** `ProfileImage(user:isEditing:imageData:)`: while editing the draft
      `imageData` is the source, otherwise the stored picture; the
      `person.circle` placeholder is drawn when that source is absent or does not
      decode, `decodes` standing for `UIImage(data:) != nil`. */
  function ProfileImage(user: User, isEditing: bool, imageData: Option<Data>, decodes: Data -> bool): (p: Picture)
    reads user
    ensures var source := if isEditing then imageData else user.profilePicture;
      && (p.Photo? <==> source.Some? && decodes(source.value))
      && (p.Photo? ==> p.data == source.value)
  {
    var source := if isEditing then imageData else user.profilePicture;
    if source.Some? && decodes(source.value) then Photo(source.value) else Placeholder
  }

  /** While editing, the stored picture plays no part: the draft alone decides. */
  lemma EditingShowsDraft(u: User, v: User, imageData: Option<Data>, decodes: Data -> bool)
    ensures ProfileImage(u, true, imageData, decodes) == ProfileImage(v, true, imageData, decodes)
  {
  }

  /** Out of editing, the draft plays no part: the stored picture alone decides. */
  lemma ViewingShowsStored(u: User, d: Option<Data>, e: Option<Data>, decodes: Data -> bool)
    ensures ProfileImage(u, false, d, decodes) == ProfileImage(u, false, e, decodes)
  {
  }

  /** `Text(user.name ?? "Jan Kowalski")` outside editing. */
  function DisplayName(user: User): (s: string)
    reads user
    ensures user.name.Some? ==> s == user.name.value
    ensures user.name.None? ==> s == DefaultName
  {
    user.name.GetOr(DefaultName)
  }

  /** The profile section's bindings and the users it edits; only the first
      user is ever shown or changed. */
  class ProfileSection {
    const users: seq<User>
    var isEditingProfile: bool
    var tempUserName: string
    var tempProfilePicture: Option<Data>
    var selectedImage: Option<PhotoItem>
    var isShowingFullImage: bool

    /** Every field is a binding handed in by the view that shows the section. */
    constructor (users: seq<User>, isEditingProfile: bool, tempUserName: string,
                 tempProfilePicture: Option<Data>, selectedImage: Option<PhotoItem>,
                 isShowingFullImage: bool)
      ensures this.users == users && this.isEditingProfile == isEditingProfile
      ensures this.tempUserName == tempUserName && this.tempProfilePicture == tempProfilePicture
      ensures this.selectedImage == selectedImage && this.isShowingFullImage == isShowingFullImage
    {
      this.users, this.isEditingProfile := users, isEditingProfile;
      this.tempUserName, this.tempProfilePicture := tempUserName, tempProfilePicture;
      this.selectedImage, this.isShowingFullImage := selectedImage, isShowingFullImage;
    }

    /** The user Save and Cancel act on, as a set for frames. */
    function First(): set<User> {
      if users == [] then {} else {users[0]}
    }

    /** Save: the draft is copied into the first user and editing ends. With no
        user nothing happens and editing goes on. */
    method Save()
      modifies this`isEditingProfile, First()
      ensures users != [] ==>
        && users[0].name == Some(tempUserName)
        && users[0].profilePicture == tempProfilePicture
        && !isEditingProfile
      ensures users == [] ==> isEditingProfile == old(isEditingProfile)
    {
      if users != [] {
        var user := users[0];
        user.name := Some(tempUserName);
        user.profilePicture := tempProfilePicture;
        isEditingProfile := false;
      }
    }

    /** Cancel: the draft is reloaded from the first user (a missing name as the
        empty string), the picked photo is forgotten and editing ends. With no
        user nothing happens. */
    method Cancel()
      modifies this`tempUserName, this`tempProfilePicture, this`isEditingProfile, this`selectedImage
      ensures users != [] ==>
        && tempUserName == users[0].name.GetOr("")
        && tempProfilePicture == users[0].profilePicture
        && !isEditingProfile && selectedImage.None?
      ensures users == [] ==>
        && tempUserName == old(tempUserName) && tempProfilePicture == old(tempProfilePicture)
        && isEditingProfile == old(isEditingProfile) && selectedImage == old(selectedImage)
    {
      if users != [] {
        var user := users[0];
        tempUserName := user.name.GetOr("");
        tempProfilePicture := user.profilePicture;
        isEditingProfile := false;
        selectedImage := None;
      }
    }

    /** The picker's `onChange` once the photo has loaded: bytes that loaded
        become the draft picture and editing stays on; a failed load changes
        nothing. */
    method PhotoLoaded(data: Option<Data>)
      modifies this`tempProfilePicture, this`isEditingProfile
      ensures data.Some? ==> tempProfilePicture == data && isEditingProfile
      ensures data.None? ==>
        tempProfilePicture == old(tempProfilePicture) && isEditingProfile == old(isEditingProfile)
    {
      if data.Some? {
        tempProfilePicture := data;
        isEditingProfile := true;
      }
    }

    /** Tapping the picture outside editing opens it full screen. */
    method TapImage()
      modifies this`isShowingFullImage
      ensures isShowingFullImage
    {
      isShowingFullImage := true;
    }

    /** Cancel right after Save keeps the draft that was just saved: the user now
        holds it, so reloading from the user gives it back. */
    method SaveThenCancel()
      modifies this, First()
      ensures tempUserName == old(tempUserName)
      ensures tempProfilePicture == old(tempProfilePicture)
      ensures users != [] ==> users[0].name == Some(tempUserName) && !isEditingProfile
    {
      Save();
      Cancel();
    }

    /** After Save the picture shown outside editing is the draft that was
        being shown while editing. */
    method SaveKeepsPicture(decodes: Data -> bool)
      requires users != []
      modifies this`isEditingProfile, First()
      ensures ProfileImage(users[0], false, None, decodes)
           == old(ProfileImage(users[0], true, tempProfilePicture, decodes))
    {
      Save();
    }
  }
}
