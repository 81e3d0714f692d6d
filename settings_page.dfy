/**
 * The settings page (frontend/src/app/settings/page.tsx): the profile form loaded from
 * `GET /profile/me`, the checks on a picked photo, the payload of a save, the status
 * banner and the loading screen. Requests are parameters: each handler takes the
 * response it gets, or `None` when the request fails.
 */
module SettingsPage {
  import opened Wrappers
  import opened Text
  import Store
  import SocketService

  // ------------------------------------------------------------------
  // Photo checks
  // ------------------------------------------------------------------

  /** The largest photo accepted, in bytes. */
  const MaxPhotoBytes: nat := 5 * 1024 * 1024

  const PickImageMessage: string := "Please select an image file"
  const TooLargeMessage: string := "Image must be less than 5MB"
  const SavedMessage: string := "Profile updated successfully!"
  const SaveFailedMessage: string := "Failed to update profile"
  const PhotoSavedMessage: string := "Profile photo updated!"
  const PhotoFailedMessage: string := "Failed to upload photo"

  /** A picked file: its MIME type and size in bytes. */
  datatype PickedPhoto = PickedPhoto(mimeType: string, size: nat)

  datatype PhotoCheck = NoFile | Rejected(message: string) | Accepted(file: PickedPhoto)

  /**
   * The checks of `handlePhotoUpload` before the request: no file does nothing; a type
   * not starting with "image/" is refused first; then a size above 5 MiB is refused.
   */
  function CheckPhoto(file: Option<PickedPhoto>): (r: PhotoCheck)
    ensures r == NoFile <==> file.None?
    ensures r.Accepted? <==>
      file.Some? && StartsWith(file.value.mimeType, "image/") && file.value.size <= MaxPhotoBytes
    ensures r.Accepted? ==> r.file == file.value
    ensures r.Rejected? && !StartsWith(file.value.mimeType, "image/") ==> r.message == PickImageMessage
    ensures r.Rejected? && StartsWith(file.value.mimeType, "image/") ==>
      r.message == TooLargeMessage && file.value.size > MaxPhotoBytes
  {
    match file
    case None => NoFile
    case Some(f) =>
      if !StartsWith(f.mimeType, "image/") then Rejected(PickImageMessage)
      else if f.size > MaxPhotoBytes then Rejected(TooLargeMessage)
      else Accepted(f)
  }

  /** The limit is inclusive: exactly 5 MiB passes and one byte more does not. */
  lemma PhotoLimitIsInclusive(mimeType: string)
    requires StartsWith(mimeType, "image/")
    ensures CheckPhoto(Some(PickedPhoto(mimeType, 5242880))).Accepted?
    ensures CheckPhoto(Some(PickedPhoto(mimeType, 5242881))) == Rejected(TooLargeMessage)
  {
  }

  /** A file that is not an image is refused for its type, whatever its size. */
  lemma TypeCheckedFirst(mimeType: string, size: nat)
    requires !StartsWith(mimeType, "image/")
    ensures CheckPhoto(Some(PickedPhoto(mimeType, size))) == Rejected(PickImageMessage)
  {
  }

  // ------------------------------------------------------------------
  // Banner and loading screen
  // ------------------------------------------------------------------

  datatype Banner = SuccessBanner(text: string) | ErrorBanner(text: string)

  /** The status banner: none for an empty message; success styling exactly when the message contains "success". */
  function BannerFor(message: string): (r: Option<Banner>)
    ensures r.None? <==> message == ""
    ensures r.Some? ==> r.value.text == message
    ensures r.Some? ==> (r.value.SuccessBanner? <==> Contains(message, "success"))
  {
    if message == "" then None
    else if Contains(message, "success") then Some(SuccessBanner(message))
    else Some(ErrorBanner(message))
  }

  /** A message with "success" at a known place is a success. */
  lemma ContainsAt(s: string, i: nat)
    requires OccursAt(s, "success", i)
    ensures Contains(s, "success")
  {
  }

  /** A message containing "success" has an 's' in it. */
  lemma ContainsHasS(s: string)
    requires Contains(s, "success")
    ensures 's' in s
  {
    var i :| 0 <= i <= |s| && OccursAt(s, "success", i);
    assert s[i..i + 7][0] == 's';
  }

  /** A saved profile shows in success styling. */
  lemma SavedBannerIsSuccess()
    ensures BannerFor(SavedMessage) == Some(SuccessBanner(SavedMessage))
  {
    assert SavedMessage[8..15] == "updated";
    assert SavedMessage[16..23] == "success";
    ContainsAt(SavedMessage, 16);
  }

  /** A saved photo shows in error styling: its message does not contain "success". */
  lemma PhotoSavedBannerIsError()
    ensures BannerFor(PhotoSavedMessage) == Some(ErrorBanner(PhotoSavedMessage))
  {
    if Contains(PhotoSavedMessage, "success") {
      ContainsHasS(PhotoSavedMessage);
      assert false;
    }
  }

  /** The loading screen replaces the page while loading and no email is known. */
  function ShowsLoadingScreen(isLoading: bool, email: string): (b: bool)
    ensures !isLoading ==> !b
    ensures email != "" ==> !b
  {
    isLoading && email == ""
  }

  // ------------------------------------------------------------------
  // The page
  // ------------------------------------------------------------------

  /** The form's state. */
  datatype ProfileForm = ProfileForm(displayName: string, about: string, email: string, photoUrl: Option<string>)

  /** The fields of `GET /profile/me` the page reads. */
  datatype ProfileResponse = ProfileResponse(
    displayName: Option<string>,
    about: Option<string>,
    email: Option<string>,
    photoUrl: Option<string>)

  /** The body of `PUT /profile/me`: the display name and the about text, and nothing else. */
  datatype SavePayload = SavePayload(displayName: string, about: string)

  /** The fields of the save response the page reads. */
  datatype SaveResponse = SaveResponse(displayName: Option<string>, about: Option<string>)

  /** `value || ""` for an optional string. */
  function OrEmpty(s: Option<string>): (r: string)
    ensures SocketService.TruthyText(s) ==> r == s.value
    ensures !SocketService.TruthyText(s) ==> r == ""
  {
    s.GetOr("")
  }

  /** The form filled from a profile response: missing texts become empty, the photo URL is copied. */
  function FormFrom(res: ProfileResponse): (r: ProfileForm)
    ensures r.displayName == OrEmpty(res.displayName) && r.about == OrEmpty(res.about)
    ensures r.email == OrEmpty(res.email) && r.photoUrl == res.photoUrl
  {
    ProfileForm(OrEmpty(res.displayName), OrEmpty(res.about), OrEmpty(res.email), res.photoUrl)
  }

  /** The user patch after a save: the response's display name and about, and no other key. */
  function SavePatch(res: SaveResponse): (p: Store.UserPatch)
    ensures p.displayName == Store.Assign(res.displayName) && p.about == Store.Assign(res.about)
    ensures p.id.Keep? && p.email.Keep? && p.profilePhotoUrl.Keep? && p.themePreference.Keep?
  {
    Store.UserPatch(Store.Keep, Store.Keep, Store.Assign(res.displayName), Store.Assign(res.about), Store.Keep, Store.Keep)
  }

  /** The user patch after a photo upload: the new photo URL only. */
  function PhotoPatch(url: Option<string>): (p: Store.UserPatch)
    ensures p.profilePhotoUrl == Store.Assign(url)
    ensures p.id.Keep? && p.email.Keep? && p.displayName.Keep? && p.about.Keep? && p.themePreference.Keep?
  {
    Store.UserPatch(Store.Keep, Store.Keep, Store.Keep, Store.Keep, Store.Assign(url), Store.Keep)
  }

  /**
   * Once a profile with an email has been loaded, a photo upload (which sets loading on)
   * does not replace the page with the loading screen; without an email it does.
   */
  lemma LoadingScreenNeedsMissingEmail(res: ProfileResponse)
    ensures ShowsLoadingScreen(true, FormFrom(res).email) <==> !SocketService.TruthyText(res.email)
    ensures !ShowsLoadingScreen(false, FormFrom(res).email)
  {
  }

  /** A save changes only the signed-in user's display name and about; the email stays. */
  lemma SaveKeepsEmail(user: Store.User, res: SaveResponse)
    ensures var u := Store.MergeUser(Some(user), SavePatch(res)).value;
      && u.email == user.email && u.id == user.id && u.profilePhotoUrl == user.profilePhotoUrl
      && u.displayName == res.displayName && u.about == res.about
  {
  }

  class Settings {
    var profile: ProfileForm
    var isLoading: bool
    var isSaving: bool
    var message: string
    /** Message-clearing timeouts not yet fired. */
    var pendingClears: nat
    /** The bodies sent to `PUT /profile/me`, oldest first. */
    var saveRequests: seq<SavePayload>
    /** The files sent to `POST /profile/photo`, oldest first. */
    var photoRequests: seq<PickedPhoto>

    constructor ()
      ensures profile == ProfileForm("", "", "", None)
      ensures !isLoading && !isSaving && message == "" && pendingClears == 0
      ensures saveRequests == [] && photoRequests == []
    {
      profile := ProfileForm("", "", "", None);
      isLoading, isSaving, message, pendingClears := false, false, "", 0;
      saveRequests, photoRequests := [], [];
    }

    /** `fetchProfile` up to the request: loading on. */
    method FetchStarted()
      modifies this`isLoading
      ensures isLoading
    {
      isLoading := true;
    }

    /** The rest of `fetchProfile`: a response fills the form, a failure leaves it; loading goes off. */
    method FetchSettled(res: Option<ProfileResponse>)
      modifies this`profile, this`isLoading
      ensures !isLoading
      ensures profile == if res.Some? then FormFrom(res.value) else old(profile)
    {
      if res.Some? {
        profile := FormFrom(res.value);
      }
      isLoading := false;
    }

    method EditDisplayName(text: string)
      modifies this`profile
      ensures profile == old(profile).(displayName := text)
    {
      profile := profile.(displayName := text);
    }

    method EditAbout(text: string)
      modifies this`profile
      ensures profile == old(profile).(about := text)
    {
      profile := profile.(about := text);
    }

    /**
     * `handleSaveProfile`: the message is cleared and the form's display name and about are
     * sent. A response updates the signed-in user with the returned values, broadcasts them
     * with the form's photo URL and shows the saved message until a timeout clears it; a
     * failure shows the failure message. Saving ends off either way.
     */
    method SaveProfile(auth: Store.AuthStore, socket: SocketService.SocketService, res: Option<SaveResponse>)
      modifies this`message, this`pendingClears, this`saveRequests, this`isSaving, auth`user, socket`outbox
      ensures saveRequests == old(saveRequests) + [SavePayload(profile.displayName, profile.about)]
      ensures !isSaving
      ensures res.Some? ==>
        && auth.user == Store.MergeUser(old(auth.user), SavePatch(res.value))
        && socket.outbox == old(socket.outbox)
             + (if socket.IsConnected() then [SocketService.ProfileUpdatedEmit(SocketService.ProfileData(res.value.displayName, res.value.about, profile.photoUrl))] else [])
        && message == SavedMessage && pendingClears == old(pendingClears) + 1
      ensures res.None? ==>
        && auth.user == old(auth.user) && socket.outbox == old(socket.outbox)
        && message == SaveFailedMessage && pendingClears == old(pendingClears)
    {
      isSaving := true;
      message := "";
      saveRequests := saveRequests + [SavePayload(profile.displayName, profile.about)];
      if res.Some? {
        auth.UpdateUser(SavePatch(res.value));
        socket.EmitProfileUpdate(SocketService.ProfileData(res.value.displayName, res.value.about, profile.photoUrl));
        message := SavedMessage;
        pendingClears := pendingClears + 1;
      } else {
        message := SaveFailedMessage;
      }
      isSaving := false;
    }

    /**
     * `handlePhotoUpload` with the picked file and the upload's response (`None` for a
     * failure; inside, the new photo URL): a refused file only sets its message; an
     * accepted one is sent, and a response updates the form's photo, the signed-in user and
     * the contacts (with the form's name and about) and shows the photo message until a
     * timeout clears it.
     */
    method PhotoPicked(file: Option<PickedPhoto>, auth: Store.AuthStore, socket: SocketService.SocketService,
                       res: Option<Option<string>>)
      modifies this`profile, this`message, this`pendingClears, this`photoRequests, this`isLoading, auth`user, socket`outbox
      ensures var check := CheckPhoto(file);
        && (check == NoFile ==> message == old(message) && photoRequests == old(photoRequests))
        && (check.Rejected? ==> message == check.message && photoRequests == old(photoRequests))
        && (!check.Accepted? ==>
              && profile == old(profile) && auth.user == old(auth.user) && socket.outbox == old(socket.outbox)
              && pendingClears == old(pendingClears) && isLoading == old(isLoading))
        && (check.Accepted? ==> photoRequests == old(photoRequests) + [check.file] && !isLoading)
        && (check.Accepted? && res.Some? ==>
              && profile == old(profile).(photoUrl := res.value)
              && auth.user == Store.MergeUser(old(auth.user), PhotoPatch(res.value))
              && socket.outbox == old(socket.outbox)
                   + (if socket.IsConnected() then [SocketService.ProfileUpdatedEmit(SocketService.ProfileData(
                        Some(old(profile).displayName), Some(old(profile).about), res.value))] else [])
              && message == PhotoSavedMessage && pendingClears == old(pendingClears) + 1)
        && (check.Accepted? && res.None? ==>
              && profile == old(profile) && auth.user == old(auth.user) && socket.outbox == old(socket.outbox)
              && message == PhotoFailedMessage && pendingClears == old(pendingClears))
    {
      var check := CheckPhoto(file);
      match check {
        case NoFile =>
          return;
        case Rejected(m) =>
          message := m;
          return;
        case Accepted(f) =>
          isLoading := true;
          photoRequests := photoRequests + [f];
          if res.Some? {
            var url := res.value;
            var form := profile;
            profile := profile.(photoUrl := url);
            auth.UpdateUser(PhotoPatch(url));
            socket.EmitProfileUpdate(SocketService.ProfileData(Some(form.displayName), Some(form.about), url));
            message := PhotoSavedMessage;
            pendingClears := pendingClears + 1;
          } else {
            message := PhotoFailedMessage;
          }
          isLoading := false;
      }
    }

    /** A message-clearing timeout fires: the message is cleared, whichever message it is. */
    method ClearTimerFires()
      requires pendingClears > 0
      modifies this`message, this`pendingClears
      ensures message == "" && pendingClears == old(pendingClears) - 1
    {
      message := "";
      pendingClears := pendingClears - 1;
    }
  }
}
