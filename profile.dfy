/**
 * The profile routes (backend/routers/profile.py): the caller's profile with its display
 * defaults, the profile update, and the upload and removal of the profile photo.
 *
 * The routes call three user operations (`get_user_by_id`, `update_user_profile` and
 * `update_profile_photo`) that backend/crud.py does not define. `HandleAsWritten` is the
 * routes as they stand: every call that reaches one of them raises, which the framework
 * answers with 500. `Handle` is the routes with those three operations defined as their
 * names and call sites say (`FindUser`, `UpdateProfile`, `SetPhoto`); the rest of the model
 * uses it.
 */
module ProfileRouter {
  import opened Wrappers
  import opened Text
  import opened Crud

  const DefaultAbout: string := "Hey there! I am using E-Chat"
  const DefaultTheme: string := "light"
  const PhotoDir: string := "/uploads/profiles/"
  const DefaultExtension: string := "jpg"
  const NotAnImage: HttpError := HttpError(400, "File must be an image")
  const UserNotFound: HttpError := HttpError(404, "User not found")
  /** What the framework answers when a route raises. */
  const InternalError: HttpError := HttpError(500, "Internal Server Error")

  /** Python's `s or fallback` for an optional text. */
  function OrElse(s: Option<string>, fallback: string): (r: string)
    ensures s.Some? && s.value != "" ==> r == s.value
    ensures !(s.Some? && s.value != "") ==> r == fallback
  {
    if s.Some? && s.value != "" then s.value else fallback
  }

  /** The profile as the routes return it. */
  datatype Profile = Profile(
    id: int,
    email: string,
    displayName: string,
    about: string,
    profilePhotoUrl: Option<string>,
    themePreference: string)

  /**
   * The response body for a user: a missing or empty display name shows as the part of the
   * email before the first '@', a missing or empty about as the default greeting, and a
   * missing or empty theme as "light".
   */
  function ProfileOf(u: UserRow): (r: Profile)
    ensures r.id == u.id && r.email == u.email && r.profilePhotoUrl == u.profilePhotoUrl
    ensures r.displayName == OrElse(u.displayName, BeforeFirst(u.email, '@'))
    ensures '@' in u.email && !(u.displayName.Some? && u.displayName.value != "") ==>
      StartsWith(u.email, r.displayName + "@") && '@' !in r.displayName
    ensures r.about == OrElse(u.about, DefaultAbout)
    ensures r.themePreference == OrElse(u.themePreference, DefaultTheme)
    ensures r.about != "" && r.themePreference != ""
  {
    var local := BeforeFirst(u.email, '@');
    assert '@' in u.email ==> |local| < |u.email| && u.email[..|local| + 1] == local + "@";
    Profile(u.id, u.email, OrElse(u.displayName, local), OrElse(u.about, DefaultAbout),
            u.profilePhotoUrl, OrElse(u.themePreference, DefaultTheme))
  }

  // ------------------------------------------------------------------
  // Photo names
  // ------------------------------------------------------------------

  /** The stored extension: the text after the last '.' when the name has one, else "jpg". */
  function Extension(filename: string): (r: string)
    ensures '.' !in filename ==> r == DefaultExtension
    ensures '.' in filename ==> '.' !in r && EndsWith(filename, "." + r)
  {
    if '.' in filename then
      var ext := AfterLast(filename, '.');
      assert '.' in filename ==> |ext| < |filename| && filename[|filename| - |ext| - 1..] == "." + ext;
      ext
    else DefaultExtension
  }

  /** The stored file name: the user id, '_', the upload's UUID, '.', the extension. */
  function StoredName(uid: int, uuid: string, ext: string): (name: string)
    ensures StartsWith(name, IntToString(uid) + "_")
    ensures EndsWith(name, "." + ext)
  {
    var r := IntToString(uid) + "_" + uuid + "." + ext;
    assert r == (IntToString(uid) + "_") + (uuid + "." + ext);
    assert r == (IntToString(uid) + "_" + uuid) + ("." + ext);
    r
  }

  /** The public URL of a stored photo. */
  function PhotoUrl(name: string): (r: string)
    ensures StartsWith(r, PhotoDir) && r[|PhotoDir|..] == name
  {
    PhotoDir + name
  }

  /** The extension of a stored name is what follows its last '.'. */
  lemma StoredNameExtension(uid: int, uuid: string, ext: string)
    requires '.' !in ext
    ensures AfterLast(StoredName(uid, uuid, ext), '.') == ext
  {
    var prefix := IntToString(uid) + "_" + uuid + ".";
    assert StoredName(uid, uuid, ext) == prefix + ext;
    AfterLastOfSuffix(prefix, ext, '.');
  }

  /** For one user and extension, different UUIDs give different stored names. */
  lemma StoredNameInjective(uid: int, uuid: string, uuid2: string, ext: string)
    ensures StoredName(uid, uuid, ext) == StoredName(uid, uuid2, ext) <==> uuid == uuid2
  {
    var id := IntToString(uid);
    var a, b := StoredName(uid, uuid, ext), StoredName(uid, uuid2, ext);
    if a == b {
      var n := |id| + 1;
      assert |uuid| == |uuid2| by {
        assert |a| == n + |uuid| + 1 + |ext|;
        assert |b| == n + |uuid2| + 1 + |ext|;
      }
      assert a[n..n + |uuid|] == uuid;
      assert b[n..n + |uuid2|] == uuid2;
    }
  }

  /** The text after the last `c` of `p + s`, where `p` ends in `c` and `s` has none, is `s`. */
  lemma AfterLastOfSuffix(p: string, s: string, c: char)
    requires p != [] && p[|p| - 1] == c && c !in s
    ensures AfterLast(p + s, c) == s
  {
    var u := p + s;
    var r := AfterLast(u, c);
    assert forall k | |u| - |r| <= k < |u| :: u[k] == r[k - (|u| - |r|)];
    assert forall k | |p| <= k < |u| :: u[k] == s[k - |p|];
    assert u[|p| - 1] == c;
    assert |r| == |s|;
    assert u[|u| - |s|..] == s;
  }

  // ------------------------------------------------------------------
  // The user operations the routes call
  // ------------------------------------------------------------------

  /** The user with the given id, the first in table order. */
  function FindUser(users: seq<UserRow>, id: int): (r: Option<UserRow>)
    ensures r.Some? ==> r.value in users && r.value.id == id
    ensures r.None? <==> forall u :: u in users ==> u.id != id
  {
    if users == [] then None
    else if users[0].id == id then Some(users[0])
    else FindUser(users[1..], id)
  }

  /** A profile update: a field that is `None` is left as it is. */
  datatype ProfileUpdate = ProfileUpdate(displayName: Option<string>, about: Option<string>, themePreference: Option<string>)

  function Patch(current: Option<string>, given: Option<string>): Option<string>
  {
    if given.Some? then given else current
  }

  /** The rows of user `id` with the given fields set; every other row as it was. */
  function UpdateProfile(users: seq<UserRow>, id: int, p: ProfileUpdate): (r: seq<UserRow>)
    ensures |r| == |users|
    ensures forall i :: 0 <= i < |users| && users[i].id != id ==> r[i] == users[i]
    ensures forall i :: 0 <= i < |users| && users[i].id == id ==>
      r[i] == users[i].(displayName := Patch(users[i].displayName, p.displayName),
                        about := Patch(users[i].about, p.about),
                        themePreference := Patch(users[i].themePreference, p.themePreference))
  {
    seq(|users|, i requires 0 <= i < |users| =>
      if users[i].id == id then
        users[i].(displayName := Patch(users[i].displayName, p.displayName),
                  about := Patch(users[i].about, p.about),
                  themePreference := Patch(users[i].themePreference, p.themePreference))
      else users[i])
  }

  /** The rows of user `id` with the photo URL set (to `None` to remove it); every other row as it was. */
  function SetPhoto(users: seq<UserRow>, id: int, url: Option<string>): (r: seq<UserRow>)
    ensures |r| == |users|
    ensures forall i :: 0 <= i < |users| ==>
      r[i] == if users[i].id == id then users[i].(profilePhotoUrl := url) else users[i]
  {
    seq(|users|, i requires 0 <= i < |users| =>
      if users[i].id == id then users[i].(profilePhotoUrl := url) else users[i])
  }

  /** The user found after an update is the user found before, with the update applied. */
  lemma {:induction false} FindAfterUpdate(users: seq<UserRow>, id: int, p: ProfileUpdate)
    ensures FindUser(UpdateProfile(users, id, p), id).Some? == FindUser(users, id).Some?
    ensures FindUser(users, id).Some? ==>
      var u := FindUser(users, id).value;
      FindUser(UpdateProfile(users, id, p), id) ==
        Some(u.(displayName := Patch(u.displayName, p.displayName),
                about := Patch(u.about, p.about),
                themePreference := Patch(u.themePreference, p.themePreference)))
  {
    if users != [] {
      var r := UpdateProfile(users, id, p);
      assert r[1..] == UpdateProfile(users[1..], id, p);
      FindAfterUpdate(users[1..], id, p);
    }
  }

  /** The user found after a photo change carries the new URL. */
  lemma {:induction false} FindAfterSetPhoto(users: seq<UserRow>, id: int, url: Option<string>)
    ensures FindUser(SetPhoto(users, id, url), id).Some? == FindUser(users, id).Some?
    ensures FindUser(users, id).Some? ==>
      FindUser(SetPhoto(users, id, url), id) == Some(FindUser(users, id).value.(profilePhotoUrl := url))
  {
    if users != [] {
      var r := SetPhoto(users, id, url);
      assert r[1..] == SetPhoto(users[1..], id, url);
      FindAfterSetPhoto(users[1..], id, url);
    }
  }

  // ------------------------------------------------------------------
  // The routes
  // ------------------------------------------------------------------

  /** An uploaded file: its name and its declared content type. */
  datatype Upload = Upload(filename: string, contentType: Option<string>)

  /** A request to the profile routes; a photo upload comes with the UUID drawn for it. */
  datatype Request =
    | GetMe
    | PutMe(update: ProfileUpdate)
    | PostPhoto(file: Upload, uuid: string)
    | DeletePhoto

  datatype Reply =
    | ProfileReply(profile: Profile)
    | PhotoReply(url: string, message: string)
    | MessageReply(message: string)

  /** The content-type test: only a declared type starting with "image/" passes. */
  function IsImageType(contentType: Option<string>): (b: bool)
    ensures contentType.None? ==> !b
    ensures b <==> contentType.Some? && "image/" <= contentType.value
  {
    contentType.Some? && StartsWith(contentType.value, "image/")
  }

  /**
   * The routes as written: a photo that is not declared an image is refused with 400
   * before anything else, and every other request reaches an undefined user operation and
   * fails with 500, changing no row.
   */
  function HandleAsWritten(users: seq<UserRow>, uid: int, req: Request): (r: (seq<UserRow>, Result<Reply, HttpError>))
    ensures r.0 == users
    ensures req.PostPhoto? && !IsImageType(req.file.contentType) ==> r.1 == Err(NotAnImage)
    ensures !(req.PostPhoto? && !IsImageType(req.file.contentType)) ==> r.1 == Err(InternalError)
  {
    match req
    case PostPhoto(file, _) =>
      if !IsImageType(file.contentType) then (users, Err(NotAnImage)) else (users, Err(InternalError))
    case _ => (users, Err(InternalError))
  }

  /**
   * The routes with the user operations defined: the caller's profile (404 when the caller
   * has no row); the update applied and the updated profile returned; an image stored under
   * a fresh name with its URL recorded; the photo URL removed.
   */
  function Handle(users: seq<UserRow>, uid: int, req: Request): (r: (seq<UserRow>, Result<Reply, HttpError>))
    ensures req.GetMe? ==> r.0 == users
    ensures req.GetMe? && FindUser(users, uid).None? ==> r.1 == Err(UserNotFound)
    ensures req.GetMe? && FindUser(users, uid).Some? ==> r.1 == Ok(ProfileReply(ProfileOf(FindUser(users, uid).value)))
    ensures req.PutMe? ==> r.0 == UpdateProfile(users, uid, req.update)
    ensures req.PutMe? && FindUser(UpdateProfile(users, uid, req.update), uid).Some? ==>
      r.1 == Ok(ProfileReply(ProfileOf(FindUser(UpdateProfile(users, uid, req.update), uid).value)))
    ensures req.PutMe? && FindUser(UpdateProfile(users, uid, req.update), uid).None? ==> r.1 == Err(InternalError)
    ensures req.PostPhoto? && !IsImageType(req.file.contentType) ==> r == (users, Err(NotAnImage))
    ensures req.PostPhoto? && IsImageType(req.file.contentType) ==>
      var url := PhotoUrl(StoredName(uid, req.uuid, Extension(req.file.filename)));
      r == (SetPhoto(users, uid, Some(url)), Ok(PhotoReply(url, "Profile photo updated successfully")))
    ensures req.DeletePhoto? ==> r == (SetPhoto(users, uid, None), Ok(MessageReply("Profile photo deleted successfully")))
  {
    match req
    case GetMe =>
      var u := FindUser(users, uid);
      if u.None? then (users, Err(UserNotFound)) else (users, Ok(ProfileReply(ProfileOf(u.value))))
    case PutMe(p) =>
      var updated := UpdateProfile(users, uid, p);
      var u := FindUser(updated, uid);
      if u.None? then (updated, Err(InternalError)) else (updated, Ok(ProfileReply(ProfileOf(u.value))))
    case PostPhoto(file, uuid) =>
      if !IsImageType(file.contentType) then (users, Err(NotAnImage))
      else
        var url := PhotoUrl(StoredName(uid, uuid, Extension(file.filename)));
        (SetPhoto(users, uid, Some(url)), Ok(PhotoReply(url, "Profile photo updated successfully")))
    case DeletePhoto =>
      (SetPhoto(users, uid, None), Ok(MessageReply("Profile photo deleted successfully")))
  }

  /** As written, the caller's own profile cannot be read even when the caller's row exists. */
  lemma ProfileReadFailsAsWritten(u: UserRow)
    ensures FindUser([u], u.id).Some?
    ensures HandleAsWritten([u], u.id, GetMe).1 == Err(InternalError)
    ensures Handle([u], u.id, GetMe).1 == Ok(ProfileReply(ProfileOf(u)))
  {
  }

  /** With the operations defined, the profile read after an update shows the update. */
  lemma ReadAfterUpdate(users: seq<UserRow>, uid: int, p: ProfileUpdate)
    requires FindUser(users, uid).Some?
    ensures var after := Handle(users, uid, PutMe(p)).0;
      var u := FindUser(users, uid).value;
      Handle(after, uid, GetMe).1 == Ok(ProfileReply(ProfileOf(
        u.(displayName := Patch(u.displayName, p.displayName),
           about := Patch(u.about, p.about),
           themePreference := Patch(u.themePreference, p.themePreference)))))
  {
    FindAfterUpdate(users, uid, p);
  }

  /** After an upload the profile shows the new photo's URL; after a removal it shows none. */
  lemma ReadAfterPhotoChange(users: seq<UserRow>, uid: int, file: Upload, uuid: string)
    requires FindUser(users, uid).Some? && IsImageType(file.contentType)
    ensures var r := Handle(users, uid, PostPhoto(file, uuid));
      && r.1.Ok? && r.1.value.PhotoReply?
      && Handle(r.0, uid, GetMe).1.Ok?
      && Handle(r.0, uid, GetMe).1.value.profile.profilePhotoUrl == Some(r.1.value.url)
    ensures var after := Handle(users, uid, DeletePhoto).0;
      Handle(after, uid, GetMe).1.Ok? && Handle(after, uid, GetMe).1.value.profile.profilePhotoUrl == None
  {
    var url := PhotoUrl(StoredName(uid, uuid, Extension(file.filename)));
    var r := Handle(users, uid, PostPhoto(file, uuid));
    assert r == (SetPhoto(users, uid, Some(url)), Ok(PhotoReply(url, "Profile photo updated successfully")));
    FindAfterSetPhoto(users, uid, Some(url));
    var after := Handle(users, uid, DeletePhoto).0;
    assert after == SetPhoto(users, uid, None);
    FindAfterSetPhoto(users, uid, None);
  }
}
