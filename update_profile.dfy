/**
 * Profile picture upload: the image's file type is taken from the text after
 * the last `.` of its URI, and the image picker's outcome decides which URI,
 * if any, is handed back.
 */
module UpdateProfile {
  import opened Wrappers

  const UploadPath := "/user/dispatcher/updateProfileImage"
  const ImageFieldName := "user_profile_image"

  /** `s.split(sep)`: the pieces between the separators, so one more piece than
      there are separators. Only the last piece matters here: it is the suffix
      after the last separator, or all of `s` when there is none. */
  function Split(s: string, sep: char): (parts: seq<string>)
    ensures |parts| >= 1
    ensures |parts| == 1 <==> forall k :: 0 <= k < |s| ==> s[k] != sep
    ensures |parts| == 1 ==> parts[0] == s
  {
    if s == [] then [""]
    else
      var init, c := s[..|s| - 1], s[|s| - 1];
      var parts := Split(init, sep);
      var n := |parts|;
      if c == sep then parts + [""]
      else
        assert n == 1 ==> s == init + [c];
        parts[..n - 1] + [parts[n - 1] + [c]]
  }

  /** The last piece is the suffix after the last separator: it has no separator
      and is preceded by one, or it is all of `s`. */
  lemma {:induction false} SplitLast(s: string, sep: char)
    ensures var parts := Split(s, sep); var last := parts[|parts| - 1];
            && |last| <= |s| && s[|s| - |last|..] == last
            && (forall k :: 0 <= k < |last| ==> last[k] != sep)
            && (|last| < |s| ==> s[|s| - |last| - 1] == sep)
  {
    if s != [] {
      var init, c := s[..|s| - 1], s[|s| - 1];
      SplitLast(init, sep);
      var parts := Split(init, sep);
      var last := parts[|parts| - 1];
      if c != sep {
        var last' := last + [c];
        assert Split(s, sep)[|Split(s, sep)| - 1] == last';
        assert s[|s| - |last'|..] == init[|init| - |last|..] + [c];
        assert forall k :: 0 <= k < |last| ==> last'[k] == last[k];
      }
    }
  }

  /** `parts[parts.length - 1]` of `uri.split('.')`: the text after the last `.`
      (the whole URI when it has none), a dot-free suffix of the URI preceded by a
      dot or by nothing. */
  function FileType(uri: string): (t: string)
    ensures |t| <= |uri| && uri[|uri| - |t|..] == t
    ensures forall k :: 0 <= k < |t| ==> t[k] != '.'
    ensures |t| < |uri| ==> uri[|uri| - |t| - 1] == '.'
  {
    SplitLast(uri, '.');
    var parts := Split(uri, '.');
    parts[|parts| - 1]
  }

  /** A URI without any dot is its own file type. */
  lemma FileTypeWithoutDot(uri: string)
    requires forall k :: 0 <= k < |uri| ==> uri[k] != '.'
    ensures FileType(uri) == uri
  {
    var t := FileType(uri);
    assert |t| == |uri|;
    assert uri[|uri| - |t|..] == uri;
  }

  /** The image entry of the upload form. */
  datatype ImageFile = ImageFile(uri: string, name: string, mimeType: string)

  /** The `POST` that `updateProfileImage` sends: the path and the form fields. */
  datatype UploadRequest = UploadRequest(path: string, fields: seq<(string, ImageFile)>)

  /** The request for an image URI: the image field only when the URI is
      non-empty, named `profile_image.<type>` with type `image/<type>`; the
      request is sent either way. */
  function ProfileImageRequest(imageUri: string): (r: UploadRequest)
    ensures r.path == UploadPath
    ensures |r.fields| == 0 <==> imageUri == ""
    ensures |r.fields| <= 1
    ensures forall i :: 0 <= i < |r.fields| ==>
              && r.fields[i].0 == ImageFieldName
              && r.fields[i].1.uri == imageUri
              && r.fields[i].1.name == "profile_image." + FileType(imageUri)
              && r.fields[i].1.mimeType == "image/" + FileType(imageUri)
  {
    if imageUri == "" then UploadRequest(UploadPath, [])
    else
      var fileType := FileType(imageUri);
      UploadRequest(UploadPath, [(ImageFieldName, ImageFile(imageUri, "profile_image." + fileType, "image/" + fileType))])
  }

  /** What the image library hands back. */
  datatype PickerResult = PickerResult(canceled: bool, assets: Option<seq<string>>)

  /** The outcome of `openImagePicker`: whether the library was opened, and the
      URI that is both passed to `setProfileImage` and returned (none = null). */
  datatype PickOutcome = PickOutcome(launched: bool, selected: Option<string>)

  /** `openImagePicker`, given the permission answer and what the library returns. */
  function OpenImagePicker(permissionGranted: bool, result: PickerResult): (r: PickOutcome)
    ensures r.launched == permissionGranted
    ensures r.selected.Some? <==>
              permissionGranted && !result.canceled && result.assets.Some? && |result.assets.value| > 0
    ensures r.selected.Some? ==> r.selected.value == result.assets.value[0]
  {
    if !permissionGranted then PickOutcome(false, None)
    else if !result.canceled && result.assets.Some? && |result.assets.value| > 0 then
      PickOutcome(true, Some(result.assets.value[0]))
    else PickOutcome(true, None)
  }
}
