/**
 * Where the frames of a motion recording come from: the storage family named by the
 * first segment of a recording-folder path (`pose_data/...` or `smpl_data/...`), the
 * listing request that returns the folder's frame file names, the per-frame URLs, and
 * the loader of a single frame file.
 *
 * A folder path is `family/userId/sessionId/folder`; segments after the fourth are
 * ignored. The backend's responses are inputs of the model.
 */
module FrameSource {
  import opened Wrappers
  import opened Text

  const SmplVertexCount: nat := 6890
  const FloatsPerVertex: nat := 3
  /** The length of a frame the mesh rig expects (6890 vertices of three floats). */
  const ExpectedFloats: nat := SmplVertexCount * FloatsPerVertex

  /** A decoded frame: the vertex coordinates, of whatever length the file had. */
  type Frame = seq<real>

  datatype StorageType = PoseData | SmplData

  /** The storage family of a folder path: a prefix of `pose_data/` or `smpl_data/`, nothing otherwise. */
  function DetectStorageType(folderPath: string): (r: Option<StorageType>)
    ensures r == Some(PoseData) <==> StartsWith(folderPath, "pose_data/")
    ensures r == Some(SmplData) <==> StartsWith(folderPath, "smpl_data/")
    ensures r == None <==> !StartsWith(folderPath, "pose_data/") && !StartsWith(folderPath, "smpl_data/")
    ensures folderPath == "" ==> r == None
  {
    if folderPath == "" then None
    else if StartsWith(folderPath, "pose_data/") then Some(PoseData)
    else if StartsWith(folderPath, "smpl_data/") then Some(SmplData)
    else None
  }

  /** The `/`-separated segments of a folder path. */
  function Segments(folderPath: string): seq<string> {
    Split(folderPath, '/')
  }

  /** The storage family depends only on the first segment of the path. */
  lemma DetectStorageTypeByFirstSegment(folderPath: string)
    ensures DetectStorageType(folderPath) == Some(PoseData) <==>
              |Segments(folderPath)| >= 2 && Segments(folderPath)[0] == "pose_data"
    ensures DetectStorageType(folderPath) == Some(SmplData) <==>
              |Segments(folderPath)| >= 2 && Segments(folderPath)[0] == "smpl_data"
  {
    assert "pose_data/" == "pose_data" + ['/'];
    assert "smpl_data/" == "smpl_data" + ['/'];
    StartsWithTagIffFirstPart(folderPath, "pose_data", '/');
    StartsWithTagIffFirstPart(folderPath, "smpl_data", '/');
  }

  /** The route of a frame file under each family; every other prefix uses the legacy route. */
  function FrameRoute(storage: Option<StorageType>): string {
    if storage == Some(PoseData) then "/trainer-app/smpl/pose/frame/" else "/trainer-app/smpl/frame/"
  }

  /** The route of a folder's listing under each family. */
  function ListingRoute(storage: StorageType): string {
    match storage
    case PoseData => "/trainer-app/smpl/pose/frames/"
    case SmplData => "/trainer-app/smpl/frames/"
  }

  /** `${route}${userId}/${sessionId}/${folder}` followed by `/${filename}` for a frame. */
  function FolderTail(userId: string, sessionId: string, folder: string): string {
    userId + "/" + sessionId + "/" + folder
  }

  /** The folder's URL: the API base, the family's frame route and the user, session and folder segments. */
  function FolderUrl(folderPath: string, apiBase: string): string
    requires |Segments(folderPath)| >= 4
  {
    var parts := Segments(folderPath);
    apiBase + FrameRoute(DetectStorageType(folderPath)) + FolderTail(parts[1], parts[2], parts[3])
  }

  /** `buildFrameUrls`: one URL per file name, in order, or none for a malformed request. */
  function BuildFrameUrls(folderPath: string, filenames: seq<string>, apiBase: string): (r: seq<string>)
    ensures folderPath == "" || filenames == [] || |Segments(folderPath)| < 4 ==> r == []
    ensures !(folderPath == "" || filenames == [] || |Segments(folderPath)| < 4) ==>
              |r| == |filenames| &&
              forall i :: 0 <= i < |r| ==> r[i] == FolderUrl(folderPath, apiBase) + "/" + filenames[i]
  {
    if folderPath == "" || filenames == [] || |Segments(folderPath)| < 4 then []
    else
      var prefix := FolderUrl(folderPath, apiBase) + "/";
      seq(|filenames|, i requires 0 <= i < |filenames| => prefix + filenames[i])
  }

  predicate EndsWith(s: string, suffix: string) {
    |suffix| <= |s| && s[|s| - |suffix|..] == suffix
  }

  /** Each URL ends in `/` and its own file name. */
  lemma BuildFrameUrlsEndInFilename(folderPath: string, filenames: seq<string>, apiBase: string, i: nat)
    requires i < |BuildFrameUrls(folderPath, filenames, apiBase)|
    ensures i < |filenames|
    ensures EndsWith(BuildFrameUrls(folderPath, filenames, apiBase)[i], "/" + filenames[i])
  {
    EndsWithSlashName(FolderUrl(folderPath, apiBase), filenames[i]);
  }

  lemma EndsWithSlashName(head: string, name: string)
    ensures EndsWith(head + "/" + name, "/" + name)
  {
    assert (head + "/" + name)[|head|..] == "/" + name;
  }

  /** The pose template is used exactly for `pose_data/` paths; any other prefix falls back to the legacy one. */
  lemma BuildFrameUrlsTemplate(folderPath: string, filenames: seq<string>, apiBase: string)
    ensures FrameRoute(DetectStorageType(folderPath)) == "/trainer-app/smpl/pose/frame/" <==>
              StartsWith(folderPath, "pose_data/")
    ensures !StartsWith(folderPath, "pose_data/") ==>
              FrameRoute(DetectStorageType(folderPath)) == "/trainer-app/smpl/frame/"
  {
    assert "/trainer-app/smpl/frame/" != "/trainer-app/smpl/pose/frame/" by {
      assert "/trainer-app/smpl/frame/"[18] != "/trainer-app/smpl/pose/frame/"[18];
    }
  }

  /** Two paths that agree on their first four segments yield the same URLs: later segments are ignored. */
  lemma BuildFrameUrlsIgnoresLaterSegments(p: string, q: string, filenames: seq<string>, apiBase: string)
    requires |Segments(p)| >= 4 && |Segments(q)| >= 4
    requires Segments(p)[..4] == Segments(q)[..4]
    ensures BuildFrameUrls(p, filenames, apiBase) == BuildFrameUrls(q, filenames, apiBase)
  {
    assert Segments(p)[0] == Segments(p)[..4][0] && Segments(q)[0] == Segments(q)[..4][0];
    assert Segments(p)[1] == Segments(q)[1] && Segments(p)[2] == Segments(q)[2] && Segments(p)[3] == Segments(q)[3] by {
      assert Segments(p)[1] == Segments(p)[..4][1] && Segments(q)[1] == Segments(q)[..4][1];
      assert Segments(p)[2] == Segments(p)[..4][2] && Segments(q)[2] == Segments(q)[..4][2];
      assert Segments(p)[3] == Segments(p)[..4][3] && Segments(q)[3] == Segments(q)[..4][3];
    }
    DetectStorageTypeByFirstSegment(p);
    DetectStorageTypeByFirstSegment(q);
    assert DetectStorageType(p) == DetectStorageType(q);
    assert p != "" && q != "" by {
      assert Segments("") == [""];
    }
  }

  lemma {:induction false} SplitAfterFreeHead(a: string, rest: string, sep: char)
    requires sep !in a
    ensures Split(a + [sep] + rest, sep) == [a] + Split(rest, sep)
  {
    var s := a + [sep] + rest;
    assert s[|a|] == sep;
    assert forall k :: 0 <= k < |a| ==> s[k] == a[k];
    assert IndexOf(s, sep) == |a|;
    assert s[..|a|] == a && s[|a| + 1..] == rest;
  }

  lemma SplitWithoutSeparator(a: string, sep: char)
    requires sep !in a
    ensures Split(a, sep) == [a]
  {
  }

  /** Four separator-free fields joined by `/` split back into those four fields. */
  lemma SplitFourFields(a: string, b: string, c: string, d: string)
    requires '/' !in a && '/' !in b && '/' !in c && '/' !in d
    ensures Split(a + "/" + b + "/" + c + "/" + d, '/') == [a, b, c, d]
  {
    var cd := c + ['/'] + d;
    var bcd := b + ['/'] + cd;
    var abcd := a + ['/'] + bcd;
    SplitWithoutSeparator(d, '/');
    SplitAfterFreeHead(c, d, '/');
    SplitAfterFreeHead(b, cd, '/');
    SplitAfterFreeHead(a, bcd, '/');
    PrependFour(a, b, c, d);
    JoinedFields(a, b, c, d);
  }

  lemma PrependFour<T>(a: T, b: T, c: T, d: T)
    ensures [a] + ([b] + ([c] + [d])) == [a, b, c, d]
  {
  }

  lemma JoinedFields(a: string, b: string, c: string, d: string)
    ensures a + "/" + b + "/" + c + "/" + d == a + ['/'] + (b + ['/'] + (c + ['/'] + d))
  {
  }

  /**
   * Reading a frame URL back: after the route, its `/`-segments are exactly the user,
   * session and folder segments of the path and the file name.
   */
  lemma FrameUrlFields(folderPath: string, filenames: seq<string>, apiBase: string, i: nat)
    requires i < |BuildFrameUrls(folderPath, filenames, apiBase)|
    requires '/' !in filenames[i]
    ensures var u := BuildFrameUrls(folderPath, filenames, apiBase)[i];
            var head := apiBase + FrameRoute(DetectStorageType(folderPath));
            StartsWith(u, head) &&
            Split(u[|head|..], '/') == Segments(folderPath)[1..4] + [filenames[i]]
  {
    var parts := Segments(folderPath);
    SplitPartsSeparatorFree(folderPath, '/');
    assert '/' !in parts[1] && '/' !in parts[2] && '/' !in parts[3];
    var head := apiBase + FrameRoute(DetectStorageType(folderPath));
    FieldsAfterHead(head, parts[1], parts[2], parts[3], filenames[i]);
    MiddleThreeThen(parts, filenames[i]);
  }

  lemma MiddleThreeThen<T>(xs: seq<T>, x: T)
    requires |xs| >= 4
    ensures xs[1..4] + [x] == [xs[1], xs[2], xs[3], x]
  {
  }

  /** After the head, a frame URL splits into the three folder fields and the file name. */
  lemma FieldsAfterHead(head: string, a: string, b: string, c: string, f: string)
    requires '/' !in a && '/' !in b && '/' !in c && '/' !in f
    ensures var u := head + FolderTail(a, b, c) + "/" + f;
            StartsWith(u, head) && Split(u[|head|..], '/') == [a, b, c, f]
  {
    var u := head + FolderTail(a, b, c) + "/" + f;
    var tail := a + "/" + b + "/" + c + "/" + f;
    assert u == head + tail;
    assert u[..|head|] == head && u[|head|..] == tail;
    SplitFourFields(a, b, c, f);
  }

  /** `usePoseFrameUrls`: its own guard on an empty listing adds nothing to `buildFrameUrls`. */
  function PoseFrameUrls(folderPath: string, filenames: seq<string>, apiBase: string): (r: seq<string>)
    ensures r == BuildFrameUrls(folderPath, filenames, apiBase)
    ensures |r| <= |filenames|
  {
    if |filenames| > 0 then BuildFrameUrls(folderPath, filenames, apiBase) else []
  }

  /** The listing request's outcome, as the hook sees it. */
  datatype ListingResponse =
    | ListingHttpError(status: int, body: string)          // `!response.ok`: status and body text
    | ListingThrown(message: string)                       // network failure or unreadable body
    | Listing(success: bool, files: Option<seq<string>>)   // parsed body; `files` None when absent or not an array

  /** The error text for a path with fewer than four segments. */
  function MalformedPathError(folderPath: string): string {
    "Invalid folder path format: " + folderPath
  }

  function UnsupportedPrefixError(prefix: string): string {
    "Unsupported storage prefix: " + prefix + ". Expected 'smpl_data' or 'pose_data'"
  }

  function ListingHttpErrorText(status: int, body: string): string {
    "Failed to fetch filenames: " + IntToString(status) + " - " + body
  }

  /** `useFrameFilenames`: the file names of the selected folder and the state of their request. */
  class FrameFilenames {
    var filenames: seq<string>
    var loading: bool
    var error: Option<string>
    var storageType: Option<StorageType>

    constructor ()
      ensures filenames == [] && !loading && error == None && storageType == None
    {
      filenames, loading, error, storageType := [], false, None, None;
    }

    /**
     * The effect run when the folder path changes, up to the request it sends. An empty
     * path resets everything; a path with fewer than four segments or an unknown family
     * ends with an error and no request; otherwise the names are cleared, `loading` is
     * set and the family's listing URL is requested.
     */
    method Begin(folderPath: string, apiBase: string) returns (request: Option<string>)
      modifies this
      ensures folderPath == "" ==>
                request == None && filenames == [] && !loading && error == None && storageType == None
      ensures folderPath != "" && |Segments(folderPath)| < 4 ==>
                request == None && filenames == [] && !loading &&
                error == Some(MalformedPathError(folderPath)) && storageType == old(storageType)
      ensures folderPath != "" && |Segments(folderPath)| >= 4 && DetectStorageType(folderPath) == None ==>
                request == None && filenames == [] && !loading &&
                error == Some(UnsupportedPrefixError(Segments(folderPath)[0])) && storageType == None
      ensures folderPath != "" && |Segments(folderPath)| >= 4 && DetectStorageType(folderPath).Some? ==>
                var parts := Segments(folderPath);
                request == Some(apiBase + ListingRoute(DetectStorageType(folderPath).value) +
                                FolderTail(parts[1], parts[2], parts[3])) &&
                filenames == [] && loading && error == None && storageType == DetectStorageType(folderPath)
    {
      if folderPath == "" {
        filenames, loading, error, storageType := [], false, None, None;
        return None;
      }
      loading, error, filenames := true, None, [];
      var parts := Segments(folderPath);
      if |parts| < 4 {
        error, filenames, loading := Some(MalformedPathError(folderPath)), [], false;
        return None;
      }
      var detected := DetectStorageType(folderPath);
      storageType := detected;
      match detected {
        case Some(t) =>
          request := Some(apiBase + ListingRoute(t) + FolderTail(parts[1], parts[2], parts[3]));
        case None =>
          error, filenames, loading := Some(UnsupportedPrefixError(parts[0])), [], false;
          request := None;
      }
    }

    /**
     * The response to the listing request arrives. A non-ok status becomes an error with
     * the status and body; a failed or unsuccessful listing leaves no names; `loading`
     * always ends false. No check that the response belongs to the current folder.
     */
    method Complete(response: ListingResponse)
      modifies this
      ensures !loading && storageType == old(storageType)
      ensures response.ListingHttpError? ==>
                filenames == [] && error == Some(ListingHttpErrorText(response.status, response.body))
      ensures response.ListingThrown? ==> filenames == [] && error == Some(response.message)
      ensures response.Listing? ==>
                error == old(error) &&
                filenames == (if response.success && response.files.Some? then response.files.value else [])
    {
      match response {
        case ListingHttpError(status, body) =>
          error, filenames := Some(ListingHttpErrorText(status, body)), [];
        case ListingThrown(message) =>
          error, filenames := Some(message), [];
        case Listing(success, files) =>
          if success && files.Some? {
            filenames := files.value;
          } else {
            filenames := [];
          }
      }
      loading := false;
    }
  }

  /** A full listing round: no request for a malformed path, and the listed names on success. */
  method ListFrameFilenames(folderPath: string, apiBase: string, response: ListingResponse)
    returns (filenames: seq<string>, error: Option<string>, requested: bool)
    ensures !requested <==> folderPath == "" || |Segments(folderPath)| < 4 || DetectStorageType(folderPath) == None
    ensures !requested ==> filenames == []
    ensures folderPath != "" && |Segments(folderPath)| < 4 ==> error == Some(MalformedPathError(folderPath))
    ensures requested && response.Listing? && response.success && response.files.Some? ==>
              filenames == response.files.value && error == None
    ensures requested && response.Listing? && !(response.success && response.files.Some?) ==>
              filenames == [] && error == None
  {
    var hook := new FrameFilenames();
    var request := hook.Begin(folderPath, apiBase);
    requested := request.Some?;
    if requested {
      hook.Complete(response);
    }
    filenames, error := hook.filenames, hook.error;
  }

  /** The single-frame fetch outcome. */
  datatype FrameResponse =
    | FrameOk(data: Frame)                                  // body decoded as float32 values
    | FrameHttpError(status: int, statusText: string)       // `!response.ok`
    | FrameAborted                                          // the request was superseded
    | FrameFailed(message: string)                          // any other thrown error

  /** `useSmplMeshLoader`: one frame file, with its loading and error state. */
  class MeshLoader {
    var vertices: Option<Frame>
    var loading: bool
    var error: Option<string>

    constructor ()
      ensures vertices == None && !loading && error == None
    {
      vertices, loading, error := None, false, None;
    }

    /** The effect when the URL changes: an empty URL clears everything, otherwise loading starts. */
    method Begin(binUrl: string)
      modifies this
      ensures binUrl == "" ==> vertices == None && !loading && error == None
      ensures binUrl != "" ==> vertices == old(vertices) && loading && error == None
    {
      if binUrl == "" {
        vertices, loading, error := None, false, None;
      } else {
        loading, error := true, None;
      }
    }

    /**
     * The fetch settles. A decoded frame is accepted whatever its length (only a warning
     * when it is not 6890 x 3); an abort is not an error and keeps the state; `loading`
     * ends false in every case.
     */
    method Complete(response: FrameResponse) returns (warned: bool)
      modifies this
      ensures !loading
      ensures warned <==> response.FrameOk? && |response.data| != ExpectedFloats
      ensures response.FrameOk? ==> vertices == Some(response.data) && error == None
      ensures response.FrameHttpError? ==>
                vertices == None &&
                error == Some("Failed to load mesh: " + IntToString(response.status) + " " + response.statusText)
      ensures response.FrameAborted? ==> vertices == old(vertices) && error == old(error)
      ensures response.FrameFailed? ==>
                vertices == None &&
                error == Some(if response.message == "" then "Failed to load mesh" else response.message)
    {
      warned := false;
      match response {
        case FrameOk(data) =>
          warned := |data| != ExpectedFloats;
          vertices, error := Some(data), None;
        case FrameHttpError(status, statusText) =>
          error := Some("Failed to load mesh: " + IntToString(status) + " " + statusText);
          vertices := None;
        case FrameAborted =>
        case FrameFailed(message) =>
          error := Some(if message == "" then "Failed to load mesh" else message);
          vertices := None;
      }
      loading := false;
    }
  }
}
