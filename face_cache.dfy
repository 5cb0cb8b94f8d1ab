/**
 * The mesh viewer's face topology: a module-wide cache of the SMPL face indices
 * (`cachedFaceIndices` and `faceIndicesPromise`), shared by every viewer, which moves
 * from empty to loading to ready, and back to empty after a failed load so that the
 * next call retries; the per-viewer state of the face load; and the choice of what
 * the viewer shows.
 */
module FaceCache {
  import opened Wrappers
  import opened FrameSource

  const Uint32Modulus: int := 0x1_0000_0000

  /** Storing a number in a `Uint32Array`: reduced modulo 2^32. */
  function ToUint32(x: int): (r: int)
    ensures 0 <= r < Uint32Modulus
    ensures 0 <= x < Uint32Modulus ==> r == x
  {
    x % Uint32Modulus
  }

  /** `faces.flat()` stored as 32-bit unsigned indices: the faces' entries, face after face. */
  function Flatten(faces: seq<seq<int>>): (r: seq<int>)
    ensures forall k :: 0 <= k < |r| ==> 0 <= r[k] < Uint32Modulus
  {
    if faces == [] then []
    else Flatten(faces[..|faces| - 1]) + seq(|faces[|faces| - 1]|, j requires 0 <= j < |faces[|faces| - 1]| => ToUint32(faces[|faces| - 1][j]))
  }

  function TotalLength(faces: seq<seq<int>>): nat {
    if faces == [] then 0 else TotalLength(faces[..|faces| - 1]) + |faces[|faces| - 1]|
  }

  predicate AllTriangles(faces: seq<seq<int>>) {
    forall i :: 0 <= i < |faces| ==> |faces[i]| == 3
  }

  /** The flattened array is as long as all the faces together. */
  lemma {:induction false} FlattenLength(faces: seq<seq<int>>)
    ensures |Flatten(faces)| == TotalLength(faces)
  {
    if faces != [] {
      FlattenLength(faces[..|faces| - 1]);
    }
  }

  /** For triangles, entry `j` of face `i` lands at position `3i + j`: order is kept. */
  lemma {:induction false} FlattenTriangles(faces: seq<seq<int>>)
    requires AllTriangles(faces)
    ensures |Flatten(faces)| == 3 * |faces|
    ensures forall i, j :: 0 <= i < |faces| && 0 <= j < 3 ==> Flatten(faces)[3 * i + j] == ToUint32(faces[i][j])
  {
    if faces != [] {
      var init := faces[..|faces| - 1];
      assert AllTriangles(init) by {
        forall i | 0 <= i < |init| ensures |init[i]| == 3 {
          assert init[i] == faces[i];
        }
      }
      FlattenTriangles(init);
      forall i, j | 0 <= i < |faces| && 0 <= j < 3
        ensures Flatten(faces)[3 * i + j] == ToUint32(faces[i][j])
      {
        if i < |faces| - 1 {
          assert init[i] == faces[i];
          assert Flatten(faces)[3 * i + j] == Flatten(init)[3 * i + j];
        }
      }
    }
  }

  /** The face-list response, as `loadSmplFaceIndices` reads it. */
  datatype FacesResponse =
    | FacesHttpError(status: int)                            // `!response.ok`
    | FacesThrown                                            // network failure or unreadable body
    | FacesBody(success: bool, faces: Option<seq<seq<int>>>) // parsed body; `faces` None when absent

  datatype PromiseState = NoPromise | InFlight | Resolved

  /** What a call to `loadSmplFaceIndices` gets back at once. */
  datatype CallResult =
    | Cached(indices: seq<int>)   // the cached array, no request
    | Joined                      // the promise of the load already in flight
    | Started                     // a new request was sent

  /** The module-wide cache of face indices. */
  class FaceIndexCache {
    var cachedFaceIndices: Option<seq<int>>
    var faceIndicesPromise: PromiseState
    /** The number of requests sent so far and not yet settled. */
    ghost var outstanding: nat

    /** Indices are cached exactly when the promise has resolved, and at most one request is outstanding. */
    ghost predicate Valid()
      reads this
    {
      (cachedFaceIndices.Some? <==> faceIndicesPromise == Resolved) &&
      outstanding == (if faceIndicesPromise == InFlight then 1 else 0)
    }

    constructor ()
      ensures Valid() && cachedFaceIndices == None && faceIndicesPromise == NoPromise
    {
      cachedFaceIndices, faceIndicesPromise := None, NoPromise;
      outstanding := 0;
    }

    /**
     * `loadSmplFaceIndices`: the cache when set, else the load in flight, else a new
     * request. No call ever sends a second request while one is outstanding.
     */
    method Load() returns (result: CallResult)
      requires Valid()
      modifies this
      ensures Valid() && outstanding <= 1
      ensures old(cachedFaceIndices).Some? ==>
                result == Cached(old(cachedFaceIndices).value) && unchanged(this)
      ensures old(cachedFaceIndices).None? && old(faceIndicesPromise) == InFlight ==>
                result == Joined && unchanged(this)
      ensures old(cachedFaceIndices).None? && old(faceIndicesPromise) != InFlight ==>
                result == Started && faceIndicesPromise == InFlight && cachedFaceIndices == None
    {
      if cachedFaceIndices.Some? {
        return Cached(cachedFaceIndices.value);
      }
      if faceIndicesPromise == InFlight {
        return Joined;
      }
      faceIndicesPromise := InFlight;
      outstanding := outstanding + 1;
      result := Started;
    }

    /**
     * The request settles. A successful body with faces is flattened and cached; every
     * failure resolves to nothing (the promise never rejects), leaves the cache empty and
     * forgets the promise so that the next call retries.
     */
    method Settle(response: FacesResponse) returns (indices: Option<seq<int>>)
      requires Valid() && faceIndicesPromise == InFlight
      modifies this
      ensures Valid() && outstanding == 0
      ensures response.FacesBody? && response.success && response.faces.Some? ==>
                indices == Some(Flatten(response.faces.value)) &&
                cachedFaceIndices == indices && faceIndicesPromise == Resolved
      ensures !(response.FacesBody? && response.success && response.faces.Some?) ==>
                indices == None && cachedFaceIndices == None && faceIndicesPromise == NoPromise
    {
      outstanding := 0;
      if response.FacesBody? && response.success && response.faces.Some? {
        cachedFaceIndices := Some(Flatten(response.faces.value));
        faceIndicesPromise := Resolved;
        indices := cachedFaceIndices;
      } else {
        faceIndicesPromise := NoPromise;
        indices := None;
      }
    }
  }

  /** A failed load followed by a new call sends a new request: failures are retried. */
  method FailureIsRetried(response: FacesResponse) returns (first: CallResult, second: CallResult)
    requires !(response.FacesBody? && response.success && response.faces.Some?)
    ensures first == Started && second == Started
  {
    var cache := new FaceIndexCache();
    first := cache.Load();
    var _ := cache.Settle(response);
    second := cache.Load();
  }

  /** After a successful load every call gets the cached array without a request. */
  method SuccessIsCached(faces: seq<seq<int>>) returns (later: CallResult)
    ensures later == Cached(Flatten(faces))
  {
    var cache := new FaceIndexCache();
    var _ := cache.Load();
    var joined := cache.Load();
    assert joined == Joined;
    var _ := cache.Settle(FacesBody(true, Some(faces)));
    later := cache.Load();
  }

  const FacesLoadError := "Failed to load face indices"

  /** The viewer's own face-load state. */
  class Viewer {
    var faceIndices: Option<seq<int>>
    var facesLoading: bool
    var facesError: Option<string>

    constructor ()
      ensures faceIndices == None && !facesLoading && facesError == None
    {
      faceIndices, facesLoading, facesError := None, false, None;
    }

    /**
     * The face-load effect: nothing in point mode; the cached indices when there are any;
     * otherwise a load starts only when the viewer has no indices and is not loading.
     */
    method Effect(showPoints: bool, cache: FaceIndexCache) returns (call: Option<CallResult>)
      requires cache.Valid()
      modifies this, cache
      ensures cache.Valid() && cache.outstanding <= 1
      ensures showPoints ==> call == None && unchanged(this) && unchanged(cache)
      ensures !showPoints && old(cache.cachedFaceIndices).Some? ==>
                call == None && faceIndices == old(cache.cachedFaceIndices) &&
                facesLoading == old(facesLoading) && facesError == old(facesError) && unchanged(cache)
      ensures !showPoints && old(cache.cachedFaceIndices).None? && (old(faceIndices).Some? || old(facesLoading)) ==>
                call == None && unchanged(this) && unchanged(cache)
      ensures !showPoints && old(cache.cachedFaceIndices).None? && old(faceIndices).None? && !old(facesLoading) ==>
                call.Some? && !call.value.Cached? &&
                facesLoading && facesError == None && faceIndices == None &&
                (call.value == Started <==> old(cache.faceIndicesPromise) != InFlight)
    {
      if showPoints {
        return None;
      }
      if cache.cachedFaceIndices.Some? {
        faceIndices := cache.cachedFaceIndices;
        return None;
      }
      if faceIndices.Some? || facesLoading {
        return None;
      }
      facesLoading, facesError := true, None;
      var r := cache.Load();
      call := Some(r);
    }

    /** The load's promise resolves: indices are adopted, a null result sets the face-index error; loading ends. */
    method Resolve(indices: Option<seq<int>>)
      modifies this
      ensures !facesLoading
      ensures indices.Some? ==> faceIndices == indices && facesError == old(facesError)
      ensures indices.None? ==> faceIndices == old(faceIndices) && facesError == Some(FacesLoadError)
    {
      if indices.Some? {
        faceIndices := indices;
      } else {
        facesError := Some(FacesLoadError);
      }
      facesLoading := false;
    }
  }

  /** What the viewer shows, in order of precedence. */
  datatype ViewerView =
    | ViewerLoading
    | ViewerError(message: string)
    | ViewerEmpty
    | ViewerCanvas

  function ViewerState(loading: bool, facesLoading: bool, error: Option<string>, facesError: Option<string>,
                       vertices: Option<Frame>): (v: ViewerView)
    ensures v == ViewerLoading <==> loading || facesLoading
    ensures v.ViewerError? <==> !loading && !facesLoading && (error.Some? || facesError.Some?)
    ensures v.ViewerError? && error.Some? ==> v.message == error.value
    ensures v == ViewerEmpty <==> !loading && !facesLoading && error.None? && facesError.None? && vertices.None?
    ensures v == ViewerCanvas <==> !loading && !facesLoading && error.None? && facesError.None? && vertices.Some?
  {
    if loading || facesLoading then ViewerLoading
    else if error.Some? || facesError.Some? then ViewerError(if error.Some? then error.value else facesError.value)
    else if vertices.None? then ViewerEmpty
    else ViewerCanvas
  }

  /** The geometry of one frame: vertex positions, and an index only when face indices exist. */
  datatype Geometry = Geometry(positions: Frame, index: Option<seq<int>>)

  /** The rendered mesh; its X rotation is counted in half turns (1 = pi, the SMPL axis flip). */
  datatype Mesh = Mesh(geometry: Geometry, xRotationHalfTurns: int)

  /** `SmplMesh`: nothing without vertices; otherwise the geometry, flipped about X. */
  function SmplMesh(vertices: Option<Frame>, faceIndices: Option<seq<int>>): (m: Option<Mesh>)
    ensures m.Some? <==> vertices.Some?
    ensures m.Some? ==> m.value.geometry.positions == vertices.value
    ensures m.Some? ==> (m.value.geometry.index.Some? <==> faceIndices.Some?)
    ensures m.Some? && faceIndices.Some? ==> m.value.geometry.index == faceIndices
    ensures m.Some? ==> m.value.xRotationHalfTurns == 1
  {
    match vertices
    case None => None
    case Some(v) => Some(Mesh(Geometry(v, faceIndices), 1))
  }
}
