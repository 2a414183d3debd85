// Face authentication: which camera frames reach the embedding model, how the
// face is cut out of the frame, how the frame's YUV planes are laid out for
// decoding, and the screen's verification latch around the remote lookup of
// the registered embedding.

module FaceAuth {
  import opened Wrappers
  import opened Decimal
  import opened Timetable

  // ----- the per-frame gate -----

  /** `android.graphics.Rect`: right and bottom are exclusive. */
  datatype Rect = Rect(left: int, top: int, right: int, bottom: int) {
    function Width(): int { right - left }
    function Height(): int { bottom - top }
  }

  /** What the face detector reports for one face; an eye probability is
      null when the classifier gave none. */
  datatype Face = Face(boundingBox: Rect, leftEyeOpen: Option<real>, rightEyeOpen: Option<real>)

  /** Smallest accepted box side, in pixels. */
  const MinFaceSize: int := 400
  /** `0.6f`, the exact binary32 value. */
  const EyeOpenThreshold: real := 5033165.0 / 8388608.0
  /** `1.3f`, the exact binary32 value. */
  const MatchThreshold: real := 5452595.0 / 4194304.0

  predicate LargeEnough(box: Rect) {
    !(box.Width() < MinFaceSize || box.Height() < MinFaceSize)
  }

  predicate EyesOpen(f: Face) {
    !(f.leftEyeOpen.None? || f.rightEyeOpen.None?
      || f.leftEyeOpen.value < EyeOpenThreshold || f.rightEyeOpen.value < EyeOpenThreshold)
  }

  datatype GateVerdict = NoFace | TooSmall | EyesNotOpen | Accepted(face: Face)

  /** The success listener's checks, in order: a face at all, then the first
      face's box size, then both eyes present and open. */
  function Gate(faces: seq<Face>): (v: GateVerdict)
    ensures v.NoFace? <==> |faces| == 0
    ensures v.Accepted? <==> |faces| > 0 && LargeEnough(faces[0].boundingBox) && EyesOpen(faces[0])
    ensures v.Accepted? ==> v.face == faces[0]
    ensures v.EyesNotOpen? ==> LargeEnough(faces[0].boundingBox)
  {
    if |faces| == 0 then NoFace
    else if !LargeEnough(faces[0].boundingBox) then TooSmall
    else if !EyesOpen(faces[0]) then EyesNotOpen
    else Accepted(faces[0])
  }

  /** Only the first detected face is ever looked at. */
  lemma OnlyFirstFaceMatters(faces: seq<Face>, others: seq<Face>)
    requires |faces| > 0
    ensures Gate(faces) == Gate([faces[0]] + others)
  {
    assert ([faces[0]] + others)[0] == faces[0];
  }

  /** A missing eye probability rejects the face however large it is, and so
      does one below 0.6. */
  lemma EyesDecide(f: Face, others: seq<Face>)
    requires LargeEnough(f.boundingBox)
    ensures f.leftEyeOpen.None? || f.rightEyeOpen.None? ==> Gate([f] + others) == EyesNotOpen
    ensures f.leftEyeOpen.Some? && f.leftEyeOpen.value < EyeOpenThreshold ==> Gate([f] + others) == EyesNotOpen
    ensures EyesOpen(f) ==> Gate([f] + others) == Accepted(f)
  {
    assert ([f] + others)[0] == f;
  }

  // ----- the crop -----

  /** Kotlin's `coerceAtLeast(lo)`: the value itself when it is at least the
      bound, the bound otherwise. */
  function CoerceAtLeast(v: int, lo: int): (r: int)
    ensures r >= lo
    ensures v >= lo ==> r == v
    ensures v < lo ==> r == lo
  {
    if v < lo then lo else v
  }

  /** Kotlin's `coerceAtMost(hi)`: the value itself when it is at most the
      bound, the bound otherwise. */
  function CoerceAtMost(v: int, hi: int): (r: int)
    ensures r <= hi
    ensures v <= hi ==> r == v
    ensures v > hi ==> r == hi
  {
    if v > hi then hi else v
  }

  /** The box clamped to a `width` x `height` bitmap, when it still has area. */
  function CropRect(box: Rect, width: int, height: int): (r: Option<Rect>)
    ensures r.Some? <==>
      CoerceAtMost(box.right, width) > CoerceAtLeast(box.left, 0)
      && CoerceAtMost(box.bottom, height) > CoerceAtLeast(box.top, 0)
    ensures r.Some? ==> 0 <= r.value.left < r.value.right <= width && 0 <= r.value.top < r.value.bottom <= height
    ensures r.Some? ==>
      box.left <= r.value.left && r.value.right <= box.right && box.top <= r.value.top && r.value.bottom <= box.bottom
  {
    var left := CoerceAtLeast(box.left, 0);
    var top := CoerceAtLeast(box.top, 0);
    var right := CoerceAtMost(box.right, width);
    var bottom := CoerceAtMost(box.bottom, height);
    if right > left && bottom > top then Some(Rect(left, top, right, bottom)) else None
  }

  /** A box with area that lies inside the bitmap is cropped unchanged. */
  lemma CropInsideIsIdentity(box: Rect, width: int, height: int)
    requires 0 <= box.left < box.right <= width && 0 <= box.top < box.bottom <= height
    ensures CropRect(box, width, height) == Some(box)
  {
  }

  /** The size test looks at the unclamped box, so a face that passes it can
      still yield a crop narrower than 400 pixels. */
  lemma AcceptedCropCanBeSmall()
    ensures var f := Face(Rect(-100, 0, 300, 400), Some(1.0), Some(1.0));
      Gate([f]) == Accepted(f) && CropRect(f.boundingBox, 640, 480) == Some(Rect(0, 0, 300, 400))
  {
  }

  // ----- frame release -----

  /** The analysis frame; only how often it is closed is tracked. */
  class ImageProxy {
    /** Whether `imageProxy.image` is non-null. */
    const hasImage: bool
    const width: int
    const height: int
    var closeCount: nat

    constructor (hasImage: bool, width: int, height: int)
      ensures this.hasImage == hasImage && this.width == width && this.height == height
      ensures closeCount == 0
    {
      this.hasImage := hasImage;
      this.width := width;
      this.height := height;
      closeCount := 0;
    }

    method Close()
      modifies this
      ensures closeCount == old(closeCount) + 1
    {
      closeCount := closeCount + 1;
    }
  }

  /** How the detector's task ended: its failure listener or its success
      listener with the faces found. */
  datatype Detection = DetectionFailed | Detected(faces: seq<Face>)

  /** How many times one frame is closed: once on every path, and once more
      inline when the first face is rejected for its size or its eyes. */
  function CloseCount(hasImage: bool, detection: Detection): (n: nat)
    ensures 1 <= n <= 2
    ensures n == 2 <==>
      hasImage && detection.Detected? && (Gate(detection.faces).TooSmall? || Gate(detection.faces).EyesNotOpen?)
  {
    if hasImage && detection.Detected? && (Gate(detection.faces).TooSmall? || Gate(detection.faces).EyesNotOpen?)
    then 2 else 1
  }

  /** The crop handed on to the embedding step, if any. */
  function Captured(hasImage: bool, detection: Detection, width: int, height: int): (r: Option<Rect>)
    ensures r.Some? ==> hasImage && detection.Detected? && Gate(detection.faces).Accepted?
    ensures r.Some? ==> 0 <= r.value.left < r.value.right <= width && 0 <= r.value.top < r.value.bottom <= height
    ensures hasImage && detection.Detected? && Gate(detection.faces).Accepted? ==>
      r == CropRect(detection.faces[0].boundingBox, width, height)
  {
    if hasImage && detection.Detected? && Gate(detection.faces).Accepted?
    then CropRect(detection.faces[0].boundingBox, width, height)
    else None
  }

  /** `processImageProxy`: the null-image exit, the detector's listeners and
      the completion listener that always closes the frame. The decoded
      bitmap has the frame's size. */
  method ProcessImageProxy(proxy: ImageProxy, detection: Detection) returns (captured: Option<Rect>)
    modifies proxy
    ensures proxy.closeCount == old(proxy.closeCount) + CloseCount(proxy.hasImage, detection)
    ensures captured == Captured(proxy.hasImage, detection, proxy.width, proxy.height)
  {
    captured := None;
    if !proxy.hasImage {
      proxy.Close();
      return;
    }
    match detection {
      case DetectionFailed =>
      case Detected(faces) =>
        if |faces| > 0 {
          var face := faces[0];
          if face.boundingBox.Width() < MinFaceSize || face.boundingBox.Height() < MinFaceSize {
            proxy.Close();
          } else if !EyesOpen(face) {
            proxy.Close();
          } else {
            captured := CropRect(face.boundingBox, proxy.width, proxy.height);
          }
        }
    }
    proxy.Close();
  }

  // ----- NV21 assembly -----

  /** `buffer.get(dst, offset, |src|)`: copies the plane's remaining bytes
      into dst from offset on. */
  method CopyInto(src: seq<bv8>, dst: array<bv8>, offset: nat)
    requires offset + |src| <= dst.Length
    modifies dst
    ensures dst[..] == old(dst[..offset]) + src + old(dst[offset + |src|..])
  {
    for i := 0 to |src|
      invariant forall k :: 0 <= k < dst.Length ==>
        dst[k] == if offset <= k < offset + i then src[k - offset] else old(dst[k])
    {
      dst[offset + i] := src[i];
    }
    var expected := old(dst[..offset]) + src + old(dst[offset + |src|..]);
    forall k | 0 <= k < dst.Length
      ensures dst[k] == expected[k]
    {
      if k < offset {
      } else if k < offset + |src| {
        assert expected[k] == src[k - offset];
      } else {
        assert expected[k] == old(dst[offset + |src|..])[k - offset - |src|];
      }
    }
  }

  /** The byte array handed to the YUV decoder: the whole Y plane, then the
      V plane, then the U plane. */
  method Nv21(y: seq<bv8>, u: seq<bv8>, v: seq<bv8>) returns (nv21: array<bv8>)
    ensures fresh(nv21)
    ensures nv21[..] == y + v + u
  {
    nv21 := new bv8[|y| + |u| + |v|](_ => 0);
    CopyInto(y, nv21, 0);
    CopyInto(v, nv21, |y|);
    CopyInto(u, nv21, |y| + |v|);
  }

  /** Where each plane lands: Y at 0, V at |y|, U at |y| + |v|. */
  lemma Nv21Offsets(y: seq<bv8>, u: seq<bv8>, v: seq<bv8>, nv21: seq<bv8>)
    requires nv21 == y + v + u
    ensures |nv21| == |y| + |u| + |v|
    ensures nv21[..|y|] == y && nv21[|y|..|y| + |v|] == v && nv21[|y| + |v|..] == u
  {
  }

  // ----- first-time registration -----

  /** `embedding.mapIndexed { i, x -> i.toString() to x.toDouble() }.toMap()`. */
  function RegistrationMap(e: seq<real>): (m: map<string, real>)
    ensures forall k :: k in m ==> AllDigits(k)
    ensures |m| <= |e|
  {
    if |e| == 0 then map[] else RegistrationMap(e[..|e| - 1])[NatToString(|e| - 1) := e[|e| - 1]]
  }

  /** The keys are exactly the decimal indices of the embedding. */
  lemma {:induction false} RegistrationKeys(e: seq<real>)
    ensures RegistrationMap(e).Keys == Numerals(|e|)
  {
    if |e| > 0 {
      RegistrationKeys(e[..|e| - 1]);
      NumeralsStep(|e| - 1);
    }
  }

  /** The decimal numerals of 0 .. n-1. */
  function Numerals(n: nat): set<string> {
    set i | 0 <= i < n :: NatToString(i)
  }

  lemma NumeralsStep(n: nat)
    ensures Numerals(n + 1) == Numerals(n) + {NatToString(n)}
  {
    forall k | k in Numerals(n + 1)
      ensures k in Numerals(n) + {NatToString(n)}
    {
      var i :| 0 <= i < n + 1 && k == NatToString(i);
      if i < n {
        assert k in Numerals(n);
      }
    }
  }

  /** Entry i holds component i. */
  lemma {:induction false} RegistrationEntries(e: seq<real>, i: nat)
    requires i < |e|
    ensures NatToString(i) in RegistrationMap(e)
    ensures RegistrationMap(e)[NatToString(i)] == e[i]
  {
    var n := |e| - 1;
    if i < n {
      RegistrationEntries(e[..n], i);
      if NatToString(i) == NatToString(n) {
        NatToStringInjective(i, n);
      }
    }
  }

  /** No two indices share a key, so nothing is overwritten. */
  lemma {:induction false} RegistrationSize(e: seq<real>)
    ensures |RegistrationMap(e)| == |e|
  {
    if |e| > 0 {
      var n := |e| - 1;
      RegistrationSize(e[..n]);
      RegistrationKeys(e[..n]);
      if NatToString(n) in RegistrationMap(e[..n]) {
        var i :| 0 <= i < n && NatToString(i) == NatToString(n);
        NatToStringInjective(i, n);
      }
    }
  }

  // ----- the verification latch -----

  const Waiting := "Waiting for face..."
  const Verifying := "Verifying..."
  const SessionError := "Session error"
  const Verified := "Verified"
  const NoMatch := "Face does not match"
  const Registered := "Face Registered"
  const DatabaseError := "Database error"
  const PermissionDenied := "Camera permission denied"

  /** The lookup in flight: whose embedding is read, and the normalized
      embedding of the captured face, kept for a first registration. */
  datatype Pending = Pending(uuid: string, embedding: seq<real>)

  /** The screen's state variables. */
  datatype Screen = Screen(
    cameraPermissionGranted: bool,
    infoText: string,
    continueEnabled: bool,
    isProcessing: bool,
    faceHandled: bool,
    pending: Option<Pending>)

  const Initial := Screen(false, Waiting, false, false, false, None)

  /** At most one lookup is in flight, only while a face is being handled,
      and Continue is enabled only for a handled face whose lookup is over. */
  predicate Inv(s: Screen) {
    && (s.isProcessing <==> s.pending.Some?)
    && (s.isProcessing ==> s.faceHandled && !s.continueEnabled)
    && (s.continueEnabled ==> s.faceHandled)
  }

  lemma InitialInv()
    ensures Inv(Initial) && !Initial.continueEnabled
  {
  }

  /** The permission launcher's result. */
  function OnPermission(s: Screen, granted: bool): (r: Screen)
    requires Inv(s)
    ensures Inv(r)
    ensures r.cameraPermissionGranted == granted
    ensures r.infoText == (if granted then s.infoText else PermissionDenied)
    ensures r.(cameraPermissionGranted := s.cameraPermissionGranted, infoText := s.infoText) == s
  {
    var t := s.(cameraPermissionGranted := granted);
    if granted then t else t.(infoText := PermissionDenied)
  }

  /** A cropped face arrives; `sessionUuid` is `UserSession.uuid`. */
  function OnCapture(s: Screen, sessionUuid: Option<string>, embedding: seq<real>): (r: Screen)
    requires Inv(s)
    ensures Inv(r)
    ensures s.isProcessing || s.faceHandled ==> r == s
    ensures !s.isProcessing ==> (r.isProcessing <==> !s.faceHandled && sessionUuid.Some?)
    ensures r.isProcessing && !s.isProcessing ==>
      sessionUuid.Some? && r.pending == Some(Pending(sessionUuid.value, embedding)) && r.infoText == Verifying
    ensures !s.isProcessing && !s.faceHandled && sessionUuid.None? ==> r.infoText == SessionError && !r.faceHandled
    ensures r.continueEnabled == s.continueEnabled && r.cameraPermissionGranted == s.cameraPermissionGranted
  {
    if s.isProcessing || s.faceHandled then s
    else if sessionUuid.None? then s.(infoText := SessionError, isProcessing := false, faceHandled := false)
    else s.(infoText := Verifying, isProcessing := true, faceHandled := true,
            pending := Some(Pending(sessionUuid.value, embedding)))
  }

  /** The answer to reading `users/{uuid}/faceEmbedding`: a failure, no
      stored embedding, or a stored one at the given distance from the
      captured face. */
  datatype StoreReply = ReadFailed | NoEmbedding | StoredEmbedding(distance: real)

  /** The lookup's answer arrives. */
  function OnReply(s: Screen, reply: StoreReply): (r: Screen)
    requires Inv(s) && s.isProcessing
    ensures Inv(r) && !r.isProcessing
    ensures r.continueEnabled <==>
      reply.NoEmbedding? || (reply.StoredEmbedding? && reply.distance < MatchThreshold)
    ensures r.faceHandled <==> r.continueEnabled
    ensures r.cameraPermissionGranted == s.cameraPermissionGranted
    ensures reply.ReadFailed? ==> r.infoText == DatabaseError
    ensures reply.NoEmbedding? ==> r.infoText == Registered
    ensures reply.StoredEmbedding? && reply.distance < MatchThreshold ==> r.infoText == Verified
    ensures reply.StoredEmbedding? && reply.distance >= MatchThreshold ==> r.infoText == NoMatch
  {
    match reply
    case ReadFailed =>
      s.(infoText := DatabaseError, isProcessing := false, faceHandled := false, pending := None)
    case NoEmbedding =>
      s.(infoText := Registered, continueEnabled := true, isProcessing := false, pending := None)
    case StoredEmbedding(d) =>
      if d < MatchThreshold then
        s.(infoText := Verified, continueEnabled := true, isProcessing := false, pending := None)
      else
        s.(infoText := NoMatch, continueEnabled := false, isProcessing := false, faceHandled := false, pending := None)
  }

  /** The write a reply triggers: the captured embedding under the user's
      id, only when none was stored. */
  datatype Registration = Registration(uuid: string, faceEmbedding: map<string, real>)

  function RegistrationWrite(s: Screen, reply: StoreReply): (w: Option<Registration>)
    requires Inv(s) && s.isProcessing
    ensures w.Some? <==> reply.NoEmbedding?
    ensures w.Some? ==>
      && w.value.uuid == s.pending.value.uuid
      && w.value.faceEmbedding == RegistrationMap(s.pending.value.embedding)
      && |w.value.faceEmbedding| == |s.pending.value.embedding|
  {
    if reply.NoEmbedding? then
      var e := s.pending.value.embedding;
      RegistrationSize(e);
      Some(Registration(s.pending.value.uuid, RegistrationMap(e)))
    else None
  }

  /** Every failed outcome frees the latch, so the next frame is tried. */
  lemma RetryAfterFailure(s: Screen, reply: StoreReply, uuid: string, embedding: seq<real>)
    requires Inv(s) && s.isProcessing
    requires reply.ReadFailed? || (reply.StoredEmbedding? && reply.distance >= MatchThreshold)
    ensures OnCapture(OnReply(s, reply), Some(uuid), embedding).isProcessing
  {
  }

  /** Frames that arrive after a face was handled, one event each. */
  function Captures(s: Screen, frames: seq<(Option<string>, seq<real>)>): (r: Screen)
    requires Inv(s)
    ensures Inv(r)
  {
    if |frames| == 0 then s
    else
      var last := frames[|frames| - 1];
      OnCapture(Captures(s, frames[..|frames| - 1]), last.0, last.1)
  }

  /** Once Continue is enabled the latch stays closed: no later frame starts
      another lookup or changes anything on the screen. */
  lemma {:induction false} SuccessIsFinal(s: Screen, frames: seq<(Option<string>, seq<real>)>)
    requires Inv(s) && s.continueEnabled
    ensures Captures(s, frames) == s
  {
    if |frames| > 0 {
      SuccessIsFinal(s, frames[..|frames| - 1]);
    }
  }

  /** A successful reply enables Continue with "Verified" or "Face
      Registered", and a reply never enables it otherwise. */
  lemma SuccessTexts(s: Screen, reply: StoreReply)
    requires Inv(s) && s.isProcessing
    ensures OnReply(s, reply).continueEnabled ==>
      OnReply(s, reply).infoText == Verified || OnReply(s, reply).infoText == Registered
    ensures !OnReply(s, reply).continueEnabled ==>
      OnReply(s, reply).infoText == DatabaseError || OnReply(s, reply).infoText == NoMatch
  {
  }

  /** The screen itself: its `remember`ed state variables, updated by the
      permission launcher, the camera's capture callback and the lookup's
      listeners. */
  class FaceAuthScreen {
    var cameraPermissionGranted: bool
    var infoText: string
    var continueEnabled: bool
    var isProcessing: bool
    var faceHandled: bool
    var pending: Option<Pending>

    function State(): Screen
      reads this
    {
      Screen(cameraPermissionGranted, infoText, continueEnabled, isProcessing, faceHandled, pending)
    }

    constructor ()
      ensures State() == Initial
    {
      cameraPermissionGranted := false;
      infoText := Waiting;
      continueEnabled := false;
      isProcessing := false;
      faceHandled := false;
      pending := None;
    }

    /** The launched effect: an already granted permission is recorded;
        otherwise the launcher asks and `OnPermissionResult` follows. */
    method OnStart(alreadyGranted: bool)
      requires Inv(State())
      modifies this
      ensures Inv(State())
      ensures State() == if alreadyGranted then old(State()).(cameraPermissionGranted := true) else old(State())
    {
      if alreadyGranted {
        cameraPermissionGranted := true;
      }
    }

    method OnPermissionResult(granted: bool)
      requires Inv(State())
      modifies this
      ensures State() == OnPermission(old(State()), granted)
    {
      cameraPermissionGranted := granted;
      if !granted {
        infoText := PermissionDenied;
      }
    }

    /** The capture callback; `started` tells whether a lookup was issued. */
    method OnFaceCaptured(session: UserSession, embedding: seq<real>) returns (started: bool)
      requires Inv(State())
      modifies this
      ensures State() == OnCapture(old(State()), session.uuid, embedding)
      ensures started <==> isProcessing && !old(isProcessing)
    {
      started := false;
      if !isProcessing && !faceHandled {
        isProcessing := true;
        faceHandled := true;
        infoText := Verifying;
        var uuid := session.uuid;
        if uuid.None? {
          infoText := SessionError;
          isProcessing := false;
          faceHandled := false;
          return;
        }
        pending := Some(Pending(uuid.value, embedding));
        started := true;
      }
    }

    /** The lookup's success or failure listener. */
    method OnStoreReply(reply: StoreReply) returns (write: Option<Registration>)
      requires Inv(State()) && isProcessing
      modifies this
      ensures State() == OnReply(old(State()), reply)
      ensures write == RegistrationWrite(old(State()), reply)
    {
      write := RegistrationWrite(State(), reply);
      match reply {
        case ReadFailed =>
          infoText := DatabaseError;
          isProcessing := false;
          faceHandled := false;
        case NoEmbedding =>
          infoText := Registered;
          continueEnabled := true;
        case StoredEmbedding(d) =>
          if d < MatchThreshold {
            infoText := Verified;
            continueEnabled := true;
            isProcessing := false;
          } else {
            infoText := NoMatch;
            continueEnabled := false;
            isProcessing := false;
            faceHandled := false;
          }
      }
      isProcessing := false;
      pending := None;
    }
  }
}
