/** The image uploader of the capture view: a drop zone and file picker
    that forward image files only, and a camera view whose stream is torn
    down (every track stopped) when it closes or the uploader unmounts.
    Alerts are recorded, `onImageReady` calls are recorded, and the running
    media tracks are a set the uploader starts and stops. */
module ImageUploader {
  import opened Common

  const InvalidFileAlert: string := "Please upload a valid image file."
  const CameraAlert: string := "Could not access the camera. Please ensure you have given permission."
  const ImagePrefix: string := "image/"
  const JpegType: string := "image/jpeg"

  /** `type.startsWith('image/')`. */
  predicate IsImageType(mimeType: string)
  {
    |mimeType| >= |ImagePrefix| && mimeType[..|ImagePrefix|] == ImagePrefix
  }

  /** The decimal digits of `n`, as a template literal renders an integer. */
  function Digits(n: nat): (s: string)
    ensures |s| >= 1 && forall i :: 0 <= i < |s| ==> '0' <= s[i] <= '9'
    ensures s[0] == '0' ==> n == 0 && s == "0"
    decreases n
  {
    if n < 10 then [('0' as int + n) as char]
    else Digits(n / 10) + [('0' as int + n % 10) as char]
  }

  /** The number a string of decimal digits denotes. */
  function DigitsValue(s: string): (n: nat)
    requires forall i :: 0 <= i < |s| ==> '0' <= s[i] <= '9'
  {
    if s == [] then 0 else DigitsValue(s[..|s| - 1]) * 10 + (s[|s| - 1] as int - '0' as int)
  }

  /** The rendered digits read back as the number they came from. */
  lemma {:induction false} DigitsRoundTrip(n: nat)
    ensures DigitsValue(Digits(n)) == n
    decreases n
  {
    var s := Digits(n);
    if n >= 10 {
      DigitsRoundTrip(n / 10);
      assert s[..|s| - 1] == Digits(n / 10);
    }
  }

  /** Distinct timestamps give distinct digit strings. */
  lemma DigitsInjective(m: nat, n: nat)
    requires Digits(m) == Digits(n)
    ensures m == n
  {
    DigitsRoundTrip(m);
    DigitsRoundTrip(n);
  }

  /** The file `takePicture` builds from the canvas blob at time `timestamp`. */
  function CaptureFile(timestamp: nat): (f: ImageFile)
    ensures f.name == "capture-" + Digits(timestamp) + ".jpg" && f.mimeType == JpegType
    ensures IsImageType(f.mimeType)
  {
    ImageFile("capture-" + Digits(timestamp) + ".jpg", JpegType)
  }

  /** Captures taken at different times get different names. */
  lemma CaptureNamesDistinct(t1: nat, t2: nat)
    requires t1 != t2
    ensures CaptureFile(t1).name != CaptureFile(t2).name
  {
    var p := "capture-";
    var n1, n2 := CaptureFile(t1).name, CaptureFile(t2).name;
    if n1 == n2 {
      var d1, d2 := Digits(t1), Digits(t2);
      assert |d1| == |d2|;
      assert n1[|p|..|p| + |d1|] == d1;
      assert n2[|p|..|p| + |d2|] == d2;
      DigitsInjective(t1, t2);
    }
  }

  /** A media stream, identified by its tracks. */
  datatype MediaStream = MediaStream(tracks: seq<nat>)

  /** How `getUserMedia` ends. */
  datatype CameraOutcome = Granted(stream: MediaStream) | Refused

  /** The tracks of an optional stream, as a set. */
  function TracksOf(s: Option<MediaStream>): set<nat>
  {
    if s.Some? then set t | t in s.value.tracks else {}
  }

  class Uploader {
    /** Whether the uploader is mounted; its effect cleanup runs on unmount. */
    var mounted: bool
    var dragActive: bool
    var showCamera: bool
    /** `streamRef.current`. */
    var stream: Option<MediaStream>
    /** The `srcObject` of the `<video>` element, which exists only while
        the camera view is shown. */
    var videoSource: Option<MediaStream>
    /** `getUserMedia` calls not yet answered. */
    var cameraRequests: nat
    /** Tracks started and not yet stopped. */
    var liveTracks: set<nat>
    /** Files passed to `onImageReady`, and alerts raised, in order. */
    var forwarded: seq<ImageFile>
    var alerts: seq<string>

    /** While mounted, a stream is held exactly while the camera view is
        shown; the video shows the held stream if anything; held tracks are
        running. */
    ghost predicate Valid()
      reads this
    {
      && (mounted ==> (stream.Some? <==> showCamera))
      && (!mounted ==> !showCamera)
      && (videoSource.Some? ==> showCamera && videoSource == stream)
      && TracksOf(stream) <= liveTracks
    }

    constructor ()
      ensures Valid() && mounted && !dragActive && !showCamera && stream.None? && videoSource.None?
      ensures cameraRequests == 0 && liveTracks == {} && forwarded == [] && alerts == []
    {
      mounted, dragActive, showCamera := true, false, false;
      stream, videoSource, cameraRequests := None, None, 0;
      liveTracks, forwarded, alerts := {}, [], [];
    }

    /** `handleFile`: an image is forwarded, anything else raises an alert. */
    method HandleFile(file: ImageFile)
      requires Valid()
      modifies this`forwarded, this`alerts
      ensures Valid()
      ensures IsImageType(file.mimeType) ==> forwarded == old(forwarded) + [file] && alerts == old(alerts)
      ensures !IsImageType(file.mimeType) ==> forwarded == old(forwarded) && alerts == old(alerts) + [InvalidFileAlert]
    {
      if IsImageType(file.mimeType) {
        forwarded := forwarded + [file];
      } else {
        alerts := alerts + [InvalidFileAlert];
      }
    }

    /** `handleDrag` for an event of type `eventType`. */
    method HandleDrag(eventType: string)
      requires Valid()
      modifies this`dragActive
      ensures Valid()
      ensures eventType == "dragenter" || eventType == "dragover" ==> dragActive
      ensures eventType == "dragleave" ==> !dragActive
      ensures eventType !in {"dragenter", "dragover", "dragleave"} ==> dragActive == old(dragActive)
    {
      if eventType == "dragenter" || eventType == "dragover" {
        dragActive := true;
      } else if eventType == "dragleave" {
        dragActive := false;
      }
    }

    /** `handleDrop`, and likewise `handleChange` without the drag flag: only
        the first file is handled, and only if there is one. */
    method HandleDrop(files: seq<ImageFile>)
      requires Valid()
      modifies this`dragActive, this`forwarded, this`alerts
      ensures Valid() && !dragActive
      ensures files == [] ==> forwarded == old(forwarded) && alerts == old(alerts)
      ensures files != [] && IsImageType(files[0].mimeType) ==> forwarded == old(forwarded) + [files[0]] && alerts == old(alerts)
      ensures files != [] && !IsImageType(files[0].mimeType) ==> forwarded == old(forwarded) && alerts == old(alerts) + [InvalidFileAlert]
    {
      dragActive := false;
      if files != [] {
        HandleFile(files[0]);
      }
    }

    method HandleChange(files: seq<ImageFile>)
      requires Valid()
      modifies this`forwarded, this`alerts
      ensures Valid()
      ensures files == [] ==> forwarded == old(forwarded) && alerts == old(alerts)
      ensures files != [] && IsImageType(files[0].mimeType) ==> forwarded == old(forwarded) + [files[0]] && alerts == old(alerts)
      ensures files != [] && !IsImageType(files[0].mimeType) ==> forwarded == old(forwarded) && alerts == old(alerts) + [InvalidFileAlert]
    {
      if files != [] {
        HandleFile(files[0]);
      }
    }

    /** "Take a Photo", shown only outside the camera view: `startCamera` up
        to its `await` of `getUserMedia`. */
    method RequestCamera()
      requires Valid() && mounted && !showCamera
      modifies this`cameraRequests
      ensures Valid() && cameraRequests == old(cameraRequests) + 1
    {
      cameraRequests := cameraRequests + 1;
    }

    /** The rest of `startCamera` once `getUserMedia` has ended with
        `outcome`. A granted stream is held and its tracks run; it becomes
        the video's source only if the video is mounted at that moment, that
        is, if the camera view is already shown. `setShowCamera` has no
        effect once the uploader is unmounted. */
    method ResolveCamera(outcome: CameraOutcome)
      requires Valid() && cameraRequests > 0
      modifies this`stream, this`videoSource, this`showCamera, this`liveTracks, this`alerts, this`cameraRequests
      ensures Valid() && cameraRequests == old(cameraRequests) - 1
      ensures outcome.Granted? ==> stream == Some(outcome.stream) && showCamera == mounted && alerts == old(alerts)
      ensures outcome.Granted? ==> liveTracks == old(liveTracks) + TracksOf(Some(outcome.stream))
      ensures outcome.Granted? ==> videoSource == (if old(showCamera) then Some(outcome.stream) else None)
      ensures outcome.Refused? ==> stream == old(stream) && showCamera == old(showCamera) && videoSource == old(videoSource)
      ensures outcome.Refused? ==> liveTracks == old(liveTracks) && alerts == old(alerts) + [CameraAlert]
    {
      cameraRequests := cameraRequests - 1;
      match outcome {
        case Granted(s) =>
          stream := Some(s);
          liveTracks := liveTracks + TracksOf(Some(s));
          if showCamera {
            videoSource := Some(s);
          }
          showCamera := mounted;
        case Refused =>
          alerts := alerts + [CameraAlert];
      }
    }

    /** The intended behaviour: an effect that, once the camera view has
        mounted the video, makes the held stream its source. */
    method AttachOnMount()
      requires Valid() && mounted
      modifies this`videoSource
      ensures Valid()
      ensures showCamera ==> videoSource == stream && videoSource.Some?
      ensures !showCamera ==> videoSource == old(videoSource)
    {
      if showCamera {
        videoSource := stream;
      }
    }

    /** `stopCamera`: every track of the held stream is stopped, the stream
        is dropped and the camera view, with its video, is hidden. */
    method StopCamera()
      requires Valid()
      modifies this`stream, this`videoSource, this`showCamera, this`liveTracks
      ensures Valid() && stream.None? && videoSource.None? && !showCamera
      ensures liveTracks == old(liveTracks) - TracksOf(old(stream))
    {
      if stream.Some? {
        var tracks := stream.value.tracks;
        var i := 0;
        while i < |tracks|
          invariant 0 <= i <= |tracks|
          invariant liveTracks == old(liveTracks) - set t | t in tracks[..i]
        {
          assert tracks[..i + 1] == tracks[..i] + [tracks[i]];
          liveTracks := liveTracks - {tracks[i]};
          i := i + 1;
        }
        assert tracks[..i] == tracks;
        stream := None;
      }
      videoSource := None;
      showCamera := false;
    }

    /** The capture button, shown only in the camera view: `takePicture`.
        The canvas takes the video's size, which is zero unless the video has
        a source and has delivered its frame size (`framesReady`); a canvas
        without pixels gives a null blob. */
    method TakePicture(framesReady: bool, timestamp: nat)
      requires Valid() && mounted && showCamera
      modifies this`stream, this`videoSource, this`showCamera, this`liveTracks, this`forwarded
      ensures Valid()
      ensures old(videoSource).Some? && framesReady ==>
                forwarded == old(forwarded) + [CaptureFile(timestamp)] &&
                stream.None? && videoSource.None? && !showCamera &&
                liveTracks == old(liveTracks) - TracksOf(old(stream))
      ensures !(old(videoSource).Some? && framesReady) ==>
                forwarded == old(forwarded) && stream == old(stream) && videoSource == old(videoSource) &&
                showCamera == old(showCamera) && liveTracks == old(liveTracks)
    {
      if videoSource.Some? && framesReady {
        forwarded := forwarded + [CaptureFile(timestamp)];
        StopCamera();
      }
    }

    /** Unmounting runs the effect cleanup, which always stops the camera.
        A `getUserMedia` call still unanswered is not cancelled. */
    method Unmount()
      requires Valid() && mounted
      modifies this`mounted, this`stream, this`videoSource, this`showCamera, this`liveTracks
      ensures Valid() && !mounted && stream.None? && videoSource.None? && !showCamera
      ensures liveTracks == old(liveTracks) - TracksOf(old(stream))
    {
      StopCamera();
      mounted := false;
    }
  }

  /** The camera as written: open it, let the permission be granted, press
      the capture button, unmount. The stream is never attached to the
      video, so the canvas is empty and nothing is forwarded, however the
      video behaves. */
  method CameraSessionAsWritten(stream: MediaStream, framesReady: bool, timestamp: nat)
    returns (attached: Option<MediaStream>, forwarded: seq<ImageFile>, running: set<nat>)
    ensures attached.None? && forwarded == [] && running == {}
  {
    var u := new Uploader();
    u.RequestCamera();
    u.ResolveCamera(Granted(stream));
    attached := u.videoSource;
    u.TakePicture(framesReady, timestamp);
    u.Unmount();
    forwarded, running := u.forwarded, u.liveTracks;
  }

  /** The camera with the stream attached once the video mounts: open it,
      optionally capture at `timestamp`, unmount. No track is left running,
      and the only file forwarded is the JPEG capture. */
  method CameraSession(stream: MediaStream, capture: bool, timestamp: nat)
    returns (running: set<nat>, forwarded: seq<ImageFile>, shown: bool)
    ensures running == {} && !shown
    ensures capture ==> forwarded == [CaptureFile(timestamp)]
    ensures !capture ==> forwarded == []
  {
    var u := new Uploader();
    u.RequestCamera();
    u.ResolveCamera(Granted(stream));
    u.AttachOnMount();
    if capture {
      u.TakePicture(true, timestamp);
    }
    u.Unmount();
    running, forwarded, shown := u.liveTracks, u.forwarded, u.showCamera;
  }

  /** The uploader unmounts while the permission prompt is open, and the
      permission is then granted: the stream is held by the unmounted
      uploader and its tracks keep running, as nothing is left to stop them. */
  method UnmountDuringPrompt(stream: MediaStream) returns (running: set<nat>, held: Option<MediaStream>, shown: bool)
    ensures running == TracksOf(Some(stream)) && held == Some(stream) && !shown
  {
    var u := new Uploader();
    u.RequestCamera();
    u.Unmount();
    u.ResolveCamera(Granted(stream));
    running, held, shown := u.liveTracks, u.stream, u.showCamera;
  }

  /** A fresh uploader given `files` by drop: at most one file is forwarded,
      and it is the first one, when it is an image. */
  method DropOnce(files: seq<ImageFile>) returns (forwarded: seq<ImageFile>, alerts: seq<string>)
    ensures |forwarded| + |alerts| == (if files == [] then 0 else 1)
    ensures forwarded != [] <==> files != [] && IsImageType(files[0].mimeType)
    ensures forwarded != [] ==> forwarded == [files[0]]
  {
    var u := new Uploader();
    u.HandleDrag("dragenter");
    u.HandleDrop(files);
    forwarded, alerts := u.forwarded, u.alerts;
  }
}
