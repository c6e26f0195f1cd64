// Format negotiation of the Elgato provider: the encoding-profile ladder chosen from the frame
// height, and the integer fields of the media type handed to the sample grabber.

module Formats {

  /** The capture filter's encoding profiles, VIDEO_CAPTURE_FILTER_VID_ENC_PROFILE_*. */
  datatype Profile = Profile240 | Profile360 | Profile480 | Profile720 | Profile1080

  /** The number of lines each profile encodes. */
  function ProfileHeight(p: Profile): nat {
    match p
    case Profile240 => 240
    case Profile360 => 360
    case Profile480 => 480
    case Profile720 => 720
    case Profile1080 => 1080
  }

  /** A height some profile encodes. */
  predicate OnLadder(height: int) {
    height == 240 || height == 360 || height == 480 || height == 720 || height == 1080
  }

  /** The profile chosen for FRAME_HEIGHT: the exact one when the height is on the ladder,
      and the 1080 profile for every other height. */
  function ProfileFor(height: int): (p: Profile)
    ensures OnLadder(height) ==> ProfileHeight(p) == height
    ensures !OnLadder(height) ==> p == Profile1080
  {
    if height == 1080 then Profile1080
    else if height == 720 then Profile720
    else if height == 480 then Profile480
    else if height == 360 then Profile360
    else if height == 240 then Profile240
    else Profile1080
  }

  /** Choosing a profile for the height a profile encodes gives that profile back. */
  lemma ProfileForRoundTrip(p: Profile)
    ensures OnLadder(ProfileHeight(p))
    ensures ProfileFor(ProfileHeight(p)) == p
  {
  }

  /** FRAME_WIDTH, FRAME_HEIGHT and FRAME_BPP_YUV, fixed when the compositor is built. */
  datatype FrameFormat = FrameFormat(width: nat, height: nat, bytesPerPixel: nat) {
    /** The frame's byte size fits the LONG and DWORD fields that carry it. */
    predicate Fits() {
      width * height * bytesPerPixel <= 0x7FFF_FFFF
    }
  }

  /** The integer fields of the AM_MEDIA_TYPE and VIDEOINFOHEADER the sample grabber is given;
      the GUIDs are fixed to video, UYVY and FORMAT_VideoInfo. */
  datatype MediaType = MediaType(
    fixedSizeSamples: bool,
    temporalCompression: bool,
    sampleSize: int,       // AM_MEDIA_TYPE.lSampleSize
    targetRight: int,      // VIDEOINFOHEADER.rcTarget.right
    targetBottom: int,     // VIDEOINFOHEADER.rcTarget.bottom
    imageWidth: int,       // BITMAPINFOHEADER.biWidth
    imageHeight: int,      // BITMAPINFOHEADER.biHeight
    imageSize: int)        // BITMAPINFOHEADER.biSizeImage

  /** A media type that describes whole frames of `f`: fixed-size, uncompressed samples whose
      size is the byte size of the target rectangle. */
  predicate DescribesFrames(mt: MediaType, f: FrameFormat) {
    && mt.fixedSizeSamples && !mt.temporalCompression
    && mt.targetRight == mt.imageWidth == f.width
    && mt.targetBottom == mt.imageHeight == f.height
    && mt.sampleSize == mt.imageSize == mt.targetRight * mt.targetBottom * f.bytesPerPixel
  }

  /** The media type SetSampleGrabberParameters builds for frame format `f`. */
  function GrabberMediaType(f: FrameFormat): (mt: MediaType)
    requires f.Fits()
    ensures DescribesFrames(mt, f)
    ensures 0 <= mt.sampleSize <= 0x7FFF_FFFF
  {
    var size := f.width * f.height * f.bytesPerPixel;
    MediaType(true, false, size, f.width, f.height, f.width, f.height, size)
  }

  /** Only one media type describes whole frames of a given format. */
  lemma {:induction false} FrameDescriptionUnique(f: FrameFormat, mt: MediaType)
    requires f.Fits()
    requires DescribesFrames(mt, f)
    ensures mt == GrabberMediaType(f)
  {
  }
}
