/** The camera screen: it collects up to three images from the camera or
    the gallery and sends exactly three of them, as ECG, echo and X-ray,
    with the user's vitals to the prediction route. */
module CameraScreen {
  import opened Wrappers
  import opened Js
  import PredictRoute

  datatype Facing = Back | Front

  /** `current === "back" ? "front" : "back"`. */
  function Toggled(f: Facing): (g: Facing)
    ensures g != f
  {
    if f == Back then Front else Back
  }

  lemma ToggleTwiceIsIdentity(f: Facing)
    ensures Toggled(Toggled(f)) == f
  {
  }

  const MaxImages := 3

  /** `.slice(0, 3)`. */
  function FirstThree(s: seq<string>): (r: seq<string>)
    ensures |r| <= MaxImages
    ensures |r| == if |s| < MaxImages then |s| else MaxImages
    ensures r == s[..|r|]
  {
    if |s| <= MaxImages then s else s[..MaxImages]
  }

  /** Images already held keep their places; only new ones beyond the
      third are dropped. */
  lemma ExistingImagesKept(prev: seq<string>, added: seq<string>)
    requires |prev| <= MaxImages
    ensures FirstThree(prev + added)[..|prev|] == prev
    ensures |FirstThree(prev + added)| == if |prev| + |added| < MaxImages then |prev| + |added| else MaxImages
  {
    var r := FirstThree(prev + added);
    assert r == (prev + added)[..|r|];
    assert (prev + added)[..|r|][..|prev|] == prev;
  }

  /** A full list takes no more images. */
  lemma FullListUnchanged(prev: seq<string>, added: seq<string>)
    requires |prev| == MaxImages
    ensures FirstThree(prev + added) == prev
  {
    ExistingImagesKept(prev, added);
  }

  /** A part of the multipart form sent to `/predict`. */
  datatype FormPart =
    | ImagePart(field: string, uri: string, contentType: string, name: string)
    | TextPart(field: string, value: Value)

  /** The image fields, in the order the backend expects. */
  const Slots: seq<string> := ["ecg", "echo", "xray"]

  /** The form of `uploadReport`: the three images, then the entries of
      `userData || {}` in their order, then `reportType || "Report"`. */
  function UploadForm(images: seq<string>, vitals: seq<(string, Value)>, reportType: Value): (form: seq<FormPart>)
    requires |images| == MaxImages
    ensures |form| == MaxImages + |vitals| + 1
    ensures forall i :: 0 <= i < MaxImages ==> form[i].ImagePart? && form[i].field == Slots[i] && form[i].uri == images[i]
    ensures forall i :: 0 <= i < |vitals| ==> form[MaxImages + i] == TextPart(vitals[i].0, vitals[i].1)
    ensures form[|form| - 1] == TextPart("reportType", Or(reportType, Str("Report")))
  {
    [ImagePart("ecg", images[0], "image/jpeg", "ecg.jpg"),
     ImagePart("echo", images[1], "image/jpeg", "echo.jpg"),
     ImagePart("xray", images[2], "image/jpeg", "xray.jpg")]
    + seq(|vitals|, i requires 0 <= i < |vitals| => TextPart(vitals[i].0, vitals[i].1))
    + [TextPart("reportType", Or(reportType, Str("Report")))]
  }

  /** The component state. */
  class CameraView {
    var images: seq<string>
    var facing: Facing

    ghost predicate Valid()
      reads this
    {
      |images| <= MaxImages
    }

    constructor ()
      ensures Valid() && images == [] && facing == Back
    {
      images := [];
      facing := Back;
    }

    method ToggleCameraFacing()
      modifies this
      ensures facing == Toggled(old(facing)) && images == old(images)
    {
      facing := if facing == Back then Front else Back;
    }

    /** `takePicture`: `photo` is None while the camera is not mounted. */
    method TakePicture(photo: Option<string>)
      requires Valid()
      modifies this
      ensures Valid() && facing == old(facing)
      ensures photo.None? ==> images == old(images)
      ensures photo.Some? ==> images == FirstThree(old(images) + [photo.value])
    {
      if photo.Some? {
        images := FirstThree(images + [photo.value]);
      }
    }

    /** `pickImageFromGallery`: nothing changes when the picker is cancelled. */
    method PickImagesFromGallery(canceled: bool, uris: seq<string>)
      requires Valid()
      modifies this
      ensures Valid() && facing == old(facing)
      ensures canceled ==> images == old(images)
      ensures !canceled ==> images == FirstThree(old(images) + uris)
    {
      if !canceled {
        images := FirstThree(images + uris);
      }
    }

    method ClearImages()
      modifies this
      ensures Valid() && images == [] && facing == old(facing)
    {
      images := [];
    }

    /** `uploadReport`: no request unless exactly three images are held. */
    method UploadReport(vitals: seq<(string, Value)>, reportType: Value) returns (form: Option<seq<FormPart>>)
      ensures form.None? <==> |images| != MaxImages
      ensures form.Some? ==> form.value == UploadForm(images, vitals, reportType)
    {
      if |images| != MaxImages {
        return None;
      }
      var parts := [ImagePart("ecg", images[0], "image/jpeg", "ecg.jpg"),
                    ImagePart("echo", images[1], "image/jpeg", "echo.jpg"),
                    ImagePart("xray", images[2], "image/jpeg", "xray.jpg")];
      var i := 0;
      while i < |vitals|
        invariant 0 <= i <= |vitals|
        invariant parts == UploadForm(images, vitals, reportType)[..MaxImages + i]
      {
        parts := parts + [TextPart(vitals[i].0, vitals[i].1)];
        i := i + 1;
      }
      parts := parts + [TextPart("reportType", Or(reportType, Str("Report")))];
      form := Some(parts);
    }
  }

  /** `res.data.status === "success"`: the condition for moving on to the
      result screen. */
  function ShowsResult(data: Value): (shown: bool)
    ensures shown <==> Prop(data, "status") == Str("success")
  {
    Prop(data, "status") == Str("success")
  }

  /** The prediction route's reply has no `status` field, so a successful
      prediction never takes the screen to its result. */
  lemma PredictReplyNeverShowsResult(r: PredictRoute.PredictReply)
    requires r.Predicted?
    ensures !ShowsResult(Object(PredictRoute.ReplyJson(r)))
  {
    assert "status" !in PredictRoute.ReplyJson(r);
  }

  /** A fourth capture leaves the list as it was. */
  lemma FourthCaptureDropped(images: seq<string>, photo: string)
    requires |images| == MaxImages
    ensures FirstThree(images + [photo]) == images
  {
    FullListUnchanged(images, [photo]);
  }
}
