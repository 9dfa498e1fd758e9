/** The user-report upload route: up to five images stored on disk under
    a timestamped name, and a record linking them to a vitals entry. */
module UserReports {
  import opened Wrappers
  import opened Text
  import opened Js

  /** A file as multer's disk storage hands it over. */
  datatype SavedFile = SavedFile(originalname: string, filename: string)

  datatype UserReport = UserReport(
    id: nat, userId: nat, vitalsId: Value, reportType: Value, images: seq<string>, date: nat)

  /** `Uploaded` carries the report type the message `${reportType} uploaded
      successfully` interpolates. `Failed` is the 500 of a thrown error. */
  datatype UploadReply = Uploaded(reportType: Value) | Missing(message: string) | Failed

  /** The message of a successful upload when the type is text. */
  function UploadMessage(reportType: string): (m: string)
    ensures |m| == |reportType| + 22
    ensures m[..|reportType|] == reportType && m[|reportType|..] == " uploaded successfully"
  {
    reportType + " uploaded successfully"
  }

  /** Multer's `filename` callback: `${Date.now()}_${file.originalname}`. */
  function DiskName(now: nat, originalname: string): (name: string)
    ensures |name| == |NatText(now)| + 1 + |originalname|
    ensures name[..|NatText(now)|] == NatText(now)
    ensures name[|NatText(now)|] == '_'
    ensures name[|NatText(now)| + 1..] == originalname
  {
    NatText(now) + "_" + originalname
  }

  /** The timestamp and the original name can both be read back from the
      stored name: the digits end at the first underscore. */
  lemma DiskNameSplits(now: nat, originalname: string)
    ensures BeforeFirst(DiskName(now, originalname), '_') == NatText(now)
    ensures StringToNumber(BeforeFirst(DiskName(now, originalname), '_')) == Finite(now as real)
  {
    var name := DiskName(now, originalname);
    var digits := NatText(now);
    var r := BeforeFirst(name, '_');
    forall i | 0 <= i < |digits|
      ensures digits[i] != '_'
    {
      assert IsDigitIn(digits[i], 10);
    }
    assert r == name[..|digits|];
    NatTextRoundTrip(now);
  }

  /** `req.files.map(f => f.filename)`; None where `req.files` is undefined
      and `map` throws. */
  function StoredNames(files: Option<seq<SavedFile>>): (names: Option<seq<string>>)
    ensures names.Some? <==> files.Some?
    ensures names.Some? ==> |names.value| == |files.value|
    ensures names.Some? ==> forall i :: 0 <= i < |files.value| ==> names.value[i] == files.value[i].filename
  {
    match files
    case None => None
    case Some(fs) => Some(seq(|fs|, i requires 0 <= i < |fs| => fs[i].filename))
  }

  class UserReportStore {
    var records: seq<UserReport>
    var nextId: nat

    ghost predicate Valid()
      reads this
    {
      forall i :: 0 <= i < |records| ==> records[i].id < nextId
    }

    constructor ()
      ensures Valid() && records == []
    {
      records := [];
      nextId := 0;
    }

    /** `POST /`: both fields are required; the record lists the stored
        file names in upload order and is dated `now`. */
    method Upload(caller: nat, body: map<string, Value>, files: Option<seq<SavedFile>>, now: nat)
      returns (reply: UploadReply)
      requires Valid()
      modifies this
      ensures Valid()
      ensures !Truthy(Get(body, "vitalsId")) || !Truthy(Get(body, "reportType")) ==>
                reply == Missing("vitalsId and reportType required") && unchanged(this)
      ensures Truthy(Get(body, "vitalsId")) && Truthy(Get(body, "reportType")) && files.None? ==>
                reply == Failed && unchanged(this)
      ensures Truthy(Get(body, "vitalsId")) && Truthy(Get(body, "reportType")) && files.Some? ==>
                var rec := UserReport(old(nextId), caller, Get(body, "vitalsId"), Get(body, "reportType"),
                                      StoredNames(files).value, now);
                reply == Uploaded(Get(body, "reportType")) &&
                records == old(records) + [rec] && nextId == old(nextId) + 1
    {
      var vitalsId := Get(body, "vitalsId");
      var reportType := Get(body, "reportType");
      if !Truthy(vitalsId) || !Truthy(reportType) {
        return Missing("vitalsId and reportType required");
      }
      var images := StoredNames(files);
      if images.None? {
        return Failed;
      }
      var rec := UserReport(nextId, caller, vitalsId, reportType, images.value, now);
      records := records + [rec];
      nextId := nextId + 1;
      reply := Uploaded(reportType);
    }
  }
}
