/** The Report collection and the five handlers that write or read it:
    the unified reports route (create, list, get, delete), the route that
    saves uploaded files with a report, the image-report route (file or
    base64 image, history by date) and the result controller (text result,
    upload to the analysis service, listing). Every record is tagged with
    the id of the authenticated caller. */
module Reports {
  import opened Wrappers
  import opened Text
  import opened Js
  import opened Listing

  /** A file multer hands to a handler; `filename` is the name it was
      stored under on disk (disk storage only). */
  datatype UploadedFile = UploadedFile(originalname: string, mimetype: string, bytes: seq<int>, filename: string)

  /** `{ data, base64, contentType }` of an uploaded file; the base64 text
      is the encoding of `data` and is not kept separately here. */
  datatype FileImage = FileImage(data: seq<int>, contentType: string)

  /** The template string `${status} - Disease Probability: ${probability}`,
      kept as its two interpolated values. */
  datatype Summary = Summary(status: Value, probability: Value)

  /** What each handler stores besides the common fields. */
  datatype Content =
    | Analysis(risk: Value, recommendation: Value, finalProbability: Value,
               userData: Value, rawResult: Value, images: Value)
    | UploadedImages(risk: Value, recommendation: Value, finalProbability: Value,
                     userData: Value, files: seq<FileImage>)
    | ImageFile(imagePath: string, imageBase64: Option<string>, date: nat)
    | TextResult(textResult: map<string, Value>, stored: seq<FileImage>)
    | ModelResult(textResult: map<string, Value>, colabResult: Value, summary: Summary,
                  stored: seq<FileImage>)

  datatype Report = Report(
    id: nat, userId: nat, reportName: Value, reportType: Value, content: Content, createdAt: nat)

  datatype Reply =
    | Created(report: Report)
    | Found(report: Report)
    | Deleted
    | BadRequest(message: string)
    | NotFound(message: string)
    | ServerError(message: string)

  // ---------------------------------------------------------------------
  // Request checks
  // ---------------------------------------------------------------------

  /** `!reportName || reportName.trim() === ""`: Blank rejects with 400;
      NotText is a truthy non-string, whose missing `trim` throws (500). */
  datatype NameCheck = Blank | NotText | Named(name: string)

  function CheckName(v: Value): (c: NameCheck)
    ensures c.Named? <==> v.Str? && !AllSpace(v.s)
    ensures c.Named? ==> v == Str(c.name)
    ensures c.NotText? <==> Truthy(v) && !v.Str?
  {
    if !Truthy(v) then Blank
    else if !v.Str? then NotText
    else
      TrimEmptyIffAllSpace(v.s);
      if Trim(v.s) == "" then Blank else Named(v.s)
  }

  /** The check reads `trim`: a name is accepted exactly when its trim is
      not empty. */
  lemma CheckNameIsTrimTest(s: string)
    ensures CheckName(Str(s)).Named? <==> Trim(s) != ""
  {
    TrimEmptyIffAllSpace(s);
  }

  /** The fields `saveResult` requires and stores. */
  const ResultFields: seq<string> :=
    ["reportName", "reportType", "bpm", "status", "age", "weight", "bp", "sugar", "cholesterol"]

  /** No listed field is falsy; the order of the tests does not matter. */
  predicate AllTruthy(body: map<string, Value>, keys: seq<string>): (b: bool)
    ensures b <==> forall k :: k in keys ==> Truthy(Get(body, k))
  {
    forall i :: 0 <= i < |keys| ==> Truthy(Get(body, keys[i]))
  }

  /** `{ reportName, reportType, bpm, ... }` read from the body. */
  function TextFields(body: map<string, Value>): (m: map<string, Value>)
    ensures m.Keys == set k | k in ResultFields
    ensures forall k :: k in m ==> m[k] == Get(body, k)
  {
    map k | k in ResultFields :: Get(body, k)
  }

  /** `req.files.map(file => ({ data, base64, contentType }))`. */
  function ImagesOf(files: seq<UploadedFile>): (images: seq<FileImage>)
    ensures |images| == |files|
    ensures forall i :: 0 <= i < |files| ==>
              images[i] == FileImage(files[i].bytes, files[i].mimetype)
  {
    seq(|files|, i requires 0 <= i < |files| => FileImage(files[i].bytes, files[i].mimetype))
  }

  // ---------------------------------------------------------------------
  // The image-report route's choice of image
  // ---------------------------------------------------------------------

  const ImageTypes: seq<string> := ["ECG", "ETT", "Echo"]
  const MaxStoredBase64 := 500000
  const DataUrlStart := "data:image/"
  const DataUrlEnd := ";base64,"

  /** A character of the regular-expression class `\w`. */
  predicate IsWordChar(c: char) {
    ('a' <= c <= 'z') || ('A' <= c <= 'Z') || ('0' <= c <= '9') || c == '_'
  }

  /** The length of the run of word characters at the start of `s`. */
  function WordRun(s: string): (n: nat)
    ensures n <= |s|
    ensures forall i :: 0 <= i < n ==> IsWordChar(s[i])
    ensures n < |s| ==> !IsWordChar(s[n])
  {
    if s != [] && IsWordChar(s[0]) then 1 + WordRun(s[1..]) else 0
  }

  /** `s.replace(/^data:image\/\w+;base64,/, "")`. */
  function StripDataUrl(s: string): (r: string)
    ensures |r| <= |s| && r == s[|s| - |r|..]
    ensures !StartsWith(s, DataUrlStart) ==> r == s
  {
    if !StartsWith(s, DataUrlStart) then s
    else
      var rest := s[|DataUrlStart|..];
      var n := WordRun(rest);
      if n > 0 && StartsWith(rest[n..], DataUrlEnd) then rest[n + |DataUrlEnd|..] else s
  }

  /** A run of word characters ends where the first other character is. */
  lemma {:induction false} WordRunOf(w: string, t: string)
    requires forall i :: 0 <= i < |w| ==> IsWordChar(w[i])
    requires t != [] && !IsWordChar(t[0])
    ensures WordRun(w + t) == |w|
  {
    if w != [] {
      assert (w + t)[1..] == w[1..] + t;
      WordRunOf(w[1..], t);
    }
  }

  /** The prefix of a data URL is removed for every non-empty image subtype
      made of word characters, whatever follows it. */
  lemma StripAnyDataUrl(w: string, payload: string)
    requires w != [] && forall i :: 0 <= i < |w| ==> IsWordChar(w[i])
    ensures StripDataUrl(DataUrlStart + w + DataUrlEnd + payload) == payload
  {
    var s := DataUrlStart + w + DataUrlEnd + payload;
    assert s[..|DataUrlStart|] == DataUrlStart;
    var rest := s[|DataUrlStart|..];
    assert rest == w + (DataUrlEnd + payload);
    WordRunOf(w, DataUrlEnd + payload);
    assert rest[|w|..] == DataUrlEnd + payload;
    assert (DataUrlEnd + payload)[..|DataUrlEnd|] == DataUrlEnd;
    assert rest[|w| + |DataUrlEnd|..] == payload;
  }

  /** The prefix of a PNG data URL is removed, whatever follows it. */
  lemma StripPngDataUrl(payload: string)
    ensures StripDataUrl("data:image/png;base64," + payload) == payload
  {
    assert "data:image/png;base64," + payload == DataUrlStart + "png" + DataUrlEnd + payload;
    StripAnyDataUrl("png", payload);
  }

  /** The base64 text written to disk: name and content. */
  datatype WrittenFile = WrittenFile(name: string, base64: string)

  /** The image the route records, or the reply that stops it. */
  datatype ImageChoice =
    | Rejected(reply: Reply)
    | Chosen(imagePath: string, imageBase64: Option<string>, written: Option<WrittenFile>)

  /** The steps of the image-report POST up to `Report.create`: presence,
      the type whitelist, then a multipart file before `imageBase64`. */
  function ChooseImage(body: map<string, Value>, file: Option<UploadedFile>, now: nat, random: string): (c: ImageChoice)
    ensures !Truthy(Get(body, "reportName")) || !Truthy(Get(body, "reportType")) ==>
              c == Rejected(BadRequest("reportName and reportType are required"))
    ensures Truthy(Get(body, "reportType")) && !(Get(body, "reportType").Str? && Get(body, "reportType").s in ImageTypes) ==>
              c.Rejected? && c.reply.BadRequest?
    ensures c.Chosen? ==> Get(body, "reportType").Str? && Get(body, "reportType").s in ImageTypes
    ensures c.Chosen? && file.Some? ==>
              c == Chosen("/uploads/reports/" + file.value.filename, None, None)
    ensures file.None? && !Truthy(Get(body, "imageBase64")) ==> c.Rejected? && c.reply.BadRequest?
    ensures c.Chosen? && file.None? ==>
              var b := Get(body, "imageBase64");
              && b.Str?
              && c.written == Some(WrittenFile(NatText(now) + "_" + random + ".png", StripDataUrl(b.s)))
              && c.imagePath == "/uploads/reports/" + c.written.value.name
              && (c.imageBase64.Some? <==> Utf16Length(b.s) <= MaxStoredBase64)
              && (c.imageBase64.Some? ==> c.imageBase64.value == b.s)
    ensures Truthy(Get(body, "reportName")) && Get(body, "reportType").Str? && Get(body, "reportType").s in ImageTypes ==>
              var b := Get(body, "imageBase64");
              && (file.Some? || (b.Str? && Truthy(b)) ==> c.Chosen?)
              && (file.None? && Truthy(b) && !b.Str? ==> c == Rejected(ServerError("Server error")))
  {
    var reportName := Get(body, "reportName");
    var reportType := Get(body, "reportType");
    var imageBase64 := Get(body, "imageBase64");
    if !Truthy(reportName) || !Truthy(reportType) then
      Rejected(BadRequest("reportName and reportType are required"))
    else if !(reportType.Str? && reportType.s in ImageTypes) then
      Rejected(BadRequest("Invalid reportType"))
    else if file.Some? then
      Chosen("/uploads/reports/" + file.value.filename, None, None)
    else if Truthy(imageBase64) then
      if !imageBase64.Str? then Rejected(ServerError("Server error"))
      else
        var filename := NatText(now) + "_" + random + ".png";
        Chosen("/uploads/reports/" + filename,
               if Utf16Length(imageBase64.s) > MaxStoredBase64 then None else Some(imageBase64.s),
               Some(WrittenFile(filename, StripDataUrl(imageBase64.s))))
    else
      Rejected(BadRequest("No image provided (file or imageBase64)"))
  }

  // ---------------------------------------------------------------------
  // The records each handler builds
  // ---------------------------------------------------------------------

  /** The unified route's record: type "General" and images [] by default. */
  function AnalysisReport(id: nat, caller: nat, name: string, body: map<string, Value>, now: nat): (r: Report)
    ensures r.id == id && r.userId == caller && r.reportName == Str(name) && r.createdAt == now
    ensures !Truthy(Get(body, "reportType")) ==> r.reportType == Str("General")
    ensures Truthy(Get(body, "reportType")) ==> r.reportType == Get(body, "reportType")
    ensures r.content.Analysis?
    ensures r.content.risk == Get(body, "risk") && r.content.recommendation == Get(body, "recommendation")
    ensures r.content.finalProbability == Get(body, "finalProbability") && r.content.userData == Get(body, "userData")
    ensures r.content.rawResult == Get(body, "rawResult")
    ensures !Truthy(Get(body, "images")) ==> r.content.images == Array([])
    ensures Truthy(Get(body, "images")) ==> r.content.images == Get(body, "images")
  {
    Report(id, caller, Str(name), Or(Get(body, "reportType"), Str("General")),
           Analysis(Get(body, "risk"), Get(body, "recommendation"), Get(body, "finalProbability"),
                    Get(body, "userData"), Get(body, "rawResult"), Or(Get(body, "images"), Array([]))),
           now)
  }

  /** The file route's record: one image entry per uploaded file, in order. */
  function FilesReport(id: nat, caller: nat, name: string, body: map<string, Value>,
                       files: Option<seq<UploadedFile>>, now: nat): (r: Report)
    ensures r.id == id && r.userId == caller && r.reportName == Str(name) && r.createdAt == now
    ensures !Truthy(Get(body, "reportType")) ==> r.reportType == Str("General")
    ensures Truthy(Get(body, "reportType")) ==> r.reportType == Get(body, "reportType")
    ensures r.content.UploadedImages?
    ensures r.content.risk == Get(body, "risk") && r.content.recommendation == Get(body, "recommendation")
    ensures r.content.finalProbability == Get(body, "finalProbability") && r.content.userData == Get(body, "userData")
    ensures files.None? ==> r.content.files == []
    ensures files.Some? ==> r.content.files == ImagesOf(files.value)
  {
    Report(id, caller, Str(name), Or(Get(body, "reportType"), Str("General")),
           UploadedImages(Get(body, "risk"), Get(body, "recommendation"), Get(body, "finalProbability"),
                          Get(body, "userData"), if files.Some? then ImagesOf(files.value) else []),
           now)
  }

  function Owns(r: Report, id: nat, caller: nat): bool {
    r.id == id && r.userId == caller
  }

  /** The position of the record with this id and owner. */
  function IndexOf(rs: seq<Report>, id: nat, caller: nat): (k: Option<nat>)
    ensures k.Some? ==> k.value < |rs| && Owns(rs[k.value], id, caller)
    ensures k.None? <==> forall i :: 0 <= i < |rs| ==> !Owns(rs[i], id, caller)
  {
    if rs == [] then None
    else if Owns(rs[0], id, caller) then Some(0)
    else
      match IndexOf(rs[1..], id, caller)
      case Some(k) => Some(k + 1)
      case None =>
        assert forall i :: 1 <= i < |rs| ==> rs[i] == rs[1..][i - 1];
        None
  }

  /** The sort key of the history query: `date`, which only image reports
      carry; a record without it sorts after every dated one. */
  function DateKey(r: Report): int {
    if r.content.ImageFile? then r.content.date else -1
  }

  lemma NamesAreImageFields(i: nat, j: nat)
    requires "image" + NatText(i) == "image" + NatText(j)
    ensures i == j
  {
    assert NatText(i) == ("image" + NatText(i))[5..];
    assert NatText(j) == ("image" + NatText(j))[5..];
  }

  // ---------------------------------------------------------------------
  // The form sent to the analysis service
  // ---------------------------------------------------------------------

  datatype FormValue = FilePart(file: UploadedFile) | TextPart(value: Value)
  datatype FormField = FormField(name: string, value: FormValue)

  /** `image1`, `image2`, ... in upload order. */
  function ImageFields(files: seq<UploadedFile>): (fields: seq<FormField>)
    ensures |fields| == |files|
    ensures forall i :: 0 <= i < |files| ==>
              fields[i] == FormField("image" + NatText(i + 1), FilePart(files[i]))
  {
    seq(|files|, i requires 0 <= i < |files| => FormField("image" + NatText(i + 1), FilePart(files[i])))
  }

  /** The image fields are named apart. */
  lemma ImageFieldNamesDistinct(files: seq<UploadedFile>, i: nat, j: nat)
    requires i < j < |files|
    ensures ImageFields(files)[i].name != ImageFields(files)[j].name
  {
    if ImageFields(files)[i].name == ImageFields(files)[j].name {
      NamesAreImageFields(i + 1, j + 1);
    }
  }

  const FormTextKeys: seq<string> := ["age", "weight", "bp", "sugar", "cholesterol"]

  /** form-data's `append` reads properties of the value it is given, so
      an undefined or null text field throws before anything is sent. */
  predicate TextFieldsAppendable(body: map<string, Value>) {
    forall i :: 0 <= i < |FormTextKeys| ==> !IsNullish(Get(body, FormTextKeys[i]))
  }

  function ColabForm(files: seq<UploadedFile>, body: map<string, Value>): (form: seq<FormField>)
    ensures |form| == |files| + |FormTextKeys|
    ensures form[..|files|] == ImageFields(files)
    ensures forall i :: 0 <= i < |FormTextKeys| ==>
              form[|files| + i] == FormField(FormTextKeys[i], TextPart(Get(body, FormTextKeys[i])))
  {
    ImageFields(files) +
      seq(|FormTextKeys|, i requires 0 <= i < |FormTextKeys| =>
            FormField(FormTextKeys[i], TextPart(Get(body, FormTextKeys[i]))))
  }

  /** The `req.files.forEach` step: one file part per upload, in order. */
  method AppendImageParts(files: seq<UploadedFile>) returns (fields: seq<FormField>)
    ensures fields == ImageFields(files)
  {
    fields := [];
    var idx := 0;
    while idx < |files|
      invariant 0 <= idx <= |files|
      invariant fields == ImageFields(files)[..idx]
    {
      fields := fields + [FormField("image" + NatText(idx + 1), FilePart(files[idx]))];
      idx := idx + 1;
    }
    assert ImageFields(files)[..|files|] == ImageFields(files);
  }

  /** The `formData.append` steps: one file part per upload in order, then
      the five text fields; None where an append throws. */
  method BuildColabForm(files: seq<UploadedFile>, body: map<string, Value>) returns (form: Option<seq<FormField>>)
    ensures form.Some? <==> TextFieldsAppendable(body)
    ensures form.Some? ==> form.value == ColabForm(files, body)
  {
    var fields := AppendImageParts(files);
    ghost var whole := ColabForm(files, body);
    var k := 0;
    while k < |FormTextKeys|
      invariant 0 <= k <= |FormTextKeys|
      invariant forall i :: 0 <= i < k ==> !IsNullish(Get(body, FormTextKeys[i]))
      invariant fields == whole[..|files| + k]
    {
      var value := Get(body, FormTextKeys[k]);
      if IsNullish(value) {
        return None;
      }
      assert whole[..|files| + k + 1] == whole[..|files| + k] + [whole[|files| + k]];
      fields := fields + [FormField(FormTextKeys[k], TextPart(value))];
      k := k + 1;
    }
    assert whole[..|whole|] == whole;
    form := Some(fields);
  }

  /** The analysis service: the form in, the response data out, or None
      when the request fails. */
  type Colab = seq<FormField> -> Option<Value>

  predicate IdsIncreasing(rs: seq<Report>) {
    forall i, j :: 0 <= i < j < |rs| ==> rs[i].id < rs[j].id
  }

  /** A record appended under an id no earlier record has is the one found
      for its owner, and nobody else's. */
  lemma FreshIdIsFound(rs: seq<Report>, rec: Report)
    requires forall i :: 0 <= i < |rs| ==> rs[i].id < rec.id
    ensures forall caller: nat :: IndexOf(rs + [rec], rec.id, caller) ==
              if caller == rec.userId then Some(|rs|) else None
  {
    forall caller: nat
      ensures IndexOf(rs + [rec], rec.id, caller) == if caller == rec.userId then Some(|rs|) else None
    {
      var all := rs + [rec];
      assert forall i :: 0 <= i < |rs| ==> !Owns(all[i], rec.id, caller);
      assert all[|rs|] == rec;
      var k := IndexOf(all, rec.id, caller);
      if k.Some? {
        assert k.value == |rs|;
      }
      if caller != rec.userId {
        assert forall i :: 0 <= i < |all| ==> !Owns(all[i], rec.id, caller);
      }
    }
  }

  /** Removing the matching record removes the only one with its id and
      keeps every other record, in order. */
  lemma RemoveAtKeepsOthers(rs: seq<Report>, k: nat, id: nat, caller: nat)
    requires IdsIncreasing(rs) && k < |rs| && Owns(rs[k], id, caller)
    ensures var rest := rs[..k] + rs[k + 1..];
      && IdsIncreasing(rest)
      && (forall r :: r in rest ==> r in rs && !Owns(r, id, caller))
      && (forall r :: r in rs && !Owns(r, id, caller) ==> r in rest)
  {
    var rest := rs[..k] + rs[k + 1..];
    assert forall i :: 0 <= i < |rest| ==> rest[i] == if i < k then rs[i] else rs[i + 1];
    forall r | r in rest
      ensures r in rs && !Owns(r, id, caller)
    {
      var i :| 0 <= i < |rest| && rest[i] == r;
      if i < k {
        assert rs[i].id < rs[k].id;
      } else {
        assert rs[k].id < rs[i + 1].id;
      }
    }
    forall r | r in rs && !Owns(r, id, caller)
      ensures r in rest
    {
      var i :| 0 <= i < |rs| && rs[i] == r;
      if i < k {
        assert rest[i] == r;
      } else {
        assert i != k;
        assert rest[i - 1] == r;
      }
    }
  }

  // ---------------------------------------------------------------------
  // The collection
  // ---------------------------------------------------------------------

  class ReportStore {
    var records: seq<Report>
    var nextId: nat

    /** Ids are handed out in increasing order and never reused. */
    ghost predicate Valid()
      reads this
    {
      && IdsIncreasing(records)
      && (forall i :: 0 <= i < |records| ==> records[i].id < nextId)
    }

    constructor ()
      ensures Valid() && records == []
    {
      records := [];
      nextId := 0;
    }

    /** `save()` of a new document, which gets the next id. */
    method Append(rec: Report)
      requires Valid() && rec.id == nextId
      modifies this
      ensures Valid()
      ensures records == old(records) + [rec] && nextId == old(nextId) + 1
    {
      records := records + [rec];
      nextId := nextId + 1;
    }

    /** `find({ userId }).sort({ createdAt: -1 })`. */
    function ListNewest(caller: nat): (list: seq<Report>)
      reads this
      ensures forall r :: r in list <==> r in records && r.userId == caller
      ensures NewestFirstBy(list, (r: Report) => r.createdAt)
      ensures multiset(list) == multiset(Filter(records, (r: Report) => r.userId == caller))
    {
      NewestFirst(Filter(records, (r: Report) => r.userId == caller), (r: Report) => r.createdAt)
    }

    /** `find({ userId }).sort({ date: -1 })`. */
    function HistoryByDate(caller: nat): (list: seq<Report>)
      reads this
      ensures forall r :: r in list <==> r in records && r.userId == caller
      ensures NewestFirstBy(list, DateKey)
      ensures multiset(list) == multiset(Filter(records, (r: Report) => r.userId == caller))
    {
      NewestFirst(Filter(records, (r: Report) => r.userId == caller), DateKey)
    }

    /** `findOne({ _id: id, userId })`. */
    function Find(caller: nat, id: nat): (found: Option<Report>)
      reads this
      ensures found.Some? ==> found.value in records && Owns(found.value, id, caller)
      ensures found.None? <==> forall r :: r in records ==> !Owns(r, id, caller)
    {
      match IndexOf(records, id, caller)
      case Some(k) => Some(records[k])
      case None => None
    }

    /** `GET /api/reports/:id`. */
    method Lookup(caller: nat, id: nat) returns (reply: Reply)
      ensures Find(caller, id).None? ==> reply == NotFound("Report not found")
      ensures Find(caller, id).Some? ==> reply == Found(Find(caller, id).value)
    {
      var report := Find(caller, id);
      if report.None? {
        return NotFound("Report not found");
      }
      reply := Found(report.value);
    }

    /** `POST /api/reports`. */
    method Save(caller: nat, body: map<string, Value>, now: nat) returns (reply: Reply)
      requires Valid()
      modifies this
      ensures Valid()
      ensures CheckName(Get(body, "reportName")).Blank? ==>
                reply == BadRequest("Report name is required") && unchanged(this)
      ensures CheckName(Get(body, "reportName")).NotText? ==>
                reply == ServerError("Server error while saving report") && unchanged(this)
      ensures CheckName(Get(body, "reportName")).Named? ==>
                var rec := AnalysisReport(old(nextId), caller, CheckName(Get(body, "reportName")).name, body, now);
                reply == Created(rec) && records == old(records) + [rec] && nextId == old(nextId) + 1
      ensures CheckName(Get(body, "reportName")).Named? ==>
                var rec := AnalysisReport(old(nextId), caller, CheckName(Get(body, "reportName")).name, body, now);
                && Find(caller, old(nextId)) == Some(rec)
                && forall other: nat :: other != caller ==> Find(other, old(nextId)).None?
    {
      var check := CheckName(Get(body, "reportName"));
      if check.Blank? {
        return BadRequest("Report name is required");
      } else if check.NotText? {
        return ServerError("Server error while saving report");
      }
      var rec := AnalysisReport(nextId, caller, check.name, body, now);
      FreshIdIsFound(records, rec);
      Append(rec);
      reply := Created(rec);
    }

    /** `DELETE /api/reports/:id`: `findOneAndDelete({ _id: id, userId })`. */
    method Delete(caller: nat, id: nat) returns (reply: Reply)
      requires Valid()
      modifies this
      ensures Valid()
      ensures old(Find(caller, id)).None? ==>
                reply == NotFound("Report not found or not authorized") && unchanged(this)
      ensures old(Find(caller, id)).Some? ==>
                var k := IndexOf(old(records), id, caller).value;
                reply == Deleted && records == old(records)[..k] + old(records)[k + 1..]
      ensures Find(caller, id).None?
      ensures forall r :: r in old(records) && !Owns(r, id, caller) ==> r in records
      ensures forall r :: r in records ==> r in old(records)
      ensures nextId == old(nextId)
    {
      var index := IndexOf(records, id, caller);
      if index.None? {
        return NotFound("Report not found or not authorized");
      }
      var k := index.value;
      RemoveAtKeepsOthers(records, k, id, caller);
      records := records[..k] + records[k + 1..];
      reply := Deleted;
    }

    /** `POST` of the file route: a report with one entry per uploaded file. */
    method SaveWithFiles(caller: nat, body: map<string, Value>, files: Option<seq<UploadedFile>>, now: nat)
      returns (reply: Reply)
      requires Valid()
      modifies this
      ensures Valid()
      ensures CheckName(Get(body, "reportName")).Blank? ==>
                reply == BadRequest("Report name is required") && unchanged(this)
      ensures CheckName(Get(body, "reportName")).NotText? ==>
                reply == ServerError("Server error while saving report") && unchanged(this)
      ensures CheckName(Get(body, "reportName")).Named? ==>
                var rec := FilesReport(old(nextId), caller, CheckName(Get(body, "reportName")).name, body, files, now);
                reply == Created(rec) && records == old(records) + [rec]
    {
      var check := CheckName(Get(body, "reportName"));
      if check.Blank? {
        return BadRequest("Report name is required");
      } else if check.NotText? {
        return ServerError("Server error while saving report");
      }
      var images: seq<FileImage> := [];
      if files.Some? {
        images := ImagesOf(files.value);
      }
      var rec := Report(nextId, caller, Str(check.name), Or(Get(body, "reportType"), Str("General")),
                        UploadedImages(Get(body, "risk"), Get(body, "recommendation"),
                                       Get(body, "finalProbability"), Get(body, "userData"), images),
                        now);
      Append(rec);
      reply := Created(rec);
    }

    /** `POST` of the image-report route. */
    method SaveImageReport(caller: nat, body: map<string, Value>, file: Option<UploadedFile>, now: nat, random: string)
      returns (reply: Reply, written: Option<WrittenFile>)
      requires Valid()
      modifies this
      ensures Valid()
      ensures ChooseImage(body, file, now, random).Rejected? ==>
                reply == ChooseImage(body, file, now, random).reply && written.None? && unchanged(this)
      ensures ChooseImage(body, file, now, random).Chosen? ==>
                var c := ChooseImage(body, file, now, random);
                var rec := Report(old(nextId), caller, Get(body, "reportName"), Get(body, "reportType"),
                                  ImageFile(c.imagePath, c.imageBase64, now), now);
                reply == Created(rec) && written == c.written && records == old(records) + [rec]
    {
      var choice := ChooseImage(body, file, now, random);
      if choice.Rejected? {
        return choice.reply, None;
      }
      var rec := Report(nextId, caller, Get(body, "reportName"), Get(body, "reportType"),
                        ImageFile(choice.imagePath, choice.imageBase64, now), now);
      Append(rec);
      reply, written := Created(rec), choice.written;
    }

    /** `saveResult`: the nine fields are required and stored, with no images. */
    method SaveResult(caller: nat, body: map<string, Value>, now: nat) returns (reply: Reply)
      requires Valid()
      modifies this
      ensures Valid()
      ensures !AllTruthy(body, ResultFields) ==> reply == BadRequest("All fields are required") && unchanged(this)
      ensures AllTruthy(body, ResultFields) ==>
                var rec := Report(old(nextId), caller, Get(body, "reportName"), Get(body, "reportType"),
                                  TextResult(TextFields(body), []), now);
                reply == Created(rec) && records == old(records) + [rec]
    {
      var i := 0;
      while i < |ResultFields|
        invariant 0 <= i <= |ResultFields|
        invariant forall j :: 0 <= j < i ==> Truthy(Get(body, ResultFields[j]))
      {
        if !Truthy(Get(body, ResultFields[i])) {
          return BadRequest("All fields are required");
        }
        i := i + 1;
      }
      var rec := Report(nextId, caller, Get(body, "reportName"), Get(body, "reportType"),
                        TextResult(TextFields(body), []), now);
      Append(rec);
      reply := Created(rec);
    }

    /** `uploadResult`: at least one file, the form sent to the analysis
        service, and a record with its answer and a summary. */
    method UploadResult(caller: nat, body: map<string, Value>, files: seq<UploadedFile>, colab: Colab, now: nat)
      returns (reply: Reply)
      requires Valid()
      modifies this
      ensures Valid()
      ensures files == [] ==> reply == BadRequest("Please upload at least one image") && unchanged(this)
      ensures files != [] && !TextFieldsAppendable(body) ==>
                reply == ServerError("Failed to upload report") && unchanged(this)
      ensures files != [] && TextFieldsAppendable(body) && colab(ColabForm(files, body)).None? ==>
                reply == ServerError("Failed to upload report") && unchanged(this)
      ensures files != [] && TextFieldsAppendable(body) && colab(ColabForm(files, body)).Some? ==>
                var answer := colab(ColabForm(files, body)).value;
                var summary := Summary(Get(body, "status"), Or(Prop(answer, "disease_probability"), Str("Unknown")));
                var rec := Report(old(nextId), caller, Get(body, "reportName"), Get(body, "reportType"),
                                  ModelResult(TextFields(body), answer, summary, ImagesOf(files)), now);
                reply == Created(rec) && records == old(records) + [rec]
    {
      if |files| == 0 {
        return BadRequest("Please upload at least one image");
      }
      var form := BuildColabForm(files, body);
      if form.None? {
        return ServerError("Failed to upload report");
      }
      var response := colab(form.value);
      if response.None? {
        return ServerError("Failed to upload report");
      }
      var colabResult := response.value;
      var summary := Summary(Get(body, "status"), Or(Prop(colabResult, "disease_probability"), Str("Unknown")));
      var rec := Report(nextId, caller, Get(body, "reportName"), Get(body, "reportType"),
                        ModelResult(TextFields(body), colabResult, summary, ImagesOf(files)), now);
      Append(rec);
      reply := Created(rec);
    }
  }
}
