/*
 * The contact submission handler (`POST /api/contact`): validation of the
 * submitted fields, the Notion property map built one field at a time, the
 * three-step selfie upload (declare the upload, send the bytes, reference the
 * uploaded file), and the choice of status and response.
 *
 * The network is not modelled: each outbound call is recorded in a trace of
 * `Call`s and its answer comes from `Services`, a set of functions of the
 * call's arguments. The clock and the NOTION_TOKEN check are parameters.
 */
module Contact {
  import opened Js
  import opened Http
  import opened Notion

  const ContactDatabaseId := "263ab9fd5098816a8078e51a25238ed5"

  const NameRequired := "Name is required"
  const ConnectionRequired := "At least one connection method is required (email, phone, Twitter, or LinkedIn)"
  const SaveFailed := "Failed to save contact information. Please try again."
  const ServiceUnavailable := "Contact service not available. Please try again later."
  const Received := "Contact information received successfully!"
  const ProcessFailed := "Failed to process submission"
  const UploadFailedNote := "Selfie upload failed"

  /** The fields of the JSON body the handler reads. A body that is a number, a string or
      an array reads as a submission whose fields are all `Undefined`. */
  datatype Submission = Submission(
    name: Value,
    email: Value,
    phone: Value,
    twitter: Value,
    linkedin: Value,
    company: Value,
    source: Value,
    photo: Value)

  /** `data.email || data.phone || data.twitter || data.linkedin`: `company` does not count. */
  predicate HasConnection(d: Submission) {
    Truthy(d.email) || Truthy(d.phone) || Truthy(d.twitter) || Truthy(d.linkedin)
  }

  /** The submission passes both guards. The name is not trimmed: "  " passes. */
  predicate Accepted(d: Submission) {
    Truthy(d.name) && HasConnection(d)
  }

  // ---------------------------------------------------------------------
  // Photo helpers

  /** A character of the regular-expression class `\w`. */
  predicate IsWordChar(c: char) {
    ('a' <= c <= 'z') || ('A' <= c <= 'Z') || ('0' <= c <= '9') || c == '_'
  }

  /** A string matched by `\w+`. */
  predicate IsWord(w: string) {
    |w| > 0 && forall i :: 0 <= i < |w| ==> IsWordChar(w[i])
  }

  /** The length of the longest prefix of `s` made of word characters. */
  function WordPrefixLength(s: string): (k: nat)
    ensures k <= |s|
    ensures forall i :: 0 <= i < k ==> IsWordChar(s[i])
    ensures k < |s| ==> !IsWordChar(s[k])
  {
    if s == [] || !IsWordChar(s[0]) then 0 else 1 + WordPrefixLength(s[1..])
  }

  const ImagePrefix := "data:image/"
  const Base64Marker := ";base64,"

  /** The header of a base64 image data URL (section 3 of RFC 2397) with subtype `w`. */
  function DataUrlHeader(w: string): string {
    ImagePrefix + w + Base64Marker
  }

  /** Removes a leading `prefix`, word, `marker` from `s`, with the word taken as the longest
      run of word characters after `prefix`; leaves `s` alone when it does not start that way. */
  function StripHeader(prefix: string, marker: string, s: string): string {
    if |s| < |prefix| || s[..|prefix|] != prefix then s
    else
      var rest := s[|prefix|..];
      var k := WordPrefixLength(rest);
      var tail := rest[k..];
      if k > 0 && |tail| >= |marker| && tail[..|marker|] == marker then tail[|marker|..] else s
  }

  /** `photo.replace(/^data:image\/\w+;base64,/, '')`. Since `;` is not a word character,
      `\w+` can only match the longest run of word characters after "data:image/". */
  function StripDataUrlHeader(s: string): (r: string)
    ensures |r| <= |s| && r == s[|s| - |r|..]
  {
    StripHeader(ImagePrefix, Base64Marker, s)
  }

  /** `iso.replace(/[:.]/g, '-')`. */
  function DashColonsAndDots(s: string): (r: string)
    ensures |r| == |s|
    ensures forall i :: 0 <= i < |s| ==> r[i] == (if s[i] == ':' || s[i] == '.' then '-' else s[i])
  {
    if s == [] then []
    else [if s[0] == ':' || s[0] == '.' then '-' else s[0]] + DashColonsAndDots(s[1..])
  }

  /** `selfie-${timestamp}.png`, where `timestamp` is the ISO time with ':' and '.' turned into '-'. */
  function SelfieFilename(iso: string): (r: string)
    ensures |r| == |iso| + 11
    ensures r[..7] == "selfie-" && r[|r| - 4..] == ".png"
    ensures r[7..|r| - 4] == DashColonsAndDots(iso)
    ensures ':' !in r
    ensures forall i :: 0 <= i < |r| - 4 ==> r[i] != '.'
  {
    "selfie-" + DashColonsAndDots(iso) + ".png"
  }

  // ---------------------------------------------------------------------
  // The upload protocol

  /** The answer to the upload-declaration request: ok with the new upload's id, or not ok
      (a non-ok status or a thrown error alike). */
  datatype DeclareReply = Created(id: string) | Rejected

  /** The outside world, as seen by the handler. */
  datatype Services = Services(
    decodedLength: string -> nat,                // Buffer.from(data, 'base64').length
    declare: (string, nat) -> DeclareReply,      // POST /v1/file_uploads {filename, file_size}
    send: (string, string, nat) -> bool,         // POST /v1/file_uploads/{id}/send: ok?
    create: Properties -> bool)                  // notion.pages.create resolves?

  /** The state of the selfie upload. It only moves forward:
      NotStarted, Declared(id), Sent(id), Referenced, with Failed reachable from the first three. */
  datatype UploadState =
    | NotStarted
    | Declared(id: string)
    | Sent(id: string)
    | Referenced(file: FileRef)
    | Failed

  /** The file the protocol ends up referencing, if it succeeds: only a string photo gets as far
      as the declaration (any other truthy value makes `.replace` throw), and both the
      declaration and the send must succeed. */
  function UploadResult(photo: Value, uploadTime: string, svc: Services): (r: Option<FileRef>)
    ensures r.Some? ==> photo.Str? && r.value == FileUpload(SelfieFilename(uploadTime), r.value.id)
    ensures r.Some? ==>
      svc.declare(r.value.name, svc.decodedLength(StripDataUrlHeader(photo.s))) == Created(r.value.id)
  {
    match photo
    case Str(s) =>
      var size := svc.decodedLength(StripDataUrlHeader(s));
      var filename := SelfieFilename(uploadTime);
      (match svc.declare(filename, size)
       case Rejected => None
       case Created(id) => if svc.send(id, filename, size) then Some(FileUpload(filename, id)) else None)
    case _ => None
  }

  /** The calls the protocol makes, in order. */
  function UploadCalls(photo: Value, uploadTime: string, svc: Services): (r: seq<Call>)
    ensures r != [] <==> photo.Str?
    ensures |r| == 2 <==>
      photo.Str? && svc.declare(SelfieFilename(uploadTime), svc.decodedLength(StripDataUrlHeader(photo.s))).Created?
    ensures |r| <= 2
  {
    match photo
    case Str(s) =>
      var size := svc.decodedLength(StripDataUrlHeader(s));
      var filename := SelfieFilename(uploadTime);
      [CreateFileUpload(filename, size)]
      + (match svc.declare(filename, size)
         case Rejected => []
         case Created(id) => [SendFileUpload(id, filename, size)])
    case _ => []
  }

  /** Runs the three steps on a truthy photo, advancing the upload state after each answer. */
  method UploadSelfie(photo: Value, uploadTime: string, svc: Services) returns (st: UploadState, calls: seq<Call>)
    requires Truthy(photo)
    ensures st.Referenced? || st.Failed?
    ensures st.Referenced? <==> UploadResult(photo, uploadTime, svc).Some?
    ensures st.Referenced? ==> st.file == UploadResult(photo, uploadTime, svc).value
    ensures calls == UploadCalls(photo, uploadTime, svc)
  {
    st := NotStarted;
    calls := [];
    if !photo.Str? {
      // `.replace` is not a function of this value: the TypeError is caught like any upload error
      st := Failed;
      return;
    }
    var base64Data := StripDataUrlHeader(photo.s);
    var size := svc.decodedLength(base64Data);
    var filename := SelfieFilename(uploadTime);

    calls := calls + [CreateFileUpload(filename, size)];
    var reply := svc.declare(filename, size);
    st := if reply.Created? then Declared(reply.id) else Failed;

    if st.Declared? {
      calls := calls + [SendFileUpload(st.id, filename, size)];
      var ok := svc.send(st.id, filename, size);
      st := if ok then Sent(st.id) else Failed;
    }

    if st.Sent? {
      st := Referenced(FileUpload(filename, st.id));
    }
  }

  // ---------------------------------------------------------------------
  // The property map

  /** The property names the handler can set. */
  const RecordKeys := {"Name", "Email", "Phone", "Twitter", "LinkedIn", "Company", "Selfie", "Note"}

  /** `Name` always carries the name; each of the other contact fields is present exactly when
      its input is truthy, and carries that input unchanged. */
  predicate CarriesContactFields(d: Submission, props: Properties) {
    && "Name" in props && props["Name"] == Title(d.name)
    && ("Email" in props <==> Truthy(d.email))
    && ("Email" in props ==> props["Email"] == EmailAddr(d.email))
    && ("Phone" in props <==> Truthy(d.phone))
    && ("Phone" in props ==> props["Phone"] == PhoneNumber(d.phone))
    && ("Twitter" in props <==> Truthy(d.twitter))
    && ("Twitter" in props ==> props["Twitter"] == RichText(d.twitter))
    && ("LinkedIn" in props <==> Truthy(d.linkedin))
    && ("LinkedIn" in props ==> props["LinkedIn"] == Url(d.linkedin))
    && ("Company" in props <==> Truthy(d.company))
    && ("Company" in props ==> props["Company"] == RichText(d.company))
  }

  /** Builds the map of the contact fields, adding each optional field only when its input is set. */
  method BuildProperties(d: Submission) returns (props: Properties)
    ensures CarriesContactFields(d, props)
    ensures props.Keys <= {"Name", "Email", "Phone", "Twitter", "LinkedIn", "Company"}
  {
    props := map["Name" := Title(d.name)];
    if Truthy(d.email) {
      props := props["Email" := EmailAddr(d.email)];
    }
    if Truthy(d.phone) {
      props := props["Phone" := PhoneNumber(d.phone)];
    }
    if Truthy(d.twitter) {
      props := props["Twitter" := RichText(d.twitter)];
    }
    if Truthy(d.linkedin) {
      props := props["LinkedIn" := Url(d.linkedin)];
    }
    if Truthy(d.company) {
      props := props["Company" := RichText(d.company)];
    }
  }

  /** `notionProperties.Note?.rich_text?.[0]?.text?.content || ''`. */
  function ExistingNote(props: Properties): string {
    if "Note" in props && props["Note"].RichText? && props["Note"].content.Str? then props["Note"].content.s else ""
  }

  /** The note written when the upload fails: appended to an existing note, or on its own. */
  function FailureNote(existing: string): (r: string)
    ensures existing == "" ==> r == UploadFailedNote
    ensures |existing| <= |r|
    ensures existing != "" ==> r[..|existing|] == existing && r[|existing|..] == " | " + UploadFailedNote
  {
    if existing != "" then existing + " | " + UploadFailedNote else UploadFailedNote
  }

  /** The selfie part of the record: with a truthy photo, `Selfie` references the uploaded file
      when the protocol succeeded and `Note` records the failure otherwise; without one, neither. */
  predicate CarriesUploadOutcome(photo: Value, uploadTime: string, svc: Services, props: Properties) {
    if !Truthy(photo) then "Selfie" !in props && "Note" !in props
    else match UploadResult(photo, uploadTime, svc)
      case Some(file) => "Selfie" in props && props["Selfie"] == Files([file]) && "Note" !in props
      case None => "Selfie" !in props && "Note" in props && props["Note"] == RichText(Str(UploadFailedNote))
  }

  /** The record written for an accepted submission. */
  predicate SavedRecord(d: Submission, uploadTime: string, svc: Services, props: Properties) {
    && CarriesContactFields(d, props)
    && CarriesUploadOutcome(d.photo, uploadTime, svc, props)
    && props.Keys <= RecordKeys
  }

  /** The contact fields, then the photo block: on success `Selfie` references the uploaded
      file, on any failure `Note` records it and the handler carries on. */
  method AttachSelfie(d: Submission, uploadTime: string, svc: Services) returns (props: Properties, calls: seq<Call>)
    ensures SavedRecord(d, uploadTime, svc, props)
    ensures calls == if Truthy(d.photo) then UploadCalls(d.photo, uploadTime, svc) else []
  {
    props := BuildProperties(d);
    calls := [];
    if Truthy(d.photo) {
      var st;
      st, calls := UploadSelfie(d.photo, uploadTime, svc);
      if st.Referenced? {
        props := props["Selfie" := Files([st.file])];
      } else {
        var note := FailureNote(ExistingNote(props));
        props := props["Note" := RichText(Str(note))];
      }
    }
  }

  // ---------------------------------------------------------------------
  // The handler

  /** `POST /api/contact`. `body` is `None` when `req.json()` throws or the body is `null`
      (reading `data.name` then throws); either way the outer catch answers. */
  method Post(body: Option<Submission>, tokenPresent: bool, uploadTime: string, svc: Services)
    returns (resp: Response, calls: seq<Call>)
    ensures body.None? ==> resp == Response(500, ErrorBody(ProcessFailed)) && calls == []
    ensures body.Some? && !Truthy(body.value.name) ==>
      resp == Response(400, ErrorBody(NameRequired)) && calls == []
    ensures body.Some? && Truthy(body.value.name) && !HasConnection(body.value) ==>
      resp == Response(400, ErrorBody(ConnectionRequired)) && calls == []
    ensures body.Some? && Accepted(body.value) && !tokenPresent ==>
      resp == Response(500, ErrorBody(ServiceUnavailable)) && calls == []
    ensures body.Some? && Accepted(body.value) && tokenPresent ==>
      && |calls| >= 1
      && calls[..|calls| - 1] == (if Truthy(body.value.photo) then UploadCalls(body.value.photo, uploadTime, svc) else [])
      && calls[|calls| - 1].CreatePage?
      && calls[|calls| - 1].databaseId == ContactDatabaseId
      && SavedRecord(body.value, uploadTime, svc, calls[|calls| - 1].properties)
      && resp == (if svc.create(calls[|calls| - 1].properties)
                  then Response(200, SuccessBody(Some(Received)))
                  else Response(500, ErrorBody(SaveFailed)))
  {
    calls := [];
    if body.None? {
      resp := Response(500, ErrorBody(ProcessFailed));
      return;
    }
    var data := body.value;
    if !Truthy(data.name) {
      resp := Response(400, ErrorBody(NameRequired));
      return;
    }
    if !HasConnection(data) {
      resp := Response(400, ErrorBody(ConnectionRequired));
      return;
    }
    if !tokenPresent {
      resp := Response(500, ErrorBody(ServiceUnavailable));
      return;
    }

    var props;
    props, calls := AttachSelfie(data, uploadTime, svc);
    calls := calls + [CreatePage(ContactDatabaseId, props)];
    if svc.create(props) {
      resp := Response(200, SuccessBody(Some(Received)));
    } else {
      resp := Response(500, ErrorBody(SaveFailed));
    }
  }

  // ---------------------------------------------------------------------
  // Properties

  /** Validation does not trim: any non-empty name made only of whitespace is accepted. */
  lemma BlankNameAccepted(d: Submission)
    requires d.name.Str? && d.name.s != "" && IsBlank(d.name.s) && HasConnection(d)
    ensures Accepted(d)
  { }

  lemma {:induction false} WordPrefixOfWord(w: string, s: string)
    requires forall i :: 0 <= i < |w| ==> IsWordChar(w[i])
    requires s != [] && !IsWordChar(s[0])
    ensures WordPrefixLength(w + s) == |w|
  {
    if w != [] {
      assert (w + s)[1..] == w[1..] + s;
      WordPrefixOfWord(w[1..], s);
    } else {
      assert w + s == s;
    }
  }

  lemma HeaderRemoved(prefix: string, marker: string, w: string, payload: string)
    requires IsWord(w) && marker != [] && !IsWordChar(marker[0])
    ensures StripHeader(prefix, marker, prefix + w + marker + payload) == payload
  {
    var s := prefix + w + marker + payload;
    assert s == prefix + (w + (marker + payload));
    var rest := s[|prefix|..];
    assert rest == w + (marker + payload);
    WordPrefixOfWord(w, marker + payload);
    assert rest[|w|..] == marker + payload;
  }

  /** A leading image data-URL header is removed, and exactly it. */
  lemma StripRemovesHeader(w: string, payload: string)
    requires IsWord(w)
    ensures StripDataUrlHeader(DataUrlHeader(w) + payload) == payload
  {
    HeaderRemoved(ImagePrefix, Base64Marker, w, payload);
  }

  lemma HeaderOnly(prefix: string, marker: string, s: string)
    ensures StripHeader(prefix, marker, s) == s
         || exists w :: IsWord(w) && s == prefix + w + marker + StripHeader(prefix, marker, s)
  {
    if |s| >= |prefix| && s[..|prefix|] == prefix {
      var rest := s[|prefix|..];
      var k := WordPrefixLength(rest);
      var tail := rest[k..];
      if k > 0 && |tail| >= |marker| && tail[..|marker|] == marker {
        var w, t := rest[..k], tail[|marker|..];
        assert StripHeader(prefix, marker, s) == t;
        assert IsWord(w);
        assert s == prefix + w + marker + t by {
          assert tail == marker + t;
          assert rest == w + tail;
          assert s == prefix + rest;
        }
      }
    }
  }

  /** Stripping changes nothing, or removes one image data-URL header from the front. */
  lemma StripOnlyHeader(s: string)
    ensures StripDataUrlHeader(s) == s || exists w :: IsWord(w) && s == DataUrlHeader(w) + StripDataUrlHeader(s)
  {
    HeaderOnly(ImagePrefix, Base64Marker, s);
  }

  /** The upload is ordered: the declaration comes first and carries the filename and the decoded
      length; the send comes exactly when the declaration succeeds and targets the id it returned;
      the file referenced is that id under that filename; no page is created on the way. */
  lemma UploadProtocol(photo: Value, uploadTime: string, svc: Services)
    ensures var calls := UploadCalls(photo, uploadTime, svc);
      && |calls| <= 2
      && (forall i :: 0 <= i < |calls| ==> !calls[i].CreatePage?)
      && (!photo.Str? ==> calls == [] && UploadResult(photo, uploadTime, svc).None?)
      && (photo.Str? ==> |calls| >= 1 && calls[0] == CreateFileUpload(
            SelfieFilename(uploadTime), svc.decodedLength(StripDataUrlHeader(photo.s))))
      && (|calls| == 2 ==>
            && calls[1].SendFileUpload?
            && svc.declare(calls[0].filename, calls[0].fileSize) == Created(calls[1].uploadId)
            && calls[1].filename == calls[0].filename && calls[1].size == calls[0].fileSize)
      && (photo.Str? && svc.declare(calls[0].filename, calls[0].fileSize).Created? ==>
            |calls| == 2 && calls[1].uploadId == svc.declare(calls[0].filename, calls[0].fileSize).id)
      && (UploadResult(photo, uploadTime, svc).Some? <==>
            |calls| == 2 && svc.send(calls[1].uploadId, calls[1].filename, calls[1].size))
      && (UploadResult(photo, uploadTime, svc).Some? ==>
            UploadResult(photo, uploadTime, svc).value == FileUpload(calls[0].filename, calls[1].uploadId))
  { }

  /** The record is determined: two maps that both satisfy `SavedRecord` for the same
      submission and the same answers are equal. */
  lemma SavedRecordUnique(d: Submission, uploadTime: string, svc: Services, p: Properties, q: Properties)
    requires SavedRecord(d, uploadTime, svc, p) && SavedRecord(d, uploadTime, svc, q)
    ensures p == q
  {
    forall k | k in RecordKeys
      ensures k in p <==> k in q
      ensures k in p ==> p[k] == q[k]
    { }
    assert p.Keys == q.Keys;
  }
}
