/**
 * Receiving an audio upload: the file-type filter and the size limit applied while the
 * file arrives, the name it is stored under, and the Call record built from the request,
 * with the client's metadata defaulted field by field.
 */
module Uploads {
  import opened Wrappers
  import Text
  import opened Interpreter
  import CallModel
  import EH = ErrorHandler

  // ---------------------------------------------------------------- file names

  /** One past the last character of `s[..e]` that is not `/`, or 0 when there is none. */
  function TrimmedEnd(s: string, e: nat): (r: nat)
    requires e <= |s|
    ensures r <= e
    ensures r > 0 ==> s[r - 1] != '/'
    ensures forall i :: r <= i < e ==> s[i] == '/'
    decreases e
  {
    if e > 0 && s[e - 1] == '/' then TrimmedEnd(s, e - 1) else e
  }

  /** The index of the last `c` in `s[..e]`, or -1 when there is none. */
  function LastIndex(s: string, c: char, e: nat): (r: int)
    requires e <= |s|
    ensures -1 <= r < e
    ensures r >= 0 ==> s[r] == c
    ensures forall i :: r < i < e ==> s[i] != c
    decreases e
  {
    if e == 0 then -1 else if s[e - 1] == c then e - 1 else LastIndex(s, c, e - 1)
  }

  /** The last path segment, trailing separators ignored. */
  function BaseName(s: string): (b: string)
    ensures forall i :: 0 <= i < |b| ==> b[i] != '/'
  {
    var e := TrimmedEnd(s, |s|);
    var start := LastIndex(s, '/', e) + 1;
    s[start..e]
  }

  /**
   * Node's `path.extname`: the last segment's text from its last dot, or "" when the
   * segment has no dot, starts with its only leading dot (".wav"), or is "..".
   */
  function ExtName(s: string): (x: string)
    ensures x == "" || (x[0] == '.' && forall i :: 1 <= i < |x| ==> x[i] != '.')
    ensures forall i :: 0 <= i < |x| ==> x[i] != '/'
    ensures |x| <= |BaseName(s)| && x == BaseName(s)[|BaseName(s)| - |x|..]
  {
    var b := BaseName(s);
    var d := LastIndex(b, '.', |b|);
    if d <= 0 || b == ".." then "" else b[d..]
  }

  /** A string with neither a dot nor a path separator. */
  predicate Plain(s: string) {
    forall i :: 0 <= i < |s| ==> s[i] != '.' && s[i] != '/'
  }

  /** A name without separators is its own last segment. */
  lemma BaseNameOfSegment(s: string)
    requires s != [] && forall i :: 0 <= i < |s| ==> s[i] != '/'
    ensures BaseName(s) == s
  {
    var e := TrimmedEnd(s, |s|);
    assert LastIndex(s, '/', e) == -1;
  }

  /** The last dot of a string is the dot with no other dot after it. */
  lemma LastDotAt(s: string, k: nat)
    requires k < |s| && s[k] == '.'
    requires forall i :: k < i < |s| ==> s[i] != '.'
    ensures LastIndex(s, '.', |s|) == k
  {
  }

  /** Appending an extension to a plain, non-empty stem gives back that extension. */
  lemma {:induction false} ExtNameOfStem(stem: string, ext: string)
    requires stem != [] && Plain(stem)
    requires ext == "" || (ext[0] == '.' && forall i :: 1 <= i < |ext| ==> ext[i] != '.')
    requires forall i :: 0 <= i < |ext| ==> ext[i] != '/'
    ensures ExtName(stem + ext) == ext
  {
    var s := stem + ext;
    forall i | 0 <= i < |s| ensures s[i] != '/' {
      if i < |stem| { assert s[i] == stem[i]; } else { assert s[i] == ext[i - |stem|]; }
    }
    BaseNameOfSegment(s);
    if ext == "" {
      assert s == stem;
      assert LastIndex(s, '.', |s|) == -1;
    } else {
      forall i | |stem| < i < |s| ensures s[i] != '.' {
        assert s[i] == ext[i - |stem|];
      }
      LastDotAt(s, |stem|);
      assert s[0] == stem[0] != '.';
      assert s[|stem|..] == ext;
    }
  }

  /** Multer's stored name: `call-<milliseconds>-<random>` followed by the original extension. */
  function StoredFileName(now: int, random: nat, originalName: string): (name: string)
    ensures |name| > 5 && name[..5] == "call-"
  {
    "call-" + Text.IntToString(now) + "-" + Text.NatToString(random) + ExtName(originalName)
  }

  /** The stored name keeps the original file's extension. */
  lemma {:induction false} StoredNameKeepsExtension(now: int, random: nat, originalName: string)
    ensures ExtName(StoredFileName(now, random, originalName)) == ExtName(originalName)
  {
    var t := Text.IntToString(now);
    var r := Text.NatToString(random);
    var stem := "call-" + t + "-" + r;
    assert Plain(t) by {
      if now < 0 {
        var u := Text.NatToString(-now);
        assert t == "-" + u;
        forall i | 0 <= i < |t| ensures t[i] != '.' && t[i] != '/' {
          if i > 0 { assert t[i] == u[i - 1]; }
        }
      }
    }
    forall i | 0 <= i < |stem| ensures stem[i] != '.' && stem[i] != '/' {
      if i < 5 {
      } else if i < 5 + |t| {
        assert stem[i] == t[i - 5];
      } else if i == 5 + |t| {
      } else {
        assert stem[i] == r[i - 6 - |t|];
      }
    }
    ExtNameOfStem(stem, ExtName(originalName));
    assert StoredFileName(now, random, originalName) == stem + ExtName(originalName);
  }

  // ---------------------------------------------------------------- file filter

  const AllowedMimeTypes: seq<string> := ["audio/wav", "audio/mpeg", "audio/mp3", "audio/m4a", "audio/x-m4a"]

  const AllowedExtensions: seq<string> := [".wav", ".mp3", ".m4a"]

  const InvalidTypeMessage := "Invalid file type. Only audio files (wav, mp3, m4a) are allowed."

  /** The file filter: a listed audio MIME type, or a listed extension in any letter case. */
  predicate AcceptsFile(mimeType: string, originalName: string) {
    mimeType in AllowedMimeTypes || Text.Lower(ExtName(originalName)) in AllowedExtensions
  }

  /** In a name without separators, the text from a non-leading last dot is the extension. */
  lemma ExtNameAt(s: string, k: nat)
    requires forall i :: 0 <= i < |s| ==> s[i] != '/'
    requires 0 < k < |s| && s[k] == '.'
    requires forall i :: k < i < |s| ==> s[i] != '.'
    requires s != ".."
    ensures ExtName(s) == s[k..]
  {
    BaseNameOfSegment(s);
    LastDotAt(s, k);
  }

  /** A name whose only dot leads it, as in ".wav", has no extension. */
  lemma LeadingDotIsNoExtension(s: string)
    requires forall i :: 0 <= i < |s| ==> s[i] != '/'
    requires |s| > 0 && s[0] == '.'
    requires forall i :: 0 < i < |s| ==> s[i] != '.'
    ensures ExtName(s) == ""
  {
    BaseNameOfSegment(s);
    LastDotAt(s, 0);
  }

  /** The extension is matched in any letter case, and a listed MIME type needs no extension. */
  lemma FilterIgnoresCase()
    ensures AcceptsFile("video/mp4", "Support.WAV")
    ensures AcceptsFile("audio/x-m4a", "notes")
  {
    ExtNameAt("Support.WAV", 7);
    assert Text.Lower(".WAV") == ".wav";
    assert ".wav" in AllowedExtensions;
  }

  /** Every listed MIME type starts with "a". */
  lemma NotAllowedMimeType(m: string)
    requires |m| > 0 && m[0] != 'a'
    ensures m !in AllowedMimeTypes
  {
  }

  /** Every listed extension has four characters, the second a `w` or an `m`. */
  lemma NotAllowedExtension(x: string)
    requires |x| != 4 || (x[1] != 'w' && x[1] != 'm')
    ensures x !in AllowedExtensions
  {
  }

  /** Only the last extension counts, and a leading dot is no extension: ".wav" is refused without an audio type. */
  lemma FilterReadsLastExtensionOnly()
    ensures !AcceptsFile("text/plain", "a.wav.txt")
    ensures !AcceptsFile("video/mp4", ".wav")
  {
    ExtNameAt("a.wav.txt", 5);
    var x := Text.Lower(".txt");
    assert x[1] == 't';
    NotAllowedExtension(x);
    NotAllowedMimeType("text/plain");
    LeadingDotIsNoExtension(".wav");
    NotAllowedExtension(Text.Lower(""));
    NotAllowedMimeType("video/mp4");
  }

  // ---------------------------------------------------------------- receiving the file

  /** `parseInt(MAX_FILE_SIZE) || 50 MB`; an unset or unparsable setting is `None`. */
  function MaxFileSize(configured: Option<int>): (limit: int)
    ensures configured.None? || configured == Some(0) ==> limit == 50 * 1024 * 1024
    ensures configured.Some? && configured.value != 0 ==> limit == configured.value
  {
    if configured.Some? && configured.value != 0 then configured.value else 50 * 1024 * 1024
  }

  /** The file part of a multipart request, before it is stored. */
  datatype Incoming = Incoming(originalName: string, mimeType: string, size: int)

  /** The file as stored on disk. */
  datatype StoredFile = StoredFile(fileName: string, originalName: string, path: string, size: int, mimeType: string)

  /** What the upload middleware does with a file: store it, or pass an error on to the error handler. */
  datatype Receipt = Received(file: StoredFile) | Refused(error: EH.Failure)

  /** The filter's error: a plain `Error` with no code and no status. */
  const InvalidTypeError := EH.Failure("Error", EH.NoCode, "", Some(InvalidTypeMessage), None, [])

  /** Multer's size-limit error. */
  const FileTooLargeError := EH.Failure("MulterError", EH.TextCode(EH.FileSizeCode), "", Some(EH.FileTooLargeMessage), None, [])

  /** The filter runs first; a file it admits is refused when larger than the limit, else stored in `dir`. */
  function ReceiveAudio(f: Incoming, configuredLimit: Option<int>, dir: string, now: int, random: nat): (r: Receipt)
    ensures r.Refused? <==> !AcceptsFile(f.mimeType, f.originalName) || f.size > MaxFileSize(configuredLimit)
    ensures !AcceptsFile(f.mimeType, f.originalName) ==> r == Refused(InvalidTypeError)
    ensures r.Received? ==> r.file.originalName == f.originalName && r.file.size == f.size && r.file.mimeType == f.mimeType
    ensures r.Received? ==> r.file.fileName != "" && r.file.path != ""
    ensures r.Received? ==> r.file.fileName == StoredFileName(now, random, f.originalName)
                            && ExtName(r.file.fileName) == ExtName(f.originalName)
  {
    if !AcceptsFile(f.mimeType, f.originalName) then Refused(InvalidTypeError)
    else if f.size > MaxFileSize(configuredLimit) then Refused(FileTooLargeError)
    else
      var name := StoredFileName(now, random, f.originalName);
      StoredNameKeepsExtension(now, random, f.originalName);
      Received(StoredFile(name, f.originalName, dir + "/" + name, f.size, f.mimeType))
  }

  /**
   * How the error handler answers a refused file: a wrong type is a 500 carrying the
   * filter's message, an oversized file a 400 "File too large".
   */
  lemma {:induction false} RefusalResponses(f: Incoming, configuredLimit: Option<int>, dir: string, now: int, random: nat)
    ensures !AcceptsFile(f.mimeType, f.originalName) ==>
              EH.Respond(EH.Classify(ReceiveAudio(f, configuredLimit, dir, now, random).error)) ==
              EH.Response(500, false, InvalidTypeMessage)
    ensures AcceptsFile(f.mimeType, f.originalName) && f.size > MaxFileSize(configuredLimit) ==>
              EH.Respond(EH.Classify(ReceiveAudio(f, configuredLimit, dir, now, random).error)) ==
              EH.Response(400, false, EH.FileTooLargeMessage)
  {
    EH.UnrecognisedErrorKeepsItsOwn(InvalidTypeError);
    EH.LaterChecksWin(FileTooLargeError);
  }

  // ---------------------------------------------------------------- the call record

  /** The metadata fields a client may send; a field left out is `None`. */
  datatype ClientMetadata = ClientMetadata(customerInfo: Option<string>, agentInfo: Option<string>,
                                           callDate: Option<int>, callType: Option<string>)

  const NoMetadata := ClientMetadata(None, None, None, None)

  /** The upload handler's answer: the created record (201), or a status and message. */
  datatype UploadOutcome = Created(call: CallModel.Call) | Rejected(status: int, message: string)

  const NoFileMessage := "No audio file provided"
  const UploadFailedMessage := "Server error during file upload"

  /**
   * The metadata the handler reads: none when the field is empty or is not JSON, the
   * decoded object when it is one, and no fields when it is some other JSON value.
   * JSON `null` has no fields to read: reading one throws, which is `None`.
   */
  function ReadMetadata(field: string, json: JsonText<ClientMetadata>): (m: Option<ClientMetadata>)
    ensures m.None? <==> field != "" && json == JsonNull
    ensures field == "" || json == NotJson || json == JsonOther ==> m == Some(NoMetadata)
  {
    if field == "" then Some(NoMetadata)
    else match json
      case NotJson => Some(NoMetadata)
      case JsonNull => None
      case JsonOther => Some(NoMetadata)
      case JsonWith(v) => Some(v)
  }

  /** The stored metadata: agent falls back to the user's name, date to now, type to "inbound". */
  function StoredMetadata(m: ClientMetadata, userName: string, now: int): (s: CallModel.Metadata)
    ensures s.customerInfo == m.customerInfo
    ensures s.agentInfo == if m.agentInfo.Some? && m.agentInfo.value != "" then m.agentInfo else Some(userName)
    ensures s.callDate == if m.callDate.Some? && m.callDate.value != 0 then m.callDate else Some(now)
    ensures s.callType == if m.callType.Some? && m.callType.value != "" then m.callType.value else CallModel.DefaultCallType
  {
    CallModel.Metadata(
      m.customerInfo,
      if m.agentInfo.Some? && m.agentInfo.value != "" then m.agentInfo else Some(userName),
      if m.callDate.Some? && m.callDate.value != 0 then m.callDate else Some(now),
      if m.callType.Some? && m.callType.value != "" then m.callType.value else CallModel.DefaultCallType)
  }

  /**
   * The upload handler: no file is a 400; otherwise a Call in status `uploaded` is built
   * from the file and the defaulted metadata and saved, and a record the schema refuses
   * (an unknown call type) or unreadable metadata is a 500.
   */
  function UploadCall(file: Option<StoredFile>, metadataField: string, json: JsonText<ClientMetadata>,
                      userId: CallModel.Id, userName: string, now: int): (r: UploadOutcome)
    ensures file.None? <==> r == Rejected(400, NoFileMessage)
    ensures r.Created? <==> file.Some? && ReadMetadata(metadataField, json).Some?
                            && file.value.fileName != "" && file.value.originalName != ""
                            && file.value.path != "" && file.value.mimeType != ""
                            && StoredMetadata(ReadMetadata(metadataField, json).value, userName, now).callType in CallModel.CallTypes
    ensures r.Rejected? ==> r.status in {400, 500}
    ensures r.Created? ==> CallModel.Valid(r.call) && r.call.status == CallModel.Uploaded && !CallModel.HasTranscript(r.call)
    ensures r.Created? ==> r.call.userId == userId && r.call.uploadedAt == now
                           && r.call.fileName == file.value.fileName && r.call.originalName == file.value.originalName
  {
    if file.None? then Rejected(400, NoFileMessage)
    else match ReadMetadata(metadataField, json)
      case None => Rejected(500, UploadFailedMessage)
      case Some(m) =>
        var f := file.value;
        var call := CallModel.NewCall(userId, f.fileName, f.originalName, f.path, f.size, f.mimeType, now,
                                      StoredMetadata(m, userName, now));
        if CallModel.Valid(call) then Created(call) else Rejected(500, UploadFailedMessage)
  }

  /**
   * A stored file with metadata that is absent or unreadable as JSON is always recorded,
   * as an inbound call attributed to the uploading user and dated now.
   */
  lemma PlainUploadIsStored(file: StoredFile, metadataField: string, json: JsonText<ClientMetadata>,
                            userId: CallModel.Id, userName: string, now: int)
    requires file.fileName != "" && file.originalName != "" && file.path != "" && file.mimeType != ""
    requires metadataField == "" || json == NotJson
    ensures var r := UploadCall(Some(file), metadataField, json, userId, userName, now);
            r.Created? && r.call.metadata == CallModel.Metadata(None, Some(userName), Some(now), "inbound")
  {
  }

  /** Metadata naming a call type outside the enumeration makes the save fail. */
  lemma UnknownCallTypeIsRejected(file: StoredFile, field: string, m: ClientMetadata, userId: CallModel.Id, userName: string, now: int)
    requires field != "" && m.callType == Some("transfer")
    ensures UploadCall(Some(file), field, JsonWith(m), userId, userName, now) == Rejected(500, UploadFailedMessage)
  {
  }
}
