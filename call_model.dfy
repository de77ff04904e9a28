/**
 * The Call document: one uploaded audio recording and where it stands in the
 * transcribe -> analyze -> coach pipeline.
 */
module CallModel {
  import opened Wrappers

  type Id = nat

  /** The seven values the schema admits for `status`. */
  datatype Status = Uploaded | Transcribing | Transcribed | Analyzing | Analyzed | CoachingGenerated | Failed

  function StatusName(s: Status): string {
    match s
    case Uploaded => "uploaded"
    case Transcribing => "transcribing"
    case Transcribed => "transcribed"
    case Analyzing => "analyzing"
    case Analyzed => "analyzed"
    case CoachingGenerated => "coaching-generated"
    case Failed => "failed"
  }

  /** The enumeration written in the schema, in its order. */
  const StatusEnum: seq<string> :=
    ["uploaded", "transcribing", "transcribed", "analyzing", "analyzed", "coaching-generated", "failed"]

  /** Each status is stored under its own name from the schema's enumeration, and no two share one. */
  lemma StatusNamesMatchEnum(s: Status, t: Status)
    ensures StatusName(s) in StatusEnum
    ensures StatusName(s) == StatusName(t) ==> s == t
  {
  }

  /** The stage that recorded an error. */
  datatype Step = TranscriptionStep | AnalysisStep | CoachingStep

  function StepName(s: Step): string {
    match s
    case TranscriptionStep => "transcription"
    case AnalysisStep => "analysis"
    case CoachingStep => "coaching"
  }

  datatype CallError = CallError(message: string, timestamp: int, step: Step)

  datatype Metadata = Metadata(customerInfo: Option<string>, agentInfo: Option<string>, callDate: Option<int>, callType: string)

  /** `duration` and `transcriptionTime` are absent (null) until transcription succeeds. */
  datatype Call = Call(
    userId: Id,
    fileName: string,
    originalName: string,
    filePath: string,
    fileSize: int,
    mimeType: string,
    duration: Option<int>,
    uploadedAt: int,
    status: Status,
    transcript: Option<string>,
    transcriptionTime: Option<int>,
    metadata: Metadata,
    error: Option<CallError>)

  const CallTypes: seq<string> := ["inbound", "outbound"]

  const DefaultCallType := "inbound"

  /**
   * What saving a Call checks: the required strings are present (a required string
   * must be non-empty) and the call type is one of the enumeration.
   */
  predicate Valid(c: Call) {
    && c.fileName != ""
    && c.originalName != ""
    && c.filePath != ""
    && c.mimeType != ""
    && c.metadata.callType in CallTypes
  }

  /** A truthy transcript: present and non-empty. */
  predicate HasTranscript(c: Call) {
    c.transcript.Some? && c.transcript.value != ""
  }

  /** A new document takes the schema defaults for every field the creator leaves out. */
  function NewCall(userId: Id, fileName: string, originalName: string, filePath: string, fileSize: int,
                   mimeType: string, uploadedAt: int, metadata: Metadata): (c: Call)
    ensures c.status == Uploaded
    ensures c.transcript == None && c.transcriptionTime == None && c.duration == None && c.error == None
    ensures !HasTranscript(c)
    ensures c.userId == userId && c.fileName == fileName && c.originalName == originalName
    ensures c.filePath == filePath && c.fileSize == fileSize && c.mimeType == mimeType
    ensures c.uploadedAt == uploadedAt && c.metadata == metadata
    ensures Valid(c) <==> fileName != "" && originalName != "" && filePath != "" && mimeType != "" && metadata.callType in CallTypes
  {
    Call(userId, fileName, originalName, filePath, fileSize, mimeType, None, uploadedAt, Uploaded, None, None, metadata, None)
  }

  /** Metadata with every field at its schema default. */
  const DefaultMetadata := Metadata(None, None, None, DefaultCallType)

  lemma DefaultMetadataIsValid()
    ensures DefaultMetadata.callType in CallTypes
  {
  }
}
