/**
 * The parts a user composes in the chat input before sending: text, an attached file,
 * or a recorded audio clip. A part is built once with its defaults and never changed.
 */
module ContentInput {
  import opened Wrappers
  import Base64

  /** A browser `File`: its declared type, its name and its contents. */
  datatype FileRef = FileRef(fileType: string, name: string, contents: seq<Base64.byte>)

  /** A browser `Blob` holding recorded audio. */
  datatype BlobRef = BlobRef(contents: seq<Base64.byte>)

  datatype MessagePart =
    | TextMessagePart(content: string)
    | FileMessagePart(file: FileRef, mimeType: string, fileName: string)
    | AudioMessagePart(audioBlob: BlobRef, mimeType: string, fileName: string)

  const DefaultAudioMimeType := "audio/mp4"
  const DefaultAudioFileName := "recording.mp4"

  /** The read-only `type` tag each kind of part carries. */
  function TypeTag(p: MessagePart): (t: string)
    ensures t == "text" <==> p.TextMessagePart?
    ensures t == "file" <==> p.FileMessagePart?
    ensures t == "audio" <==> p.AudioMessagePart?
  {
    match p
    case TextMessagePart(_) => "text"
    case FileMessagePart(_, _, _) => "file"
    case AudioMessagePart(_, _, _) => "audio"
  }

  /** `new TextMessagePart(content)`: the markdown text is kept as given. */
  function NewTextPart(content: string): (p: MessagePart)
    ensures TypeTag(p) == "text" && p.content == content
  {
    TextMessagePart(content)
  }

  /**
   * `new FileMessagePart(file, mimeType?, fileName?)`: an omitted (null or undefined)
   * argument falls back to the file's own type or name; any given string, `''` included, is kept.
   */
  function NewFilePart(file: FileRef, mimeType: Option<string>, fileName: Option<string>): (p: MessagePart)
    ensures TypeTag(p) == "file" && p.file == file
    ensures mimeType.Some? ==> p.mimeType == mimeType.value
    ensures mimeType.None? ==> p.mimeType == file.fileType
    ensures fileName.Some? ==> p.fileName == fileName.value
    ensures fileName.None? ==> p.fileName == file.name
  {
    FileMessagePart(file, mimeType.GetOr(file.fileType), fileName.GetOr(file.name))
  }

  /**
   * `new AudioMessagePart(blob, mimeType?, fileName?)`: omitted arguments default to
   * `audio/mp4` and `recording.mp4`; any given string, `''` included, is kept.
   */
  function NewAudioPart(blob: BlobRef, mimeType: Option<string>, fileName: Option<string>): (p: MessagePart)
    ensures TypeTag(p) == "audio" && p.audioBlob == blob
    ensures mimeType.Some? ==> p.mimeType == mimeType.value
    ensures mimeType.None? ==> p.mimeType == DefaultAudioMimeType
    ensures fileName.Some? ==> p.fileName == fileName.value
    ensures fileName.None? ==> p.fileName == DefaultAudioFileName
  {
    AudioMessagePart(blob, mimeType.GetOr(DefaultAudioMimeType), fileName.GetOr(DefaultAudioFileName))
  }

  /** The raw bytes a part carries: those of the file or of the audio blob; a text part has none. */
  function PartBytes(p: MessagePart): seq<Base64.byte>
  {
    match p
    case TextMessagePart(_) => []
    case FileMessagePart(f, _, _) => f.contents
    case AudioMessagePart(b, _, _) => b.contents
  }
}
