/**
 The names a task is given: the file name chosen at admission, which depends on
 the kind of attachment, and the path of the local staging copy.
 */
module Naming {
  import opened Tasks
  import Config

  /** The three attachment handlers. */
  datatype FileKind = Document | Photo | Video

  /** What an inbound attachment declares: its Telegram file id, its optional name and its size. */
  datatype Attachment = Attachment(fileId: string, fileName: Option<string>, fileSize: int)

  /** The name is usable as given: present and not the empty string (Python truthiness). */
  predicate HasName(name: Option<string>) {
    name.Some? && name.value != ""
  }

  /** The name a task gets when the attachment supplies none (a photo never uses one). */
  function DefaultName(kind: FileKind, fileId: string): string {
    match kind
    case Document => "document_" + fileId
    case Photo => "photo_" + fileId + ".jpg"
    case Video => "video_" + fileId + ".mp4"
  }

  /** The file name of a new task: a document's or a video's own name when it has one,
      otherwise the default for its kind; a photo always gets the default. */
  function TaskFileName(kind: FileKind, a: Attachment): (name: string)
    ensures name != ""
    ensures kind != Photo && HasName(a.fileName) ==> name == a.fileName.value
    ensures kind == Photo || !HasName(a.fileName) ==> name == DefaultName(kind, a.fileId)
  {
    match kind
    case Photo => DefaultName(Photo, a.fileId)
    case _ => if HasName(a.fileName) then a.fileName.value else DefaultName(kind, a.fileId)
  }

  /** POSIX `os.path.join(dir, name)`: an absolute name replaces the directory. */
  function JoinPath(dir: string, name: string): (path: string)
    ensures |name| <= |path| && path[|path| - |name|..] == name
    ensures |name| > 0 && name[0] == '/' ==> path == name
    ensures (|name| == 0 || name[0] != '/') && dir != "" && dir[|dir| - 1] != '/' ==> path == dir + "/" + name
  {
    if |name| > 0 && name[0] == '/' then name
    else if dir == "" || dir[|dir| - 1] == '/' then dir + name
    else dir + "/" + name
  }

  /** The staging file name: the Telegram file id and the task's file name joined by `_`. */
  function StagingName(fileId: string, fileName: string): string {
    fileId + "_" + fileName
  }

  /** The local path a task's bytes are written to before the upload. */
  function StagingPath(fileId: string, fileName: string): (path: string)
    ensures path != ""
    ensures |fileName| <= |path| && path[|path| - |fileName|..] == fileName
    ensures (fileId == "" || fileId[0] != '/') ==> path == Config.UploadFolder + "/" + StagingName(fileId, fileName)
  {
    var name := StagingName(fileId, fileName);
    assert name[|name| - |fileName|..] == fileName;
    JoinPath(Config.UploadFolder, name)
  }

  /** For one file id, different file names give different staging paths. */
  lemma {:induction false} StagingPathDistinguishesNames(fileId: string, n1: string, n2: string)
    requires StagingPath(fileId, n1) == StagingPath(fileId, n2)
    ensures n1 == n2
  {
    var p := StagingPath(fileId, n1);
    if fileId == "" || fileId[0] != '/' {
      var k := |Config.UploadFolder + "/" + fileId + "_"|;
      assert p == (Config.UploadFolder + "/" + fileId + "_") + n1;
      assert p == (Config.UploadFolder + "/" + fileId + "_") + n2;
      assert n1 == p[k..] == n2;
    } else {
      assert p == fileId + "_" + n1 && p == fileId + "_" + n2;
      var k := |fileId + "_"|;
      assert n1 == p[k..] == n2;
    }
  }

  /** The staging name is not collision-free: an underscore in a file id can be shifted
      into the file name and give the same path. */
  lemma StagingPathsCanCollide()
    ensures StagingPath("a_b", "c") == StagingPath("a", "b_c")
  {
    assert StagingName("a_b", "c") == StagingName("a", "b_c");
  }
}
