/**
 The inline keyboard attached to a task's progress message, and how the
 callback data of its buttons is routed back when a button is pressed.
 */
module Keyboard {
  import opened Tasks

  /** The three buttons the bot ever offers. */
  datatype Button =
    | CancelButton(callbackData: string)
    | ViewInDriveButton(url: string)
    | DeleteButton(callbackData: string)

  /** Python's f-string rendering of an optional string: a missing value prints as None. */
  function Render(o: Option<string>): string {
    match o
    case Some(s) => s
    case None => "None"
  }

  /** The keyboard for a task's status; `None` means the message gets no reply markup. */
  function ProgressKeyboard(status: Status, fileId: string, driveFileId: Option<string>): (k: Option<seq<seq<Button>>>)
    ensures k.None? <==> status.Queued? || status.Failed?
    ensures status == Uploading ==> k == Some([[CancelButton("cancel_" + fileId)]])
    ensures status == Completed ==>
      k == Some([[ViewInDriveButton("https://drive.google.com/file/d/" + Render(driveFileId) + "/view"),
                  DeleteButton("delete_" + Render(driveFileId))]])
  {
    if status == Uploading then Some([[CancelButton("cancel_" + fileId)]])
    else if status == Completed then
      Some([[ViewInDriveButton("https://drive.google.com/file/d/" + Render(driveFileId) + "/view"),
             DeleteButton("delete_" + Render(driveFileId))]])
    else None
  }

  /** What a pressed button asks for. Neither action changes any task. */
  datatype CallbackAction = CancelRequest(fileId: string) | DeleteRequest(driveFileId: string) | NoAction

  predicate StartsWith(s: string, prefix: string) {
    |prefix| <= |s| && s[..|prefix|] == prefix
  }

  /** `pattern` occurs in `s` starting at index `i`. */
  predicate OccursAt(pattern: string, s: string, i: int) {
    0 <= i <= |s| - |pattern| && s[i..i + |pattern|] == pattern
  }

  /** `pattern` occurs somewhere in `s`. */
  predicate Occurs(pattern: string, s: string) {
    exists i :: 0 <= i <= |s| - |pattern| && OccursAt(pattern, s, i)
  }

  /** Python's `s.replace(pattern, "")`: every non-overlapping occurrence, left to right, removed. */
  function RemoveAll(s: string, pattern: string): string
    requires pattern != ""
    decreases |s|
  {
    if |s| < |pattern| then s
    else if s[..|pattern|] == pattern then RemoveAll(s[|pattern|..], pattern)
    else [s[0]] + RemoveAll(s[1..], pattern)
  }

  /** A string without an occurrence of the pattern is left unchanged by `RemoveAll`. */
  lemma {:induction false} RemoveAllNoOccurrence(s: string, pattern: string)
    requires pattern != ""
    requires !Occurs(pattern, s)
    ensures RemoveAll(s, pattern) == s
    decreases |s|
  {
    if |s| >= |pattern| {
      assert !OccursAt(pattern, s, 0);
      assert !Occurs(pattern, s[1..]) by {
        forall i: int
          ensures !OccursAt(pattern, s[1..], i)
        {
          assert !OccursAt(pattern, s, i + 1);
          if 0 <= i <= |s[1..]| - |pattern| {
            assert s[1..][i..i + |pattern|] == s[i + 1..i + 1 + |pattern|];
          }
        }
      }
      RemoveAllNoOccurrence(s[1..], pattern);
      assert s == [s[0]] + s[1..];
    }
  }

  /** Removing a pattern never lengthens the text. */
  lemma {:induction false} RemoveAllNoLonger(s: string, pattern: string)
    requires pattern != ""
    ensures |RemoveAll(s, pattern)| <= |s|
    decreases |s|
  {
    if |s| >= |pattern| {
      if s[..|pattern|] == pattern {
        RemoveAllNoLonger(s[|pattern|..], pattern);
      } else {
        RemoveAllNoLonger(s[1..], pattern);
      }
    }
  }

  /** A text that starts with the pattern loses at least that prefix. */
  lemma RemoveAllDropsPrefix(s: string, pattern: string)
    requires pattern != "" && StartsWith(s, pattern)
    ensures |RemoveAll(s, pattern)| <= |s| - |pattern|
  {
    RemoveAllNoLonger(s[|pattern|..], pattern);
  }

  /** The callback handler's dispatch on the button's data: "cancel_" data is a cancel request,
      other "delete_" data a delete request, anything else is ignored; the routed id is never
      longer than the data after its prefix. */
  function RouteCallback(data: string): (r: CallbackAction)
    ensures r.CancelRequest? <==> StartsWith(data, "cancel_")
    ensures r.DeleteRequest? <==> !StartsWith(data, "cancel_") && StartsWith(data, "delete_")
    ensures r.NoAction? <==> !StartsWith(data, "cancel_") && !StartsWith(data, "delete_")
    ensures r.CancelRequest? ==> |r.fileId| <= |data| - |"cancel_"|
    ensures r.DeleteRequest? ==> |r.driveFileId| <= |data| - |"delete_"|
  {
    if StartsWith(data, "cancel_") then
      RemoveAllDropsPrefix(data, "cancel_");
      CancelRequest(RemoveAll(data, "cancel_"))
    else if StartsWith(data, "delete_") then
      RemoveAllDropsPrefix(data, "delete_");
      DeleteRequest(RemoveAll(data, "delete_"))
    else NoAction
  }

  /** The button offered while uploading comes back as a cancel request for the same file,
      provided the file id does not itself contain "cancel_". */
  lemma CancelButtonRoundTrip(fileId: string)
    requires !Occurs("cancel_", fileId)
    ensures ProgressKeyboard(Uploading, fileId, None) == Some([[CancelButton("cancel_" + fileId)]])
    ensures RouteCallback("cancel_" + fileId) == CancelRequest(fileId)
  {
    var data := "cancel_" + fileId;
    assert data[..|"cancel_"|] == "cancel_";
    assert data[|"cancel_"|..] == fileId;
    RemoveAllNoOccurrence(fileId, "cancel_");
  }

  /** The delete button of a completed task comes back as a delete request for its Drive id,
      provided the id does not itself contain "delete_". */
  lemma DeleteButtonRoundTrip(driveFileId: string)
    requires !Occurs("delete_", driveFileId)
    ensures RouteCallback("delete_" + driveFileId) == DeleteRequest(driveFileId)
  {
    var data := "delete_" + driveFileId;
    assert data[..|"delete_"|] == "delete_";
    assert data[|"delete_"|..] == driveFileId;
    assert !StartsWith(data, "cancel_") by { assert data[0] == 'd'; }
    RemoveAllNoOccurrence(driveFileId, "delete_");
  }

  /** `replace` removes occurrences anywhere, not only the prefix: a file id containing
      "cancel_" is routed as a different id. */
  lemma CancelIdCanBeMangled()
    ensures RouteCallback("cancel_" + "xcancel_y") == CancelRequest("xy")
  {
    var d := "cancel_xcancel_y";
    assert "cancel_" + "xcancel_y" == d;
    assert d[..7] == "cancel_";
    assert d[7..][0] == 'x';
    assert d[8..][..7] == "cancel_";
    assert d[8..][7..] == "y";
    assert RemoveAll("y", "cancel_") == "y";
    assert RemoveAll(d[8..], "cancel_") == "y";
    assert RemoveAll(d[7..], "cancel_") == "x" + "y";
  }
}
