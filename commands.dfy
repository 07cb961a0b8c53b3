/**
 Argument handling of the `/rename <fileId> <newName>` command: the first
 argument is the Drive file id, the remaining ones are joined with single
 spaces into the new name.
 */
module Commands {
  import opened Tasks

  /** Python's `sep.join(words)`. */
  function Join(words: seq<string>, sep: char): string {
    if words == [] then ""
    else if |words| == 1 then words[0]
    else words[0] + [sep] + Join(words[1..], sep)
  }

  /** Python's `s.split(sep)` for a one-character separator: empty pieces are kept. */
  function Split(s: string, sep: char): (pieces: seq<string>)
    ensures |pieces| >= 1
    decreases |s|
  {
    if s == [] then [""]
    else if s[0] == sep then [""] + Split(s[1..], sep)
    else
      var rest := Split(s[1..], sep);
      [[s[0]] + rest[0]] + rest[1..]
  }

  /** A word without the separator splits into itself. */
  lemma {:induction false} SplitWord(w: string, sep: char)
    requires sep !in w
    ensures Split(w, sep) == [w]
    decreases |w|
  {
    if w != [] {
      SplitWord(w[1..], sep);
      assert [w[0]] + w[1..] == w;
    }
  }

  /** Splitting a word, the separator and a tail gives the word followed by the tail's pieces. */
  lemma {:induction false} SplitAfterWord(w: string, sep: char, tail: string)
    requires sep !in w
    ensures Split(w + [sep] + tail, sep) == [w] + Split(tail, sep)
    decreases |w|
  {
    var s := w + [sep] + tail;
    if w == [] {
      assert s == [sep] + tail;
      assert s[1..] == tail;
    } else {
      assert s[0] == w[0] && s[1..] == w[1..] + [sep] + tail;
      SplitAfterWord(w[1..], sep, tail);
      assert [w[0]] + w[1..] == w;
    }
  }

  /** Joining words that do not contain the separator and splitting the result gives the words back. */
  lemma {:induction false} SplitJoin(words: seq<string>, sep: char)
    requires |words| >= 1
    requires forall i :: 0 <= i < |words| ==> sep !in words[i]
    ensures Split(Join(words, sep), sep) == words
    decreases |words|
  {
    if |words| == 1 {
      SplitWord(words[0], sep);
    } else {
      SplitJoin(words[1..], sep);
      SplitAfterWord(words[0], sep, Join(words[1..], sep));
      assert [words[0]] + words[1..] == words;
    }
  }

  /** A well-formed `/rename` request. */
  datatype RenameRequest = RenameRequest(fileId: string, newName: string)

  /** Fewer than two arguments is a usage error; otherwise the first argument is the id and
      the rest, joined by spaces, is the new name, from which the arguments can be recovered.
      The command arguments are the message text split on whitespace, so no argument contains
      a space and the recovery hypothesis holds for every `/rename` the bot receives. */
  function ParseRenameArgs(args: seq<string>): (r: Option<RenameRequest>)
    ensures r.None? <==> |args| < 2
    ensures r.Some? ==> r.value.fileId == args[0]
    ensures r.Some? && (forall i :: 1 <= i < |args| ==> ' ' !in args[i]) ==>
      Split(r.value.newName, ' ') == args[1..]
  {
    if |args| < 2 then None
    else
      var words := args[1..];
      var name := Join(words, ' ');
      assert (forall i :: 1 <= i < |args| ==> ' ' !in args[i]) ==> Split(name, ' ') == words by {
        if forall i :: 1 <= i < |args| ==> ' ' !in args[i] {
          SplitJoin(words, ' ');
        }
      }
      Some(RenameRequest(args[0], name))
  }
}
