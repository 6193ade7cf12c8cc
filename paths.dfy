/** The file name under which a download is tracked: the last `/`-separated segment of
    the output path the download library reports. */
module Paths {

  const Sep: char := '/'

  /** Python's `s.split("/")`: the pieces between separators, in order. There is always
      at least one piece, and a string without a separator is its own single piece. */
  function Split(s: string): (r: seq<string>)
    ensures |r| >= 1
    ensures forall i :: 0 <= i < |r| ==> Sep !in r[i]
    ensures Sep !in s ==> r == [s]
    ensures |r| == 1 ==> Sep !in s
  {
    if |s| == 0 then [""]
    else
      var rest := Split(s[1..]);
      if s[0] == Sep then [""] + rest
      else
        assert s == [s[0]] + s[1..];
        [[s[0]] + rest[0]] + rest[1..]
  }

  /** Python's `"/".join(pieces)`. */
  function Join(pieces: seq<string>): string
    requires |pieces| >= 1
  {
    if |pieces| == 1 then pieces[0] else pieces[0] + [Sep] + Join(pieces[1..])
  }

  /** Splitting loses nothing: joining the pieces back gives the original string. */
  lemma {:induction false} JoinSplit(s: string)
    ensures Join(Split(s)) == s
  {
    if |s| > 0 {
      var rest := Split(s[1..]);
      JoinSplit(s[1..]);
      if s[0] == Sep {
        assert ([""] + rest)[1..] == rest;
      } else if |rest| > 1 {
        assert ([[s[0]] + rest[0]] + rest[1..])[1..] == rest[1..];
        calc {
          Join(Split(s));
          ([s[0]] + rest[0]) + [Sep] + Join(rest[1..]);
          [s[0]] + (rest[0] + [Sep] + Join(rest[1..]));
          [s[0]] + Join(rest);
        }
        assert s == [s[0]] + s[1..];
      } else {
        assert s == [s[0]] + s[1..];
      }
    }
  }

  /** The key `progress_hook` files a download under: `path.split("/")[-1]`, written as
      the longest suffix of the path that holds no separator. */
  function LastSegment(p: string): (r: string)
    ensures Sep !in r
  {
    if |p| == 0 || p[|p| - 1] == Sep then "" else LastSegment(p[..|p| - 1]) + [p[|p| - 1]]
  }

  /** LastSegment is a suffix of the path, and it is the longest one without a separator:
      either it is the whole path or a separator stands right before it. */
  lemma {:induction false} LastSegmentIsLongestSuffix(p: string)
    ensures var r := LastSegment(p);
      |r| <= |p| && r == p[|p| - |r|..] && (|r| < |p| ==> p[|p| - |r| - 1] == Sep)
  {
    if |p| > 0 && p[|p| - 1] != Sep {
      var init := LastSegment(p[..|p| - 1]);
      LastSegmentIsLongestSuffix(p[..|p| - 1]);
      assert p[..|p| - 1][|p| - 1 - |init|..] + [p[|p| - 1]] == p[|p| - 1 - |init|..];
    }
  }

  /** The three properties of LastSegment single out one string. */
  lemma {:induction false} SuffixWithoutSeparatorUnique(p: string, r: string)
    requires Sep !in r
    requires |r| <= |p| && r == p[|p| - |r|..]
    requires |r| < |p| ==> p[|p| - |r| - 1] == Sep
    ensures r == LastSegment(p)
  {
    LastSegmentIsLongestSuffix(p);
  }

  /** Whatever the directory part, a path ends in the file name after its last separator. */
  lemma LastSegmentAfterSeparator(dir: string, name: string)
    requires Sep !in name
    ensures LastSegment(dir + [Sep] + name) == name
  {
    var p := dir + [Sep] + name;
    assert p[|p| - |name|..] == name;
    SuffixWithoutSeparatorUnique(p, name);
  }

  /** The last piece of Split satisfies the three properties that define LastSegment. */
  lemma {:induction false} LastPieceIsSuffix(s: string)
    ensures var last := Split(s)[|Split(s)| - 1];
      |last| <= |s| && last == s[|s| - |last|..] &&
      (|last| < |s| ==> s[|s| - |last| - 1] == Sep)
  {
    if |s| > 0 {
      var rest := Split(s[1..]);
      LastPieceIsSuffix(s[1..]);
      if s[0] != Sep && |rest| == 1 {
        assert rest == [s[1..]];
        assert s == [s[0]] + s[1..];
      } else {
        assert Split(s)[|Split(s)| - 1] == rest[|rest| - 1];
      }
    }
  }

  /** LastSegment is exactly Python's `path.split("/")[-1]`. */
  lemma LastSegmentIsLastPiece(p: string)
    ensures LastSegment(p) == Split(p)[|Split(p)| - 1]
  {
    LastPieceIsSuffix(p);
    SuffixWithoutSeparatorUnique(p, Split(p)[|Split(p)| - 1]);
  }
}
