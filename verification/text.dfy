/**
 Python's `str.split(sep)` and `sep.join(parts)` for a one-character
 separator, and the facts that make them inverse to each other.
 */
module Text {

  /** `s.split(sep)`: the pieces between separators, left to right. Nothing is
      trimmed and empty pieces are kept, so the empty text splits into one
      empty piece and a separator at either end yields an empty piece there. */
  function Split(s: string, sep: char): (pieces: seq<string>)
    ensures |pieces| >= 1
    ensures forall k :: 0 <= k < |pieces| ==> sep !in pieces[k]
    decreases |s|
  {
    if |s| == 0 then [""]
    else
      var rest := Split(s[1..], sep);
      if s[0] == sep then [""] + rest
      else [[s[0]] + rest[0]] + rest[1..]
  }

  /** `sep.join(parts)`: the parts with one separator between neighbours. */
  function Join(parts: seq<string>, sep: char): (s: string)
    ensures |parts| == 0 ==> s == ""
    ensures |parts| == 1 ==> s == parts[0]
    ensures |parts| >= 1 ==> |parts[0]| <= |s| && s[..|parts[0]|] == parts[0]
    ensures |parts| >= 2 ==> |parts[0]| < |s| && s[|parts[0]|] == sep
  {
    if |parts| == 0 then ""
    else if |parts| == 1 then parts[0]
    else parts[0] + [sep] + Join(parts[1..], sep)
  }

  /** There is one piece more than there are separators in the text. */
  lemma {:induction false} SplitCount(s: string, sep: char)
    ensures |Split(s, sep)| == multiset(s)[sep] + 1
    decreases |s|
  {
    if |s| > 0 {
      SplitCount(s[1..], sep);
      assert s == [s[0]] + s[1..];
      assert multiset(s) == multiset{s[0]} + multiset(s[1..]);
    }
  }

  /** Prepending a character to the first part prepends it to the joined text. */
  lemma JoinExtendFirst(c: char, parts: seq<string>, sep: char)
    requires |parts| >= 1
    ensures Join([[c] + parts[0]] + parts[1..], sep) == [c] + Join(parts, sep)
  {
  }

  /** Splitting and joining again gives back the text: no character is lost,
      added or moved by the split. */
  lemma {:induction false} JoinSplit(s: string, sep: char)
    ensures Join(Split(s, sep), sep) == s
    decreases |s|
  {
    if |s| > 0 {
      var rest := Split(s[1..], sep);
      JoinSplit(s[1..], sep);
      assert s == [s[0]] + s[1..];
      if s[0] == sep {
        var pieces := [""] + rest;
        assert Split(s, sep) == pieces;
        assert pieces[1..] == rest;
        assert Join(pieces, sep) == "" + [sep] + Join(rest, sep);
      } else {
        assert Split(s, sep) == [[s[0]] + rest[0]] + rest[1..];
        JoinExtendFirst(s[0], rest, sep);
      }
    }
  }

  /** A separator-free prefix is glued onto the first piece of what follows it. */
  lemma {:induction false} SplitFreePrefix(p: string, t: string, sep: char)
    requires sep !in p
    ensures Split(p + t, sep) == [p + Split(t, sep)[0]] + Split(t, sep)[1..]
    decreases |p|
  {
    var pieces := Split(t, sep);
    if |p| > 0 {
      var tail := Split(p[1..] + t, sep);
      SplitFreePrefix(p[1..], t, sep);
      assert tail == [p[1..] + pieces[0]] + pieces[1..];
      assert (p + t)[0] == p[0] && (p + t)[1..] == p[1..] + t;
      assert Split(p + t, sep) == [[p[0]] + tail[0]] + tail[1..];
      assert tail[0] == p[1..] + pieces[0] && tail[1..] == pieces[1..];
      assert [p[0]] + (p[1..] + pieces[0]) == p + pieces[0];
    } else {
      assert p + t == t;
      assert p + pieces[0] == pieces[0];
      assert pieces == [pieces[0]] + pieces[1..];
    }
  }

  /** Joining separator-free parts and splitting again gives back the parts.
      At least one part is needed: `"".split(sep)` is `[""]`, not `[]`. */
  lemma {:induction false} SplitJoin(parts: seq<string>, sep: char)
    requires |parts| >= 1
    requires forall k :: 0 <= k < |parts| ==> sep !in parts[k]
    ensures Split(Join(parts, sep), sep) == parts
    decreases |parts|
  {
    if |parts| == 1 {
      SplitFreePrefix(parts[0], "", sep);
      assert parts[0] + "" == parts[0];
      assert Split("", sep) == [""];
    } else {
      var tail := Join(parts[1..], sep);
      var rest := [sep] + tail;
      assert Join(parts, sep) == parts[0] + rest;
      SplitJoin(parts[1..], sep);
      assert Split(rest, sep) == [""] + parts[1..] by {
        assert rest[0] == sep && rest[1..] == tail;
      }
      SplitFreePrefix(parts[0], rest, sep);
      assert parts[0] + "" == parts[0];
      assert ([""] + parts[1..])[1..] == parts[1..];
    }
  }

  /** Every piece is made of characters of the text: a character absent from
      the text is absent from every piece. */
  lemma {:induction false} SplitKeepsOut(s: string, sep: char, c: char)
    requires c !in s
    ensures forall k :: 0 <= k < |Split(s, sep)| ==> c !in Split(s, sep)[k]
    decreases |s|
  {
    if |s| > 0 {
      assert c !in s[1..] && c != s[0] by { assert s == [s[0]] + s[1..]; }
      SplitKeepsOut(s[1..], sep, c);
    }
  }
}
