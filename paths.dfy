/**
 * The command name of a plugin: the file stem of its path, as
 * `Path::new(..).file_stem()` computes it on Unix (src/lib.rs:99).
 */
module Paths {
  import opened Wrappers
  import opened Bytes

  const Slash: byte := 47
  const Dot: byte := 46

  /** A piece that names something: not empty (a doubled or trailing `/`) and not `.`. */
  predicate Names(piece: seq<byte>) {
    piece != [] && piece != [Dot]
  }

  /** A possible file name: one component that is neither `.` nor `..`. */
  predicate IsFileName(name: seq<byte>) {
    Names(name) && name != [Dot, Dot] && Slash !in name
  }

  /** The pieces that name something, in order. */
  function Keep(pieces: seq<seq<byte>>): (kept: seq<seq<byte>>)
    ensures |kept| <= |pieces|
    ensures forall i :: 0 <= i < |kept| ==> Names(kept[i]) && kept[i] in pieces
    ensures forall x :: x in kept <==> x in pieces && Names(x)
    decreases |pieces|
  {
    if |pieces| == 0 then []
    else
      var front := Keep(pieces[..|pieces| - 1]);
      var last := pieces[|pieces| - 1];
      if Names(last) then front + [last] else front
  }

  /**
   * The path components after the root and any `.` pieces are dropped;
   * `..` stays, as the parent-directory component.
   */
  function Components(p: seq<byte>): (cs: seq<seq<byte>>)
    ensures forall i :: 0 <= i < |cs| ==> Names(cs[i]) && Slash !in cs[i]
  {
    SplitPiecesHaveNoSeparator(p, Slash);
    Keep(Split(p, Slash))
  }

  /** The last component, unless there is none or it is `..`. */
  function FileName(p: seq<byte>): (name: Option<seq<byte>>)
    ensures name.Some? ==> IsFileName(name.value)
  {
    var cs := Components(p);
    if |cs| == 0 || cs[|cs| - 1] == [Dot, Dot] then None
    else Some(cs[|cs| - 1])
  }

  /** The position of the last `.` in `s`, if any. */
  function LastDot(s: seq<byte>): (k: Option<nat>)
    ensures k.Some? ==> k.value < |s| && s[k.value] == Dot && Dot !in s[k.value + 1..]
    ensures k.None? ==> Dot !in s
    decreases |s|
  {
    if |s| == 0 then None
    else if s[|s| - 1] == Dot then Some(|s| - 1)
    else
      var k := LastDot(s[..|s| - 1]);
      assert k.Some? ==> s[k.value + 1..] == s[..|s| - 1][k.value + 1..] + [s[|s| - 1]];
      assert k.None? ==> s == s[..|s| - 1] + [s[|s| - 1]];
      k
  }

  /**
   * The stem of a file name: the whole name when it has no `.`, or when its
   * only `.` is the first byte; otherwise everything before the last `.`.
   * Only file names reach it (`FileName` never yields `..`, which Rust keeps
   * whole); on `..` itself it would give `.`.
   */
  function Stem(name: seq<byte>): (stem: seq<byte>)
    ensures stem <= name
    ensures stem == name <==> Dot !in name || (name[0] == Dot && Dot !in name[1..])
    ensures stem != name ==> 0 < |stem| < |name| && name[|stem|] == Dot && Dot !in name[|stem| + 1..]
    ensures name != [] ==> stem != []
  {
    match LastDot(name)
    case None => name
    case Some(k) => if k == 0 then name else name[..k]
  }

  /** `file_stem`: the stem of the file name, absent when the path has no file name. */
  function FileStem(p: seq<byte>): (stem: Option<seq<byte>>)
    ensures stem.Some? <==> FileName(p).Some?
    ensures stem.Some? ==> stem.value != [] && Slash !in stem.value
    ensures stem.Some? ==> stem.value <= FileName(p).value
    ensures stem.Some? ==> stem.value == Stem(FileName(p).value)
  {
    match FileName(p)
    case None => None
    case Some(name) => Some(Stem(name))
  }

  /**
   * Appending `/piece` to a path appends `piece` to its components when it
   * names something, and leaves them unchanged when it is empty or `.`.
   */
  lemma ComponentsAppend(dir: seq<byte>, piece: seq<byte>)
    requires Slash !in piece
    ensures Components(dir + [Slash] + piece) == Components(dir) + (if Names(piece) then [piece] else [])
  {
    JoinSplit([piece], Slash);
    assert Split(piece, Slash) == [piece];
    SplitAppend(dir, piece, Slash);
    var pieces := Split(dir, Slash) + [piece];
    assert pieces[..|pieces| - 1] == Split(dir, Slash);
  }

  /**
   * The file name is the last component, whatever directory precedes it and
   * whether a trailing `/`, `//` or `/.` follows it.
   */
  lemma FileNameIsLastComponent(dir: seq<byte>, name: seq<byte>)
    requires IsFileName(name)
    ensures FileName(name) == Some(name)
    ensures FileName(dir + [Slash] + name) == Some(name)
    ensures FileName(dir + [Slash] + name + [Slash]) == Some(name)
    ensures FileName(dir + [Slash] + name + [Slash, Slash]) == Some(name)
    ensures FileName(dir + [Slash] + name + [Slash, Dot]) == Some(name)
  {
    JoinSplit([name], Slash);
    assert Split(name, Slash) == [name];
    assert Keep([name]) == Keep([]) + [name];
    var p := dir + [Slash] + name;
    ComponentsAppend(dir, name);
    IgnoredSuffixes(p);
  }

  /** A trailing `/`, `//` or `/.` adds no component. */
  lemma IgnoredSuffixes(p: seq<byte>)
    ensures Components(p + [Slash]) == Components(p)
    ensures Components(p + [Slash, Slash]) == Components(p)
    ensures Components(p + [Slash, Dot]) == Components(p)
  {
    assert p + [Slash] == p + [Slash] + [];
    ComponentsAppend(p, []);
    assert p + [Slash, Slash] == p + [Slash] + [Slash] + [];
    ComponentsAppend(p + [Slash], []);
    assert p + [Slash, Dot] == p + [Slash] + [Dot];
    ComponentsAppend(p, [Dot]);
  }

  /** The paths for which `file_stem` has no answer: the empty path and one ending in `..`. */
  lemma NoFileName(dir: seq<byte>)
    ensures FileName([]) == None
    ensures FileName([Dot, Dot]) == None
    ensures FileName(dir + [Slash, Dot, Dot]) == None
  {
    assert Split([], Slash) == [[]];
    JoinSplit([[Dot, Dot]], Slash);
    assert Keep([[Dot, Dot]]) == Keep([]) + [[Dot, Dot]];
    assert dir + [Slash, Dot, Dot] == dir + [Slash] + [Dot, Dot];
    SplitAppend(dir, [Dot, Dot], Slash);
    var pieces := Split(dir, Slash) + [[Dot, Dot]];
    assert pieces[..|pieces| - 1] == Split(dir, Slash);
  }

  /** `/plugins/foo.so` is registered as `foo`. */
  lemma StemOfPluginPath()
    ensures FileStem([47, 112, 108, 117, 103, 105, 110, 115, 47, 102, 111, 111, 46, 115, 111])
         == Some([102, 111, 111])
  {
    var dir: seq<byte> := [47, 112, 108, 117, 103, 105, 110, 115];
    var name: seq<byte> := [102, 111, 111, 46, 115, 111];
    assert [47, 112, 108, 117, 103, 105, 110, 115, 47, 102, 111, 111, 46, 115, 111] == dir + [Slash] + name;
    FileNameIsLastComponent(dir, name);
    StemOfFooSo();
  }

  lemma StemOfFooSo()
    ensures Stem([102, 111, 111, 46, 115, 111]) == [102, 111, 111]
  {
    var name: seq<byte> := [102, 111, 111, 46, 115, 111];
    assert name[3] == Dot && name[0] != Dot;
    assert name[4] != Dot && name[5] != Dot;
    assert name[..5][..4] == name[..4];
    assert LastDot(name[..4]) == Some(3);
    assert LastDot(name[..5]) == Some(3);
    assert LastDot(name) == Some(3);
  }
}
