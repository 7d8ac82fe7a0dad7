/**
 * How a connection derives a board's type and id from the firmware name the
 * device reports (the name of its sketch file, such as "MajorTom_<id>.ino"):
 * the type is the text before the first '_', the id is the text after the last
 * '_' with the first occurrence of ".ino" removed from it.
 */
module FirmwareName {
  import opened Wrappers

  const Separator := '_'
  const SketchExtension := ".ino"

  /** The parts joined back together with `sep` between them. */
  function Join(parts: seq<string>, sep: char): string
    requires |parts| >= 1
  {
    if |parts| == 1 then parts[0] else parts[0] + [sep] + Join(parts[1..], sep)
  }

  /** The pieces of `s` between occurrences of `sep`, as JavaScript's split gives them. */
  function Split(s: string, sep: char): (parts: seq<string>)
    ensures |parts| >= 1
    ensures forall i :: 0 <= i < |parts| ==> sep !in parts[i]
    ensures Join(parts, sep) == s
  {
    if s == [] then [""]
    else
      var rest := Split(s[1..], sep);
      if s[0] == sep then [""] + rest
      else
        assert s == [s[0]] + s[1..];
        [[s[0]] + rest[0]] + rest[1..]
  }

  predicate OccursAt(s: string, pattern: string, k: nat)
  {
    k + |pattern| <= |s| && s[k..k + |pattern|] == pattern
  }

  /** The first position at or after `from` where `pattern` occurs in `s`. */
  function FindFrom(s: string, pattern: string, from: nat): (r: Option<nat>)
    requires from <= |s|
    ensures r.Some? ==> from <= r.value && OccursAt(s, pattern, r.value)
    ensures r.Some? ==> forall j :: from <= j < r.value ==> !OccursAt(s, pattern, j)
    ensures r.None? ==> forall j :: from <= j <= |s| ==> !OccursAt(s, pattern, j)
    decreases |s| - from
  {
    if OccursAt(s, pattern, from) then Some(from)
    else if from == |s| then None
    else FindFrom(s, pattern, from + 1)
  }

  /** `pattern` occurs at `k` and nowhere before it. */
  predicate IsFirstOccurrence(s: string, pattern: string, k: nat)
  {
    OccursAt(s, pattern, k) && forall j :: 0 <= j < k ==> !OccursAt(s, pattern, j)
  }

  /** `s` with the first occurrence of `pattern` removed, as JavaScript's replace with an empty string. */
  function RemoveFirst(s: string, pattern: string): (r: string)
    ensures (forall j :: 0 <= j <= |s| ==> !OccursAt(s, pattern, j)) ==> r == s
    ensures forall k: nat :: IsFirstOccurrence(s, pattern, k) ==> r == s[..k] + s[k + |pattern|..]
  {
    match FindFrom(s, pattern, 0)
    case None => s
    case Some(k) => s[..k] + s[k + |pattern|..]
  }

  /** The board type: the firmware name's text before its first '_'. */
  function BoardType(firmwareName: string): string
  {
    Split(firmwareName, Separator)[0]
  }

  /** The board id: the text after the last '_', without the first ".ino" in it. */
  function BoardId(firmwareName: string): string
  {
    var parts := Split(firmwareName, Separator);
    RemoveFirst(parts[|parts| - 1], SketchExtension)
  }

  lemma {:induction false} JoinStartsWithFirst(parts: seq<string>, sep: char)
    requires |parts| >= 1
    ensures |parts| == 1 ==> Join(parts, sep) == parts[0]
    ensures |parts| > 1 ==> Join(parts, sep) == parts[0] + [sep] + Join(parts[1..], sep)
  {
  }

  lemma {:induction false} JoinEndsWithLast(parts: seq<string>, sep: char)
    requires |parts| > 1
    ensures exists pre :: Join(parts, sep) == pre + [sep] + parts[|parts| - 1]
  {
    if |parts| == 2 {
      assert Join(parts, sep) == parts[0] + [sep] + parts[1];
    } else {
      JoinEndsWithLast(parts[1..], sep);
      var pre :| Join(parts[1..], sep) == pre + [sep] + parts[1..][|parts[1..]| - 1];
      assert Join(parts, sep) == (parts[0] + [sep] + pre) + [sep] + parts[|parts| - 1];
    }
  }

  /**
   * The type is a prefix of the name with no '_' in it, followed either by
   * nothing (a name without '_' is its own type) or by a '_'.
   */
  lemma TypeIsTextBeforeFirstSeparator(name: string)
    ensures var t := BoardType(name);
      && Separator !in t
      && |t| <= |name| && name[..|t|] == t
      && (|t| == |name| || name[|t|] == Separator)
      && (Separator !in name ==> t == name)
  {
    var parts := Split(name, Separator);
    JoinStartsWithFirst(parts, Separator);
    if |parts| == 1 {
      assert name == parts[0];
    } else {
      assert name == parts[0] + [Separator] + Join(parts[1..], Separator);
      assert name[|parts[0]|] == Separator;
      assert Separator in name;
    }
  }

  /** The text after the last '_' in the name (the whole name when it has none). */
  function LastSegment(name: string): string
  {
    var parts := Split(name, Separator);
    parts[|parts| - 1]
  }

  /**
   * The id's source segment is a suffix of the name with no '_' in it, preceded
   * either by nothing or by a '_'; the id is that segment without its first
   * ".ino".
   */
  lemma IdIsTextAfterLastSeparator(name: string)
    ensures var last := LastSegment(name);
      && Separator !in last
      && |last| <= |name| && name[|name| - |last|..] == last
      && (|last| == |name| || name[|name| - |last| - 1] == Separator)
      && BoardId(name) == RemoveFirst(last, SketchExtension)
      && (Separator !in name ==> last == name)
  {
    var parts := Split(name, Separator);
    var last := parts[|parts| - 1];
    if |parts| == 1 {
      JoinStartsWithFirst(parts, Separator);
    } else {
      JoinEndsWithLast(parts, Separator);
      var pre :| name == pre + [Separator] + last;
      assert name[|name| - |last|..] == last;
      assert name[|name| - |last| - 1] == Separator;
      assert Separator in name;
    }
  }

  lemma {:induction false} SplitWithoutSeparator(s: string, sep: char)
    requires sep !in s
    ensures Split(s, sep) == [s]
  {
    if s != [] {
      SplitWithoutSeparator(s[1..], sep);
    }
  }

  lemma {:induction false} SplitAtFirstSeparator(a: string, b: string, sep: char)
    requires sep !in a
    ensures Split(a + [sep] + b, sep) == [a] + Split(b, sep)
  {
    if a != [] {
      var s := a + [sep] + b;
      assert s[0] == a[0] && s[1..] == a[1..] + [sep] + b;
      SplitAtFirstSeparator(a[1..], b, sep);
      var rest := Split(s[1..], sep);
      assert rest[0] == a[1..] && rest[1..] == Split(b, sep);
      assert [a[0]] + a[1..] == a;
    } else {
      assert (a + [sep] + b)[1..] == b;
    }
  }

  /** A sketch name of the usual shape gives its prefix as type and the rest, without the extension, as id. */
  lemma UsualSketchName(prefix: string, unique: string)
    requires Separator !in prefix && Separator !in unique
    requires forall j :: 0 <= j < |unique| ==> !OccursAt(unique + SketchExtension, SketchExtension, j)
    ensures BoardType(prefix + [Separator] + unique + SketchExtension) == prefix
    ensures BoardId(prefix + [Separator] + unique + SketchExtension) == unique
  {
    var rest := unique + SketchExtension;
    assert prefix + [Separator] + unique + SketchExtension == prefix + [Separator] + rest;
    assert Separator !in rest;
    SplitWithoutSeparator(rest, Separator);
    SplitAtFirstSeparator(prefix, rest, Separator);
    assert OccursAt(rest, SketchExtension, |unique|);
    assert IsFirstOccurrence(rest, SketchExtension, |unique|);
    assert rest[..|unique|] + rest[|unique| + |SketchExtension|..] == unique;
  }

  /** Only the first ".ino" is removed, wherever it is: "Blink_a.inob.ino" gives the id "ab.ino". */
  lemma FirstExtensionRemoved()
    ensures RemoveFirst("a.inob.ino", SketchExtension) == "ab.ino"
  {
    var s := "a.inob.ino";
    assert OccursAt(s, SketchExtension, 1);
    assert s[0..4][0] != SketchExtension[0];
    assert IsFirstOccurrence(s, SketchExtension, 1);
    assert s[..1] + s[5..] == "ab.ino";
  }
}
