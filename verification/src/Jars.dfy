/** The file name an installed or updated server jar is stored under. */
module Jars {
  import opened Semver
  import Decimal

  /** `str::replace` of a one-character pattern by one character. */
  function Replace(text: string, from: char, to: char): (r: string)
    ensures |r| == |text|
    ensures forall i :: 0 <= i < |text| ==> r[i] == if text[i] == from then to else text[i]
  {
    if text == "" then "" else [if text[0] == from then to else text[0]] + Replace(text[1..], from, to)
  }

  function JarName(v: Version): string {
    Replace("paper_" + Show(v) + ".jar", '+', '-')
  }

  ghost predicate HyphenFree(v: Version) {
    forall id :: id in v.pre || id in v.build ==> '-' !in Text(id)
  }

  lemma {:induction false} JoinedIsClean(ids: seq<Identifier>)
    requires forall id :: id in ids ==> WellFormedIdentifier(id)
    ensures forall i :: 0 <= i < |Joined(ids)| ==> IdentifierChar(Joined(ids)[i]) || Joined(ids)[i] == '.'
  {
    if ids != [] {
      TextIsClean(ids[0]);
      JoinedIsClean(ids[1..]);
    }
  }

  lemma {:induction false} JoinedHasNoHyphen(ids: seq<Identifier>)
    requires forall id :: id in ids ==> '-' !in Text(id)
    ensures '-' !in Joined(ids)
  {
    if ids != [] {
      JoinedHasNoHyphen(ids[1..]);
    }
  }

  lemma ReplaceAppend(a: string, b: string, from: char, to: char)
    ensures Replace(a + b, from, to) == Replace(a, from, to) + Replace(b, from, to)
  {
    var whole, parts := Replace(a + b, from, to), Replace(a, from, to) + Replace(b, from, to);
    assert forall i :: 0 <= i < |whole| ==> whole[i] == parts[i];
  }

  lemma ReplaceNothing(text: string, from: char, to: char)
    requires from !in text
    ensures Replace(text, from, to) == text
  {
    assert forall i :: 0 <= i < |text| ==> text[i] != from;
  }

  lemma ReplaceSuffix(mark: string, ids: seq<Identifier>)
    requires forall id :: id in ids ==> WellFormedIdentifier(id)
    requires mark == "-" || mark == "+"
    ensures Replace(Suffix(mark, ids), '+', '-') == Suffix("-", ids)
  {
    JoinedIsClean(ids);
    assert '+' !in Joined(ids);
    ReplaceNothing(Joined(ids), '+', '-');
    ReplaceAppend(mark, Joined(ids), '+', '-');
    assert Replace(mark, '+', '-') == "-";
  }

  lemma CoreTextIsPlain(v: Version)
    ensures '+' !in CoreText(v)
  {
    Decimal.ShowHasNo(v.major, '+');
    Decimal.ShowHasNo(v.minor, '+');
    Decimal.ShowHasNo(v.patch, '+');
  }

  /** What follows `major.minor.patch` in a jar name. */
  function Tail(v: Version): string {
    Suffix("-", v.pre) + Suffix("-", v.build)
  }

  lemma JarNameParts(v: Version)
    requires WellFormed(v)
    ensures JarName(v) == "paper_" + (CoreText(v) + Tail(v)) + ".jar"
  {
    ReplaceAppend("paper_" + Show(v), ".jar", '+', '-');
    ReplaceAppend("paper_", Show(v), '+', '-');
    ReplaceNothing(".jar", '+', '-');
    ReplaceNothing("paper_", '+', '-');
    ReplaceAppend(CoreText(v), Suffix("-", v.pre) + Suffix("+", v.build), '+', '-');
    ReplaceAppend(Suffix("-", v.pre), Suffix("+", v.build), '+', '-');
    ReplaceSuffix("-", v.pre);
    ReplaceSuffix("+", v.build);
    CoreTextIsPlain(v);
    ReplaceNothing(CoreText(v), '+', '-');
  }

  lemma CoreTextUnique(a: Version, b: Version, restA: string, restB: string)
    requires CoreText(a) + ("-" + restA) == CoreText(b) + ("-" + restB)
    ensures a.major == b.major && a.minor == b.minor && a.patch == b.patch && restA == restB
  {
    var tailA := Decimal.Show(a.patch) + ['-'] + restA;
    var tailB := Decimal.Show(b.patch) + ['-'] + restB;
    var midA := Decimal.Show(a.minor) + ['.'] + tailA;
    var midB := Decimal.Show(b.minor) + ['.'] + tailB;
    assert Decimal.Show(a.major) + ['.'] + midA == CoreText(a) + ("-" + restA);
    assert Decimal.Show(b.major) + ['.'] + midB == CoreText(b) + ("-" + restB);
    Decimal.SplitUnique(Decimal.Show(a.major), midA, Decimal.Show(b.major), midB, '.');
    Decimal.SplitUnique(Decimal.Show(a.minor), tailA, Decimal.Show(b.minor), tailB, '.');
    Decimal.SplitUnique(Decimal.Show(a.patch), restA, Decimal.Show(b.patch), restB, '-');
    Decimal.ShowInjective(a.major, b.major);
    Decimal.ShowInjective(a.minor, b.minor);
    Decimal.ShowInjective(a.patch, b.patch);
  }

  /** The tail without its leading hyphen. */
  function Inner(v: Version): string
    requires v.build != []
  {
    if v.pre == [] then Joined(v.build) else Joined(v.pre) + ("-" + Joined(v.build))
  }

  lemma TailInner(v: Version)
    requires v.build != []
    ensures Tail(v) == "-" + Inner(v)
  {
  }

  lemma Unwrap(a: string, b: string)
    requires "paper_" + a + ".jar" == "paper_" + b + ".jar"
    ensures a == b
  {
    var text := "paper_" + a + ".jar";
    assert a == text[6..|text| - 4] && b == text[6..|text| - 4];
  }

  lemma SameInner(a: Version, b: Version)
    requires WellFormed(a) && WellFormed(b) && a.build != [] && b.build != []
    requires JarName(a) == JarName(b)
    ensures a.major == b.major && a.minor == b.minor && a.patch == b.patch && Inner(a) == Inner(b)
  {
    JarNameParts(a);
    JarNameParts(b);
    Unwrap(CoreText(a) + Tail(a), CoreText(b) + Tail(b));
    TailInner(a);
    TailInner(b);
    CoreTextUnique(a, b, Inner(a), Inner(b));
  }

  /** The numbers agree, and so does what is printed behind them. */
  predicate PrintedAlike(a: Version, b: Version)
    requires a.build != [] && b.build != []
  {
    a.major == b.major && a.minor == b.minor && a.patch == b.patch && Inner(a) == Inner(b)
  }

  /** Exactly when two artifact versions share a jar name. */
  lemma SameJarExactlyWhen(a: Version, b: Version)
    requires WellFormed(a) && WellFormed(b) && a.build != [] && b.build != []
    ensures JarName(a) == JarName(b) <==> PrintedAlike(a, b)
  {
    JarNameParts(a);
    JarNameParts(b);
    TailInner(a);
    TailInner(b);
    if JarName(a) == JarName(b) {
      SameInner(a, b);
    }
  }

  /** Two artifact versions with the same jar name are the same version if neither is a
      pre-release, or if no identifier of either contains a hyphen. */
  lemma JarNameInjective(a: Version, b: Version)
    requires WellFormed(a) && WellFormed(b) && a.build != [] && b.build != []
    requires (a.pre == [] && b.pre == []) || (HyphenFree(a) && HyphenFree(b))
    ensures JarName(a) == JarName(b) <==> a == b
  {
    if JarName(a) == JarName(b) {
      SameInner(a, b);
      if a.pre != [] || b.pre != [] {
        JoinedHasNoHyphen(a.pre);
        JoinedHasNoHyphen(a.build);
        JoinedHasNoHyphen(b.pre);
        JoinedHasNoHyphen(b.build);
        assert a.pre != [] ==> Inner(a)[|Joined(a.pre)|] == '-';
        assert b.pre != [] ==> Inner(b)[|Joined(b.pre)|] == '-';
        assert a.pre != [] && b.pre != [];
        assert Inner(a) == Joined(a.pre) + ['-'] + Joined(a.build);
        assert Inner(b) == Joined(b.pre) + ['-'] + Joined(b.build);
        Decimal.SplitUnique(Joined(a.pre), Joined(a.build), Joined(b.pre), Joined(b.build), '-');
        JoinedInjective(a.pre, b.pre);
      }
      JoinedInjective(a.build, b.build);
    }
  }

  /** With hyphens and pre-releases the names can clash: "1-2" is a build here and a
      pre-release followed by a build there, and the pre-release is the older version. */
  lemma JarNamesCanClash(older: Version, newer: Version)
    requires older == Version(1, 0, 0, [Numeric(1)], [Numeric(2)])
    requires newer == Version(1, 0, 0, [], [AlphaNumeric("1-2")])
    ensures JarName(older) == JarName(newer)
    ensures Precedence(older, newer) == Less
  {
    assert Joined(older.pre) == "1" && Joined(older.build) == "2" && Joined(newer.build) == "1-2";
    assert Tail(older) == Tail(newer) == "-1-2";
    assert WellFormedIdentifier(AlphaNumeric("1-2")) by {
      assert "1-2"[1] == '-';
    }
    JarNameParts(older);
    JarNameParts(newer);
  }
}
