/** Versions and their precedence: sections 9 to 11 of Semantic Versioning 2.0.0. */
module Semver {
  import Decimal

  datatype Identifier = Numeric(number: nat) | AlphaNumeric(text: string)

  datatype Version = Version(
    major: nat, minor: nat, patch: nat, pre: seq<Identifier>, build: seq<Identifier>)

  datatype Ordering = Less | Equal | Greater {
    function Flip(): Ordering {
      match this
      case Less => Greater
      case Equal => Equal
      case Greater => Less
    }

    function Then(next: Ordering): Ordering {
      if Equal? then next else this
    }
  }

  function CompareNat(a: nat, b: nat): Ordering {
    if a < b then Less else if a == b then Equal else Greater
  }

  function CompareChar(a: char, b: char): Ordering {
    CompareNat(a as nat, b as nat)
  }

  /** Element by element; a proper prefix is smaller. */
  function Lexicographic<A>(a: seq<A>, b: seq<A>, compare: (A, A) -> Ordering): Ordering {
    if a == [] then (if b == [] then Equal else Less)
    else if b == [] then Greater
    else compare(a[0], b[0]).Then(Lexicographic(a[1..], b[1..], compare))
  }

  /** Numeric identifiers by value, below all others; the others by their characters. */
  function CompareIdentifier(a: Identifier, b: Identifier): Ordering {
    match (a, b)
    case (Numeric(m), Numeric(n)) => CompareNat(m, n)
    case (Numeric(_), AlphaNumeric(_)) => Less
    case (AlphaNumeric(_), Numeric(_)) => Greater
    case (AlphaNumeric(s), AlphaNumeric(t)) => Lexicographic(s, t, CompareChar)
  }

  /** A version with no pre-release is above every one that has one (section 11.3). */
  function ComparePre(a: seq<Identifier>, b: seq<Identifier>): Ordering {
    if a == [] && b == [] then Equal
    else if a == [] then Greater
    else if b == [] then Less
    else Lexicographic(a, b, CompareIdentifier)
  }

  /** Precedence; build metadata is ignored (section 10). */
  function Precedence(a: Version, b: Version): Ordering {
    CompareNat(a.major, b.major)
    .Then(CompareNat(a.minor, b.minor))
    .Then(CompareNat(a.patch, b.patch))
    .Then(ComparePre(a.pre, b.pre))
  }

  predicate AtLeast(a: Version, b: Version) {
    Precedence(a, b) != Less
  }

  function Core(v: Version): Version {
    v.(build := [])
  }

  ghost predicate TotalOrder<A(!new)>(compare: (A, A) -> Ordering) {
    && (forall a, b :: compare(a, b) == Equal <==> a == b)
    && (forall a, b :: compare(b, a) == compare(a, b).Flip())
    && (forall a, b, c :: compare(a, b) == Less && compare(b, c) == Less ==> compare(a, c) == Less)
  }

  lemma {:induction false} LexicographicOrder<A(!new)>(a: seq<A>, b: seq<A>, c: seq<A>, compare: (A, A) -> Ordering)
    requires TotalOrder(compare)
    ensures Lexicographic(a, b, compare) == Equal <==> a == b
    ensures Lexicographic(b, a, compare) == Lexicographic(a, b, compare).Flip()
    ensures Lexicographic(a, b, compare) == Less && Lexicographic(b, c, compare) == Less
            ==> Lexicographic(a, c, compare) == Less
  {
    if a != [] && b != [] {
      var c' := if c == [] then [] else c[1..];
      LexicographicOrder(a[1..], b[1..], c', compare);
      assert a == [a[0]] + a[1..] && b == [b[0]] + b[1..];
      if c != [] && compare(a[0], b[0]) == Equal {
        assert a[0] == b[0];
      }
      if c != [] && compare(b[0], c[0]) == Equal {
        assert b[0] == c[0];
      }
    }
  }

  lemma IdentifierOrder()
    ensures TotalOrder(CompareIdentifier)
  {
    assert TotalOrder(CompareChar);
    forall a, b, c
      ensures CompareIdentifier(a, b) == Equal <==> a == b
      ensures CompareIdentifier(b, a) == CompareIdentifier(a, b).Flip()
      ensures CompareIdentifier(a, b) == Less && CompareIdentifier(b, c) == Less ==> CompareIdentifier(a, c) == Less
    {
      if a.AlphaNumeric? && b.AlphaNumeric? {
        LexicographicOrder(a.text, b.text, if c.AlphaNumeric? then c.text else [], CompareChar);
      }
    }
  }

  lemma PreOrder(a: seq<Identifier>, b: seq<Identifier>, c: seq<Identifier>)
    ensures ComparePre(a, b) == Equal <==> a == b
    ensures ComparePre(b, a) == ComparePre(a, b).Flip()
    ensures ComparePre(a, b) == Less && ComparePre(b, c) == Less ==> ComparePre(a, c) == Less
  {
    IdentifierOrder();
    LexicographicOrder(a, b, c, CompareIdentifier);
  }

  /** Precedence is a total order on versions without build metadata, and two versions are
      equal in precedence exactly when only their build metadata differs. */
  lemma PrecedenceOrder(a: Version, b: Version, c: Version)
    ensures Precedence(a, b) == Equal <==> Core(a) == Core(b)
    ensures Precedence(b, a) == Precedence(a, b).Flip()
    ensures AtLeast(b, a) && AtLeast(c, b) ==> AtLeast(c, a)
    ensures AtLeast(b, a) && AtLeast(c, b) && (Precedence(a, b) == Less || Precedence(b, c) == Less)
            ==> Precedence(a, c) == Less
  {
    PreOrder(a.pre, b.pre, c.pre);
    PreOrder(b.pre, a.pre, c.pre);
    PreOrder(c.pre, b.pre, a.pre);
    PreOrder(c.pre, a.pre, b.pre);
  }

  // ---------- Section 11 of the standard ----------

  /** At the first difference `a` has the smaller element, or it ends there. */
  ghost predicate BelowAt<A(!new)>(a: seq<A>, b: seq<A>, below: (A, A) -> bool, i: nat) {
    && i < |b| && i <= |a| && a[..i] == b[..i]
    && (i < |a| ==> below(a[i], b[i]))
  }

  ghost predicate SeqBelow<A(!new)>(a: seq<A>, b: seq<A>, below: (A, A) -> bool) {
    exists i: nat :: BelowAt(a, b, below, i)
  }

  lemma {:induction false} LexicographicMeans<A(!new)>(a: seq<A>, b: seq<A>, compare: (A, A) -> Ordering, below: (A, A) -> bool)
    requires forall x, y :: compare(x, y) == Less <==> below(x, y)
    requires forall x, y :: compare(x, y) == Equal <==> x == y
    ensures Lexicographic(a, b, compare) == Less <==> SeqBelow(a, b, below)
  {
    if a != [] && b != [] && a[0] == b[0] {
      LexicographicMeans(a[1..], b[1..], compare, below);
      BelowTail(a, b, below);
    } else if b != [] && (a == [] || below(a[0], b[0])) {
      assert BelowAt(a, b, below, 0);
    } else if a != [] && b != [] {
      assert forall i: nat :: i > 0 && i <= |a| && i <= |b| ==> a[..i][0] != b[..i][0];
    }
  }

  lemma BelowTail<A(!new)>(a: seq<A>, b: seq<A>, below: (A, A) -> bool)
    requires a != [] && b != [] && a[0] == b[0] && !below(a[0], b[0])
    ensures SeqBelow(a, b, below) <==> SeqBelow(a[1..], b[1..], below)
  {
    if i: nat :| BelowAt(a, b, below, i) {
      assert i > 0 && a[1..][..i - 1] == a[..i][1..] && b[1..][..i - 1] == b[..i][1..];
      assert BelowAt(a[1..], b[1..], below, i - 1);
    }
    if i: nat :| BelowAt(a[1..], b[1..], below, i) {
      assert a[..i + 1] == [a[0]] + a[1..][..i] && b[..i + 1] == [b[0]] + b[1..][..i];
      assert BelowAt(a, b, below, i + 1);
    }
  }

  /** Sections 11.4.1 to 11.4.3: numeric identifiers by value, below all others; these by the
      characters. */
  ghost predicate IdentifierBelow(a: Identifier, b: Identifier) {
    || (a.Numeric? && b.Numeric? && a.number < b.number)
    || (a.Numeric? && b.AlphaNumeric?)
    || (a.AlphaNumeric? && b.AlphaNumeric? && SeqBelow(a.text, b.text, (c: char, d: char) => c < d))
  }

  lemma IdentifierMeans(a: Identifier, b: Identifier)
    ensures CompareIdentifier(a, b) == Less <==> IdentifierBelow(a, b)
  {
    if a.AlphaNumeric? && b.AlphaNumeric? {
      LexicographicMeans(a.text, b.text, CompareChar, (c: char, d: char) => c < d);
    }
  }

  /** Sections 11.2 to 11.4: by the three numbers; if they agree, a pre-release is below a
      version that is none, and two pre-releases go by their identifiers, where a larger set of
      them is above one that it begins with. */
  ghost predicate VersionBelow(a: Version, b: Version) {
    if a.major != b.major then a.major < b.major
    else if a.minor != b.minor then a.minor < b.minor
    else if a.patch != b.patch then a.patch < b.patch
    else a.pre != [] && (b.pre == [] || exists i: nat :: PreBelowAt(a.pre, b.pre, i))
  }

  ghost predicate PreBelowAt(a: seq<Identifier>, b: seq<Identifier>, i: nat) {
    && i < |b| && i <= |a| && a[..i] == b[..i]
    && (i < |a| ==> IdentifierBelow(a[i], b[i]))
  }

  lemma {:induction false} PreMeans(a: seq<Identifier>, b: seq<Identifier>)
    ensures Lexicographic(a, b, CompareIdentifier) == Less <==> exists i: nat :: PreBelowAt(a, b, i)
  {
    var below := (x: Identifier, y: Identifier) => CompareIdentifier(x, y) == Less;
    IdentifierOrder();
    LexicographicMeans(a, b, CompareIdentifier, below);
    forall i: nat ensures BelowAt(a, b, below, i) <==> PreBelowAt(a, b, i) {
      if i < |a| && i < |b| {
        IdentifierMeans(a[i], b[i]);
      }
    }
  }

  /** Precedence is that of the standard. */
  lemma {:induction false} PrecedenceMeans(a: Version, b: Version)
    ensures Precedence(a, b) == Less <==> VersionBelow(a, b)
    ensures Precedence(a, b) == Greater <==> VersionBelow(b, a)
    ensures Precedence(a, b) == Equal <==> a.major == b.major && a.minor == b.minor && a.patch == b.patch && a.pre == b.pre
  {
    PreMeans(a.pre, b.pre);
    PreMeans(b.pre, a.pre);
    PrecedenceOrder(a, b, b);
  }

  /** Dot-separated identifiers. */
  function Joined(ids: seq<Identifier>): string {
    if ids == [] then ""
    else if |ids| == 1 then Text(ids[0])
    else Text(ids[0]) + "." + Joined(ids[1..])
  }

  function Text(id: Identifier): string {
    match id
    case Numeric(n) => Decimal.Show(n)
    case AlphaNumeric(text) => text
  }

  function CoreText(v: Version): string {
    Decimal.Show(v.major) + "." + Decimal.Show(v.minor) + "." + Decimal.Show(v.patch)
  }

  function Suffix(mark: string, ids: seq<Identifier>): string {
    if ids == [] then "" else mark + Joined(ids)
  }

  /** `major.minor.patch`, then `-pre` and `+build` where there is any. */
  function Show(v: Version): string {
    CoreText(v) + (Suffix("-", v.pre) + Suffix("+", v.build))
  }

  predicate IdentifierChar(c: char) {
    Decimal.IsDigit(c) || 'a' <= c <= 'z' || 'A' <= c <= 'Z' || c == '-'
  }

  /** What sections 9 and 10 allow; an all-digit text without a leading zero is numeric. */
  ghost predicate WellFormedIdentifier(id: Identifier) {
    id.AlphaNumeric? ==>
      && id.text != []
      && (forall i :: 0 <= i < |id.text| ==> IdentifierChar(id.text[i]))
      && (forall n: nat :: Decimal.Show(n) != id.text)
  }

  ghost predicate WellFormed(v: Version) {
    forall id :: id in v.pre || id in v.build ==> WellFormedIdentifier(id)
  }

  lemma TextIsClean(id: Identifier)
    requires WellFormedIdentifier(id)
    ensures Text(id) != []
    ensures forall i :: 0 <= i < |Text(id)| ==> IdentifierChar(Text(id)[i])
  {
  }

  lemma TextInjective(a: Identifier, b: Identifier)
    requires WellFormedIdentifier(a) && WellFormedIdentifier(b)
    requires Text(a) == Text(b)
    ensures a == b
  {
    if a.Numeric? && b.Numeric? {
      Decimal.ShowInjective(a.number, b.number);
    }
  }

  /** Two identifier lists that print alike are the same list. */
  lemma {:induction false} JoinedInjective(a: seq<Identifier>, b: seq<Identifier>)
    requires forall id :: id in a || id in b ==> WellFormedIdentifier(id)
    requires a != [] && b != []
    requires Joined(a) == Joined(b)
    ensures a == b
  {
    TextIsClean(a[0]);
    TextIsClean(b[0]);
    assert '.' !in Text(a[0]) && '.' !in Text(b[0]);
    var restA := if |a| == 1 then "" else Joined(a[1..]) + ".";
    var restB := if |b| == 1 then "" else Joined(b[1..]) + ".";
    assert Joined(a) + "." == Text(a[0]) + ['.'] + restA;
    assert Joined(b) + "." == Text(b[0]) + ['.'] + restB;
    Decimal.SplitUnique(Text(a[0]), restA, Text(b[0]), restB, '.');
    TextInjective(a[0], b[0]);
    if |a| > 1 && |b| > 1 {
      assert Joined(a[1..]) == restA[..|restA| - 1] == Joined(b[1..]);
      JoinedInjective(a[1..], b[1..]);
    }
    assert a == [a[0]] + a[1..] && b == [b[0]] + b[1..];
  }
}
