/** The Paper repository, over one unchanging snapshot of what its web interface answers. */
module Repository {
  import opened Sequences
  import opened Semver
  import Decimal

  /** One entry of a build list; `application` is the name of its "application" download. */
  datatype Build = Build(number: nat, application: Option<string>)

  /** `None` and missing keys stand for failed requests and unreadable answers. */
  datatype Snapshot = Snapshot(
    versions: Option<seq<string>>, builds: map<string, seq<Build>>, pinned: map<(string, string), Build>)

  datatype RepositoryError = RepositoryError(message: string)

  datatype Artifact = Artifact(version: Version, downloadName: string)

  /** How a version is named in requests: the patch number is left out when it is zero. */
  function VersionString(v: Version): string {
    if v.patch == 0 then Decimal.Show(v.major) + "." + Decimal.Show(v.minor) else Show(v)
  }

  // ---------- Listed versions ----------

  function DigitRun(text: string): (n: nat)
    ensures n <= |text| && forall i :: 0 <= i < n ==> Decimal.IsDigit(text[i])
    ensures n < |text| ==> !Decimal.IsDigit(text[n])
  {
    if text == [] || !Decimal.IsDigit(text[0]) then 0 else 1 + DigitRun(text[1..])
  }

  /** At most `limit` numbers between dots, then nothing or a pre-release or build suffix. */
  function ParseNumbers(text: string, limit: nat): (numbers: Option<seq<nat>>)
    ensures numbers.Some? ==> 1 <= |numbers.value| <= limit
    decreases limit
  {
    var run := DigitRun(text);
    if run == 0 || limit == 0 then None
    else
      var n, rest := Decimal.Read(text[..run]), text[run..];
      if rest == "" || rest[0] in {'-', '+'} then Some([n])
      else if rest[0] != '.' then None
      else
        match ParseNumbers(rest[1..], limit - 1)
        case None => None
        case Some(numbers) => Some([n] + numbers)
  }

  /** Lenient parsing, of which only the three numbers are used; absent ones are zero. */
  function ParseVersion(text: string): Option<Version> {
    match ParseNumbers(text, 3)
    case None => None
    case Some(ns) =>
      Some(Version(ns[0], if |ns| > 1 then ns[1] else 0, if |ns| > 2 then ns[2] else 0, [], []))
  }

  /** The text spells these numbers: each as its digits, dots between them, and behind the last
      nothing or a suffix. */
  ghost predicate Spells(text: string, numbers: seq<nat>)
    decreases |numbers|, 0
  {
    numbers != [] && exists run: nat :: SpellsFirst(text, numbers[0], run) && SpellsRest(text[run..], numbers[1..])
  }

  ghost predicate SpellsRest(rest: string, numbers: seq<nat>)
    decreases |numbers|, 1
  {
    if numbers == [] then rest == "" || rest[0] in {'-', '+'}
    else rest != "" && rest[0] == '.' && Spells(rest[1..], numbers)
  }

  /** The first `run` characters are all the digits there are, and stand for the number. */
  ghost predicate SpellsFirst(text: string, number: nat, run: nat) {
    && 0 < run <= |text| && Decimal.AllDigits(text[..run]) && Decimal.Read(text[..run]) == number
    && (run < |text| ==> !Decimal.IsDigit(text[run]))
  }

  lemma SpellsFirstAt(text: string, number: nat, run: nat)
    ensures SpellsFirst(text, number, run)
        <==> run > 0 && run == DigitRun(text) && Decimal.Read(text[..run]) == number
  {
    if SpellsFirst(text, number, run) {
      assert forall i :: 0 <= i < run ==> text[i] == text[..run][i];
    }
  }

  lemma SpellsMeans(text: string, numbers: seq<nat>)
    requires numbers != []
    ensures var run := DigitRun(text);
            Spells(text, numbers)
            <==> run > 0 && Decimal.Read(text[..run]) == numbers[0] && SpellsRest(text[run..], numbers[1..])
  {
    forall run: nat ensures SpellsFirst(text, numbers[0], run)
        <==> run > 0 && run == DigitRun(text) && Decimal.Read(text[..run]) == numbers[0] {
      SpellsFirstAt(text, numbers[0], run);
    }
  }

  /** The rest behind a number reads as these numbers. */
  ghost predicate ReadsRest(rest: string, limit: nat, numbers: seq<nat>) {
    if numbers == [] then rest == "" || rest[0] in {'-', '+'}
    else rest != "" && rest[0] == '.' && ParseNumbers(rest[1..], limit) == Some(numbers)
  }

  lemma HeadAndTail(n: nat, more: seq<nat>, numbers: seq<nat>)
    requires numbers != []
    ensures [n] + more == numbers <==> n == numbers[0] && more == numbers[1..]
  {
    assert numbers == [numbers[0]] + numbers[1..];
    assert ([n] + more)[1..] == more;
  }

  /** What is read of the first number, and of the rest. */
  lemma {:induction false} ParseNumbersStep(text: string, limit: nat, numbers: seq<nat>)
    requires numbers != [] && limit > 0
    ensures var run := DigitRun(text);
            ParseNumbers(text, limit) == Some(numbers)
            <==> run > 0 && Decimal.Read(text[..run]) == numbers[0] && ReadsRest(text[run..], limit - 1, numbers[1..])
  {
    var run := DigitRun(text);
    var n, rest := if run > 0 then Decimal.Read(text[..run]) else 0, text[run..];
    HeadAndTail(n, [], numbers);
    AppendNothing([n]);
    if rest != "" && rest[0] == '.' && ParseNumbers(rest[1..], limit - 1).Some? {
      HeadAndTail(n, ParseNumbers(rest[1..], limit - 1).value, numbers);
    }
  }

  /** A text is read as numbers exactly if it spells them. */
  lemma {:induction false} ParseNumbersMeans(text: string, limit: nat, numbers: seq<nat>)
    requires |numbers| <= limit
    ensures ParseNumbers(text, limit) == Some(numbers) <==> Spells(text, numbers)
    decreases limit, 1
  {
    if numbers != [] {
      var first, rest := FirstAndRest(text, limit, numbers);
      ReadsRestMeans(rest, limit - 1, numbers[1..]);
    }
  }

  lemma {:induction false} FirstAndRest(text: string, limit: nat, numbers: seq<nat>) returns (first: bool, rest: string)
    requires numbers != [] && limit > 0
    ensures ParseNumbers(text, limit) == Some(numbers) <==> first && ReadsRest(rest, limit - 1, numbers[1..])
    ensures Spells(text, numbers) <==> first && SpellsRest(rest, numbers[1..])
  {
    var run := DigitRun(text);
    first, rest := run > 0 && Decimal.Read(text[..run]) == numbers[0], text[run..];
    ParseNumbersStep(text, limit, numbers);
    SpellsMeans(text, numbers);
  }

  lemma {:induction false} ReadsRestMeans(rest: string, limit: nat, numbers: seq<nat>)
    requires |numbers| <= limit
    ensures ReadsRest(rest, limit, numbers) <==> SpellsRest(rest, numbers)
    decreases limit, 2
  {
    if rest != "" && numbers != [] {
      ParseNumbersMeans(rest[1..], limit, numbers);
    }
  }

  /** A listed name is read exactly if it spells one to three numbers, as the version with these
      numbers; absent ones are zero. */
  lemma ParseVersionMeans(text: string, v: Version)
    ensures ParseVersion(text) == Some(v) <==>
      || (Spells(text, [v.major]) && v == Version(v.major, 0, 0, [], []))
      || (Spells(text, [v.major, v.minor]) && v == Version(v.major, v.minor, 0, [], []))
      || (Spells(text, [v.major, v.minor, v.patch]) && v == Version(v.major, v.minor, v.patch, [], []))
  {
    ParseNumbersMeans(text, 3, [v.major]);
    ParseNumbersMeans(text, 3, [v.major, v.minor]);
    ParseNumbersMeans(text, 3, [v.major, v.minor, v.patch]);
    match ParseNumbers(text, 3)
    case None =>
    case Some(ns) =>
      assert ns == if |ns| == 1 then [ns[0]] else if |ns| == 2 then [ns[0], ns[1]] else [ns[0], ns[1], ns[2]];
  }

  function ParseAll(texts: seq<string>): (r: Result<seq<Version>, RepositoryError>)
    ensures r.Success? ==> |r.value| == |texts|
    ensures r.Success? ==> forall i :: 0 <= i < |texts| ==> ParseVersion(texts[i]) == Some(r.value[i])
    ensures r.Failure? ==> exists i :: 0 <= i < |texts| && ParseVersion(texts[i]).None?
  {
    if texts == [] then Success([])
    else
      match ParseVersion(texts[0])
      case None => Failure(RepositoryError("failed to parse version string"))
      case Some(v) =>
        match ParseAll(texts[1..])
        case Failure(e) => Failure(e)
        case Success(vs) => Success([v] + vs)
  }

  function ListVersions(repo: Snapshot): Result<seq<Version>, RepositoryError> {
    match repo.versions
    case None => Failure(RepositoryError("failed to execute repository request"))
    case Some(texts) => ParseAll(texts)
  }

  /** `Iterator::max`: the last of the greatest. */
  function MaxVersion(vs: seq<Version>): Version
    requires vs != []
  {
    var last := vs[|vs| - 1];
    if |vs| == 1 then last
    else
      var max := MaxVersion(vs[..|vs| - 1]);
      if Precedence(max, last) == Greater then max else last
  }

  lemma {:induction false} MaxVersionIsGreatest(vs: seq<Version>)
    requires vs != []
    ensures MaxVersion(vs) in vs
    ensures forall v :: v in vs ==> AtLeast(MaxVersion(vs), v)
  {
    var last, max := vs[|vs| - 1], MaxVersion(vs);
    PrecedenceOrder(last, last, last);
    if |vs| > 1 {
      var front := vs[..|vs| - 1];
      MaxVersionIsGreatest(front);
      PrecedenceOrder(last, MaxVersion(front), last);
      forall v | v in vs ensures AtLeast(max, v) {
        if v in front {
          PrecedenceOrder(v, MaxVersion(front), last);
        }
      }
    }
  }

  function LatestVersion(repo: Snapshot): Result<Version, RepositoryError> {
    match ListVersions(repo)
    case Failure(e) => Failure(e)
    case Success(vs) =>
      if vs == [] then Failure(RepositoryError("no version found")) else Success(MaxVersion(vs))
  }

  // ---------- Artifacts ----------

  /** `Iterator::max_by_key`: the last of those with the greatest number. */
  function MaxBuild(builds: seq<Build>): Build
    requires builds != []
  {
    var last := builds[|builds| - 1];
    if |builds| == 1 then last
    else
      var max := MaxBuild(builds[..|builds| - 1]);
      if max.number > last.number then max else last
  }

  lemma {:induction false} MaxBuildIsGreatest(builds: seq<Build>)
    requires builds != []
    ensures MaxBuild(builds) in builds
    ensures forall b :: b in builds ==> b.number <= MaxBuild(builds).number
  {
    if |builds| > 1 {
      MaxBuildIsGreatest(builds[..|builds| - 1]);
      assert builds == builds[..|builds| - 1] + [builds[|builds| - 1]];
    }
  }

  /** The newest build of a version; it takes the place of any build the version names. */
  function GetLatestArtifact(repo: Snapshot, v: Version): (r: Result<Artifact, RepositoryError>)
    ensures r.Success? ==>
      |r.value.version.build| == 1 && r.value.version.build[0].Numeric? && Core(r.value.version) == Core(v)
  {
    var name := VersionString(v);
    if name !in repo.builds then Failure(RepositoryError("failed to execute repository request"))
    else if repo.builds[name] == [] then Failure(RepositoryError("no build found for the given version"))
    else
      var build := MaxBuild(repo.builds[name]);
      match build.application
      case None => Failure(RepositoryError("no application download present"))
      case Some(download) => Success(Artifact(v.(build := [Numeric(build.number)]), download))
  }

  /** The named build of a version, or the newest one if none is named. */
  function GetArtifact(repo: Snapshot, v: Version): (r: Result<Artifact, RepositoryError>)
    ensures r.Success? ==> r.value.version.build != [] && Core(r.value.version) == Core(v)
    ensures r.Success? && v.build != [] ==> r.value.version == v
  {
    if v.build == [] then GetLatestArtifact(repo, v)
    else
      var key := (VersionString(v), Text(v.build[0]));
      if key !in repo.pinned then Failure(RepositoryError("failed to execute repository request"))
      else
        match repo.pinned[key].application
        case None => Failure(RepositoryError("no application download present"))
        case Some(download) => Success(Artifact(v, download))
  }

  /** Every listed build of a version, as a version with that build. */
  function ListBuilds(repo: Snapshot, v: Version): (r: Result<seq<Version>, RepositoryError>)
    ensures r.Success? ==> forall b :: b in r.value ==> Core(b) == Core(v) && |b.build| == 1 && b.build[0].Numeric?
  {
    var name := VersionString(v);
    if name !in repo.builds then Failure(RepositoryError("failed to execute repository request"))
    else
      var builds := repo.builds[name];
      Success(seq(|builds|, i requires 0 <= i < |builds| => v.(build := [Numeric(builds[i].number)])))
  }

  /** The builds listed are exactly those of the repository, in its order. */
  lemma ListBuildsMeans(repo: Snapshot, v: Version)
    ensures ListBuilds(repo, v).Success? <==> VersionString(v) in repo.builds
    ensures ListBuilds(repo, v).Success? ==>
      var builds, list := repo.builds[VersionString(v)], ListBuilds(repo, v).value;
      |list| == |builds| && forall i :: 0 <= i < |list| ==> list[i] == v.(build := [Numeric(builds[i].number)])
  {
  }

  /** The newest artifact is the listed build that no other listed build exceeds. */
  lemma LatestArtifactIsGreatestBuild(repo: Snapshot, v: Version)
    requires GetLatestArtifact(repo, v).Success?
    ensures ListBuilds(repo, v).Success?
    ensures var artifact, builds := GetLatestArtifact(repo, v).value, ListBuilds(repo, v).value;
            && artifact.version in builds
            && forall b :: b in builds ==>
                 && Core(b) == Core(v)
                 && |b.build| == 1
                 && CompareIdentifier(artifact.version.build[0], b.build[0]) != Less
  {
    var list := repo.builds[VersionString(v)];
    var max := MaxBuild(list);
    MaxBuildIsGreatest(list);
    var i :| 0 <= i < |list| && list[i] == max;
    assert ListBuilds(repo, v).value[i] == GetLatestArtifact(repo, v).value.version;
  }

  // ---------- Which artifact is meant ----------

  /** Build `i` has the greatest number listed, and is the last that has it. */
  ghost predicate NewestAt(builds: seq<Build>, i: nat) {
    && i < |builds|
    && forall j :: 0 <= j < |builds| ==> builds[j].number <= builds[i].number && (j > i ==> builds[j].number < builds[i].number)
  }

  /** The artifact is that version with its newest listed build, and the download is the one
      listed for that build. */
  ghost predicate IsNewest(repo: Snapshot, v: Version, artifact: Artifact) {
    && VersionString(v) in repo.builds
    && exists i: nat ::
         && NewestAt(repo.builds[VersionString(v)], i)
         && var build := repo.builds[VersionString(v)][i];
            artifact.version == v.(build := [Numeric(build.number)]) && build.application == Some(artifact.downloadName)
  }

  /** The artifact is that version, which names a build, and the download is the one found
      under that build. */
  ghost predicate IsNamed(repo: Snapshot, v: Version, artifact: Artifact)
    requires v.build != []
  {
    && (VersionString(v), Text(v.build[0])) in repo.pinned
    && repo.pinned[(VersionString(v), Text(v.build[0]))].application == Some(artifact.downloadName)
    && artifact.version == v
  }

  /** All listed names can be read, one of them as `v`, and none as a version above it. */
  ghost predicate IsGreatestListed(repo: Snapshot, v: Version) {
    && repo.versions.Some?
    && (exists text :: text in repo.versions.value && ParseVersion(text) == Some(v))
    && forall text :: text in repo.versions.value ==> ParseVersion(text).Some? && AtLeast(v, ParseVersion(text).value)
  }

  /** The artifact a request stands for: the version itself if it names a build; else its newest
      build; and without a version, the newest build of the greatest listed one. */
  ghost predicate Meant(repo: Snapshot, requested: Option<Version>, artifact: Artifact) {
    match requested
    case Some(v) => if v.build != [] then IsNamed(repo, v, artifact) else IsNewest(repo, v, artifact)
    case None => exists v :: IsGreatestListed(repo, v) && IsNewest(repo, v, artifact)
  }

  lemma {:induction false} MaxBuildIsNewest(builds: seq<Build>) returns (i: nat)
    requires builds != []
    ensures NewestAt(builds, i) && builds[i] == MaxBuild(builds)
    decreases |builds|
  {
    i := |builds| - 1;
    if |builds| > 1 {
      var front := builds[..|builds| - 1];
      var j := MaxBuildIsNewest(front);
      if MaxBuild(front).number > builds[|builds| - 1].number {
        i := j;
      }
      assert forall k :: 0 <= k < |front| ==> front[k] == builds[k];
    }
  }

  lemma NewestOnce(builds: seq<Build>, i: nat, j: nat)
    requires NewestAt(builds, i) && NewestAt(builds, j)
    ensures i == j
  {
    assert builds[i].number == builds[j].number;
  }

  /** The newest artifact is found exactly if there is one. */
  lemma LatestArtifactMeans(repo: Snapshot, v: Version, artifact: Artifact)
    ensures GetLatestArtifact(repo, v) == Success(artifact) <==> IsNewest(repo, v, artifact)
  {
    var name := VersionString(v);
    if name in repo.builds && repo.builds[name] != [] {
      var i := MaxBuildIsNewest(repo.builds[name]);
      forall j: nat | NewestAt(repo.builds[name], j) ensures j == i {
        NewestOnce(repo.builds[name], i, j);
      }
    }
  }

  lemma ArtifactMeans(repo: Snapshot, v: Version, artifact: Artifact)
    ensures GetArtifact(repo, v) == Success(artifact) <==> Meant(repo, Some(v), artifact)
  {
    LatestArtifactMeans(repo, v, artifact);
  }

  lemma ParsedIsPlain(text: string)
    ensures ParseVersion(text).Some? ==> Core(ParseVersion(text).value) == ParseVersion(text).value
    ensures ParseVersion(text).Some? ==> ParseVersion(text).value.build == [] && ParseVersion(text).value.pre == []
  {
  }

  lemma GreatestOnce(repo: Snapshot, v: Version, w: Version)
    requires IsGreatestListed(repo, v) && IsGreatestListed(repo, w)
    ensures v == w
  {
    var text :| text in repo.versions.value && ParseVersion(text) == Some(v);
    var text' :| text' in repo.versions.value && ParseVersion(text') == Some(w);
    ParsedIsPlain(text);
    ParsedIsPlain(text');
    PrecedenceOrder(v, w, w);
  }

  lemma LatestIsGreatest(repo: Snapshot)
    requires LatestVersion(repo).Success?
    ensures IsGreatestListed(repo, LatestVersion(repo).value)
  {
    var texts := repo.versions.value;
    MaxVersionIsGreatest(ParseAll(texts).value);
    ListedAs(texts, ParseAll(texts).value);
  }

  lemma GreatestIsFound(repo: Snapshot, v: Version)
    requires IsGreatestListed(repo, v)
    ensures LatestVersion(repo).Success?
  {
    var texts := repo.versions.value;
    assert forall i :: 0 <= i < |texts| ==> texts[i] in texts;
  }

  /** The latest version is found exactly if there is a greatest listed one. */
  lemma LatestVersionMeans(repo: Snapshot, v: Version)
    ensures LatestVersion(repo) == Success(v) <==> IsGreatestListed(repo, v)
  {
    if LatestVersion(repo).Success? {
      LatestIsGreatest(repo);
    }
    if IsGreatestListed(repo, v) {
      GreatestIsFound(repo, v);
      GreatestOnce(repo, v, LatestVersion(repo).value);
    }
  }

  lemma ListedAs(texts: seq<string>, vs: seq<Version>)
    requires |vs| == |texts| && forall i :: 0 <= i < |texts| ==> ParseVersion(texts[i]) == Some(vs[i])
    ensures forall v :: v in vs <==> exists text :: text in texts && ParseVersion(text) == Some(v)
    ensures forall text :: text in texts ==> ParseVersion(text).Some? && ParseVersion(text).value in vs
  {
    forall v | v in vs ensures exists text :: text in texts && ParseVersion(text) == Some(v) {
      var i :| 0 <= i < |vs| && vs[i] == v;
      assert texts[i] in texts;
    }
  }

  // ---------- Round trips of version names ----------

  lemma DigitRunOf(n: nat, rest: string)
    requires rest == "" || !Decimal.IsDigit(rest[0])
    ensures DigitRun(Decimal.Show(n) + rest) == |Decimal.Show(n)|
  {
    var text, digits := Decimal.Show(n) + rest, Decimal.Show(n);
    assert forall i :: 0 <= i < |digits| ==> text[i] == digits[i] && Decimal.IsDigit(text[i]);
    assert rest != "" ==> text[|digits|] == rest[0];
    assert DigitRun(text) == |digits|;
  }

  lemma ParseLast(n: nat, rest: string, limit: nat)
    requires limit > 0 && (rest == "" || rest[0] in {'-', '+'})
    ensures ParseNumbers(Decimal.Show(n) + rest, limit) == Some([n])
  {
    DigitRunOf(n, rest);
    Decimal.ReadShow(n);
    var text, run := Decimal.Show(n) + rest, |Decimal.Show(n)|;
    assert text[..run] == Decimal.Show(n) && text[run..] == rest;
  }

  lemma ParseNext(n: nat, tail: string, limit: nat, numbers: seq<nat>)
    requires limit > 0 && ParseNumbers(tail, limit - 1) == Some(numbers)
    ensures ParseNumbers(Decimal.Show(n) + ("." + tail), limit) == Some([n] + numbers)
  {
    var rest := "." + tail;
    DigitRunOf(n, rest);
    Decimal.ReadShow(n);
    var text, run := Decimal.Show(n) + rest, |Decimal.Show(n)|;
    assert text[..run] == Decimal.Show(n) && text[run..] == rest && rest[1..] == tail;
  }

  function TwoPart(a: nat, b: nat): string {
    Decimal.Show(a) + ("." + Decimal.Show(b))
  }

  function ThreePart(a: nat, b: nat, c: nat): string {
    Decimal.Show(a) + ("." + TwoPart(b, c))
  }

  lemma ParseTwo(a: nat, b: nat, limit: nat)
    requires limit >= 2
    ensures ParseNumbers(TwoPart(a, b), limit) == Some([a, b])
  {
    ParseLast(b, "", limit - 1);
    assert Decimal.Show(b) + "" == Decimal.Show(b);
    ParseNext(a, Decimal.Show(b), limit, [b]);
    assert [a] + [b] == [a, b];
  }

  lemma ParseThree(a: nat, b: nat, c: nat)
    ensures ParseNumbers(ThreePart(a, b, c), 3) == Some([a, b, c])
  {
    ParseTwo(b, c, 2);
    ParseNext(a, TwoPart(b, c), 3, [b, c]);
    assert [a] + [b, c] == [a, b, c];
  }

  lemma PrintedName(v: Version)
    requires v.pre == [] && v.build == []
    ensures VersionString(v) == if v.patch == 0 then TwoPart(v.major, v.minor) else ThreePart(v.major, v.minor, v.patch)
  {
    var a, b, c := Decimal.Show(v.major), Decimal.Show(v.minor), Decimal.Show(v.patch);
    assert a + "." + b == a + ("." + b);
    assert a + "." + b + "." + c + "" + "" == a + ("." + (b + ("." + c)));
  }

  /** "a.b", or "a.b.c" with c nonzero, in plain decimals. */
  ghost predicate CanonicalName(text: string) {
    || (exists a: nat, b: nat :: text == TwoPart(a, b))
    || (exists a: nat, b: nat, c: nat :: c != 0 && text == ThreePart(a, b, c))
  }

  /** A listed name comes back from parsing and printing exactly when it is canonical; the
      printed name of any listed version is read as that version again. */
  lemma {:induction false} ListedNameRoundTrip(text: string)
    requires ParseVersion(text).Some?
    ensures VersionString(ParseVersion(text).value) == text <==> CanonicalName(text)
    ensures ParseVersion(VersionString(ParseVersion(text).value)) == ParseVersion(text)
  {
    var v := ParseVersion(text).value;
    PrintedName(v);
    if v.patch == 0 {
      ParseTwo(v.major, v.minor, 3);
    } else {
      ParseThree(v.major, v.minor, v.patch);
    }
    if CanonicalName(text) {
      if a: nat, b: nat :| text == TwoPart(a, b) {
        ParseTwo(a, b, 3);
      } else {
        var a: nat, b: nat, c: nat :| c != 0 && text == ThreePart(a, b, c);
        ParseThree(a, b, c);
      }
    }
  }

  lemma MoveSuffix(head: string, last: string, suffix: string)
    ensures (head + ("." + last)) + suffix == head + ("." + (last + suffix))
  {
  }

  lemma ParseSuffixed(a: nat, b: nat, suffix: string)
    requires suffix != "" && suffix[0] == '-'
    ensures ParseNumbers(TwoPart(a, b) + suffix, 3) == Some([a] + [b])
  {
    ParseLast(b, suffix, 2);
    ParseNext(a, Decimal.Show(b) + suffix, 3, [b]);
    MoveSuffix(Decimal.Show(a), Decimal.Show(b), suffix);
  }

  /** A listed pre-release loses its suffix and is taken for the release. */
  lemma ListedPreReleaseIsRenamed(a: nat, b: nat, pre: seq<Identifier>)
    requires pre != [] && forall id :: id in pre ==> WellFormedIdentifier(id)
    ensures var text := TwoPart(a, b) + Suffix("-", pre);
            && ParseVersion(text) == ParseVersion(TwoPart(a, b)) == Some(Version(a, b, 0, [], []))
            && !CanonicalName(text)
  {
    var suffix := Suffix("-", pre);
    assert suffix[0] == '-';
    ParseTwo(a, b, 3);
    ParseSuffixed(a, b, suffix);
    PrintedName(Version(a, b, 0, [], []));
    ListedNameRoundTrip(TwoPart(a, b) + suffix);
  }

  /** A request for a named build asks for the listed version's name exactly when the patch
      number is zero; otherwise the build is printed into the version's name. */
  lemma PinnedRequestName(v: Version)
    requires v.pre == [] && v.build != []
    ensures VersionString(v) == VersionString(Core(v)) <==> v.patch == 0
  {
    if v.patch != 0 {
      assert |Show(v)| > |Show(Core(v))|;
    }
  }
}
