/** The rotation of the message log: which archives a directory holds after any
    number of rotations, in both naming modes, and exactly which runs are safe:
    those in which no rename overwrites a file and only the oldest one goes. */
module LogRotation {

  import opened Messages
  import opened Numbers

  // A directory is a map from file names to contents. Removing and renaming never fail; renaming onto an
  // existing file replaces it, as std::filesystem::rename does.
  type Directory = map<string, string>

  datatype Status = NotRotated | Rotated | RotatedWithDeletion

  /** How archives are named: .0, .1, and so on, or after the time of the rotation. */
  datatype Suffix = Counting | Dated(stamp: string)

  // ---------------------------------------------------------------- file names

  /** The position of the last '.', or -1. */
  function LastDot(name: string): (p: int)
    ensures -1 <= p < |name| && (p >= 0 ==> name[p] == '.') && forall i :: p < i < |name| ==> name[i] != '.'
  {
    if name == "" then -1
    else if name[|name| - 1] == '.' then |name| - 1
    else
      var p := LastDot(name[..|name| - 1]);
      assert forall i :: 0 <= i < |name| - 1 ==> name[i] == name[..|name| - 1][i];
      p
  }

  /** The file name without its extension; a leading '.' does not start one. */
  function Stem(name: string): string {
    var p := LastDot(name);
    if p <= 0 then name else name[..p]
  }

  /** The extension without its '.'. */
  function Extension(name: string): string {
    var p := LastDot(name);
    if p <= 0 then "" else name[p + 1..]
  }

  predicate Matches(name: string, base: string) {
    name == base || Stem(name) == base
  }

  function Archive(base: string, k: nat): string {
    base + "." + Decimal(k)
  }

  predicate NoDots(s: string) {
    forall i :: 0 <= i < |s| ==> s[i] != '.'
  }

  lemma ExtendedMatches(base: string, extension: string)
    requires base != "" && NoDots(extension)
    ensures var name := base + "." + extension;
      Stem(name) == base && Extension(name) == extension && name != base && Matches(name, base)
  {
    var name := base + "." + extension;
    assert name[|base|] == '.';
    assert forall i :: |base| < i < |name| ==> name[i] == extension[i - |base| - 1];
    assert LastDot(name) == |base|;
    assert name[..|base|] == base && name[|base| + 1..] == extension;
  }

  lemma ArchiveName(base: string, k: nat)
    requires base != ""
    ensures var name := Archive(base, k);
      Stem(name) == base && Extension(name) == Decimal(k) && name != base && Matches(name, base)
  {
    ExtendedMatches(base, Decimal(k));
  }

  lemma ArchivesDiffer(base: string, j: nat, k: nat)
    requires Archive(base, j) == Archive(base, k)
    ensures j == k
  {
    assert Archive(base, j)[|base| + 1..] == Decimal(j);
    assert Archive(base, k)[|base| + 1..] == Decimal(k);
    DecimalIsInjective(j, k);
  }

  // ---------------------------------------------------------------- the order of the files

  predicate Less(a: string, b: string) {
    b != "" && (a == "" || a[0] < b[0] || (a[0] == b[0] && Less(a[1..], b[1..])))
  }

  lemma {:induction false} LessIsTotal(a: string, b: string)
    ensures Less(a, b) || Less(b, a) || a == b
    ensures !(Less(a, b) && Less(b, a)) && !Less(a, a)
  {
    if a != "" {
      LessIsTotal(a[1..], a[1..]);
      if b != "" && a[0] == b[0] {
        LessIsTotal(a[1..], b[1..]);
        assert a[1..] == b[1..] ==> a == [a[0]] + a[1..] == b;
      }
    }
  }

  lemma {:induction false} LessIsTransitive(a: string, b: string, c: string)
    requires Less(a, b) && Less(b, c)
    ensures Less(a, c)
  {
    if a != "" && a[0] == b[0] == c[0] {
      LessIsTransitive(a[1..], b[1..], c[1..]);
    }
  }

  lemma {:induction false} LessAfterPrefix(p: string, a: string, b: string)
    ensures Less(p + a, p + b) <==> Less(a, b)
  {
    if p == "" {
      assert p + a == a && p + b == b;
    } else {
      LessAfterPrefix(p[1..], a, b);
      assert (p + a)[1..] == p[1..] + a && (p + b)[1..] == p[1..] + b;
    }
  }

  lemma BaseIsLeast(base: string, k: nat)
    ensures Less(base, Archive(base, k))
  {
    var rest := "." + Decimal(k);
    LessAfterPrefix(base, "", rest);
    assert base + "" == base && Archive(base, k) == base + rest;
  }

  /** One digit is compared as a number. */
  lemma SmallArchivesInOrder(base: string, j: nat, k: nat)
    requires j < k <= 9
    ensures Less(Archive(base, j), Archive(base, k))
  {
    LessAfterPrefix(base + ".", Decimal(j), Decimal(k));
  }

  predicate Descending(files: seq<string>) {
    forall i, j :: 0 <= i < j < |files| ==> Less(files[j], files[i])
  }

  /** The files of the log, sorted with std::greater. */
  predicate Listing(dir: Directory, base: string, files: seq<string>) {
    Descending(files) && (forall i :: 0 <= i < |files| ==> files[i] in dir && Matches(files[i], base)) &&
    forall name :: name in dir && Matches(name, base) ==> name in files
  }

  /** There is only one such listing. */
  lemma ListingIsUnique(dir: Directory, base: string, a: seq<string>, b: seq<string>)
    requires Listing(dir, base, a) && Listing(dir, base, b)
    ensures a == b
  {
    forall name ensures name in a <==> name in b {
    }
    SameElements(a, b);
  }

  lemma {:induction false} SameElements(a: seq<string>, b: seq<string>)
    requires Descending(a) && Descending(b) && forall name :: name in a <==> name in b
    ensures a == b
  {
    if a == [] {
      var name := if b == [] then "" else b[0];
      assert name in b <==> name in a;
    } else {
      assert a[0] in b;
      SameFirst(a, b);
      forall name ensures name in a[1..] <==> name in b[1..] {
        RestOf(a, name);
        RestOf(b, name);
      }
      SameElements(a[1..], b[1..]);
    }
  }

  lemma SameFirst(a: seq<string>, b: seq<string>)
    requires a != [] && b != [] && Descending(a) && Descending(b) && forall name :: name in a <==> name in b
    ensures a[0] == b[0]
  {
    assert a[0] in b && b[0] in a;
    LessIsTotal(a[0], b[0]);
  }

  lemma RestOf(a: seq<string>, name: string)
    requires a != [] && Descending(a)
    ensures name in a[1..] <==> name in a && name != a[0]
  {
    LessIsTotal(a[0], a[0]);
  }

  // ---------------------------------------------------------------- one rotation

  function Rename(dir: Directory, from: string, to: string): Directory {
    if from !in dir || from == to then dir else (dir - {from})[to := dir[from]]
  }

  /** The new name of a file, if it gets one. */
  function Target(name: string, base: string, suffix: Suffix): Option<string> {
    if name == base then Some(base + "." + if suffix.Counting? then "0" else suffix.stamp)
    else if suffix.Dated? then None
    else match Stoi(Extension(name))
      case None => None
      case Some(n) => Some(Stem(name) + "." + IntText(n + 1))
  }

  function RenameAll(dir: Directory, files: seq<string>, base: string, suffix: Suffix): Directory
    decreases |files|
  {
    if files == [] then dir
    else
      var target := Target(files[0], base, suffix);
      RenameAll(if target.None? then dir else Rename(dir, files[0], target.value), files[1..], base, suffix)
  }

  predicate DeletesFirst(files: seq<string>, maximum: nat) {
    maximum > 0 && |files| >= maximum
  }

  function Remaining(files: seq<string>, maximum: nat): seq<string> {
    if DeletesFirst(files, maximum) then files[1..] else files
  }

  function AfterDeletion(dir: Directory, files: seq<string>, maximum: nat): Directory {
    if DeletesFirst(files, maximum) then dir - {files[0]} else dir
  }

  function AfterRotation(dir: Directory, files: seq<string>, base: string, maximum: nat, suffix: Suffix): Directory {
    RenameAll(AfterDeletion(dir, files, maximum), Remaining(files, maximum), base, suffix)
  }

  function RotationStatus(files: seq<string>, base: string, maximum: nat, suffix: Suffix): Status {
    if DeletesFirst(files, maximum) then RotatedWithDeletion
    else if AnyTarget(files, base, suffix) then Rotated
    else NotRotated
  }

  /** No rename finds its new name taken. */
  predicate NoOverwrite(dir: Directory, files: seq<string>, base: string, suffix: Suffix)
    decreases |files|
  {
    files == [] ||
    var target := Target(files[0], base, suffix);
    if target.None? then NoOverwrite(dir, files[1..], base, suffix)
    else target.value !in dir && NoOverwrite(Rename(dir, files[0], target.value), files[1..], base, suffix)
  }

  predicate AnyTarget(files: seq<string>, base: string, suffix: Suffix) {
    exists i :: 0 <= i < |files| && Target(files[i], base, suffix).Some?
  }

  // ---------------------------------------------------------------- a rotation that counts

  predicate Holds(dir: Directory, name: string, content: string) {
    name in dir && dir[name] == content
  }

  predicate Numbered(name: string, base: string, count: nat) {
    exists k :: 0 <= k < count && name == Archive(base, k)
  }

  /** The archives are exactly .0, .1, and so on, with the given contents. */
  predicate Archived(dir: Directory, base: string, contents: seq<string>) {
    Lower(dir, base, contents, |contents|) && OnlyNumbered(dir, base, |contents|)
  }

  predicate Lower(dir: Directory, base: string, contents: seq<string>, n: nat)
    requires n <= |contents|
  {
    forall k :: 0 <= k < n ==> Holds(dir, Archive(base, k), contents[k])
  }

  predicate Upper(dir: Directory, base: string, contents: seq<string>, n: nat)
    requires n <= |contents|
  {
    forall k :: n < k <= |contents| ==> Holds(dir, Archive(base, k), contents[k - 1])
  }

  predicate OnlyNumbered(dir: Directory, base: string, count: nat) {
    forall name :: name in dir && Matches(name, base) ==> name == base || Numbered(name, base, count)
  }

  /** The archives from n on have moved up by one, and there is none with the number n. */
  predicate Shifting(dir: Directory, base: string, current: string, contents: seq<string>, n: nat) {
    && n <= |contents| && Holds(dir, base, current)
    && Lower(dir, base, contents, n) && Upper(dir, base, contents, n) && Archive(base, n) !in dir
    && OnlyNumbered(dir, base, |contents| + 1)
  }

  /** The files of the log when there are n archives, highest number first. */
  function Names(base: string, n: nat): (files: seq<string>)
    ensures |files| == n + 1
  {
    if n == 0 then [base] else [Archive(base, n - 1)] + Names(base, n - 1)
  }

  lemma {:induction false} NamesAt(base: string, n: nat, i: nat)
    requires i <= n
    ensures Names(base, n)[i] == if i == n then base else Archive(base, n - 1 - i)
  {
    if i > 0 {
      NamesAt(base, n - 1, i - 1);
    }
  }

  /** Up to ten archives are listed in the order of their numbers. */
  lemma NamesAreListed(dir: Directory, base: string, contents: seq<string>)
    requires base != "" && Archived(dir, base, contents) && base in dir && |contents| <= 10
    ensures Listing(dir, base, Names(base, |contents|))
  {
    hide Names, Archive, Matches, Numbered, Descending, Archived;
    NamesDescend(base, |contents|);
    forall i | 0 <= i <= |contents| ensures Names(base, |contents|)[i] in dir && Matches(Names(base, |contents|)[i], base) {
      NameExists(dir, base, contents, i);
    }
    forall name | name in dir && Matches(name, base) ensures name in Names(base, |contents|) {
      MatchIsListed(dir, base, contents, name);
    }
  }

  lemma NameExists(dir: Directory, base: string, contents: seq<string>, i: nat)
    requires base != "" && Archived(dir, base, contents) && base in dir && i <= |contents|
    ensures Names(base, |contents|)[i] in dir && Matches(Names(base, |contents|)[i], base)
  {
    hide Names, Archive, Matches, OnlyNumbered;
    var n := |contents|;
    NamesAt(base, n, i);
    if i < n {
      ArchiveName(base, n - 1 - i);
      assert Holds(dir, Archive(base, n - 1 - i), contents[n - 1 - i]);
    } else {
      BaseMatches(base);
    }
  }

  lemma MatchIsListed(dir: Directory, base: string, contents: seq<string>, name: string)
    requires Archived(dir, base, contents) && name in dir && Matches(name, base)
    ensures name in Names(base, |contents|)
  {
    hide Names, Matches, Numbered, Lower;
    NameIsListed(name, base, |contents|);
  }

  lemma BaseMatches(base: string)
    ensures Matches(base, base)
  {
  }

  lemma NamesDescend(base: string, n: nat)
    requires n <= 10
    ensures Descending(Names(base, n))
  {
    hide Names, Archive, Less;
    var files := Names(base, n);
    forall i, j | 0 <= i < j <= n ensures Less(files[j], files[i]) {
      NamesAt(base, n, i);
      NamesAt(base, n, j);
      if j == n {
        BaseIsLeast(base, n - 1 - i);
      } else {
        SmallArchivesInOrder(base, n - 1 - j, n - 1 - i);
      }
    }
  }

  lemma NameIsListed(name: string, base: string, n: nat)
    requires name == base || Numbered(name, base, n)
    ensures name in Names(base, n)
  {
    if name == base {
      NamesAt(base, n, n);
    } else {
      var k :| 0 <= k < n && name == Archive(base, k);
      NamesAt(base, n, n - 1 - k);
    }
  }

  lemma ArchiveMoves(base: string, k: nat)
    requires base != "" && k < INT_MAX
    ensures Target(Archive(base, k), base, Counting) == Some(Archive(base, k + 1))
  {
    ArchiveName(base, k);
    StoiOfDecimal(k);
  }

  lemma BaseMoves(base: string)
    ensures Target(base, base, Counting) == Some(Archive(base, 0))
  {
    assert Decimal(0) == "0";
  }

  /** Renaming an archive overwrites nothing and moves the gap down by one. */
  lemma ShiftOne(dir: Directory, base: string, current: string, contents: seq<string>, n: nat)
    requires base != "" && Shifting(dir, base, current, contents, n) && n > 0
    ensures Shifting(Rename(dir, Archive(base, n - 1), Archive(base, n)), base, current, contents, n - 1)
  {
    hide Archive, Lower, Upper, OnlyNumbered, Rename, Numbered, Matches, Stem, Extension;
    ArchiveName(base, n - 1);
    ArchiveName(base, n);
    Differ(base, n, n);
    LowerAt(dir, base, contents, n, n - 1);
    ShiftLower(dir, base, contents, n);
    ShiftUpper(dir, base, contents, n);
    IsNumbered(base, n, |contents| + 1);
    StaysNumbered(dir, base, Archive(base, n - 1), Archive(base, n), |contents| + 1);
    Renamed(dir, Archive(base, n - 1), Archive(base, n), base);
  }

  lemma LowerAt(dir: Directory, base: string, contents: seq<string>, n: nat, k: nat)
    requires k < n <= |contents| && Lower(dir, base, contents, n)
    ensures Holds(dir, Archive(base, k), contents[k])
  {
  }

  lemma Renamed(dir: Directory, from: string, to: string, name: string)
    requires from in dir && from != to
    ensures from !in Rename(dir, from, to) && Holds(Rename(dir, from, to), to, dir[from])
    ensures name in dir && name != from && name != to ==> Holds(Rename(dir, from, to), name, dir[name])
  {
  }

  lemma ShiftLower(dir: Directory, base: string, contents: seq<string>, n: nat)
    requires 0 < n <= |contents| && Lower(dir, base, contents, n)
    ensures Lower(Rename(dir, Archive(base, n - 1), Archive(base, n)), base, contents, n - 1)
  {
    hide Archive, Rename;
    Differ(base, n, n);
    assert Holds(dir, Archive(base, n - 1), contents[n - 1]);
    forall k | 0 <= k < n - 1 ensures Holds(Rename(dir, Archive(base, n - 1), Archive(base, n)), Archive(base, k), contents[k]) {
      Differ(base, k, n);
      assert Holds(dir, Archive(base, k), contents[k]);
      Renamed(dir, Archive(base, n - 1), Archive(base, n), Archive(base, k));
    }
  }

  lemma ShiftUpper(dir: Directory, base: string, contents: seq<string>, n: nat)
    requires 0 < n <= |contents| && Upper(dir, base, contents, n) && Holds(dir, Archive(base, n - 1), contents[n - 1])
    ensures Upper(Rename(dir, Archive(base, n - 1), Archive(base, n)), base, contents, n - 1)
  {
    hide Archive, Rename;
    Differ(base, n, n);
    forall k | n - 1 < k <= |contents|
      ensures Holds(Rename(dir, Archive(base, n - 1), Archive(base, n)), Archive(base, k), contents[k - 1])
    {
      Renamed(dir, Archive(base, n - 1), Archive(base, n), Archive(base, k));
      if k > n {
        Differ(base, k, n);
        assert Holds(dir, Archive(base, k), contents[k - 1]);
      }
    }
  }

  lemma StaysNumbered(dir: Directory, base: string, from: string, to: string, count: nat)
    requires OnlyNumbered(dir, base, count) && Numbered(to, base, count)
    ensures OnlyNumbered(Rename(dir, from, to), base, count)
  {
    hide Matches, Numbered;
  }

  lemma Differ(base: string, k: nat, n: nat)
    requires n > 0
    ensures k != n ==> Archive(base, k) != Archive(base, n)
    ensures k != n - 1 ==> Archive(base, k) != Archive(base, n - 1)
    ensures Archive(base, n) != Archive(base, n - 1)
  {
    if Archive(base, k) == Archive(base, n) {
      ArchivesDiffer(base, k, n);
    }
    if Archive(base, k) == Archive(base, n - 1) {
      ArchivesDiffer(base, k, n - 1);
    }
    if Archive(base, n) == Archive(base, n - 1) {
      ArchivesDiffer(base, n, n - 1);
    }
  }

  lemma IsNumbered(base: string, k: nat, count: nat)
    requires k < count
    ensures Numbered(Archive(base, k), base, count)
  {
  }

  /** A whole rotation moves every content up by one, and the current log to .0. */
  lemma {:induction false} ShiftAll(dir: Directory, base: string, current: string, contents: seq<string>, n: nat)
    requires base != "" && Shifting(dir, base, current, contents, n) && n <= |contents| < INT_MAX
    ensures var dir' := RenameAll(dir, Names(base, n), base, Counting);
      Archived(dir', base, [current] + contents) && base !in dir'
    ensures NoOverwrite(dir, Names(base, n), base, Counting)
    decreases n
  {
    hide Shifting, Archived, Archive, Target, RenameAll, Rename, NoOverwrite;
    if n == 0 {
      ShiftBase(dir, base, current, contents);
    } else {
      ArchiveMoves(base, n - 1);
      RenameFirst(dir, base, n);
      GapIsFree(dir, base, current, contents, n);
      ShiftOne(dir, base, current, contents, n);
      ShiftAll(Rename(dir, Archive(base, n - 1), Archive(base, n)), base, current, contents, n - 1);
    }
  }

  lemma GapIsFree(dir: Directory, base: string, current: string, contents: seq<string>, n: nat)
    requires Shifting(dir, base, current, contents, n)
    ensures Archive(base, n) !in dir
  {
  }

  lemma RenameFirst(dir: Directory, base: string, n: nat)
    requires n > 0 && Target(Archive(base, n - 1), base, Counting) == Some(Archive(base, n))
    ensures
      var dir' := Rename(dir, Archive(base, n - 1), Archive(base, n));
      NoOverwrite(dir, Names(base, n), base, Counting) ==
      (Archive(base, n) !in dir && NoOverwrite(dir', Names(base, n - 1), base, Counting))
    ensures RenameAll(dir, Names(base, n), base, Counting) ==
      RenameAll(Rename(dir, Archive(base, n - 1), Archive(base, n)), Names(base, n - 1), base, Counting)
  {
    hide Archive, Target, Rename;
    assert Names(base, n)[1..] == Names(base, n - 1);
  }

  lemma ShiftBase(dir: Directory, base: string, current: string, contents: seq<string>)
    requires base != "" && Shifting(dir, base, current, contents, 0)
    ensures var dir' := RenameAll(dir, Names(base, 0), base, Counting);
      Archived(dir', base, [current] + contents) && base !in dir'
    ensures NoOverwrite(dir, Names(base, 0), base, Counting)
  {
    BaseMoves(base);
    ArchiveName(base, 0);
    var dir' := Rename(dir, base, Archive(base, 0));
    assert Names(base, 0)[1..] == [];
    assert RenameAll(dir, Names(base, 0), base, Counting) == dir';
    forall k | 0 <= k <= |contents| ensures Holds(dir', Archive(base, k), ([current] + contents)[k]) {
      ArchiveName(base, k);
      if k > 0 && Archive(base, k) == Archive(base, 0) {
        ArchivesDiffer(base, k, 0);
      }
    }
    assert Numbered(Archive(base, 0), base, |contents| + 1);
  }

  /** The newest content, and as many of the older ones as the maximum leaves room for. */
  function Newest(current: string, contents: seq<string>, maximum: nat): seq<string> {
    var all := [current] + contents;
    if maximum > 0 && |all| > maximum - 1 then all[..maximum - 1] else all
  }

  lemma ReadyToShift(dir: Directory, base: string, contents: seq<string>)
    requires base != "" && Archived(dir, base, contents) && base in dir
    ensures Shifting(dir, base, dir[base], contents, |contents|)
  {
    hide Archive, Matches;
    var n := |contents|;
    ArchiveName(base, n);
    if Archive(base, n) in dir {
      var k :| 0 <= k < n && Archive(base, n) == Archive(base, k);
      ArchivesDiffer(base, n, k);
    }
  }

  lemma OldestRemoved(dir: Directory, base: string, contents: seq<string>)
    requires base != "" && Archived(dir, base, contents) && base in dir && contents != []
    ensures var n := |contents| - 1;
      Archived(dir - {Archive(base, n)}, base, contents[..n]) && base in dir - {Archive(base, n)} && Archive(base, n) != base
  {
    hide Archive, Matches;
    var n := |contents| - 1;
    ArchiveName(base, n);
    var dir' := dir - {Archive(base, n)};
    forall k | 0 <= k < n ensures Holds(dir', Archive(base, k), contents[k]) {
      assert Holds(dir, Archive(base, k), contents[k]);
      if Archive(base, k) == Archive(base, n) {
        ArchivesDiffer(base, k, n);
      }
    }
    forall name | name in dir' && Matches(name, base) && name != base ensures Numbered(name, base, n) {
      assert Numbered(name, base, n + 1);
    }
  }

  /** The file that is deleted has the highest number. */
  ghost predicate DeletesOldest(dir: Directory, files: seq<string>, base: string, maximum: nat) {
    DeletesFirst(files, maximum) ==>
      forall k: nat :: Archive(base, k) in dir ==> exists j: nat :: files[0] == Archive(base, j) && k <= j
  }

  ghost predicate Safe(dir: Directory, files: seq<string>, base: string, maximum: nat) {
    DeletesOldest(dir, files, base, maximum) &&
    NoOverwrite(AfterDeletion(dir, files, maximum), Remaining(files, maximum), base, Counting)
  }

  /** With up to ten archives, a rotation loses nothing but the oldest content, and only when there is no room. */
  lemma RotationKeeps(dir: Directory, base: string, contents: seq<string>, maximum: nat)
    requires base != "" && Archived(dir, base, contents) && base in dir && |contents| <= 10
    requires maximum > 0 ==> |contents| <= maximum - 1
    ensures var files := Names(base, |contents|);
      Safe(dir, files, base, maximum) &&
      Archived(AfterRotation(dir, files, base, maximum, Counting), base, Newest(dir[base], contents, maximum))
  {
    hide Archived, Archive, RenameAll, NoOverwrite, DeletesOldest, Newest, Names, AfterDeletion, Remaining;
    OnlyOldestDeleted(dir, base, contents, maximum);
    if DeletesFirst(Names(base, |contents|), maximum) {
      KeepsWithDeletion(dir, base, contents, maximum);
    } else {
      KeepsAll(dir, base, contents, maximum);
    }
  }

  lemma KeepsAll(dir: Directory, base: string, contents: seq<string>, maximum: nat)
    requires base != "" && Archived(dir, base, contents) && base in dir && |contents| <= 10
    requires !DeletesFirst(Names(base, |contents|), maximum)
    ensures var files := Names(base, |contents|);
      Archived(AfterRotation(dir, files, base, maximum, Counting), base, Newest(dir[base], contents, maximum)) &&
      NoOverwrite(AfterDeletion(dir, files, maximum), Remaining(files, maximum), base, Counting)
  {
    hide Archived, Archive, RenameAll, NoOverwrite, Names, Shifting;
    ReadyToShift(dir, base, contents);
    ShiftAll(dir, base, dir[base], contents, |contents|);
  }

  lemma KeepsWithDeletion(dir: Directory, base: string, contents: seq<string>, maximum: nat)
    requires base != "" && Archived(dir, base, contents) && base in dir && |contents| <= 10
    requires DeletesFirst(Names(base, |contents|), maximum) && |contents| <= maximum - 1
    ensures var files := Names(base, |contents|);
      Archived(AfterRotation(dir, files, base, maximum, Counting), base, Newest(dir[base], contents, maximum)) &&
      NoOverwrite(AfterDeletion(dir, files, maximum), Remaining(files, maximum), base, Counting)
  {
    var n := |contents|;
    hide Archived, Archive, RenameAll, NoOverwrite, Names, Shifting, AfterDeletion, Remaining;
    FirstGone(dir, base, n, maximum);
    if n == 0 {
      NothingLeft(dir, base);
    } else {
      OldestRemoved(dir, base, contents);
      var dir' := dir - {Archive(base, n - 1)};
      NewestOf(dir[base], contents, maximum);
      hide DeletesFirst, Newest;
      ReadyToShift(dir', base, contents[..n - 1]);
      ShiftAll(dir', base, dir'[base], contents[..n - 1], n - 1);
    }
  }

  lemma NewestOf(log: string, contents: seq<string>, maximum: nat)
    requires contents != [] && |contents| == maximum - 1
    ensures Newest(log, contents, maximum) == [log] + contents[..|contents| - 1]
  {
  }

  lemma FirstGone(dir: Directory, base: string, n: nat, maximum: nat)
    requires DeletesFirst(Names(base, n), maximum)
    ensures AfterDeletion(dir, Names(base, n), maximum) == dir - {if n == 0 then base else Archive(base, n - 1)}
    ensures Remaining(Names(base, n), maximum) == if n == 0 then [] else Names(base, n - 1)
  {
    NamesAfterFirst(base, n);
    hide Names;
  }

  lemma NamesAfterFirst(base: string, n: nat)
    ensures Names(base, n)[0] == if n == 0 then base else Archive(base, n - 1)
    ensures Names(base, n)[1..] == if n == 0 then [] else Names(base, n - 1)
  {
  }

  lemma OnlyOldestDeleted(dir: Directory, base: string, contents: seq<string>, maximum: nat)
    requires base != "" && Archived(dir, base, contents)
    ensures DeletesOldest(dir, Names(base, |contents|), base, maximum)
  {
    hide Archive, Matches;
    if contents != [] {
      assert Names(base, |contents|)[0] == Archive(base, |contents| - 1);
    }
    forall k: nat | Archive(base, k) in dir ensures k < |contents| {
      ArchiveName(base, k);
      var j :| 0 <= j < |contents| && Archive(base, k) == Archive(base, j);
      ArchivesDiffer(base, k, j);
    }
  }

  lemma NothingLeft(dir: Directory, base: string)
    requires base != "" && Archived(dir, base, []) && base in dir
    ensures Archived(RenameAll(dir - {base}, [], base, Counting), base, [])
    ensures NoOverwrite(dir - {base}, [], base, Counting) && Names(base, 0)[1..] == []
  {
    hide Matches;
  }

  // ---------------------------------------------------------------- any number of rotations

  ghost predicate Turned(dir: Directory, dir': Directory, base: string, maximum: nat, suffix: Suffix) {
    exists files: seq<string> :: Listing(dir, base, files) && dir' == AfterRotation(dir, files, base, maximum, suffix)
  }

  ghost predicate SafelyTurned(dir: Directory, base: string, maximum: nat) {
    forall files: seq<string> :: Listing(dir, base, files) ==> Safe(dir, files, base, maximum)
  }

  /** The log with the given text is rotated. */
  ghost predicate Rotates(dir: Directory, log: string, dir': Directory, base: string, maximum: nat) {
    Turned(dir[base := log], dir', base, maximum, Counting)
  }

  ghost predicate SafeRotation(dir: Directory, log: string, base: string, maximum: nat) {
    SafelyTurned(dir[base := log], base, maximum)
  }

  /** A run of rotations that starts without archives. */
  ghost predicate Run(dirs: seq<Directory>, logs: seq<string>, base: string, maximum: nat) {
    && |dirs| == |logs| + 1 && base != ""
    && Archived(dirs[0], base, [])
    && forall i :: 0 <= i < |logs| ==> Rotates(dirs[i], logs[i], dirs[i + 1], base, maximum)
  }

  /** The latest logs, newest first: all of them, or as many as the maximum allows besides the current one. */
  function Latest(logs: seq<string>, maximum: nat): (latest: seq<string>)
    ensures |latest| == if maximum == 0 || |logs| < maximum then |logs| else maximum - 1
    ensures forall k :: 0 <= k < |latest| ==> latest[k] == logs[|logs| - 1 - k]
  {
    if logs == [] then [] else Newest(logs[|logs| - 1], Latest(logs[..|logs| - 1], maximum), maximum)
  }

  lemma CurrentChanges(dir: Directory, base: string, contents: seq<string>, log: string)
    requires base != "" && Archived(dir, base, contents)
    ensures Archived(dir[base := log], base, contents)
  {
    hide Archive, Matches, Numbered;
    forall k | 0 <= k < |contents| ensures Holds(dir[base := log], Archive(base, k), contents[k]) {
      ArchiveName(base, k);
      assert Holds(dir, Archive(base, k), contents[k]);
    }
  }

  lemma OneRotation(dir: Directory, log: string, dir': Directory, base: string, contents: seq<string>, maximum: nat)
    requires base != "" && Archived(dir, base, contents) && |contents| <= 10 && (maximum > 0 ==> |contents| <= maximum - 1)
    requires Rotates(dir, log, dir', base, maximum)
    ensures Archived(dir', base, Newest(log, contents, maximum)) && SafeRotation(dir, log, base, maximum)
  {
    hide Archived, AfterRotation, Listing, Newest, Safe, Names;
    CurrentChanges(dir, base, contents, log);
    var d := dir[base := log];
    NamesAreListed(d, base, contents);
    RotationKeeps(d, base, contents, maximum);
    forall files: seq<string> | Listing(d, base, files) ensures files == Names(base, |contents|) {
      ListingIsUnique(d, base, files, Names(base, |contents|));
    }
  }

  /** After i rotations the archives are the latest contents, newest at .0; with a maximum of 1 to 11, for every i. */
  lemma {:induction false} ArchivesAreLatest(dirs: seq<Directory>, logs: seq<string>, base: string, maximum: nat, i: nat)
    requires Run(dirs, logs, base, maximum) && i <= |logs| && (i <= 11 || 1 <= maximum <= 11)
    ensures Archived(dirs[i], base, Latest(logs[..i], maximum))
    ensures i < |logs| && (i <= 10 || 1 <= maximum <= 11) ==> SafeRotation(dirs[i], logs[i], base, maximum)
  {
    hide Archived, Rotates, SafeRotation, Newest;
    if i > 0 {
      ArchivesAreLatest(dirs, logs, base, maximum, i - 1);
      var before := Latest(logs[..i - 1], maximum);
      assert logs[..i][..i - 1] == logs[..i - 1];
      OneRotation(dirs[i - 1], logs[i - 1], dirs[i], base, before, maximum);
    }
    if i < |logs| && (i <= 10 || 1 <= maximum <= 11) {
      OneRotation(dirs[i], logs[i], dirs[i + 1], base, Latest(logs[..i], maximum), maximum);
    }
  }

  // ---------------------------------------------------------------- the eleventh archive

  /** The number of the i-th file when there are eleven archives: 9, ..., 2, 10, 1, 0. */
  function NumberAt(i: nat): nat
    requires i < 11
  {
    if i < 8 then 9 - i else if i == 8 then 10 else 10 - i
  }

  function Eleven(base: string): seq<string> {
    seq(12, i requires 0 <= i < 12 => if i == 11 then base else Archive(base, NumberAt(i)))
  }

  lemma TenBetweenOneAndTwo(base: string, k: nat)
    requires k <= 9
    ensures if k >= 2 then Less(Archive(base, 10), Archive(base, k)) else Less(Archive(base, k), Archive(base, 10))
  {
    assert Decimal(10) == "10";
    LessAfterPrefix(base + ".", Decimal(10), Decimal(k));
    LessAfterPrefix(base + ".", Decimal(k), Decimal(10));
    assert Decimal(k) == [Digit(k)];
    assert Less("0", "10") && Less("1", "10");
  }

  lemma ElevenDescend(base: string)
    ensures Descending(Eleven(base))
  {
    hide Archive, Less;
    var files := Eleven(base);
    forall i, j | 0 <= i < j < 12 ensures Less(files[j], files[i]) {
      if j == 11 {
        BaseIsLeast(base, NumberAt(i));
      } else if i == 8 {
        TenBetweenOneAndTwo(base, NumberAt(j));
      } else if j == 8 {
        TenBetweenOneAndTwo(base, NumberAt(i));
      } else {
        SmallArchivesInOrder(base, NumberAt(j), NumberAt(i));
      }
    }
  }

  lemma ElevenAreListed(dir: Directory, base: string, contents: seq<string>)
    requires base != "" && Archived(dir, base, contents) && base in dir && |contents| == 11
    ensures Listing(dir, base, Eleven(base))
  {
    hide Archive, Matches, Descending;
    ElevenDescend(base);
    var files := Eleven(base);
    forall i | 0 <= i < 12 ensures files[i] in dir && Matches(files[i], base) {
      if i == 11 {
        BaseMatches(base);
      } else {
        ArchiveName(base, NumberAt(i));
        assert Holds(dir, Archive(base, NumberAt(i)), contents[NumberAt(i)]);
      }
    }
    forall name | name in dir && Matches(name, base) ensures name in files {
      if name == base {
        assert files[11] == name;
      } else {
        var k :| 0 <= k < 11 && name == Archive(base, k);
        var i := if k == 10 then 8 else if k >= 2 then 9 - k else 10 - k;
        assert files[i] == name;
      }
    }
  }

  /** With eleven archives, either the next to last content is deleted, or the last one is overwritten by it. */
  lemma TwelfthIsUnsafe(dir: Directory, base: string, contents: seq<string>, log: string, maximum: nat)
    requires base != "" && Archived(dir, base, contents) && |contents| == 11 && (maximum == 0 || maximum >= 12)
    ensures !SafeRotation(dir, log, base, maximum)
  {
    hide Archived, Archive, Listing, DeletesOldest, NoOverwrite, Target, Matches;
    var d := dir[base := log];
    CurrentChanges(dir, base, contents, log);
    ElevenAreListed(d, base, contents);
    var files := Eleven(base);
    assert files[0] == Archive(base, 9);
    TenExists(d, base, contents);
    if maximum == 12 {
      NotTheOldest(d, files, base, maximum);
    } else {
      ArchiveMoves(base, 9);
      FirstTaken(d, files, base, Archive(base, 10));
    }
    assert !Safe(d, files, base, maximum);
  }

  lemma FirstTaken(dir: Directory, files: seq<string>, base: string, target: string)
    requires files != [] && Target(files[0], base, Counting) == Some(target) && target in dir
    ensures !NoOverwrite(dir, files, base, Counting)
  {
    hide Target;
  }

  lemma TenExists(dir: Directory, base: string, contents: seq<string>)
    requires Archived(dir, base, contents) && |contents| == 11
    ensures Archive(base, 10) in dir
  {
    hide Archive;
    assert Holds(dir, Archive(base, 10), contents[10]);
  }

  lemma NotTheOldest(dir: Directory, files: seq<string>, base: string, maximum: nat)
    requires DeletesFirst(files, maximum) && files[0] == Archive(base, 9) && Archive(base, 10) in dir
    ensures !DeletesOldest(dir, files, base, maximum)
  {
    hide Archive;
    forall j: nat | files[0] == Archive(base, j) ensures j < 10 {
      ArchivesDiffer(base, j, 9);
    }
  }

  /** A run is safe if and only if it has no twelfth rotation, or the maximum is between 1 and 11. */
  lemma SafeRuns(dirs: seq<Directory>, logs: seq<string>, base: string, maximum: nat)
    requires Run(dirs, logs, base, maximum)
    ensures (forall i :: 0 <= i < |logs| ==> SafeRotation(dirs[i], logs[i], base, maximum)) <==>
            (|logs| <= 11 || 1 <= maximum <= 11)
  {
    hide Archived, SafeRotation, Rotates;
    if |logs| <= 11 || 1 <= maximum <= 11 {
      forall i | 0 <= i < |logs| ensures SafeRotation(dirs[i], logs[i], base, maximum) {
        ArchivesAreLatest(dirs, logs, base, maximum, i);
      }
    } else {
      ArchivesAreLatest(dirs, logs, base, maximum, 11);
      TwelfthIsUnsafe(dirs[11], base, Latest(logs[..11], maximum), logs[11], maximum);
      assert !SafeRotation(dirs[11], logs[11], base, maximum);
    }
  }

  // ---------------------------------------------------------------- files of other logs

  lemma TargetMatches(name: string, base: string, suffix: Suffix)
    requires base != "" && Matches(name, base) && (suffix.Dated? ==> NoDots(suffix.stamp))
    ensures var target := Target(name, base, suffix);
      target.Some? ==> Matches(target.value, base)
  {
    hide Matches, Stoi, Decimal;
    if name == base {
      ExtendedMatches(base, if suffix.Counting? then "0" else suffix.stamp);
    } else if suffix.Counting? && Stoi(Extension(name)).Some? {
      var text := IntText(Stoi(Extension(name)).value + 1);
      assert NoDots(text);
      assert Stem(name) == base by {
        StemOfMatch(name, base);
      }
      ExtendedMatches(base, text);
    }
  }

  lemma StemOfMatch(name: string, base: string)
    requires Matches(name, base) && name != base
    ensures Stem(name) == base
  {
  }

  lemma {:induction false} RenamesStay(dir: Directory, files: seq<string>, base: string, suffix: Suffix, other: string)
    requires base != "" && (forall i :: 0 <= i < |files| ==> Matches(files[i], base))
    requires (suffix.Dated? ==> NoDots(suffix.stamp)) && !Matches(other, base)
    ensures var dir' := RenameAll(dir, files, base, suffix);
      (other in dir' <==> other in dir) && (other in dir ==> dir'[other] == dir[other])
    decreases |files|
  {
    hide Matches, Target;
    if files != [] {
      var target := Target(files[0], base, suffix);
      TargetMatches(files[0], base, suffix);
      RenamesStay(if target.None? then dir else Rename(dir, files[0], target.value), files[1..], base, suffix, other);
    }
  }

  /** A rotation touches no file of another log, in either mode. */
  lemma OtherFilesStay(dir: Directory, files: seq<string>, base: string, maximum: nat, suffix: Suffix, other: string)
    requires base != "" && Listing(dir, base, files) && !Matches(other, base)
    requires suffix.Dated? ==> NoDots(suffix.stamp)
    ensures var dir' := AfterRotation(dir, files, base, maximum, suffix);
      (other in dir' <==> other in dir) && (other in dir ==> dir'[other] == dir[other])
  {
    hide Matches, RenameAll, Descending;
    RenamesStay(AfterDeletion(dir, files, maximum), Remaining(files, maximum), base, suffix, other);
  }

  // ---------------------------------------------------------------- archives that are named after a time

  datatype Entry = Entry(stamp: string, content: string)

  function DatedName(base: string, stamp: string): string {
    base + "." + stamp
  }

  predicate Chronological(entries: seq<Entry>) {
    (forall i :: 0 <= i < |entries| ==> NoDots(entries[i].stamp)) &&
    forall i, j :: 0 <= i < j < |entries| ==> Less(entries[i].stamp, entries[j].stamp)
  }

  predicate IsEntry(name: string, base: string, entries: seq<Entry>) {
    exists i :: 0 <= i < |entries| && name == DatedName(base, entries[i].stamp)
  }

  /** The archives are exactly the entries. */
  predicate Stamped(dir: Directory, base: string, entries: seq<Entry>) {
    && (forall i :: 0 <= i < |entries| ==> Holds(dir, DatedName(base, entries[i].stamp), entries[i].content))
    && forall name :: name in dir && Matches(name, base) ==> name == base || IsEntry(name, base, entries)
  }

  /** The files of the log, latest time first. */
  function DatedNames(base: string, entries: seq<Entry>): (files: seq<string>)
    ensures |files| == |entries| + 1
  {
    var n := |entries|;
    seq(n + 1, i requires 0 <= i <= n => if i == n then base else DatedName(base, entries[n - 1 - i].stamp))
  }

  lemma DatedAreListed(dir: Directory, base: string, entries: seq<Entry>)
    requires base != "" && Chronological(entries) && Stamped(dir, base, entries) && base in dir
    ensures Listing(dir, base, DatedNames(base, entries))
  {
    DatedDescend(base, entries);
    DatedArePresent(dir, base, entries);
    hide Matches, Less, NoDots, Descending, Chronological, DatedNames, IsEntry;
    var files := DatedNames(base, entries);
    forall name | name in dir && Matches(name, base) ensures name in files {
      DatedIsNamed(base, entries, name);
    }
  }

  lemma DatedIsNamed(base: string, entries: seq<Entry>, name: string)
    requires name == base || IsEntry(name, base, entries)
    ensures name in DatedNames(base, entries)
  {
    hide DatedName;
    var n, files := |entries|, DatedNames(base, entries);
    if name == base {
      assert files[n] == base;
    } else {
      var i :| 0 <= i < n && name == DatedName(base, entries[i].stamp);
      assert files[n - 1 - i] == name;
    }
  }

  lemma DatedArePresent(dir: Directory, base: string, entries: seq<Entry>)
    requires base != "" && Chronological(entries) && Stamped(dir, base, entries) && base in dir
    ensures var files := DatedNames(base, entries); forall i :: 0 <= i < |files| ==> files[i] in dir && Matches(files[i], base)
  {
    var n := |entries|;
    var files := DatedNames(base, entries);
    forall i | 0 <= i < n ensures Matches(DatedName(base, entries[i].stamp), base) {
      ExtendedMatches(base, entries[i].stamp);
    }
    BaseMatches(base);
    hide Matches, Less, NoDots, DatedName;
    forall i | 0 <= i < n ensures files[i] in dir && Matches(files[i], base) {
      assert Holds(dir, DatedName(base, entries[n - 1 - i].stamp), entries[n - 1 - i].content);
    }
  }

  lemma DatedDescend(base: string, entries: seq<Entry>)
    requires Chronological(entries)
    ensures Descending(DatedNames(base, entries))
  {
    hide Less, NoDots, DatedName;
    var n := |entries|;
    var files := DatedNames(base, entries);
    forall i, j | 0 <= i < j <= n ensures Less(files[j], files[i]) {
      assert files[i] == DatedName(base, entries[n - 1 - i].stamp);
      if j == n {
        BaseIsLess(base, entries[n - 1 - i].stamp);
      } else {
        assert files[j] == DatedName(base, entries[n - 1 - j].stamp);
        DatedIsLess(base, entries[n - 1 - j].stamp, entries[n - 1 - i].stamp);
      }
    }
  }

  lemma DatedIsLess(base: string, a: string, b: string)
    requires Less(a, b)
    ensures Less(DatedName(base, a), DatedName(base, b))
  {
    hide Less;
    LessAfterPrefix(base + ".", a, b);
  }

  lemma BaseIsLess(base: string, stamp: string)
    ensures Less(base, DatedName(base, stamp))
  {
    hide Less;
    LessAfterPrefix(base, "", "." + stamp);
    assert base + "" == base && base + ("." + stamp) == base + "." + stamp;
    FirstIsLess("." + stamp);
  }

  lemma FirstIsLess(s: string)
    requires s != ""
    ensures Less("", s)
  {
  }

  /** Archives keep their dated names; only the current log is renamed. */
  lemma {:induction false} OnlyBaseMoves(dir: Directory, files: seq<string>, base: string, stamp: string)
    requires files != [] && files[|files| - 1] == base && forall i :: 0 <= i < |files| - 1 ==> files[i] != base
    ensures RenameAll(dir, files, base, Dated(stamp)) == Rename(dir, base, DatedName(base, stamp))
    decreases |files|
  {
    if |files| == 1 {
      assert files[1..] == [];
    } else {
      OnlyBaseMoves(dir, files[1..], base, stamp);
    }
  }

  /** A log of the same second takes the place of the archive before it. */
  function Merged(entries: seq<Entry>, latest: Entry): seq<Entry> {
    if entries != [] && entries[|entries| - 1].stamp == latest.stamp then entries[..|entries| - 1] + [latest]
    else entries + [latest]
  }

  /** What a rotation leaves: when there is no room, the file that goes is the latest archive, not the oldest. */
  function WithLatest(entries: seq<Entry>, latest: Entry, maximum: nat): seq<Entry> {
    if maximum == 0 || |entries| + 1 < maximum then Merged(entries, latest)
    else if entries == [] then []
    else entries[..|entries| - 1] + [latest]
  }

  /** The log is no older than the latest archive. */
  predicate Follows(entries: seq<Entry>, latest: Entry) {
    && Chronological(entries) && NoDots(latest.stamp)
    && (entries != [] ==> var e := entries[|entries| - 1]; e.stamp == latest.stamp || Less(e.stamp, latest.stamp))
  }

  lemma Appended(entries: seq<Entry>, latest: Entry)
    requires Chronological(entries) && NoDots(latest.stamp)
    requires entries != [] ==> Less(entries[|entries| - 1].stamp, latest.stamp)
    ensures Chronological(entries + [latest])
  {
    hide Less, NoDots;
    var all, n := entries + [latest], |entries|;
    forall i | 0 <= i < n ensures Less(entries[i].stamp, latest.stamp) {
      if i < n - 1 {
        LessIsTransitive(entries[i].stamp, entries[n - 1].stamp, latest.stamp);
      }
    }
  }

  lemma WithoutLast(entries: seq<Entry>, latest: Entry)
    requires Follows(entries, latest) && entries != []
    ensures Chronological(entries[..|entries| - 1] + [latest])
  {
    hide Less, NoDots;
    var n := |entries| - 1;
    if n > 0 {
      assert Less(entries[n - 1].stamp, entries[n].stamp);
      if entries[n].stamp != latest.stamp {
        LessIsTransitive(entries[n - 1].stamp, entries[n].stamp, latest.stamp);
      }
    }
    Appended(entries[..n], latest);
  }

  lemma MergedInOrder(entries: seq<Entry>, latest: Entry)
    requires Follows(entries, latest)
    ensures Chronological(Merged(entries, latest))
  {
    hide Less, NoDots, Chronological;
    if entries != [] && entries[|entries| - 1].stamp == latest.stamp {
      WithoutLast(entries, latest);
    } else {
      Appended(entries, latest);
    }
  }

  lemma EntryAdded(dir: Directory, base: string, entries: seq<Entry>, latest: Entry)
    requires base != "" && Chronological(entries + [latest]) && Stamped(dir, base, entries) && Holds(dir, base, latest.content)
    ensures Stamped(Rename(dir, base, DatedName(base, latest.stamp)), base, entries + [latest])
  {
    hide Matches, NoDots, Less;
    var all := entries + [latest];
    var dir' := Rename(dir, base, DatedName(base, latest.stamp));
    assert all[|entries|] == latest;
    ExtendedMatches(base, latest.stamp);
    forall i | 0 <= i < |all| ensures Holds(dir', DatedName(base, all[i].stamp), all[i].content) {
      if i < |entries| {
        assert Holds(dir, DatedName(base, entries[i].stamp), entries[i].content);
        StampsDiffer(base, all, i, |entries|);
        ExtendedMatches(base, all[i].stamp);
      }
    }
    forall name | name in dir' && Matches(name, base) && name != base ensures IsEntry(name, base, all) {
      if name == DatedName(base, latest.stamp) {
        assert all[|entries|].stamp == latest.stamp;
      } else {
        var i :| 0 <= i < |entries| && name == DatedName(base, entries[i].stamp);
        assert all[i] == entries[i];
      }
    }
  }

  lemma StampsDiffer(base: string, entries: seq<Entry>, i: nat, j: nat)
    requires i < j < |entries| && Chronological(entries)
    ensures DatedName(base, entries[i].stamp) != DatedName(base, entries[j].stamp)
  {
    LessIsTotal(entries[i].stamp, entries[j].stamp);
    assert DatedName(base, entries[i].stamp)[|base| + 1..] == entries[i].stamp;
    assert DatedName(base, entries[j].stamp)[|base| + 1..] == entries[j].stamp;
  }

  lemma LatestRemoved(dir: Directory, base: string, entries: seq<Entry>)
    requires base != "" && entries != [] && Chronological(entries) && Stamped(dir, base, entries) && base in dir
    ensures var n := |entries| - 1;
      var dir' := dir - {DatedName(base, entries[n].stamp)};
      Stamped(dir', base, entries[..n]) && Holds(dir', base, dir[base])
  {
    hide Matches, NoDots, Less;
    var n := |entries| - 1;
    var dir' := dir - {DatedName(base, entries[n].stamp)};
    ExtendedMatches(base, entries[n].stamp);
    forall i | 0 <= i < n ensures Holds(dir', DatedName(base, entries[..n][i].stamp), entries[..n][i].content) {
      assert Holds(dir, DatedName(base, entries[i].stamp), entries[i].content);
      StampsDiffer(base, entries, i, n);
    }
    forall name | name in dir' && Matches(name, base) && name != base ensures IsEntry(name, base, entries[..n]) {
      var i :| 0 <= i < |entries| && name == DatedName(base, entries[i].stamp);
      assert i < n && entries[..n][i] == entries[i];
    }
  }

  /** A second rotation in the same second overwrites the archive of the first. */
  lemma EntryReplaced(dir: Directory, base: string, entries: seq<Entry>, latest: Entry)
    requires base != "" && Follows(entries, latest) && Stamped(dir, base, entries) && Holds(dir, base, latest.content)
    ensures Stamped(Rename(dir, base, DatedName(base, latest.stamp)), base, Merged(entries, latest))
  {
    hide Stamped, Chronological, Less, NoDots;
    MergedInOrder(entries, latest);
    if entries != [] && entries[|entries| - 1].stamp == latest.stamp {
      var n, name := |entries| - 1, DatedName(base, latest.stamp);
      LatestRemoved(dir, base, entries);
      EntryAdded(dir - {name}, base, entries[..n], latest);
      DatedNameDiffers(base, latest.stamp);
      assert Rename(dir - {name}, base, name) == Rename(dir, base, name);
    } else {
      EntryAdded(dir, base, entries, latest);
    }
  }

  lemma DatedRotation(dir: Directory, base: string, entries: seq<Entry>, latest: Entry, maximum: nat)
    requires base != "" && Follows(entries, latest) && Stamped(dir, base, entries) && Holds(dir, base, latest.content)
    ensures Stamped(AfterRotation(dir, DatedNames(base, entries), base, maximum, Dated(latest.stamp)), base,
                    WithLatest(entries, latest, maximum))
  {
    hide Stamped, Chronological, RenameAll, Rename, DatedName, Merged, Less, NoDots;
    var n, files := |entries|, DatedNames(base, entries);
    if !DeletesFirst(files, maximum) {
      BaseIsLast(base, entries, 0);
      EntryReplaced(dir, base, entries, latest);
      OnlyBaseMoves(dir, files, base, latest.stamp);
    } else if n == 0 {
      NoEntryLeft(dir, base);
      assert files[1..] == [];
    } else {
      WithoutLast(entries, latest);
      BaseIsLast(base, entries, 1);
      LatestRemoved(dir, base, entries);
      var dir' := dir - {DatedName(base, entries[n - 1].stamp)};
      EntryAdded(dir', base, entries[..n - 1], latest);
      OnlyBaseMoves(dir', files[1..], base, latest.stamp);
    }
  }

  lemma BaseIsLast(base: string, entries: seq<Entry>, from: nat)
    requires base != "" && Chronological(entries) && from <= |entries|
    ensures var files := DatedNames(base, entries)[from..];
      files != [] && files[|files| - 1] == base && forall i :: 0 <= i < |files| - 1 ==> files[i] != base
  {
    hide Less, NoDots, Matches;
    forall stamp: string | NoDots(stamp) ensures DatedName(base, stamp) != base {
      ExtendedMatches(base, stamp);
    }
  }

  lemma NoEntryLeft(dir: Directory, base: string)
    requires Stamped(dir, base, [])
    ensures Stamped(RenameAll(dir - {base}, [], base, Dated("")), base, [])
    ensures forall stamp :: RenameAll(dir - {base}, [], base, Dated(stamp)) == dir - {base}
  {
    hide Matches;
  }

  /** The times do not go back; two logs may be of the same second. */
  predicate InTime(logs: seq<Entry>) {
    (forall i :: 0 <= i < |logs| ==> NoDots(logs[i].stamp)) &&
    forall i, j :: 0 <= i < j < |logs| ==> logs[i].stamp == logs[j].stamp || Less(logs[i].stamp, logs[j].stamp)
  }

  /** The last log of every second. */
  function LastPerStamp(logs: seq<Entry>): seq<Entry> {
    if logs == [] then [] else Merged(LastPerStamp(logs[..|logs| - 1]), logs[|logs| - 1])
  }

  /** A run of dated rotations that starts without archives. */
  ghost predicate DatedRun(dirs: seq<Directory>, logs: seq<Entry>, base: string, maximum: nat) {
    && |dirs| == |logs| + 1 && base != "" && InTime(logs) && Stamped(dirs[0], base, [])
    && forall i :: 0 <= i < |logs| ==> Turned(dirs[i][base := logs[i].content], dirs[i + 1], base, maximum, Dated(logs[i].stamp))
  }

  /** Once there is no room, the earliest logs stay for ever, and only the last place is used again. */
  function EarliestAndLatest(logs: seq<Entry>, maximum: nat): seq<Entry> {
    var n := |logs|;
    if maximum == 0 || n < maximum then logs
    else if maximum == 1 then []
    else logs[..maximum - 2] + [logs[n - 1]]
  }

  lemma LogContinues(dir: Directory, base: string, entries: seq<Entry>, content: string)
    requires base != "" && Chronological(entries) && Stamped(dir, base, entries)
    ensures Stamped(dir[base := content], base, entries)
  {
    hide Matches, Less, NoDots, DatedName;
    forall i | 0 <= i < |entries| ensures Holds(dir[base := content], DatedName(base, entries[i].stamp), entries[i].content) {
      assert Holds(dir, DatedName(base, entries[i].stamp), entries[i].content);
      DatedNameDiffers(base, entries[i].stamp);
    }
  }

  lemma DatedNameDiffers(base: string, stamp: string)
    ensures DatedName(base, stamp) != base
  {
    assert |DatedName(base, stamp)| > |base|;
  }

  lemma OneDatedRotation(dir: Directory, dir': Directory, base: string, entries: seq<Entry>, latest: Entry, maximum: nat)
    requires base != "" && Follows(entries, latest) && Stamped(dir, base, entries)
    requires Turned(dir[base := latest.content], dir', base, maximum, Dated(latest.stamp))
    ensures Stamped(dir', base, WithLatest(entries, latest, maximum))
  {
    hide Stamped, Chronological, Listing, AfterRotation, WithLatest, DatedNames, Less, NoDots;
    var d := dir[base := latest.content];
    LogContinues(dir, base, entries, latest.content);
    DatedAreListed(d, base, entries);
    DatedRotation(d, base, entries, latest, maximum);
    var files: seq<string> :| Listing(d, base, files) && dir' == AfterRotation(d, files, base, maximum, Dated(latest.stamp));
    ListingIsUnique(d, base, files, DatedNames(base, entries));
  }

  /** The last log of every second, in order, ends with the last log. */
  lemma {:induction false} LastPerStampInOrder(logs: seq<Entry>)
    requires InTime(logs)
    ensures Chronological(LastPerStamp(logs))
    ensures logs != [] ==> var d := LastPerStamp(logs); d != [] && d[|d| - 1] == logs[|logs| - 1]
  {
    hide Less, NoDots;
    if logs != [] {
      var n := |logs| - 1;
      LastPerStampInOrder(logs[..n]);
      MergedInOrder(LastPerStamp(logs[..n]), logs[n]);
    }
  }

  lemma KeptFollows(entries: seq<Entry>, latest: Entry, maximum: nat)
    requires Follows(entries, latest)
    ensures Follows(EarliestAndLatest(entries, maximum), latest)
    ensures WithLatest(EarliestAndLatest(entries, maximum), latest, maximum) == EarliestAndLatest(Merged(entries, latest), maximum)
  {
    hide Less, NoDots;
    var n := |entries|;
    if maximum > 1 && n >= maximum {
      var k := EarliestAndLatest(entries, maximum);
      assert k[..|k| - 1] == entries[..maximum - 2];
      assert Merged(entries, latest)[..maximum - 2] == entries[..maximum - 2];
    } else if maximum > 1 && n == maximum - 1 {
      assert Merged(entries, latest)[..maximum - 2] == entries[..maximum - 2];
    }
  }

  lemma NextFollows(logs: seq<Entry>, i: nat)
    requires InTime(logs) && i < |logs|
    ensures Follows(LastPerStamp(logs[..i]), logs[i])
    ensures LastPerStamp(logs[..i + 1]) == Merged(LastPerStamp(logs[..i]), logs[i])
  {
    hide Less, NoDots, Merged;
    var front := logs[..i + 1];
    assert front[..i] == logs[..i] && front[i] == logs[i] && |front| == i + 1;
    LastPerStampInOrder(logs[..i]);
    hide LastPerStamp, Chronological;
    if i > 0 {
      assert logs[..i][i - 1] == logs[i - 1];
    }
  }

  lemma OneMoreEntry(logs: seq<Entry>, maximum: nat, i: nat)
    requires InTime(logs) && i < |logs|
    ensures var kept := EarliestAndLatest(LastPerStamp(logs[..i]), maximum);
      && WithLatest(kept, logs[i], maximum) == EarliestAndLatest(LastPerStamp(logs[..i + 1]), maximum)
      && Follows(kept, logs[i])
  {
    hide InTime, LastPerStamp, EarliestAndLatest, WithLatest, Merged, Follows;
    NextFollows(logs, i);
    KeptFollows(LastPerStamp(logs[..i]), logs[i], maximum);
  }

  /** With dates in the names, rotation keeps the earliest logs and the latest
      one: it never deletes the oldest of two. Of the logs of one second only the
      last is kept, whatever the room, because its rename overwrites the others. */
  lemma {:induction false} DatedArchives(dirs: seq<Directory>, logs: seq<Entry>, base: string, maximum: nat, i: nat)
    requires DatedRun(dirs, logs, base, maximum) && i <= |logs|
    ensures Stamped(dirs[i], base, EarliestAndLatest(LastPerStamp(logs[..i]), maximum))
  {
    hide Stamped, Turned, EarliestAndLatest, WithLatest, InTime, Follows;
    if i == 0 {
      NoEntries(maximum);
    } else {
      DatedArchives(dirs, logs, base, maximum, i - 1);
      OneMoreEntry(logs, maximum, i - 1);
      OneDatedRotation(dirs[i - 1], dirs[i], base, EarliestAndLatest(LastPerStamp(logs[..i - 1]), maximum), logs[i - 1], maximum);
    }
  }

  lemma NoEntries(maximum: nat)
    ensures EarliestAndLatest([], maximum) == []
  {
  }

  // ---------------------------------------------------------------- the code

  function Insert(files: seq<string>, name: string): seq<string> {
    if files == [] || Less(files[0], name) then [name] + files else [files[0]] + Insert(files[1..], name)
  }

  lemma {:induction false} InsertKeepsOrder(files: seq<string>, name: string)
    requires Descending(files) && name !in files
    ensures Descending(Insert(files, name))
    ensures forall other :: other in Insert(files, name) <==> other == name || other in files
  {
    hide Less;
    if files != [] {
      LessIsTotal(files[0], name);
      if Less(files[0], name) {
        forall i | 0 < i < |files| ensures Less(files[i], name) {
          LessIsTransitive(files[i], files[0], name);
        }
      } else {
        InsertKeepsOrder(files[1..], name);
        Front(files[0], Insert(files[1..], name));
      }
    }
  }

  lemma Front(first: string, files: seq<string>)
    requires Descending(files) && forall name :: name in files ==> Less(name, first)
    ensures Descending([first] + files)
  {
    hide Less;
  }

  /** A directory iterator visits every file once, in no particular order. */
  predicate Visits(entries: seq<string>, dir: Directory) {
    && (forall i, j :: 0 <= i < j < |entries| ==> entries[i] != entries[j])
    && (forall i :: 0 <= i < |entries| ==> entries[i] in dir) && forall name :: name in dir ==> name in entries
  }

  class MessageLogging {
    var files: Directory
    var rotateLogs: bool
    var dateSuffix: bool
    var maximumFileSizeBytes: nat
    var maximumFileCount: nat

    constructor (files: Directory, rotateLogs: bool, dateSuffix: bool, maximumFileSizeBytes: nat, maximumFileCount: nat)
      ensures this.files == files && this.rotateLogs == rotateLogs && this.dateSuffix == dateSuffix
      ensures this.maximumFileSizeBytes == maximumFileSizeBytes && this.maximumFileCount == maximumFileCount
    {
      this.files, this.rotateLogs, this.dateSuffix := files, rotateLogs, dateSuffix;
      this.maximumFileSizeBytes, this.maximumFileCount := maximumFileSizeBytes, maximumFileCount;
    }

    method ListFiles(basename: string, entries: seq<string>) returns (found: seq<string>)
      requires Visits(entries, files)
      ensures Listing(files, basename, found)
    {
      hide Less, Matches;
      found := [];
      var i := 0;
      while i < |entries|
        invariant 0 <= i <= |entries| && Descending(found)
        invariant forall name :: name in found <==> name in entries[..i] && Matches(name, basename)
      {
        if Matches(entries[i], basename) {
          InsertKeepsOrder(found, entries[i]);
          found := Insert(found, entries[i]);
        }
        i := i + 1;
      }
      assert entries[..i] == entries;
      assert forall k :: 0 <= k < |found| ==> found[k] in found;
    }

    method RotateLog(basename: string, entries: seq<string>, stamp: string) returns (status: Status, ghost listing: seq<string>)
      requires Visits(entries, files)
      modifies this`files
      ensures var suffix := if dateSuffix then Dated(stamp) else Counting;
        Listing(old(files), basename, listing) &&
        files == AfterRotation(old(files), listing, basename, maximumFileCount, suffix) &&
        status == RotationStatus(listing, basename, maximumFileCount, suffix)
    {
      hide Listing, Visits, Target, Rename;
      status := NotRotated;
      var found := ListFiles(basename, entries);
      listing := found;
      if maximumFileCount > 0 && |found| >= maximumFileCount {
        files := files - {found[0]};
        found := found[1..];
        status := RotatedWithDeletion;
      }
      ghost var suffix := if dateSuffix then Dated(stamp) else Counting;
      ghost var deleted := status == RotatedWithDeletion;
      assert found == Remaining(listing, maximumFileCount) && files == AfterDeletion(old(files), listing, maximumFileCount);
      ghost var before := files;
      var i := 0;
      while i < |found|
        invariant 0 <= i <= |found|
        invariant RenameAll(files, found[i..], basename, suffix) == RenameAll(before, found, basename, suffix)
        invariant status == if deleted then RotatedWithDeletion
                            else if AnyTarget(found[..i], basename, suffix) then Rotated else NotRotated
      {
        assert found[i..][1..] == found[i + 1..];
        TargetsSoFar(found, i, basename, suffix);
        var renamed := RenameLog(found[i], basename, stamp);
        if renamed && status == NotRotated {
          status := Rotated;
        }
        i := i + 1;
      }
      assert found[..i] == found;
    }

    /** The current log gets the first suffix, and a numbered archive the next one. */
    method RenameLog(file: string, basename: string, stamp: string) returns (renamed: bool)
      modifies this`files
      ensures var target := Target(file, basename, if dateSuffix then Dated(stamp) else Counting);
        renamed == target.Some? && files == if renamed then Rename(old(files), file, target.value) else old(files)
    {
      hide Stem, Extension, Stoi, Decimal;
      renamed := false;
      if file == basename {
        var newFileName := if dateSuffix then file + "." + stamp else file + ".0";
        assert file + "." + "0" == file + ".0";
        RenameFile(file, newFileName);
        renamed := true;
      } else if !dateSuffix {
        var extension := Stoi(Extension(file));
        if extension.Some? {
          RenameFile(file, Stem(file) + "." + IntText(extension.value + 1));
          renamed := true;
        }
      }
    }

    method RenameFile(from: string, to: string)
      modifies this`files
      ensures files == Rename(old(files), from, to)
    {
      if from in files && from != to {
        files := (files - {from})[to := files[from]];
      }
    }

    /** The callbacks append to the file before it is closed and after it is opened again. */
    method RotateLogIfNeeded(basename: string, entries: seq<string>, stamp: string, closing: string, opening: string)
      returns (status: Status, ghost listing: seq<string>)
      requires Visits(entries, files)
      modifies this`files
      ensures var needed := rotateLogs && maximumFileSizeBytes > 0 && basename in old(files) &&
                            |old(files)[basename]| >= maximumFileSizeBytes;
        if !needed then status == NotRotated && files == old(files)
        else
          var dir := old(files)[basename := old(files)[basename] + closing];
          var suffix := if dateSuffix then Dated(stamp) else Counting;
          var turned := AfterRotation(dir, listing, basename, maximumFileCount, suffix);
          Listing(dir, basename, listing) && status == RotationStatus(listing, basename, maximumFileCount, suffix) &&
          files == turned[basename := (if basename in turned then turned[basename] else "") + opening]
    {
      status := NotRotated;
      listing := [];
      if !rotateLogs {
        return;
      }
      if maximumFileSizeBytes <= 0 {
        return;
      }
      var logFileSize := if basename in files then |files[basename]| else 0;
      if logFileSize >= maximumFileSizeBytes {
        files := files[basename := files[basename] + closing];
        hide Listing, AfterRotation, RotationStatus;
        status, listing := RotateLog(basename, entries, stamp);
        var reopened := if basename in files then files[basename] else "";
        files := files[basename := reopened + opening];
      }
    }
  }

  lemma TargetsSoFar(found: seq<string>, i: nat, base: string, suffix: Suffix)
    requires i < |found|
    ensures AnyTarget(found[..i + 1], base, suffix) <==> AnyTarget(found[..i], base, suffix) || Target(found[i], base, suffix).Some?
  {
    hide Target;
    assert forall k :: 0 <= k < i ==> found[..i + 1][k] == found[..i][k];
    assert found[..i + 1][i] == found[i];
  }
}
