/** The wire framing of a submission: a tar that nests a second tar of local changes. */
module Codec {
  import opened Records
  import opened Sorting

  newtype byte = x: int | 0 <= x < 256
  type Bytes = seq<byte>

  /** The permission bits, `mode & 0o777`. */
  function Perm(mode: nat): (bits: nat)
    ensures bits < 512 && (mode - bits) % 512 == 0
  {
    mode % 512
  }

  datatype UntrackedFile = UntrackedFile(path: string, mode: nat, symlink: bool, link: string, content: Bytes)

  datatype LocalChanges = LocalChanges(patch: Bytes, untracked: seq<UntrackedFile>)

  datatype Kind = Regular | Symlink

  /** One tar member over a kind of data. */
  datatype TarEntry<D> = TarEntry(name: string, mode: nat, kind: Kind, linkname: string, data: D)

  const FILE_MODE: nat := 420 // 0o644

  type Archive = seq<TarEntry<Bytes>>

  // ---------------------------------------------------------------- local changes

  function PathOf(f: UntrackedFile): string { f.path }

  predicate PathLess(a: UntrackedFile, b: UntrackedFile) { NameLess(a.path, b.path) }

  function FileEntry(f: UntrackedFile): TarEntry<Bytes> {
    if f.symlink then TarEntry("f/" + f.path, Perm(f.mode), Symlink, f.link, [])
    else TarEntry("f/" + f.path, Perm(f.mode), Regular, "", f.content)
  }

  function FileEntries(files: seq<UntrackedFile>): Archive {
    if files == [] then [] else FileEntries(files[..|files|-1]) + [FileEntry(files[|files|-1])]
  }

  function PatchEntries(patch: Bytes): Archive {
    if patch == [] then [] else [TarEntry("patch", FILE_MODE, Regular, "", patch)]
  }

  function Packed(lc: LocalChanges): Archive {
    PatchEntries(lc.patch) + FileEntries(Sort(PathLess, lc.untracked))
  }

  function ReadEntry(lc: LocalChanges, e: TarEntry<Bytes>): Option<LocalChanges> {
    if e.name == "patch" then Some(lc.(patch := e.data))
    else if "f/" <= e.name then
      var path := e.name[2..];
      var file := if e.kind.Symlink? then UntrackedFile(path, Perm(e.mode), true, e.linkname, [])
                  else UntrackedFile(path, Perm(e.mode), false, "", e.data);
      Some(lc.(untracked := lc.untracked + [file]))
    else None
  }

  function Unpacked(a: Archive): Option<LocalChanges> {
    if a == [] then Some(LocalChanges([], []))
    else
      var init := Unpacked(a[..|a|-1]);
      if init.None? then None else ReadEntry(init.value, a[|a|-1])
  }

  method PackageLC(lc: LocalChanges) returns (a: Archive)
    ensures a == Packed(lc)
  {
    a := [];
    if |lc.patch| > 0 { a := a + [TarEntry("patch", FILE_MODE, Regular, "", lc.patch)]; }
    var files := Sort(PathLess, lc.untracked);
    for i := 0 to |files|
      invariant a == PatchEntries(lc.patch) + FileEntries(files[..i])
    {
      assert files[..i+1][..i] == files[..i];
      var f := files[i];
      if f.symlink {
        a := a + [TarEntry("f/" + f.path, Perm(f.mode), Symlink, f.link, [])];
        continue;
      }
      a := a + [TarEntry("f/" + f.path, Perm(f.mode), Regular, "", f.content)];
    }
    assert files[..|files|] == files;
  }

  method UnpackageLC(a: Archive) returns (out: Option<LocalChanges>)
    ensures out == Unpacked(a)
    ensures out.Some? <==> forall e :: e in a ==> e.name == "patch" || "f/" <= e.name
  {
    ReadableExactly(a);
    var lc := LocalChanges([], []);
    for i := 0 to |a|
      invariant Unpacked(a[..i]) == Some(lc)
    {
      var h := a[i];
      assert a[..i+1][..i] == a[..i];
      if h.name == "patch" {
        lc := lc.(patch := h.data);
      } else if "f/" <= h.name {
        var path := h.name[2..];
        if h.kind.Symlink? {
          lc := lc.(untracked := lc.untracked + [UntrackedFile(path, Perm(h.mode), true, h.linkname, [])]);
          continue;
        }
        lc := lc.(untracked := lc.untracked + [UntrackedFile(path, Perm(h.mode), false, "", h.data)]);
      } else {
        assert h in a;
        return None;
      }
    }
    assert a[..|a|] == a;
    return Some(lc);
  }

  /** An archive is refused exactly when some member is neither the patch nor under f/. */
  lemma {:induction false} ReadableExactly(a: Archive)
    ensures Unpacked(a).Some? <==> forall e :: e in a ==> e.name == "patch" || "f/" <= e.name
  {
    if a != [] {
      assert a == a[..|a|-1] + [a[|a|-1]];
      ReadableExactly(a[..|a|-1]);
    }
  }

  // ---------------------------------------------------------------- canonical form

  /** Masked mode, and only the fields the file's kind uses. */
  function Cleaned(f: UntrackedFile): UntrackedFile {
    if f.symlink then UntrackedFile(f.path, Perm(f.mode), true, f.link, [])
    else UntrackedFile(f.path, Perm(f.mode), false, "", f.content)
  }

  function CleanedAll(files: seq<UntrackedFile>): (r: seq<UntrackedFile>)
    ensures |r| == |files| && forall i :: 0 <= i < |r| ==> r[i] == Cleaned(files[i])
  {
    seq(|files|, i requires 0 <= i < |files| => Cleaned(files[i]))
  }

  function Canonical(lc: LocalChanges): LocalChanges {
    LocalChanges(lc.patch, CleanedAll(Sort(PathLess, lc.untracked)))
  }

  lemma ReadFile(lc: LocalChanges, f: UntrackedFile)
    ensures ReadEntry(lc, FileEntry(f)) == Some(lc.(untracked := lc.untracked + [Cleaned(f)]))
  {
    var name := "f/" + f.path;
    assert FileEntry(f).name == name && name[0] == 'f' && name[2..] == f.path;
  }

  lemma UnpackedSnoc(a: Archive, e: TarEntry<Bytes>)
    requires Unpacked(a).Some?
    ensures Unpacked(a + [e]) == ReadEntry(Unpacked(a).value, e)
  {
  }

  lemma ReadPatch(patch: Bytes)
    ensures Unpacked(PatchEntries(patch) + FileEntries([])) == Some(LocalChanges(patch, CleanedAll([])))
  {
    assert PatchEntries(patch) + FileEntries([]) == PatchEntries(patch);
    assert CleanedAll([]) == [];
  }

  lemma {:induction false} ReadFiles(patch: Bytes, files: seq<UntrackedFile>)
    ensures Unpacked(PatchEntries(patch) + FileEntries(files)) == Some(LocalChanges(patch, CleanedAll(files)))
  {
    hide ReadEntry, FileEntry, PatchEntries, Cleaned, Unpacked;
    if files == [] {
      ReadPatch(patch);
    } else {
      var init, f := files[..|files|-1], files[|files|-1];
      var before := PatchEntries(patch) + FileEntries(init);
      assert PatchEntries(patch) + FileEntries(files) == before + [FileEntry(f)];
      ReadFiles(patch, init);
      UnpackedSnoc(before, FileEntry(f));
      ReadFile(LocalChanges(patch, CleanedAll(init)), f);
      assert CleanedAll(files) == CleanedAll(init) + [Cleaned(f)];
    }
  }

  /** Unpackaging packaged changes gives them back in canonical form. */
  lemma RoundTrip(lc: LocalChanges)
    ensures Unpacked(Packed(lc)) == Some(Canonical(lc))
  {
    ReadFiles(lc.patch, Sort(PathLess, lc.untracked));
  }

  // ---------------------------------------------------------------- one archive per set of changes

  lemma SortIncreases(files: seq<UntrackedFile>)
    requires DistinctBy(PathOf, files)
    ensures Ascending(PathLess, Sort(PathLess, files)) && multiset(Sort(PathLess, files)) == multiset(files)
  {
    SortAscends(PathLess, PathOf, files);
    SortPermutes(PathLess, files);
  }

  lemma {:induction false} SortKeepsIncreasing(files: seq<UntrackedFile>)
    requires Ascending(PathLess, files)
    ensures Sort(PathLess, files) == files
  {
    if files != [] {
      SortKeepsIncreasing(files[1..]);
      assert files == [files[0]] + files[1..];
    }
  }

  /** Whatever algorithm sorts them, files with distinct paths come out in one order. */
  lemma {:induction false} IncreasingUnique(a: seq<UntrackedFile>, b: seq<UntrackedFile>)
    requires Ascending(PathLess, a) && Ascending(PathLess, b) && multiset(a) == multiset(b)
    ensures a == b
  {
    assert |multiset(a)| == |a| && |multiset(b)| == |b|;
    if a != [] {
      assert a[0] in multiset(b) && b[0] in multiset(a);
      if a[0] != b[0] {
        NameOrder(a[0].path, b[0].path, "");
        assert false;
      }
      assert a == [a[0]] + a[1..] && b == [b[0]] + b[1..];
      assert multiset(a[1..]) == multiset(a) - multiset{a[0]};
      IncreasingUnique(a[1..], b[1..]);
    }
  }

  /** The archive does not depend on the order the changes were listed in. */
  lemma PackingIsDeterministic(lc: LocalChanges, lc': LocalChanges)
    requires lc.patch == lc'.patch && multiset(lc.untracked) == multiset(lc'.untracked)
    requires DistinctBy(PathOf, lc.untracked) && DistinctBy(PathOf, lc'.untracked)
    ensures Packed(lc) == Packed(lc')
  {
    SortIncreases(lc.untracked);
    SortIncreases(lc'.untracked);
    IncreasingUnique(Sort(PathLess, lc.untracked), Sort(PathLess, lc'.untracked));
  }

  lemma {:induction false} CleanedEntries(files: seq<UntrackedFile>)
    ensures FileEntries(CleanedAll(files)) == FileEntries(files)
  {
    if files != [] {
      CleanedEntries(files[..|files|-1]);
      assert CleanedAll(files)[..|files|-1] == CleanedAll(files[..|files|-1]);
    }
  }

  /** Repackaging what was unpackaged gives the identical archive. */
  lemma Repackaging(lc: LocalChanges)
    requires DistinctBy(PathOf, lc.untracked)
    ensures Packed(Canonical(lc)) == Packed(lc)
    ensures Canonical(Canonical(lc)) == Canonical(lc)
  {
    var files := Sort(PathLess, lc.untracked);
    SortIncreases(lc.untracked);
    CleanedFiles(files);
    SortKeepsIncreasing(CleanedAll(files));
    CleanedEntries(files);
  }

  lemma CleanedFiles(files: seq<UntrackedFile>)
    requires Ascending(PathLess, files)
    ensures Ascending(PathLess, CleanedAll(files)) && CleanedAll(CleanedAll(files)) == CleanedAll(files)
  {
  }

  // ---------------------------------------------------------------- submissions

  datatype Meta = Meta(head: string, base: string, remoteUrl: string, have: string)

  /** File contents by what they decode as; other bytes are raw. */
  datatype Blob = Raw(bytes: Bytes) | Json(meta: Meta) | Tar(archive: Archive)

  const EMPTY := Raw([])

  datatype Submission = Submission(meta: Meta, bundle: Blob, changes: LocalChanges)

  const NO_META := Meta("", "", "", "")

  function RegEntry(name: string, data: Blob): TarEntry<Blob> { TarEntry(name, FILE_MODE, Regular, "", data) }

  method PackageSubmission(s: Submission) returns (tar: seq<TarEntry<Blob>>)
    ensures tar == PackedSubmission(s)
  {
    var lc := PackageLC(s.changes);
    tar := [RegEntry("meta.json", Json(s.meta))];
    if s.bundle != EMPTY { tar := tar + [RegEntry("bundle", s.bundle)]; }
    tar := tar + [RegEntry("lc.tar", Tar(lc))];
  }

  function PackedSubmission(s: Submission): seq<TarEntry<Blob>> {
    [RegEntry("meta.json", Json(s.meta))]
    + (if s.bundle == EMPTY then [] else [RegEntry("bundle", s.bundle)])
    + [RegEntry("lc.tar", Tar(Packed(s.changes)))]
  }

  /** What the reading loop has gathered. */
  datatype Read = Read(meta: Meta, bundle: Blob, lc: Option<Blob>)

  function ReadMember(r: Read, e: TarEntry<Blob>): Option<Read> {
    if e.name == "meta.json" then if e.data.Json? then Some(r.(meta := e.data.meta)) else None
    else if e.name == "bundle" then Some(r.(bundle := e.data))
    else if e.name == "lc.tar" then Some(r.(lc := Some(e.data)))
    else None
  }

  function ReadAll(tar: seq<TarEntry<Blob>>): Option<Read> {
    if tar == [] then Some(Read(NO_META, EMPTY, None))
    else
      var init := ReadAll(tar[..|tar|-1]);
      if init.None? then None else ReadMember(init.value, tar[|tar|-1])
  }

  /** No bytes at all read as an archive without members. */
  function ReadChanges(b: Blob): Option<LocalChanges> {
    if b == EMPTY then Some(LocalChanges([], [])) else if b.Tar? then Unpacked(b.archive) else None
  }

  function UnpackedSubmission(tar: seq<TarEntry<Blob>>): Option<Submission> {
    var read := ReadAll(tar);
    if read.None? then None
    else if read.value.lc.None? then Some(Submission(read.value.meta, read.value.bundle, LocalChanges([], [])))
    else
      var changes := ReadChanges(read.value.lc.value);
      if changes.None? then None else Some(Submission(read.value.meta, read.value.bundle, changes.value))
  }

  method UnpackageSubmission(tar: seq<TarEntry<Blob>>) returns (out: Option<Submission>)
    ensures out == UnpackedSubmission(tar)
    ensures out.Some? ==> forall e :: e in tar ==> e.name in {"meta.json", "bundle", "lc.tar"}
  {
    ReadNames(tar);
    var s := Submission(NO_META, EMPTY, LocalChanges([], []));
    var lc: Option<Blob> := None;
    for i := 0 to |tar|
      invariant ReadAll(tar[..i]) == Some(Read(s.meta, s.bundle, lc)) && s.changes == LocalChanges([], [])
    {
      var h := tar[i];
      assert tar[..i+1][..i] == tar[..i];
      if h.name == "meta.json" {
        if !h.data.Json? {
          Refused(tar, i);
          return None;
        }
        s := s.(meta := h.data.meta);
      } else if h.name == "bundle" {
        s := s.(bundle := h.data);
      } else if h.name == "lc.tar" {
        lc := Some(h.data);
      } else {
        Refused(tar, i);
        return None;
      }
    }
    assert tar[..|tar|] == tar;
    if lc.Some? {
      if lc.value == EMPTY { return Some(s); }
      if !lc.value.Tar? { return None; }
      var changes := UnpackageLC(lc.value.archive);
      if changes.None? { return None; }
      s := s.(changes := changes.value);
    }
    return Some(s);
  }

  /** A member that cannot be read fails the whole submission. */
  lemma {:induction false} Refused(tar: seq<TarEntry<Blob>>, i: nat)
    requires i < |tar| && ReadAll(tar[..i+1]).None?
    ensures ReadAll(tar).None?
    decreases |tar|
  {
    if i + 1 < |tar| {
      assert tar[..|tar|-1][..i+1] == tar[..i+1];
      Refused(tar[..|tar|-1], i);
    } else {
      assert tar[..i+1] == tar;
    }
  }

  lemma {:induction false} ReadNames(tar: seq<TarEntry<Blob>>)
    ensures ReadAll(tar).Some? ==> forall e :: e in tar ==> e.name in {"meta.json", "bundle", "lc.tar"}
  {
    if tar != [] {
      assert tar == tar[..|tar|-1] + [tar[|tar|-1]];
      ReadNames(tar[..|tar|-1]);
    }
  }

  /** Unpackaging a packaged submission returns it with its changes in canonical form. */
  lemma SubmissionRoundTrip(s: Submission)
    ensures UnpackedSubmission(PackedSubmission(s)) == Some(s.(changes := Canonical(s.changes)))
  {
    var tar := PackedSubmission(s);
    var lc := RegEntry("lc.tar", Tar(Packed(s.changes)));
    var meta := [RegEntry("meta.json", Json(s.meta))];
    ReadMeta(s.meta);
    if s.bundle != EMPTY {
      var two := meta + [RegEntry("bundle", s.bundle)];
      assert two[..1] == meta && tar[..2] == two;
      assert ReadAll(two) == Some(Read(s.meta, s.bundle, None));
    } else {
      assert tar[..1] == meta;
    }
    assert tar[|tar|-1] == lc;
    assert ReadAll(tar) == Some(Read(s.meta, s.bundle, Some(lc.data)));
    RoundTrip(s.changes);
  }

  lemma ReadMeta(m: Meta)
    ensures ReadAll([RegEntry("meta.json", Json(m))]) == Some(Read(m, EMPTY, None))
  {
  }

  /** The archive the coordinator stores for its workers is the one the client sent. */
  lemma ResubmissionIsIdentical(s: Submission)
    requires DistinctBy(PathOf, s.changes.untracked)
    ensures var got := UnpackedSubmission(PackedSubmission(s));
            && got.Some? && Packed(got.value.changes) == Packed(s.changes)
            && PackedSubmission(got.value) == PackedSubmission(s)
            && UnpackedSubmission(PackedSubmission(got.value)) == got
  {
    SubmissionRoundTrip(s);
    Repackaging(s.changes);
    SubmissionRoundTrip(s.(changes := Canonical(s.changes)));
  }

  // ---------------------------------------------------------------- what is on the wire

  /** The member that carries `f`. */
  predicate Carries(e: TarEntry<Bytes>, f: UntrackedFile) {
    && e.name == "f/" + f.path && e.mode < 512 && (f.mode - e.mode) % 512 == 0
    && (if f.symlink then e.kind.Symlink? && e.linkname == f.link && e.data == []
        else e.kind.Regular? && e.linkname == "" && e.data == f.content)
  }

  lemma {:induction false} FileEntriesAt(files: seq<UntrackedFile>)
    ensures |FileEntries(files)| == |files|
    ensures forall i :: 0 <= i < |files| ==> Carries(FileEntries(files)[i], files[i])
  {
    if files != [] { FileEntriesAt(files[..|files|-1]); }
  }

  /** Sorting puts distinct paths in strict order of bytes. */
  lemma PathsAscend(files: seq<UntrackedFile>, i: nat, j: nat)
    requires DistinctBy(PathOf, files) && i < j < |Sort(PathLess, files)|
    ensures Precedes(Sort(PathLess, files)[i].path, Sort(PathLess, files)[j].path)
  {
    hide Sort, Precedes, NameLess;
    SortIncreases(files);
    var sorted := Sort(PathLess, files);
    assert PathLess(sorted[i], sorted[j]);
    NameLessExactly(sorted[i].path, sorted[j].path);
  }

  /** The archive holds the patch first, if there is one, and then each file once, by path when paths are distinct. */
  lemma ArchiveShape(lc: LocalChanges) returns (files: seq<UntrackedFile>)
    ensures multiset(files) == multiset(lc.untracked)
    ensures var a, n := Packed(lc), if lc.patch == [] then 0 else 1;
            && |a| == n + |files|
            && (n == 1 ==> a[0] == TarEntry("patch", 420, Regular, "", lc.patch))
            && (forall i :: 0 <= i < |files| ==> Carries(a[n + i], files[i]))
    ensures DistinctBy(PathOf, lc.untracked) ==>
              forall i, j :: 0 <= i < j < |files| ==> Precedes(files[i].path, files[j].path)
  {
    files := Sort(PathLess, lc.untracked);
    hide Sort, Precedes, Carries, FileEntries, DistinctBy;
    FileEntriesAt(files);
    SortPermutes(PathLess, lc.untracked);
    if DistinctBy(PathOf, lc.untracked) {
      forall i, j | 0 <= i < j < |files| ensures Precedes(files[i].path, files[j].path) {
        PathsAscend(lc.untracked, i, j);
      }
    }
  }

  /** A submission on the wire: identity, bundle unless it is empty, changes. */
  lemma SubmissionShape(s: Submission)
    ensures var meta := TarEntry("meta.json", 420, Regular, "", Json(s.meta));
            var bundle := TarEntry("bundle", 420, Regular, "", s.bundle);
            var changes := TarEntry("lc.tar", 420, Regular, "", Tar(Packed(s.changes)));
            PackedSubmission(s) == if s.bundle == Raw([]) then [meta, changes] else [meta, bundle, changes]
  {
  }
}
