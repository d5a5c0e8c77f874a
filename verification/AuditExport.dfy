/** The rotating JSONL mirror of the operation audit log. */
module AuditExport {
  import opened Text

  /** File 0 is the current file; file k is its k-th backup. A file is its lines, oldest first. */
  type Files = map<nat, seq<string>>

  /** Bytes of one character in UTF-8. */
  function CharBytes(c: char): (n: nat)
    ensures 1 <= n <= 4
  {
    if c < '\U{0080}' then 1 else if c < '\U{0800}' then 2 else if c < '\U{10000}' then 3 else 4
  }

  function LineBytes(line: string): nat {
    if line == "" then 0 else CharBytes(line[0]) + LineBytes(line[1..])
  }

  function FileBytes(file: seq<string>): nat {
    if file == [] then 0 else FileBytes(file[..|file| - 1]) + LineBytes(file[|file| - 1])
  }

  function Get(files: Files, k: nat): Option<seq<string>> {
    if k in files then Some(files[k]) else None
  }

  function Content(files: Files, k: nat): seq<string> {
    if k in files then files[k] else []
  }

  /** Files 0..k read from the oldest to the current one. */
  function ReadFrom(files: Files, k: nat): seq<string> {
    Content(files, k) + if k == 0 then [] else ReadFrom(files, k - 1)
  }

  // ---------- one write ----------

  /** What file k holds once every file above `moved` has gone one place up and file maxFiles is gone. */
  function Shifted(files: Files, maxFiles: nat, moved: int, k: nat): Option<seq<string>>
    requires -1 <= moved
  {
    if k > maxFiles || k <= moved then Get(files, k)
    else if k == moved + 1 then None
    else Get(files, k - 1)
  }

  /** Backups move one place up, the oldest disappears, and there is no current file. */
  function Rotated(files: Files, maxFiles: nat): (r: Files)
    ensures forall k: nat :: Get(r, k) == Shifted(files, maxFiles, -1, k)
  {
    var above := set j | j in files.Keys :: j + 1;
    assert forall j :: j in files.Keys ==> j + 1 in above;
    assert forall j: nat :: Get(files, j).Some? ==> j in files.Keys && j + 1 in above;
    var places := files.Keys + above;
    map k | k in places && Shifted(files, maxFiles, -1, k).Some? :: Shifted(files, maxFiles, -1, k).value
  }

  lemma SameFiles(a: Files, b: Files)
    requires forall k: nat :: Get(a, k) == Get(b, k)
    ensures a == b
  {
    forall k: nat
      ensures k in a <==> k in b
      ensures k in a ==> a[k] == b[k]
    {
      assert Get(a, k) == Get(b, k);
    }
  }

  function Renamed(files: Files, from: nat, to: nat): Files {
    if from in files then (files - {from})[to := files[from]] else files
  }

  ghost predicate HasShifted(files: Files, before: Files, maxFiles: nat, moved: int)
    requires -1 <= moved
  {
    forall k: nat :: Get(files, k) == Shifted(before, maxFiles, moved, k)
  }

  /** One rename moves one more file up. */
  lemma RenameShifts(before: Files, files: Files, maxFiles: nat, index: nat)
    requires index < maxFiles
    requires HasShifted(files, before, maxFiles, index)
    ensures HasShifted(Renamed(files, index, index + 1), before, maxFiles, index - 1)
  {
    var renamed, moved := Renamed(files, index, index + 1), index - 1;
    assert Get(files, index) == Shifted(before, maxFiles, index, index);
    forall k: nat
      ensures Get(renamed, k) == Shifted(before, maxFiles, moved, k)
    {
      assert Get(files, k) == Shifted(before, maxFiles, index, k);
    }
  }

  predicate MustRotate(files: Files, maxBytes: Option<nat>, lineBytes: nat) {
    && maxBytes.Some?
    && 0 in files
    && FileBytes(files[0]) > 0
    && FileBytes(files[0]) + lineBytes > maxBytes.value
  }

  function Written(files: Files, maxBytes: Option<nat>, maxFiles: nat, line: string): Files {
    var kept := if MustRotate(files, maxBytes, LineBytes(line)) then Rotated(files, maxFiles) else files;
    kept[0 := Content(kept, 0) + [line]]
  }

  class JsonlSink {
    const maxBytes: Option<nat>
    const maxFiles: nat
    var files: Files

    /** The constructor's normalisation gives at least one backup. */
    constructor (maxBytes: Option<nat>, maxFiles: nat, files: Files)
      requires 1 <= maxFiles <= 100
      ensures this.maxBytes == maxBytes && this.maxFiles == maxFiles && this.files == files
    {
      this.maxBytes, this.maxFiles, this.files := maxBytes, maxFiles, files;
    }

    /** renameSync: the destination, if any, is replaced. */
    method Rename(from: nat, to: nat)
      requires from in files && from != to
      modifies this
      ensures files == Renamed(old(files), from, to)
    {
      files := (files - {from})[to := files[from]];
    }

    /** The loop of renames, from the oldest backup down, moves every file one place up. */
    method Rotate()
      requires 1 <= maxFiles
      modifies this
      ensures files == Rotated(old(files), maxFiles)
    {
      ghost var before := files;
      files := files - {maxFiles};
      var index := maxFiles - 1;
      while index >= 1
        invariant 0 <= index < maxFiles
        invariant HasShifted(files, before, maxFiles, index)
      {
        RenameShifts(before, files, maxFiles, index);
        if index in files {
          Rename(index, index + 1);
        }
        index := index - 1;
      }
      RenameShifts(before, files, maxFiles, 0);
      if 0 in files {
        Rename(0, 1);
      }
      SameFiles(files, Rotated(before, maxFiles));
    }

    method Write(line: string)
      requires 1 <= maxFiles
      modifies this
      ensures files == Written(old(files), maxBytes, maxFiles, line)
    {
      if MustRotate(files, maxBytes, LineBytes(line)) {
        Rotate();
      }
      files := files[0 := (if 0 in files then files[0] else []) + [line]];
    }
  }

  // ---------- nothing is lost but the oldest file ----------

  lemma {:induction false} RotatedReadsOn(files: Files, maxFiles: nat, k: nat)
    requires 1 <= k <= maxFiles
    ensures ReadFrom(Rotated(files, maxFiles), k) == ReadFrom(files, k - 1)
    decreases k
  {
    var r := Rotated(files, maxFiles);
    assert Get(r, k) == Shifted(files, maxFiles, -1, k);
    assert Content(r, k) == Content(files, k - 1);
    if k > 1 {
      RotatedReadsOn(files, maxFiles, k - 1);
    } else {
      assert Get(r, 0) == Shifted(files, maxFiles, -1, 0);
      assert ReadFrom(r, 0) == [];
    }
  }

  lemma {:induction false} AppendedReads(files: Files, line: string, k: nat)
    ensures ReadFrom(files[0 := Content(files, 0) + [line]], k) == ReadFrom(files, k) + [line]
    decreases k
  {
    if k > 0 {
      AppendedReads(files, line, k - 1);
      ConcatAssoc(Content(files, k), ReadFrom(files, k - 1), [line]);
    } else {
      var f := files[0 := Content(files, 0) + [line]];
      assert ReadFrom(f, 0) == Content(f, 0) + [];
      assert ReadFrom(files, 0) == Content(files, 0) + [];
    }
  }

  /**
   * A write adds its line at the end; it drops nothing, or, when it rotates, exactly the oldest file.
   * This holds for any files on disk, whatever their sizes and even with gaps in the numbering.
   */
  lemma {:induction false} WriteAppendsAndDropsTheOldest(
      files: Files, maxBytes: Option<nat>, maxFiles: nat, line: string)
    requires 1 <= maxFiles
    ensures var rotates := MustRotate(files, maxBytes, LineBytes(line));
      (if rotates then Content(files, maxFiles) else []) + ReadFrom(Written(files, maxBytes, maxFiles, line), maxFiles)
      == ReadFrom(files, maxFiles) + [line]
  {
    if MustRotate(files, maxBytes, LineBytes(line)) {
      RotatedReadsOn(files, maxFiles, maxFiles);
      AppendedReads(Rotated(files, maxFiles), line, maxFiles);
      ConcatAssoc(Content(files, maxFiles), ReadFrom(files, maxFiles - 1), [line]);
    } else {
      AppendedReads(files, line, maxFiles);
      NothingDropped(ReadFrom(files, maxFiles) + [line]);
    }
  }

  lemma NothingDropped<T>(s: seq<T>)
    ensures [] + s == s
  {
  }

  function WriteAll(files: Files, maxBytes: Option<nat>, maxFiles: nat, lines: seq<string>): Files {
    if lines == [] then files
    else Written(WriteAll(files, maxBytes, maxFiles, lines[..|lines| - 1]), maxBytes, maxFiles, lines[|lines| - 1])
  }

  predicate IsSuffix<T(==)>(a: seq<T>, whole: seq<T>) {
    |a| <= |whole| && whole[|whole| - |a|..] == a
  }

  /** At every point the files, read from the oldest backup to the current one, end the whole history. */
  lemma {:induction false} FilesHoldASuffix(files: Files, maxBytes: Option<nat>, maxFiles: nat, lines: seq<string>)
    requires 1 <= maxFiles
    ensures IsSuffix(ReadFrom(WriteAll(files, maxBytes, maxFiles, lines), maxFiles), ReadFrom(files, maxFiles) + lines)
    decreases |lines|
  {
    var initial := ReadFrom(files, maxFiles);
    if lines == [] {
      assert initial + lines == initial;
    } else {
      var front, last := lines[..|lines| - 1], lines[|lines| - 1];
      FilesHoldASuffix(files, maxBytes, maxFiles, front);
      SuffixStep(WriteAll(files, maxBytes, maxFiles, front), maxBytes, maxFiles, initial + front, last);
      assert initial + front + [last] == initial + lines;
    }
  }

  lemma SuffixStep(files: Files, maxBytes: Option<nat>, maxFiles: nat, history: seq<string>, line: string)
    requires 1 <= maxFiles && IsSuffix(ReadFrom(files, maxFiles), history)
    ensures IsSuffix(ReadFrom(Written(files, maxBytes, maxFiles, line), maxFiles), history + [line])
  {
    WriteAppendsAndDropsTheOldest(files, maxBytes, maxFiles, line);
    SuffixExtends(ReadFrom(files, maxFiles), history, line);
    var rotates := MustRotate(files, maxBytes, LineBytes(line));
    SuffixOfSuffix(if rotates then Content(files, maxFiles) else [],
                   ReadFrom(Written(files, maxBytes, maxFiles, line), maxFiles), history + [line]);
  }

  lemma SuffixExtends<T>(a: seq<T>, whole: seq<T>, x: T)
    requires IsSuffix(a, whole)
    ensures IsSuffix(a + [x], whole + [x])
  {
    assert (whole + [x])[|whole| - |a|..] == whole[|whole| - |a|..] + [x];
  }

  lemma SuffixOfSuffix<T>(dropped: seq<T>, a: seq<T>, whole: seq<T>)
    requires IsSuffix(dropped + a, whole)
    ensures IsSuffix(a, whole)
  {
    assert whole[|whole| - |a|..] == (dropped + a)[|dropped|..];
  }

  // ---------- sizes ----------

  /**
   * What holds of each file the sink has written from scratch: numbering has no gaps and stops at
   * maxFiles; a file is within the byte bound or holds a single line; two neighbours exceed the bound.
   */
  predicate FileOk(files: Files, maxBytes: nat, maxFiles: nat, k: nat) {
    k in files ==>
      && k <= maxFiles
      && FileBytes(files[k]) > 0
      && (FileBytes(files[k]) <= maxBytes || |files[k]| == 1)
      && (k > 0 ==> k - 1 in files && FileBytes(files[k]) + FileBytes(files[k - 1]) > maxBytes)
  }

  ghost predicate Bounded(files: Files, maxBytes: nat, maxFiles: nat) {
    forall k: nat :: FileOk(files, maxBytes, maxFiles, k)
  }

  lemma AppendedBytes(file: seq<string>, line: string)
    ensures FileBytes(file + [line]) == FileBytes(file) + LineBytes(line)
  {
    assert (file + [line])[..|file|] == file;
  }

  lemma {:induction false} WriteKeepsBounds(files: Files, maxBytes: nat, maxFiles: nat, line: string)
    requires 1 <= maxFiles && line != "" && Bounded(files, maxBytes, maxFiles)
    ensures Bounded(Written(files, Some(maxBytes), maxFiles, line), maxBytes, maxFiles)
  {
    AppendedBytes([], line);
    assert [] + [line] == [line];
    var w := Written(files, Some(maxBytes), maxFiles, line);
    var rotates := MustRotate(files, Some(maxBytes), LineBytes(line));
    assert FileOk(files, maxBytes, maxFiles, 0);
    forall k: nat
      ensures FileOk(w, maxBytes, maxFiles, k)
    {
      if rotates {
        assert forall j: nat :: Get(Rotated(files, maxFiles), j) == Shifted(files, maxFiles, -1, j);
        RotatedFileOk(files, maxBytes, maxFiles, line, k);
      } else {
        AppendedBytes(Content(files, 0), line);
        assert FileOk(files, maxBytes, maxFiles, k);
      }
    }
  }

  lemma RotatedFileOk(files: Files, maxBytes: nat, maxFiles: nat, line: string, k: nat)
    requires 1 <= maxFiles && Bounded(files, maxBytes, maxFiles) && FileBytes([line]) == LineBytes(line) > 0
    requires 0 in files && FileBytes(files[0]) + LineBytes(line) > maxBytes
    ensures FileOk(Rotated(files, maxFiles)[0 := [line]], maxBytes, maxFiles, k)
  {
    var r := Rotated(files, maxFiles);
    assert FileOk(files, maxBytes, maxFiles, k);
    if k > 0 {
      assert FileOk(files, maxBytes, maxFiles, k - 1);
      assert Get(r, k) == Shifted(files, maxFiles, -1, k);
      assert Get(r, k - 1) == Shifted(files, maxFiles, -1, k - 1);
    }
  }

  /** Starting with no files, the bounds hold after any number of writes of non-empty lines. */
  lemma {:induction false} FilesStayBounded(maxBytes: nat, maxFiles: nat, lines: seq<string>)
    requires 1 <= maxFiles && forall i :: 0 <= i < |lines| ==> lines[i] != ""
    ensures Bounded(WriteAll(map[], Some(maxBytes), maxFiles, lines), maxBytes, maxFiles)
    decreases |lines|
  {
    if lines != [] {
      FilesStayBounded(maxBytes, maxFiles, lines[..|lines| - 1]);
      WriteKeepsBounds(WriteAll(map[], Some(maxBytes), maxFiles, lines[..|lines| - 1]),
                       maxBytes, maxFiles, lines[|lines| - 1]);
    }
  }

  // ---------- what one write does, in bytes ----------

  /** The UTF-8 bytes of a character (section 3 of RFC 3629). */
  function Utf8(c: char): (bytes: seq<int>)
    ensures forall i :: 0 <= i < |bytes| ==> 0 <= bytes[i] < 256
  {
    var n := c as int;
    var m := n / 0x40;
    var l := m / 0x40;
    if n < 0x80 then [n]
    else if n < 0x800 then [0xC0 + m, 0x80 + n % 0x40]
    else if n < 0x10000 then [0xE0 + l, 0x80 + m % 0x40, 0x80 + n % 0x40]
    else [0xF0 + l / 0x40, 0x80 + l % 0x40, 0x80 + m % 0x40, 0x80 + n % 0x40]
  }

  function Utf8Text(s: string): seq<int> {
    if s == "" then [] else Utf8(s[0]) + Utf8Text(s[1..])
  }

  /** The bytes of a file: its lines, one after the other. */
  function Utf8File(file: seq<string>): seq<int> {
    if file == [] then [] else Utf8File(file[..|file| - 1]) + Utf8Text(file[|file| - 1])
  }

  /** The number behind a first byte's bits, six bits to each of the others. */
  function Bits(first: int, rest: seq<int>): int {
    if rest == [] then first else Bits(first, rest[..|rest| - 1]) * 0x40 + (rest[|rest| - 1] - 0x80)
  }

  /** The first byte says how many there are, and the bytes give the character back. */
  lemma {:induction false} Utf8IsReadBack(c: char)
    ensures var b, n := Utf8(c), c as int;
      && 1 <= |b| <= 4
      && (|b| == 1 <==> b[0] < 0x80) && (|b| == 2 <==> 0xC0 <= b[0] < 0xE0)
      && (|b| == 3 <==> 0xE0 <= b[0] < 0xF0) && (|b| == 4 <==> 0xF0 <= b[0] < 0xF8)
      && n == Bits(b[0] - (if |b| == 1 then 0 else if |b| == 2 then 0xC0 else if |b| == 3 then 0xE0 else 0xF0), b[1..])
  {
    var b, n := Utf8(c), c as int;
    var m := n / 0x40;
    var l := m / 0x40;
    assert n == m * 0x40 + n % 0x40 && m == l * 0x40 + m % 0x40;
    if |b| == 2 {
      BitsOf(m, [b[1]]);
    } else if |b| == 3 {
      BitsOf(l, [b[1], b[2]]);
    } else if |b| == 4 {
      BitsOf(l / 0x40, [b[1], b[2], b[3]]);
      assert b[1..] == [b[1], b[2], b[3]];
    }
  }

  lemma BitsOf(first: int, rest: seq<int>)
    ensures |rest| == 1 ==> Bits(first, rest) == first * 0x40 + (rest[0] - 0x80)
    ensures |rest| == 2 ==> Bits(first, rest) == (first * 0x40 + (rest[0] - 0x80)) * 0x40 + (rest[1] - 0x80)
    ensures |rest| == 3 ==>
      Bits(first, rest) == ((first * 0x40 + (rest[0] - 0x80)) * 0x40 + (rest[1] - 0x80)) * 0x40 + (rest[2] - 0x80)
  {
  }

  lemma {:induction false} LineBytesAreUtf8(line: string)
    ensures LineBytes(line) == |Utf8Text(line)|
    decreases |line|
  {
    if line != "" {
      LineBytesAreUtf8(line[1..]);
    }
  }

  lemma {:induction false} FileBytesAreUtf8(file: seq<string>)
    ensures FileBytes(file) == |Utf8File(file)|
    decreases |file|
  {
    if file != [] {
      FileBytesAreUtf8(file[..|file| - 1]);
      LineBytesAreUtf8(file[|file| - 1]);
    }
  }

  /**
   * A write starts a new file exactly when there is a bound and the current file is not empty and would exceed it
   * with the line. Then every file up to the last but one moves one place up, the last one goes, and the line is
   * alone in the current file; otherwise the line is behind the others there, and no other file changes.
   */
  lemma {:induction false} WritingAnswers(files: Files, maxBytes: Option<nat>, maxFiles: nat, line: string, k: nat)
    requires 1 <= maxFiles
    ensures var w := Written(files, maxBytes, maxFiles, line);
      var size := |Utf8File(Content(files, 0))|;
      if maxBytes.Some? && size > 0 && size + |Utf8Text(line)| > maxBytes.value then
        && Get(w, 0) == Some([line])
        && (0 < k <= maxFiles ==> Get(w, k) == Get(files, k - 1))
        && (k > maxFiles ==> Get(w, k) == Get(files, k))
      else
        && Get(w, 0) == Some(Content(files, 0) + [line])
        && (k > 0 ==> Get(w, k) == Get(files, k))
  {
    hide Utf8File, Utf8Text, LineBytes;
    FileBytesAreUtf8(Content(files, 0));
    LineBytesAreUtf8(line);
    var r := Rotated(files, maxFiles);
    assert Get(r, 0) == Shifted(files, maxFiles, -1, 0);
    assert Get(r, k) == Shifted(files, maxFiles, -1, k);
    assert [] + [line] == [line];
  }
}
