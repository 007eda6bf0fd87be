/** File helpers of the ingestion pipeline: SHA-256 digests of local files and uploads, the list of
    existing scopes under the bronze directory, and the split of an upload batch into files already
    ingested and new ones. */
module FileUtils {
  import opened Wrappers
  import opened LedgerStore
  import opened Seqs

  newtype byte = x: int | 0 <= x < 256

  /** `hashlib.sha256(bytes).hexdigest()`. */
  type Hasher = seq<byte> -> string

  /** A file on disk; `content` is `None` when it cannot be opened for reading (for instance a
      sub-directory). */
  datatype LocalFile = LocalFile(name: string, content: Option<seq<byte>>)

  /** An uploaded file object: its name, its bytes, and the stream position reads start from. */
  class UploadedFile {
    const name: string
    const data: seq<byte>
    var pos: nat

    constructor (name: string, data: seq<byte>)
      ensures this.name == name && this.data == data && pos == 0
    {
      this.name := name;
      this.data := data;
      pos := 0;
    }

    /** What `read()` returns from the current position. */
    function Remaining(): seq<byte>
      reads this
    {
      if pos <= |data| then data[pos..] else []
    }
  }

  /** `get_file_hash` on a stream: read the rest of it, rewind to the start, hash what was read. */
  method GetUploadHash(f: UploadedFile, sha: Hasher) returns (digest: string)
    modifies f
    ensures digest == sha(old(f.Remaining()))
    ensures f.pos == 0 && f.Remaining() == f.data
  {
    var fileBytes := f.Remaining();
    f.pos := 0;
    digest := sha(fileBytes);
  }

  /** `get_file_hash` on a path: hash the file's bytes; opening a non-readable entry raises. */
  function GetFileHash(f: LocalFile, sha: Hasher): (r: Result<string>)
    ensures r.Ok? <==> f.content.Some?
    ensures r.Ok? ==> r.value == sha(f.content.value)
  {
    match f.content
    case None => Err("cannot open " + f.name)
    case Some(bytes) => Ok(sha(bytes))
  }

  /** Two files with the same bytes have the same digest, whatever their names. */
  lemma {:induction false} SameBytesSameHash(f: LocalFile, g: LocalFile, sha: Hasher)
    requires f.content.Some? && f.content == g.content
    ensures GetFileHash(f, sha) == GetFileHash(g, sha)
  {
  }

  // ---------------------------------------------------------------------------------------------
  // Python's ordering of `str` values: lexicographic by code point, a proper prefix first.

  predicate Below(a: string, b: string)
    decreases |a|
  {
    a == [] || (b != [] && (a[0] < b[0] || (a[0] == b[0] && Below(a[1..], b[1..]))))
  }

  lemma {:induction false} BelowTotal(a: string, b: string)
    ensures Below(a, b) || Below(b, a)
    decreases |a|
  {
    if a != [] && b != [] && a[0] == b[0] {
      BelowTotal(a[1..], b[1..]);
    }
  }

  lemma {:induction false} BelowRefl(a: string)
    ensures Below(a, a)
    decreases |a|
  {
    if a != [] {
      BelowRefl(a[1..]);
    }
  }

  lemma {:induction false} BelowTrans(a: string, b: string, c: string)
    requires Below(a, b) && Below(b, c)
    ensures Below(a, c)
    decreases |a|
  {
    if a != [] && a[0] == b[0] && b[0] == c[0] {
      BelowTrans(a[1..], b[1..], c[1..]);
    }
  }

  lemma {:induction false} BelowAntisym(a: string, b: string)
    requires Below(a, b) && Below(b, a)
    ensures a == b
    decreases |a|
  {
    if a != [] {
      BelowAntisym(a[1..], b[1..]);
      assert a == [a[0]] + a[1..] && b == [b[0]] + b[1..];
    }
  }

  predicate SortedStrings(s: seq<string>) {
    forall i, j :: 0 <= i < j < |s| ==> Below(s[i], s[j])
  }

  /** Insert a string into a sorted list after the elements not above it. */
  function Insert(x: string, s: seq<string>): (r: seq<string>)
    requires SortedStrings(s)
    ensures SortedStrings(r)
    ensures multiset(r) == multiset(s) + multiset{x}
  {
    if s == [] then [x]
    else if Below(x, s[0]) && x != s[0] then
      InsertFrontSorted(x, s);
      [x] + s
    else
      var rest := Insert(x, s[1..]);
      BelowTotal(x, s[0]);
      assert s == [s[0]] + s[1..];
      InsertBehindSorted(s[0], rest, x, s[1..]);
      [s[0]] + rest
  }

  lemma {:induction false} InsertFrontSorted(x: string, s: seq<string>)
    requires SortedStrings(s) && s != [] && Below(x, s[0])
    ensures SortedStrings([x] + s)
  {
    forall j | 0 < j < |s| + 1
      ensures Below(x, ([x] + s)[j])
    {
      if j > 1 {
        assert Below(s[0], s[j - 1]);
        BelowTrans(x, s[0], s[j - 1]);
      }
    }
  }

  lemma {:induction false} InsertBehindSorted(h: string, rest: seq<string>, x: string, tail: seq<string>)
    requires SortedStrings(rest) && SortedStrings([h] + tail) && Below(h, x)
    requires multiset(rest) == multiset(tail) + multiset{x}
    ensures SortedStrings([h] + rest)
  {
    forall j | 0 <= j < |rest|
      ensures Below(h, rest[j])
    {
      assert rest[j] in multiset(rest);
      if rest[j] != x {
        assert rest[j] in multiset(tail);
        var k :| 0 <= k < |tail| && tail[k] == rest[j];
        assert ([h] + tail)[k + 1] == tail[k];
        assert Below(([h] + tail)[0], ([h] + tail)[k + 1]);
      }
    }
  }

  /** `sorted` on a list of strings. */
  function SortStrings(s: seq<string>): (r: seq<string>)
    ensures SortedStrings(r)
    ensures multiset(r) == multiset(s)
  {
    if s == [] then []
    else
      assert s == [s[0]] + s[1..];
      Insert(s[0], SortStrings(s[1..]))
  }

  /** Two non-empty sorted lists with the same elements start with the same element. */
  lemma {:induction false} SortedHeadsEqual(a: seq<string>, b: seq<string>)
    requires SortedStrings(a) && SortedStrings(b) && multiset(a) == multiset(b) && a != []
    ensures b != [] && a[0] == b[0]
  {
    assert a[0] in multiset(b);
    assert b[0] in multiset(a);
    var i :| 0 <= i < |b| && b[i] == a[0];
    var k :| 0 <= k < |a| && a[k] == b[0];
    assert Below(b[0], a[0]) by { if i > 0 { assert Below(b[0], b[i]); } else { BelowRefl(a[0]); } }
    assert Below(a[0], b[0]) by { if k > 0 { assert Below(a[0], a[k]); } else { BelowRefl(a[0]); } }
    BelowAntisym(a[0], b[0]);
  }

  lemma {:induction false} TailMultiset(a: seq<string>)
    requires a != []
    ensures multiset(a[1..]) == multiset(a) - multiset{a[0]}
  {
    assert a == [a[0]] + a[1..];
  }

  /** Two sorted lists with the same elements are equal. */
  lemma {:induction false} SortedUnique(a: seq<string>, b: seq<string>)
    requires SortedStrings(a) && SortedStrings(b) && multiset(a) == multiset(b)
    ensures a == b
  {
    if a != [] {
      SortedHeadsEqual(a, b);
      TailMultiset(a);
      TailMultiset(b);
      SortedUnique(a[1..], b[1..]);
      assert a == [a[0]] + a[1..] && b == [b[0]] + b[1..];
    }
  }

  /** An entry of the bronze directory, as `iterdir` lists it. */
  datatype DirEntry = DirEntry(name: string, isDir: bool)

  function DirNames(entries: seq<DirEntry>): seq<string> {
    if entries == [] then []
    else (if entries[0].isDir then [entries[0].name] else []) + DirNames(entries[1..])
  }

  /** `get_existing_scopes`: the names of the sub-directories, sorted. */
  function GetExistingScopes(entries: seq<DirEntry>): (r: seq<string>)
    ensures SortedStrings(r)
    ensures multiset(r) == multiset(DirNames(entries))
  {
    SortStrings(DirNames(entries))
  }

  /** The scope list does not depend on the order in which the directory is listed. */
  lemma {:induction false} ScopesIndependentOfListingOrder(e1: seq<DirEntry>, e2: seq<DirEntry>)
    requires multiset(DirNames(e1)) == multiset(DirNames(e2))
    ensures GetExistingScopes(e1) == GetExistingScopes(e2)
  {
    SortedUnique(GetExistingScopes(e1), GetExistingScopes(e2));
  }

  // ---------------------------------------------------------------------------------------------
  // check_ingested_status

  /** The elements of `xs` whose flag is `b`, in their original order. */
  function Selected<T>(xs: seq<T>, flags: seq<bool>, b: bool): seq<T>
    requires |xs| == |flags|
  {
    if xs == [] then []
    else (if flags[0] == b then [xs[0]] else []) + Selected(xs[1..], flags[1..], b)
  }

  /** Selection distributes over concatenation: the relative order of the input is kept. */
  lemma {:induction false} SelectedAppend<T>(xs: seq<T>, ys: seq<T>, f: seq<bool>, g: seq<bool>, b: bool)
    requires |xs| == |f| && |ys| == |g|
    ensures Selected(xs + ys, f + g, b) == Selected(xs, f, b) + Selected(ys, g, b)
  {
    if xs == [] {
      assert xs + ys == ys && f + g == g;
    } else {
      assert (xs + ys)[0] == xs[0] && (f + g)[0] == f[0];
      assert (xs + ys)[1..] == xs[1..] + ys;
      assert (f + g)[1..] == f[1..] + g;
      SelectedAppend(xs[1..], ys, f[1..], g, b);
    }
  }

  /** The two selections split the input: every element lands in exactly one of them. */
  lemma {:induction false} SelectedPartition<T>(xs: seq<T>, f: seq<bool>)
    requires |xs| == |f|
    ensures multiset(Selected(xs, f, true)) + multiset(Selected(xs, f, false)) == multiset(xs)
    ensures |Selected(xs, f, true)| + |Selected(xs, f, false)| == |xs|
  {
    if xs != [] {
      SelectedPartition(xs[1..], f[1..]);
      assert xs == [xs[0]] + xs[1..];
    }
  }

  /** With every flag false, nothing is selected as true and everything as false. */
  lemma {:induction false} SelectedNone<T>(xs: seq<T>, f: seq<bool>)
    requires |xs| == |f| && forall i :: 0 <= i < |f| ==> !f[i]
    ensures Selected(xs, f, true) == [] && Selected(xs, f, false) == xs
  {
    if xs != [] {
      SelectedNone(xs[1..], f[1..]);
    }
  }

  function Names(files: seq<UploadedFile>): (r: seq<string>)
    ensures |r| == |files| && forall j :: 0 <= j < |files| ==> r[j] == files[j].name
  {
    if files == [] then [] else [files[0].name] + Names(files[1..])
  }

  /** Per file: does the ledger hold this digest under the file's scoped key? */
  function SeenFlags(l: Ledger, scope: string, names: seq<string>, digests: seq<string>): (r: seq<bool>)
    requires |names| == |digests|
    ensures |r| == |names|
    ensures forall j :: 0 <= j < |names| ==> (r[j] <==> Recorded(l, Key(scope, names[j]), digests[j]))
  {
    if names == [] then []
    else [Recorded(l, Key(scope, names[0]), digests[0])] + SeenFlags(l, scope, names[1..], digests[1..])
  }

  lemma {:induction false} NamesSnoc(done: seq<UploadedFile>, file: UploadedFile)
    ensures Names(done + [file]) == Names(done) + [file.name]
  {
    var a, b := Names(done + [file]), Names(done) + [file.name];
    assert |a| == |b|;
    forall j | 0 <= j < |a| ensures a[j] == b[j] {
      if j < |done| {
        assert (done + [file])[j] == done[j];
      }
    }
  }

  lemma {:induction false} SeenFlagsSnoc(l: Ledger, scope: string, names: seq<string>, name: string, digests: seq<string>, digest: string)
    requires |names| == |digests|
    ensures SeenFlags(l, scope, names + [name], digests + [digest])
            == SeenFlags(l, scope, names, digests) + [Recorded(l, Key(scope, name), digest)]
  {
    var a := SeenFlags(l, scope, names + [name], digests + [digest]);
    var b := SeenFlags(l, scope, names, digests) + [Recorded(l, Key(scope, name), digest)];
    assert |a| == |b|;
    forall j | 0 <= j < |a| ensures a[j] == b[j] {
      if j < |names| {
        assert (names + [name])[j] == names[j] && (digests + [digest])[j] == digests[j];
      }
    }
  }

  /** The outcome of `check_ingested_status` on the uploads `done` with digests `digests`: the
      names of those whose digest is recorded, and the uploads whose digest is not. */
  predicate Partitioned(l: Ledger, scope: string, done: seq<UploadedFile>, digests: seq<string>,
                        already: seq<string>, unseen: seq<UploadedFile>)
  {
    && |done| == |digests|
    && already == Selected(Names(done), SeenFlags(l, scope, Names(done), digests), true)
    && unseen == Selected(done, SeenFlags(l, scope, Names(done), digests), false)
  }

  /** One more upload: its name joins the first list when its digest is recorded, the upload joins
      the second list otherwise. */
  lemma {:induction false} CheckStep(l: Ledger, scope: string, done: seq<UploadedFile>, digests: seq<string>,
                  already: seq<string>, unseen: seq<UploadedFile>, file: UploadedFile, digest: string)
    requires Partitioned(l, scope, done, digests, already, unseen)
    ensures var seen := Recorded(l, Key(scope, file.name), digest);
      Partitioned(l, scope, done + [file], digests + [digest],
                  if seen then already + [file.name] else already,
                  if seen then unseen else unseen + [file])
  {
    var flags := SeenFlags(l, scope, Names(done), digests);
    var seen := Recorded(l, Key(scope, file.name), digest);
    NamesSnoc(done, file);
    SeenFlagsSnoc(l, scope, Names(done), file.name, digests, digest);
    SelectedAppend(Names(done), [file.name], flags, [seen], true);
    SelectedAppend(done, [file], flags, [seen], false);
  }

  /** The bytes the `j`-th hash reads: the rest of the stream the first time an upload is met,
      all of it when the same upload was met (and rewound) earlier in the batch. */
  ghost function BytesRead(files: seq<UploadedFile>, j: int, before: seq<byte>): seq<byte>
    requires 0 <= j < |files|
  {
    if files[j] in files[..j] then files[j].data else before
  }

  /** One iteration of `check_ingested_status`: hash the upload (rewinding it) and add it to the
      list its digest selects. */
  method CheckOne(ingested: Ledger, scope: string, file: UploadedFile, sha: Hasher,
                  ghost done: seq<UploadedFile>, ghost digests: seq<string>,
                  already: seq<string>, unseen: seq<UploadedFile>)
    returns (already': seq<string>, unseen': seq<UploadedFile>, digest: string)
    modifies file
    requires Partitioned(ingested, scope, done, digests, already, unseen)
    ensures digest == sha(old(file.Remaining()))
    ensures file.pos == 0
    ensures Partitioned(ingested, scope, done + [file], digests + [digest], already', unseen')
  {
    digest := GetUploadHash(file, sha);
    CheckStep(ingested, scope, done, digests, already, unseen, file, digest);
    if Recorded(ingested, Key(scope, file.name), digest) {
      already', unseen' := already + [file.name], unseen;
    } else {
      already', unseen' := already, unseen + [file];
    }
  }

  /** `check_ingested_status`: read the ledger (raising when it cannot be decoded), then hash each
      upload and put its name in the first list when its digest is recorded under its scoped key,
      the upload itself in the second list otherwise. The ledger is only read. */
  method CheckIngestedStatus(scope: string, files: seq<UploadedFile>, hashFile: HashTrackFile, sha: Hasher)
    returns (r: Result<(seq<string>, seq<UploadedFile>)>, ghost digests: seq<string>)
    modifies files
    ensures r.Err? <==> hashFile.file.Unreadable?
    ensures r.Err? ==> forall f :: f in files ==> f.pos == old(f.pos)
    ensures r.Ok? ==>
      && |digests| == |files|
      && (forall j :: 0 <= j < |files| ==> digests[j] == sha(BytesRead(files, j, old(files[j].Remaining()))))
      && (forall f :: f in files ==> f.pos == 0)
      && Partitioned(Load(hashFile.file).value, scope, files, digests, r.value.0, r.value.1)
  {
    digests := [];
    var loaded := Load(hashFile.file);
    if loaded.Err? {
      return Err(loaded.error), digests;
    }
    var ingested := loaded.value;
    var alreadyIngested: seq<string> := [];
    var newFiles: seq<UploadedFile> := [];
    var i := 0;
    ghost var done: seq<UploadedFile> := [];
    while i < |files|
      invariant 0 <= i <= |files| && |digests| == i && done == files[..i]
      invariant forall f :: f in done ==> f.pos == 0
      invariant forall f :: f in files && f !in done ==> f.pos == old(f.pos)
      invariant forall j :: 0 <= j < i ==> digests[j] == sha(BytesRead(files, j, old(files[j].Remaining())))
      invariant Partitioned(ingested, scope, done, digests, alreadyIngested, newFiles)
    {
      var file := files[i];
      ghost var read := BytesRead(files, i, old(files[i].Remaining()));
      assert file.Remaining() == read;
      var fileHash;
      alreadyIngested, newFiles, fileHash := CheckOne(ingested, scope, file, sha, done, digests, alreadyIngested, newFiles);
      assert fileHash == sha(BytesRead(files, i, old(files[i].Remaining())));
      digests := digests + [fileHash];
      PrefixStep(files, i);
      done := done + [file];
      i := i + 1;
    }
    assert done == files;
    r := Ok((alreadyIngested, newFiles));
  }

  /** Without a ledger file every upload is new. */
  lemma {:induction false} NoLedgerAllNew(scope: string, files: seq<UploadedFile>, digests: seq<string>)
    requires |digests| == |files|
    ensures var flags := SeenFlags(Load(Absent).value, scope, Names(files), digests);
      Selected(Names(files), flags, true) == [] && Selected(files, flags, false) == files
  {
    SelectedNone(Names(files), SeenFlags(map[], scope, Names(files), digests));
    SelectedNone(files, SeenFlags(map[], scope, Names(files), digests));
  }
}
