/** The medallion layout under `data/` (bronze raw files, silver chunk archives, gold vector
    indexes, the ingested-hashes ledger) and the chunking defaults.
    Paths are `pathlib` values: a root flag and the list of parts, where parsing drops empty
    parts and `.` parts and a leading `/` makes the path absolute. */
module Config {
  import opened PyText

  datatype Path = Path(absolute: bool, parts: seq<string>)

  /** Length of the leading part of `s` up to (not including) the first `/`. */
  function PartLength(s: string): (n: nat)
    ensures n <= |s|
    ensures forall i :: 0 <= i < n ==> s[i] != '/'
    ensures n == |s| || s[n] == '/'
  {
    if s == [] || s[0] == '/' then 0 else 1 + PartLength(s[1..])
  }

  /** The parts `pathlib` keeps of a string: split at `/`, without empty and `.` parts. */
  function Parts(s: string): (ps: seq<string>)
    ensures forall k :: 0 <= k < |ps| ==> ps[k] != "" && ps[k] != "." && '/' !in ps[k]
    decreases |s|
  {
    if s == [] then []
    else if s[0] == '/' then Parts(s[1..])
    else
      var n := PartLength(s);
      (if s[..n] == "." then [] else [s[..n]]) + Parts(s[n..])
  }

  /** `PurePosixPath(s)`. */
  function ParsePath(s: string): Path {
    Path(s != [] && s[0] == '/', Parts(s))
  }

  /** `p / s`: an absolute `s` replaces `p`. */
  function Join(p: Path, s: string): Path {
    if s != [] && s[0] == '/' then ParsePath(s) else Path(p.absolute, p.parts + Parts(s))
  }

  const BaseDir: Path := Path(false, ["data"])
  const BronzeDir: Path := Join(BaseDir, "bronze")
  const SilverDir: Path := Join(BaseDir, "silver")
  const GoldDir: Path := Join(BaseDir, "gold")
  const HashTrackFile: Path := Join(BaseDir, "ingested_hashes.json")

  /** Default `CHUNK_SIZE` and `CHUNK_OVERLAP` (characters). */
  const ChunkSize: nat := 1000
  const ChunkOverlap: nat := 200

  datatype ScopePaths = ScopePaths(bronze: Path, silver: Path, gold: Path)

  /** `get_scope_paths`. */
  function GetScopePaths(scope: string): ScopePaths {
    ScopePaths(Join(BronzeDir, scope), Join(SilverDir, scope + SilverSuffix), Join(GoldDir, scope))
  }

  /** A scope name that `pathlib` keeps as a single part. */
  predicate PlainName(s: string) {
    s != "" && s != "." && '/' !in s
  }

  /** `p` is `q` or lies inside `q`. */
  predicate Within(p: Path, q: Path) {
    p.absolute == q.absolute && |q.parts| <= |p.parts| && p.parts[..|q.parts|] == q.parts
  }

  lemma {:induction false} PartLengthOfPlain(w: string, x: string)
    requires '/' !in w
    ensures PartLength(w + x) >= |w|
    ensures x != [] && x[0] == '/' ==> PartLength(w + x) == |w|
  {
    if w != [] {
      assert (w + x)[1..] == w[1..] + x;
      PartLengthOfPlain(w[1..], x);
    }
  }

  /** A plain name followed by `/` and more text contributes exactly one part. */
  lemma {:induction false} PartsOfPlainPrefix(w: string, x: string)
    requires PlainName(w)
    ensures Parts(w + "/" + x) == [w] + Parts(x)
  {
    var s := w + "/" + x;
    PartLengthOfPlain(w, "/" + x);
    assert s == w + ("/" + x);
    var n := PartLength(s);
    assert s[..n] == w;
    assert s[n..] == "/" + x;
    assert s[n..][1..] == x;
  }

  /** A plain name on its own is a single part. */
  lemma {:induction false} PartsOfPlain(w: string)
    requires PlainName(w)
    ensures Parts(w) == [w]
  {
    PartLengthOfPlain(w, "");
    assert w + "" == w;
    assert w[..PartLength(w)] == w;
  }

  /** The fixed directories, part by part. */
  lemma {:induction false} FixedDirs()
    ensures BronzeDir == Path(false, ["data", "bronze"])
    ensures SilverDir == Path(false, ["data", "silver"])
    ensures GoldDir == Path(false, ["data", "gold"])
    ensures HashTrackFile == Path(false, ["data", "ingested_hashes.json"])
  {
    BronzeDirParts();
    SilverDirParts();
    GoldDirParts();
    HashTrackFileParts();
  }

  lemma {:induction false} BronzeDirParts() ensures BronzeDir == Path(false, ["data", "bronze"]) { PartsOfPlain("bronze"); }
  lemma {:induction false} SilverDirParts() ensures SilverDir == Path(false, ["data", "silver"]) { PartsOfPlain("silver"); }
  lemma {:induction false} GoldDirParts() ensures GoldDir == Path(false, ["data", "gold"]) { PartsOfPlain("gold"); }
  lemma {:induction false} HashTrackFileParts() ensures HashTrackFile == Path(false, ["data", "ingested_hashes.json"])
  {
    LedgerNameParts();
    assert HashTrackFile == Join(BaseDir, "ingested_hashes.json");
  }

  lemma {:induction false} LedgerNameParts() ensures Parts("ingested_hashes.json") == ["ingested_hashes.json"]
  {
    PartsOfPlain("ingested_hashes.json");
  }

  lemma {:induction false} NoSlashInConcat(a: string, b: string)
    requires '/' !in a && '/' !in b
    ensures '/' !in a + b
  {
    assert forall i :: 0 <= i < |a + b| ==> (a + b)[i] == if i < |a| then a[i] else b[i - |a|];
  }

  /** The bronze path of a plain scope name, part by part. */
  lemma {:induction false} BronzePath(a: string)
    requires PlainName(a)
    ensures GetScopePaths(a).bronze == Path(false, ["data", "bronze", a])
  {
    BronzeDirParts();
    PartsOfPlain(a);
  }

  /** The gold path of a plain scope name, part by part. */
  lemma {:induction false} GoldPath(a: string)
    requires PlainName(a)
    ensures GetScopePaths(a).gold == Path(false, ["data", "gold", a])
  {
    GoldDirParts();
    PartsOfPlain(a);
  }

  /** The bronze and gold paths are injective on plain scope names. */
  lemma {:induction false} BronzeGoldInjective(a: string, b: string)
    requires PlainName(a) && PlainName(b)
    ensures GetScopePaths(a).bronze == GetScopePaths(b).bronze ==> a == b
    ensures GetScopePaths(a).gold == GetScopePaths(b).gold ==> a == b
  {
    BronzePath(a);
    BronzePath(b);
    GoldPath(a);
    GoldPath(b);
    assert Path(false, ["data", "bronze", a]).parts[2] == a;
    assert Path(false, ["data", "gold", a]).parts[2] == a;
  }

  const SilverSuffix: string := "_chunks.json"

  /** The silver archive name of a scope without `/` is a single part. */
  lemma {:induction false} SilverNamePlain(a: string)
    requires '/' !in a
    ensures PlainName(a + SilverSuffix)
    ensures Parts(a + SilverSuffix) == [a + SilverSuffix]
  {
    var suf := SilverSuffix;
    assert '/' !in suf && |suf| == 12;
    NoSlashInConcat(a, suf);
    assert |a + suf| >= 12;
    PartsOfPlain(a + suf);
  }

  lemma {:induction false} SilverPath(a: string)
    requires '/' !in a
    ensures GetScopePaths(a).silver == Path(false, ["data", "silver", a + SilverSuffix])
  {
    SilverDirParts();
    SilverNamePlain(a);
    assert (a + SilverSuffix)[0] != '/' by {
      if a != [] { assert (a + SilverSuffix)[0] == a[0]; }
    }
  }

  /** The silver path is injective on every scope name without `/`, empty ones included. */
  lemma {:induction false} SilverInjective(a: string, b: string)
    requires '/' !in a && '/' !in b
    ensures GetScopePaths(a).silver == GetScopePaths(b).silver ==> a == b
  {
    SilverPath(a);
    SilverPath(b);
    if GetScopePaths(a).silver == GetScopePaths(b).silver {
      var sa, sb := a + SilverSuffix, b + SilverSuffix;
      assert sa == sb;
      assert |a| == |b|;
      assert a == sa[..|a|] && b == sb[..|b|];
    }
  }

  /** The three paths of one relative scope are pairwise distinct: they sit under different roots. */
  lemma {:induction false} ScopePathsDistinct(scope: string)
    requires scope == "" || scope[0] != '/'
    ensures var p := GetScopePaths(scope);
      p.bronze != p.silver && p.silver != p.gold && p.bronze != p.gold
  {
    FixedDirs();
    var p := GetScopePaths(scope);
    var s := scope + SilverSuffix;
    assert s[0] != '/';
    assert p.bronze.parts[1] == "bronze" && p.silver.parts[1] == "silver" && p.gold.parts[1] == "gold";
  }

  /** Nothing joined under `data/<root>` (another root than the ledger's name) contains the ledger. */
  lemma {:induction false} LedgerNotWithinJoin(root: string, s: string)
    requires root != "ingested_hashes.json"
    ensures !Within(HashTrackFile, Join(Path(false, ["data", root]), s))
  {
    HashTrackFileParts();
    var j := Join(Path(false, ["data", root]), s);
    if !(s != [] && s[0] == '/') {
      assert j.parts == ["data", root] + Parts(s);
      if Parts(s) == [] {
        assert j.parts[1] != HashTrackFile.parts[1];
      } else {
        assert |j.parts| > |HashTrackFile.parts|;
      }
    }
  }

  /** The ledger file is not inside any per-scope path, for every scope name, comparing paths as
      `pathlib` values: lexically, with any `..` part left in place. */
  lemma {:induction false} LedgerOutsideScopes(scope: string)
    ensures var p := GetScopePaths(scope);
      !Within(HashTrackFile, p.bronze) && !Within(HashTrackFile, p.silver) && !Within(HashTrackFile, p.gold)
  {
    FixedDirs();
    LedgerNotWithinJoin("bronze", scope);
    LedgerNotWithinJoin("silver", scope + SilverSuffix);
    LedgerNotWithinJoin("gold", scope);
  }

  /** How the file system reads the parts of a relative path, symbolic links aside: each `..`
      cancels the part before it. `pathlib` does not do this when it joins. */
  function Resolved(parts: seq<string>): seq<string> {
    ResolveFrom([], parts)
  }

  function ResolveFrom(done: seq<string>, rest: seq<string>): seq<string>
    decreases |rest|
  {
    if rest == [] then done
    else if rest[0] == ".." && done != [] && done[|done| - 1] != ".." then ResolveFrom(done[..|done| - 1], rest[1..])
    else ResolveFrom(done + [rest[0]], rest[1..])
  }

  /** The lexical guarantee is all there is: `..` is a plain name, and on disk the scope `..` has
      the bronze path `data`, which holds the ledger, while the scope `../ingested_hashes.json`
      has the ledger file itself as its gold path. */
  lemma {:induction false} DotDotReachesLedger()
    ensures PlainName("..")
    ensures Within(HashTrackFile, Path(false, Resolved(GetScopePaths("..").bronze.parts)))
    ensures Resolved(GetScopePaths(".." + "/" + "ingested_hashes.json").gold.parts) == HashTrackFile.parts
  {
    HashTrackFileParts();
    DotDotBronze();
    DotDotGold();
    ResolveBronzeUp();
    ResolveGoldUp();
  }

  lemma {:induction false} DotDotBronze()
    ensures GetScopePaths("..").bronze.parts == ["data", "bronze", ".."]
  {
    BronzeDirParts();
    PartsOfPlain("..");
    assert GetScopePaths("..").bronze == Join(BronzeDir, "..");
  }

  lemma {:induction false} DotDotGold()
    ensures GetScopePaths(".." + "/" + "ingested_hashes.json").gold.parts == ["data", "gold", "..", "ingested_hashes.json"]
  {
    var scope := ".." + "/" + "ingested_hashes.json";
    GoldDirParts();
    PartsOfPlainPrefix("..", "ingested_hashes.json");
    LedgerNameParts();
    assert GetScopePaths(scope).gold == Join(GoldDir, scope);
  }

  lemma {:induction false} ResolveBronzeUp()
    ensures Resolved(["data", "bronze", ".."]) == ["data"]
  {
    assert ResolveFrom(["data", "bronze"], [".."]) == ResolveFrom(["data"], []);
  }

  lemma {:induction false} ResolveGoldUp()
    ensures Resolved(["data", "gold", "..", "ingested_hashes.json"]) == ["data", "ingested_hashes.json"]
  {
    assert ResolveFrom(["data", "gold"], ["..", "ingested_hashes.json"]) == ResolveFrom(["data"], ["ingested_hashes.json"]);
  }

  /** Distinctness needs a relative scope: an absolute one makes bronze and gold the same path. */
  lemma {:induction false} AbsoluteScopeCollides()
    ensures GetScopePaths("/x").bronze == GetScopePaths("/x").gold
  {
    FixedDirs();
  }

  /** Injectivity needs plain names: a trailing `/` is dropped by `pathlib`. */
  lemma {:induction false} TrailingSlashCollides(a: string)
    requires PlainName(a)
    ensures GetScopePaths(a + "/").bronze == GetScopePaths(a).bronze
    ensures a + "/" != a
  {
    assert GetScopePaths(a + "/").bronze == Join(BronzeDir, a + "/");
    PartsOfPlainPrefix(a, "");
    assert a + "/" + "" == a + "/";
    assert (a + "/")[0] == a[0];
    BronzeDirParts();
    PartsOfPlain(a);
  }

  /** The defaults satisfy the splitter's requirement `overlap < size`. */
  lemma {:induction false} ChunkDefaultsWellFormed()
    ensures 0 <= ChunkOverlap < ChunkSize
  {
  }
}
