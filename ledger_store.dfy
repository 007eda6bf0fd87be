/** The ingested-hashes ledger: a JSON object on disk mapping `scope + "/" + filename` to the
    SHA-256 hex digest of the file's bytes. The file may be missing (read as the empty map) or
    unreadable (reading it raises, which nothing in the core catches). */
module LedgerStore {
  import opened Wrappers
  import opened PyText

  type Ledger = map<string, string>

  datatype LedgerFile = Absent | Unreadable | Present(entries: Ledger)

  /** The ledger key of a file of a scope. */
  function Key(scope: string, name: string): string {
    scope + "/" + name
  }

  /** `json.load` of the ledger, or `{}` when the file does not exist. */
  function Load(f: LedgerFile): Result<Ledger> {
    match f
    case Absent => Ok(map[])
    case Unreadable => Err("ledger file cannot be decoded")
    case Present(entries) => Ok(entries)
  }

  /** The ledger records exactly this digest under this key. */
  predicate Recorded(l: Ledger, key: string, digest: string) {
    key in l && l[key] == digest
  }

  datatype Check = Check(seen: bool, after: LedgerFile)

  /** The check-and-record step of `is_already_ingested`: report whether the key already holds
      this digest and, when it does not, write the digest under the key. */
  function CheckAndRecord(f: LedgerFile, key: string, digest: string): (r: Result<Check>)
    ensures r.Err? <==> f.Unreadable?
    ensures r.Ok? ==> (r.value.seen <==> Recorded(Load(f).value, key, digest))
    ensures r.Ok? && r.value.seen ==> r.value.after == f
    ensures r.Ok? && !r.value.seen ==>
      && r.value.after.Present?
      && Recorded(r.value.after.entries, key, digest)
      && r.value.after.entries.Keys == Load(f).value.Keys + {key}
      && forall k :: k in Load(f).value && k != key ==> r.value.after.entries[k] == Load(f).value[k]
  {
    match Load(f)
    case Err(e) => Err(e)
    case Ok(l) =>
      if Recorded(l, key, digest) then Ok(Check(true, f))
      else Ok(Check(false, Present(l[key := digest])))
  }

  /** Checking the same bytes again right after a recording check finds them and writes nothing. */
  lemma {:induction false} CheckAndRecordIdempotent(f: LedgerFile, key: string, digest: string)
    requires CheckAndRecord(f, key, digest).Ok?
    ensures var g := CheckAndRecord(f, key, digest).value.after;
      CheckAndRecord(g, key, digest) == Ok(Check(true, g))
  {
  }

  /** The ledger file as mutable state on disk. */
  class HashTrackFile {
    var file: LedgerFile

    constructor (f: LedgerFile)
      ensures file == f
    {
      file := f;
    }
  }

  /** The keys under a prefix. */
  function PrefixKeys(l: Ledger, prefix: string): set<string> {
    set k | k in l && StartsWith(k, prefix)
  }

  /** The ledger without the keys under a prefix. */
  function WithoutPrefix(l: Ledger, prefix: string): map<string, string> {
    map k | k in l && !StartsWith(k, prefix) :: l[k]
  }

  /** The ledger part of `delete_scope`: collect the keys that start with the prefix, then pop
      them one by one. Returns the remaining entries and the collected keys, in collection order. */
  method RemovePrefixEntries(ingested: Ledger, prefix: string) returns (remaining: Ledger, deletedKeys: seq<string>)
    ensures remaining == WithoutPrefix(ingested, prefix)
    ensures (set k | k in deletedKeys) == PrefixKeys(ingested, prefix)
    ensures |deletedKeys| == |PrefixKeys(ingested, prefix)|
  {
    // First collect every key that starts with the prefix.
    deletedKeys := [];
    var todo := ingested.Keys;
    while todo != {}
      invariant todo <= ingested.Keys
      invariant forall k :: k in deletedKeys ==> k in ingested && StartsWith(k, prefix) && k !in todo
      invariant forall k :: k in ingested && StartsWith(k, prefix) ==> k in deletedKeys || k in todo
      invariant forall i, j :: 0 <= i < j < |deletedKeys| ==> deletedKeys[i] != deletedKeys[j]
      decreases todo
    {
      var k :| k in todo;
      if StartsWith(k, prefix) {
        deletedKeys := deletedKeys + [k];
      }
      todo := todo - {k};
    }
    // Then pop the collected keys from the ledger one at a time.
    remaining := ingested;
    var i := 0;
    while i < |deletedKeys|
      invariant 0 <= i <= |deletedKeys|
      invariant remaining.Keys == ingested.Keys - (set j | 0 <= j < i :: deletedKeys[j])
      invariant forall k :: k in remaining ==> remaining[k] == ingested[k]
      invariant forall j :: i <= j < |deletedKeys| ==> deletedKeys[j] in remaining
    {
      remaining := remaining - {deletedKeys[i]};
      i := i + 1;
    }
    assert (set k | k in deletedKeys) == PrefixKeys(ingested, prefix);
    assert (set j | 0 <= j < |deletedKeys| :: deletedKeys[j]) == PrefixKeys(ingested, prefix);
    DistinctCard(deletedKeys);
  }

  /** Removing the keys under a prefix splits the ledger in two: the removed keys and the
      surviving entries, whose values are untouched, account for every key exactly once. */
  lemma {:induction false} WithoutPrefixPartition(l: Ledger, prefix: string)
    ensures forall k :: k in WithoutPrefix(l, prefix) <==> k in l && !StartsWith(k, prefix)
    ensures forall k :: k in WithoutPrefix(l, prefix) ==> WithoutPrefix(l, prefix)[k] == l[k]
    ensures PrefixKeys(l, prefix) !! WithoutPrefix(l, prefix).Keys
    ensures |PrefixKeys(l, prefix)| + |WithoutPrefix(l, prefix)| == |l|
  {
    var w := WithoutPrefix(l, prefix);
    assert l.Keys == PrefixKeys(l, prefix) + w.Keys;
  }

  /** The ledger part of `delete_scope`: when the file exists, load it, drop every key under
      `scope + "/"`, write it back and report how many keys went; a missing file removes nothing,
      and a file that cannot be decoded raises before anything is written. */
  method DeleteScopeEntries(ledger: HashTrackFile, scope: string) returns (r: Result<nat>)
    modifies ledger
    ensures r.Err? <==> old(ledger.file).Unreadable?
    ensures r.Err? ==> ledger.file == old(ledger.file)
    ensures old(ledger.file).Absent? ==> r == Ok(0) && ledger.file == Absent
    ensures old(ledger.file).Present? ==>
      && r == Ok(|PrefixKeys(old(ledger.file).entries, scope + "/")|)
      && ledger.file == Present(WithoutPrefix(old(ledger.file).entries, scope + "/"))
  {
    match ledger.file {
      case Absent =>
        r := Ok(0);
      case Unreadable =>
        r := Err("ledger file cannot be decoded");
      case Present(ingested) =>
        var remaining, deletedKeys := RemovePrefixEntries(ingested, scope + "/");
        ledger.file := Present(remaining);
        r := Ok(|deletedKeys|);
    }
  }

  /** A sequence without repetitions has as many elements as its set. */
  lemma {:induction false} DistinctCard(xs: seq<string>)
    requires forall i, j :: 0 <= i < j < |xs| ==> xs[i] != xs[j]
    ensures |set k | k in xs| == |xs|
  {
    if xs != [] {
      var rest := xs[1..];
      DistinctCard(rest);
      assert (set k | k in xs) == (set k | k in rest) + {xs[0]};
      assert xs[0] !in rest;
    }
  }

  /** Deleting scope `scope` leaves the keys of every other scope, even one whose name extends
      `scope`, as long as neither name contains `/`. */
  lemma {:induction false} OtherScopeKeySurvives(scope: string, other: string, name: string)
    requires '/' !in scope && '/' !in other && scope != other
    ensures !StartsWith(Key(other, name), scope + "/")
  {
    var k := Key(other, name);
    var p := scope + "/";
    if |scope| < |other| {
      // the prefix ends in '/' where `other` still has one of its own characters
      assert other[|scope|] in other;
      assert k[|scope|] == other[|scope|] != '/' == p[|scope|];
      assert k[..|p|][|scope|] != p[|scope|];
    } else if |scope| > |other| && |p| <= |k| {
      assert scope[|other|] in scope;
      assert k[|other|] == '/' != scope[|other|] == p[|other|];
      assert k[..|p|][|other|] != p[|other|];
    } else if |scope| == |other| {
      assert k[..|scope|] == other && p[..|scope|] == scope;
      assert k[..|p|][..|scope|] != p[..|scope|];
    }
  }
}
