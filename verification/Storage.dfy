/** Object keys and the object store (server/src/services/storage.service.ts). Object bodies are text. */
module Storage {
  import opened Common
  import Decimal

  type Objects = map<string, string>

  const PAD := 8

  function PadStart(s: string): string {
    if |s| < PAD then Decimal.Zeros(PAD - |s|) + s else s
  }

  function JobPrefix(jobId: string): string {
    "exports/" + jobId + "/"
  }

  function ChunkPrefix(jobId: string): string {
    JobPrefix(jobId) + "chunks/"
  }

  function ChunkKey(jobId: string, batchNumber: nat): string {
    ChunkPrefix(jobId) + PadStart(Decimal.Print(batchNumber)) + ".csv"
  }

  function FinalKey(jobId: string): string {
    JobPrefix(jobId) + "export-" + jobId + ".csv"
  }

  predicate IsJobId(s: string) {
    '/' !in s
  }

  // ---- The key scheme ------------------------------------------------------

  lemma FirstSlash(a: string, x: string, b: string, y: string)
    requires IsJobId(b) && a + "/" + x == b + "/" + y
    ensures |b| <= |a|
  {
    var s := a + "/" + x;
    assert s[|a|] == '/';
    assert forall i :: 0 <= i < |b| ==> b[i] in b && s[i] == b[i];
  }

  lemma SlashSplitsOnce(a: string, b: string, x: string, y: string)
    requires IsJobId(a) && IsJobId(b)
    requires a + "/" + x == b + "/" + y
    ensures a == b && x == y
  {
    FirstSlash(a, x, b, y);
    FirstSlash(b, y, a, x);
    var s, t := a + "/" + x, b + "/" + y;
    assert a == s[..|a|] == t[..|a|] == b;
    assert x == s[|a| + 1..] == t[|a| + 1..] == y;
  }

  lemma PrefixSplits(a: string, b: string, x: string, y: string)
    requires IsJobId(a) && IsJobId(b)
    requires JobPrefix(a) + x == JobPrefix(b) + y
    ensures a == b && x == y
  {
    var s, t := JobPrefix(a) + x, JobPrefix(b) + y;
    assert s == "exports/" + (a + "/" + x) && t == "exports/" + (b + "/" + y);
    assert s[8..] == a + "/" + x && t[8..] == b + "/" + y;
    SlashSplitsOnce(a, b, x, y);
  }

  lemma ChunkKeyTail(jobId: string, n: nat)
    ensures ChunkKey(jobId, n) == JobPrefix(jobId) + ("chunks/" + PadStart(Decimal.Print(n)) + ".csv")
  {
  }

  lemma FinalKeyTail(jobId: string)
    ensures FinalKey(jobId) == JobPrefix(jobId) + ("export-" + jobId + ".csv")
  {
  }

  lemma PaddedNumberInjective(m: nat, n: nat)
    requires PadStart(Decimal.Print(m)) == PadStart(Decimal.Print(n))
    ensures m == n
  {
    ValueOfPadStart(m);
    ValueOfPadStart(n);
  }

  lemma ValueOfPadStart(n: nat)
    ensures Decimal.Value(PadStart(Decimal.Print(n))) == n
  {
    var s := Decimal.Print(n);
    Decimal.ValueOfPrint(n);
    if |s| < PAD {
      Decimal.ValueOfPadded(PAD - |s|, s);
    }
  }

  lemma StripEnds(head: string, a: string, b: string, tail: string)
    requires head + a + tail == head + b + tail
    ensures a == b
  {
    var s, t := head + a + tail, head + b + tail;
    assert |a| == |b|;
    assert a == s[|head|..|head| + |a|];
    assert b == t[|head|..|head| + |b|];
  }

  lemma PaddedForm(n: nat)
    ensures
      var number := PadStart(Decimal.Print(n));
      && |number| == (if |Decimal.Print(n)| < 8 then 8 else |Decimal.Print(n)|)
      && Decimal.AllDigits(number) && Decimal.Value(number) == n
  {
    ValueOfPadStart(n);
  }

  /** The keys, spelled out: a batch number has at least eight digits. */
  lemma KeyForms(jobId: string, n: nat)
    ensures FinalKey(jobId) == "exports/" + jobId + "/export-" + jobId + ".csv"
    ensures exists number ::
      && ChunkKey(jobId, n) == "exports/" + jobId + "/chunks/" + number + ".csv"
      && |number| == (if |Decimal.Print(n)| < 8 then 8 else |Decimal.Print(n)|)
      && Decimal.AllDigits(number) && Decimal.Value(number) == n
  {
    hide PadStart, Decimal.Value, Decimal.Print, Decimal.AllDigits;
    PaddedForm(n);
    var number := PadStart(Decimal.Print(n));
    PrefixForm(jobId);
    assert FinalKey(jobId) == "exports/" + jobId + "/export-" + jobId + ".csv";
    assert ChunkKey(jobId, n) == "exports/" + jobId + "/chunks/" + number + ".csv";
  }

  lemma FinalKeyForm(jobId: string)
    ensures FinalKey(jobId) == "exports/" + jobId + "/export-" + jobId + ".csv"
  {
    KeyForms(jobId, 0);
  }

  lemma PrefixForm(jobId: string)
    ensures ChunkPrefix(jobId) == "exports/" + jobId + "/chunks/"
  {
  }

  /** Two chunk keys are equal only for the same job and the same batch, however large the number. */
  lemma ChunkKeyInjective(a: string, m: nat, b: string, n: nat)
    requires IsJobId(a) && IsJobId(b) && ChunkKey(a, m) == ChunkKey(b, n)
    ensures a == b && m == n
  {
    var p, q := PadStart(Decimal.Print(m)), PadStart(Decimal.Print(n));
    ChunkKeyTail(a, m);
    ChunkKeyTail(b, n);
    PrefixSplits(a, b, "chunks/" + p + ".csv", "chunks/" + q + ".csv");
    StripEnds("chunks/", p, q, ".csv");
    PaddedNumberInjective(m, n);
  }

  /** No chunk key is ever a final key, of this or another job. */
  lemma ChunkKeyIsNotFinal(a: string, n: nat, b: string)
    requires IsJobId(a) && IsJobId(b)
    ensures ChunkKey(a, n) != FinalKey(b)
  {
    if ChunkKey(a, n) == FinalKey(b) {
      var x := "chunks/" + PadStart(Decimal.Print(n)) + ".csv";
      var y := "export-" + b + ".csv";
      ChunkKeyTail(a, n);
      FinalKeyTail(b);
      assert x[0] == 'c' && y[0] == 'e';
      PrefixSplits(a, b, x, y);
      assert false;
    }
  }

  predicate IsChunkOf(jobId: string, key: string) {
    ChunkPrefix(jobId) <= key
  }

  /** The prefix that is listed for deletion catches a job's own chunks, no other job's, and no final file. */
  lemma ChunkPrefixCatches(jobId: string, other: string, n: nat)
    requires IsJobId(jobId) && IsJobId(other)
    ensures IsChunkOf(jobId, ChunkKey(other, n)) <==> jobId == other
    ensures !IsChunkOf(jobId, FinalKey(other))
  {
    if IsChunkOf(jobId, ChunkKey(other, n)) {
      ChunkKeyTail(other, n);
      PrefixedBelongs(jobId, other, ChunkKey(other, n), "chunks/" + PadStart(Decimal.Print(n)) + ".csv");
    }
    if IsChunkOf(jobId, FinalKey(other)) {
      var y := "export-" + other + ".csv";
      FinalKeyTail(other);
      assert y[0] == 'e' && "chunks/"[0] == 'c';
      PrefixedBelongs(jobId, other, FinalKey(other), y);
      assert false;
    }
  }

  lemma PrefixedBelongs(jobId: string, other: string, key: string, tail: string)
    requires IsJobId(jobId) && IsJobId(other)
    requires IsChunkOf(jobId, key) && key == JobPrefix(other) + tail
    ensures jobId == other && "chunks/" <= tail
  {
    var rest := key[|ChunkPrefix(jobId)|..];
    assert key == ChunkPrefix(jobId) + rest;
    assert key == JobPrefix(jobId) + ("chunks/" + rest);
    PrefixSplits(jobId, other, "chunks/" + rest, tail);
  }

  // ---- The store -----------------------------------------------------------

  function Lookup(objects: Objects, key: string): Option<string> {
    if key in objects then Some(objects[key]) else None
  }

  /** The store without a job's chunks. */
  function WithoutChunks(objects: Objects, jobId: string): Objects {
    map key | key in objects && !IsChunkOf(jobId, key) :: objects[key]
  }

  /** Keys come back in some order; this is the part after the continuation token. */
  predicate AfterToken(token: Option<string>, key: string) {
    token.None? || Before(token.value, key)
  }

  predicate Before(a: string, b: string) {
    if b == [] then false
    else if a == [] then true
    else a[0] < b[0] || (a[0] == b[0] && Before(a[1..], b[1..]))
  }

  datatype StorageError =
    | NotFound(key: string)
    | WriteMismatch(key: string, expected: nat, reported: nat)
    | Unavailable(key: string)

  class Bucket {
    var objects: Objects
    /** How many PUT requests of chunks the store has served. */
    var puts: nat

    constructor ()
      ensures objects == map[] && puts == 0
    {
      objects := map[];
      puts := 0;
    }

    /** Write, then confirm by reading the size back. `meanwhile` is what the store holds at that second
        request when somebody else wrote in between. */
    method PutObjectVerified(key: string, body: string, meanwhile: Option<Objects>)
      returns (r: Result<nat, StorageError>)
      modifies this
      ensures objects == if meanwhile.Some? then meanwhile.value else old(objects)[key := body]
      ensures puts == old(puts) + 1
      ensures r.Success? <==> Lookup(objects, key).Some? && |objects[key]| == |body|
      ensures r.Success? ==> r.value == |body|
    {
      objects := objects[key := body];
      puts := puts + 1;
      if meanwhile.Some? {
        objects := meanwhile.value;
      }
      var head := Lookup(objects, key);
      if head.None? {
        return Failure(NotFound(key));
      }
      var size := |head.value|;
      if size != |body| {
        return Failure(WriteMismatch(key, |body|, size));
      }
      return Success(size);
    }

    /** One page of a listing: any non-empty cut of the matching keys after the token. The page's size is
        the store's choice; a truncated page is not empty and names a token that separates it from the rest. */
    ghost predicate IsPage(prefix: string, token: Option<string>, keys: set<string>, next: Option<string>)
      reads this
    {
      && keys <= (set key | key in objects && prefix <= key && AfterToken(token, key))
      && (next.Some? ==> keys != {})
      && forall key :: key in objects && prefix <= key && AfterToken(token, key) && key !in keys ==>
           next.Some? && AfterToken(next, key)
    }

    /** The paged deletion loop. The pages are the store's choice, handed over as a script; a page it does not describe
        correctly is read as the last one. The request for page `faultAt` fails, if there is one. Either way nothing but
        this job's chunks goes; without a failure the loop ends with all of them gone, and counts them. */
    method DeleteChunks(jobId: string, script: seq<(set<string>, Option<string>)>, faultAt: Option<nat>)
      returns (r: Result<nat, StorageError>)
      modifies this`objects
      ensures forall key :: key in old(objects) && !("exports/" + jobId + "/chunks/" <= key) ==> key in objects
      ensures forall key :: key in objects ==> key in old(objects) && objects[key] == old(objects)[key]
      ensures r.Success? ==> forall key :: key in objects ==> !("exports/" + jobId + "/chunks/" <= key)
      ensures r.Success? ==> objects == WithoutChunks(old(objects), jobId) && r.value == |old(objects)| - |objects|
      ensures faultAt.None? ==> r.Success?
    {
      PrefixForm(jobId);
      var prefix := ChunkPrefix(jobId);
      var token: Option<string> := None;
      var more := true;
      var page, deleted := 0, 0;
      while more
        invariant WithoutChunks(objects, jobId) == WithoutChunks(old(objects), jobId)
        invariant forall key :: key in old(objects) && !(prefix <= key) ==> key in objects
        invariant forall key :: key in objects ==> key in old(objects) && objects[key] == old(objects)[key]
        invariant forall key :: key in objects && prefix <= key ==> more && AfterToken(token, key)
        invariant deleted == |old(objects)| - |objects|
        decreases |objects|, more
      {
        if faultAt == Some(page) {
          return Failure(Unavailable(prefix));
        }
        var keys, next := ListObjects(prefix, token, script, page);
        page := page + 1;
        RemoveKeys(objects, keys, jobId);
        objects := objects - keys;
        deleted := deleted + |keys|;
        token := next;
        more := next.Some?;
      }
      return Success(deleted);
    }

    method ListObjects(prefix: string, token: Option<string>, script: seq<(set<string>, Option<string>)>, page: nat)
      returns (keys: set<string>, next: Option<string>)
      ensures IsPage(prefix, token, keys, next)
    {
      var matching := set key | key in objects && prefix <= key && AfterToken(token, key);
      if page < |script| {
        keys, next := script[page].0, script[page].1;
        if keys <= matching && keys != {} && next.Some? {
          if forall key :: key in matching - keys ==> AfterToken(next, key) {
            return;
          }
        }
      }
      return matching, None;
    }
  }

  lemma RemoveKeys(objects: Objects, keys: set<string>, jobId: string)
    requires keys <= objects.Keys && forall key :: key in keys ==> IsChunkOf(jobId, key)
    ensures WithoutChunks(objects - keys, jobId) == WithoutChunks(objects, jobId)
    ensures |objects - keys| == |objects| - |keys|
  {
    assert (objects - keys).Keys == objects.Keys - keys;
    assert |objects.Keys| == |objects| && |(objects - keys).Keys| == |objects - keys|;
  }
}
