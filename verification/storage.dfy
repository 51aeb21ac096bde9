/** Object stores: create-only and replacing writes over a map of complete objects. */
module Storage {
  import opened Base
  import opened Schema

  datatype StoreFault = Integrity | Offline | Missing

  // What a path names in the content bucket.
  datatype Path = SnapshotPath(generation: int) | LatestPath | MediaPath(sha: string)

  datatype Object = Object(data: seq<int>)

  // A collision-free digest: equal only for equal data.
  datatype Sum = Sum(of: seq<int>)

  function DigestOf(data: seq<int>): Sum {
    Sum(data)
  }

  // One write to a store that works: the outcome and the objects afterwards.
  function Written(objects: map<Path, Object>, path: Path, data: seq<int>, immutable: bool): Result<map<Path, Object>, StoreFault> {
    if path in objects && immutable then
      if DigestOf(objects[path].data) == DigestOf(data) then Ok(objects) else Err(Integrity)
    else Ok(objects[path := Object(data)])
  }

  // A create-only write never changes what is stored, and repeating it is harmless.
  lemma CreateOnce(objects: map<Path, Object>, path: Path, data: seq<int>, other: seq<int>)
    ensures var r := Written(objects, path, data, true);
      && (r.Err? <==> path in objects && objects[path].data != data)
      && (r.Ok? ==> path in r.value && r.value[path].data == data
                    && (forall p | p in objects :: p in r.value && r.value[p] == objects[p])
                    && Written(r.value, path, data, true) == r
                    && (Written(r.value, path, other, true).Ok? <==> other == data))
  {
  }

  /** The reference store: a map under a mutex. */
  class MemoryStore {
    var objects: map<Path, Object>

    constructor ()
      ensures objects == map[]
    {
      objects := map[];
    }

    method Put(path: Path, data: seq<int>, immutable: bool, cancelled: bool) returns (r: Option<StoreFault>)
      modifies this
      ensures cancelled ==> r == Some(Offline) && objects == old(objects)
      ensures !cancelled ==>
        match Written(old(objects), path, data, immutable)
        case Ok(next) => r == None && objects == next
        case Err(fault) => r == Some(fault) && objects == old(objects)
      ensures !cancelled && !immutable ==> r == None && objects == old(objects)[path := Object(data)]
      ensures !cancelled && immutable && path !in old(objects) ==> r == None && objects == old(objects)[path := Object(data)]
      ensures !cancelled && immutable && path in old(objects) ==>
        objects == old(objects) && r == if old(objects)[path].data == data then None else Some(Integrity)
    {
      if cancelled { return Some(Offline); }
      if path in objects && immutable {
        if DigestOf(objects[path].data) == DigestOf(data) { return None; }
        return Some(Integrity);
      }
      objects := objects[path := Object(data)];
      return None;
    }

    // Only latest.json may be replaced.
    method Replace(path: Path, data: seq<int>, cancelled: bool) returns (r: Option<StoreFault>)
      modifies this
      ensures path != LatestPath ==> r == Some(Integrity)
      ensures objects == if r.None? then old(objects)[LatestPath := Object(data)] else old(objects)
      ensures forall p | p in old(objects) && p != LatestPath :: p in objects && objects[p] == old(objects)[p]
    {
      if path != LatestPath { return Some(Integrity); }
      r := Put(path, data, false, cancelled);
    }
  }

  datatype Name = Final(path: Path) | Temporary(tag: int)

  // Which of the file operations of one write fail, and what was typed so far when they did.
  datatype Faults = Faults(open: bool, write: bool, link: bool, rename: bool, head: bool, cut: nat)

  // What readers can see of the files.
  function Visible(files: map<Name, Object>): map<Path, Object> {
    map p | p in (set n | n in files && n.Final? :: n.path) :: files[Final(p)]
  }

  lemma VisibleAt(files: map<Name, Object>, path: Path)
    ensures path in Visible(files) <==> Final(path) in files
    ensures path in Visible(files) ==> Visible(files)[path] == files[Final(path)]
  {
    if Final(path) in files { assert Final(path).path in Visible(files); }
  }

  lemma VisiblePut(files: map<Name, Object>, path: Path, o: Object)
    ensures Visible(files[Final(path) := o]) == Visible(files)[path := o]
  {
    var left, right := Visible(files[Final(path) := o]), Visible(files)[path := o];
    forall p
      ensures p in left <==> p in right
      ensures p in left && p in right ==> left[p] == right[p]
    {
      VisibleAt(files, p);
      VisibleAt(files[Final(path) := o], p);
    }
  }

  // Files that agree on the final names look the same to readers.
  lemma SameVisible(a: map<Name, Object>, b: map<Name, Object>)
    requires forall p: Path :: (Final(p) in a <==> Final(p) in b) && (Final(p) in a ==> a[Final(p)] == b[Final(p)])
    ensures Visible(a) == Visible(b)
  {
    forall p
      ensures p in Visible(a) <==> p in Visible(b)
      ensures p in Visible(a) ==> Visible(a)[p] == Visible(b)[p]
    {
      VisibleAt(a, p);
      VisibleAt(b, p);
    }
  }

  /** The file store: every write goes to a temporary name first and becomes visible under its path at once. */
  class FileStore {
    var files: map<Name, Object>

    constructor ()
      ensures files == map[]
    {
      files := map[];
    }

    method OpenTemporary(tag: int, data: seq<int>, faults: Faults) returns (ok: bool)
      requires Temporary(tag) !in files
      modifies this
      ensures forall n | n != Temporary(tag) :: (n in files <==> n in old(files)) && (n in files ==> files[n] == old(files)[n])
      ensures ok <==> !faults.open && !faults.write
      ensures ok ==> Temporary(tag) in files && files[Temporary(tag)] == Object(data)
    {
      if faults.open { return false; }
      files := files[Temporary(tag) := Object(data[..if faults.cut < |data| then faults.cut else |data|])];
      if faults.write { return false; }
      files := files[Temporary(tag) := Object(data)];
      return true;
    }

    method RemoveTemporary(tag: int)
      modifies this
      ensures forall n | n != Temporary(tag) :: (n in files <==> n in old(files)) && (n in files ==> files[n] == old(files)[n])
      ensures Temporary(tag) !in files
    {
      files := map n | n in files && n != Temporary(tag) :: files[n];
    }

    // Link without replacing, or rename over what is there.
    method Publish(path: Path, tag: int, data: seq<int>, immutable: bool, faults: Faults) returns (r: Option<StoreFault>)
      requires Temporary(tag) in files && files[Temporary(tag)] == Object(data)
      modifies this
      ensures forall t :: Temporary(t) in files <==> Temporary(t) in old(files)
      ensures r == Some(Offline) ==> Visible(files) == Visible(old(files))
      ensures r == Some(Offline) ==> faults.head || faults.link || faults.rename
      ensures r != Some(Offline) ==> Outcome(Visible(old(files)), path, data, immutable, r, Visible(files))
    {
      VisibleAt(files, path);
      r := Some(Offline);
      if immutable && Final(path) in files {
        if !faults.head {
          r := if DigestOf(files[Final(path)].data) == DigestOf(data) then None else Some(Integrity);
        }
      } else if (immutable && !faults.link) || (!immutable && !faults.rename) {
        VisiblePut(files, path, Object(data));
        files := files[Final(path) := files[Temporary(tag)]];
        r := None;
      }
    }

    /**
     * Readers see either the old objects or the reference store's next ones, never a part of an object, and no
     * temporary file is left behind. Unless it reports being offline the write behaves as the reference store.
     */
    method Write(path: Path, data: seq<int>, immutable: bool, tag: int, faults: Faults) returns (r: Option<StoreFault>)
      requires Temporary(tag) !in files
      modifies this
      ensures forall t :: Temporary(t) in files <==> Temporary(t) in old(files)
      ensures r == Some(Offline) ==> Visible(files) == Visible(old(files))
      ensures r != Some(Offline) ==> Outcome(Visible(old(files)), path, data, immutable, r, Visible(files))
      ensures !faults.open && !faults.write && !faults.link && !faults.rename && !faults.head ==> r != Some(Offline)
    {
      hide Visible, Outcome;
      ghost var was := files;
      var ready := OpenTemporary(tag, data, faults);
      SameVisible(was, files);
      r := Some(Offline);
      if ready {
        r := Publish(path, tag, data, immutable, faults);
      }
      ghost var before := files;
      RemoveTemporary(tag);
      SameVisible(before, files);
    }
  }

  // The reference store's answer and its next objects.
  ghost predicate Outcome(was: map<Path, Object>, path: Path, data: seq<int>, immutable: bool,
                          r: Option<StoreFault>, next: map<Path, Object>)
  {
    match Written(was, path, data, immutable)
    case Ok(objects) => r == None && next == objects
    case Err(fault) => r == Some(fault) && next == was
  }
}

/** The worker's upload is the create-only write of the reference store, whatever injective encoding is used. */
module StoreRefinement {
  import opened Base
  import opened Schema
  import opened Publication
  import opened Storage

  ghost predicate Injective(encode: Bytes -> seq<int>) {
    forall a, b :: encode(a) == encode(b) ==> a == b
  }

  ghost function Encoded(encode: Bytes -> seq<int>, objects: map<Key, Bytes>): map<Path, Object> {
    map p: Path | p in (set k | k in objects :: SnapshotPath(k.generation)) :: Object(encode(objects[SnapshotObject(p.generation)]))
  }

  lemma EncodedAt(encode: Bytes -> seq<int>, objects: map<Key, Bytes>, g: int)
    ensures SnapshotPath(g) in Encoded(encode, objects) <==> SnapshotKey(g) in objects
    ensures SnapshotKey(g) in objects ==> Encoded(encode, objects)[SnapshotPath(g)] == Object(encode(objects[SnapshotKey(g)]))
  {
    if SnapshotKey(g) in objects { assert SnapshotPath(SnapshotKey(g).generation) in Encoded(encode, objects); }
    if SnapshotPath(g) in Encoded(encode, objects) {
      var k :| k in objects && SnapshotPath(k.generation) == SnapshotPath(g);
      assert k == SnapshotKey(g);
    }
  }

  lemma EncodedPut(encode: Bytes -> seq<int>, objects: map<Key, Bytes>, g: int, data: Bytes)
    ensures Encoded(encode, objects[SnapshotKey(g) := data]) == Encoded(encode, objects)[SnapshotPath(g) := Object(encode(data))]
  {
    var left := Encoded(encode, objects[SnapshotKey(g) := data]);
    var right := Encoded(encode, objects)[SnapshotPath(g) := Object(encode(data))];
    hide Encoded;
    forall p: Path
      ensures p in left <==> p in right
      ensures p in left && p in right ==> left[p] == right[p]
    {
      if p.SnapshotPath? {
        EncodedAt(encode, objects, p.generation);
        EncodedAt(encode, objects[SnapshotKey(g) := data], p.generation);
      } else {
        OnlySnapshots(encode, objects, p);
        OnlySnapshots(encode, objects[SnapshotKey(g) := data], p);
      }
    }
  }

  lemma OnlySnapshots(encode: Bytes -> seq<int>, objects: map<Key, Bytes>, p: Path)
    requires !p.SnapshotPath?
    ensures p !in Encoded(encode, objects)
  {
  }

  lemma UploadIsWritten(encode: Bytes -> seq<int>, s: Sys, job: Job, snapshot: Snapshot)
    requires Injective(encode)
    ensures var t := PutSnapshot(s, job, snapshot, Works);
      Written(Encoded(encode, s.objects), SnapshotPath(job.generation), encode(Json(snapshot)), true)
        == if t.stage.Failing? then Err(Integrity) else Ok(Encoded(encode, t.objects))
  {
    hide Encoded;
    EncodedAt(encode, s.objects, job.generation);
    EncodedPut(encode, s.objects, job.generation, Json(snapshot));
  }
}
