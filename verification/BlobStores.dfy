/** Two blob stores as objects: what a failing put leaves behind, and listing by age as the rule of `BlobAge`. */
module BlobStores {
  import opened Core
  import opened BlobAge

  datatype StoreError = NotFound | Io

  // ---------------------------------------------------------------------------
  // Redis: a value and a scored index entry per blob
  // ---------------------------------------------------------------------------

  /** `putAt` is the exact time behind the whole-second score. */
  class RedisStore {
    var blobs: map<Key, Bytes>
    var index: map<Key, nat>
    ghost var putAt: map<Key, nat>

    ghost predicate Valid()
      reads this
    {
      && index.Keys == blobs.Keys && putAt.Keys == blobs.Keys
      && forall k :: k in blobs ==> index[k] == putAt[k] / 1000
    }

    /** Value and index entry are written in one transaction; the key is fresh. */
    method Put(key: Key, bytes: Bytes, nowMs: nat, works: bool) returns (r: Result<nat, StoreError>)
      requires Valid() && key !in blobs
      modifies this
      ensures Valid() && (r.Ok? <==> works)
      ensures r.Err? ==> blobs == old(blobs) && putAt == old(putAt)
      ensures r.Ok? ==>
        r.value == |bytes| && blobs == old(blobs)[key := bytes] && putAt == old(putAt)[key := nowMs]
    {
      if !works {
        return Err(Io);
      }
      blobs := blobs[key := bytes];
      index := index[key := nowMs / 1000];
      putAt := putAt[key := nowMs];
      r := Ok(|bytes|);
    }

    /** Deleting a missing blob is no error. */
    method Delete(key: Key, works: bool) returns (r: Result<(), StoreError>)
      requires Valid()
      modifies this
      ensures Valid() && (r.Ok? <==> works)
      ensures blobs == if works then old(blobs) - {key} else old(blobs)
      ensures putAt == if works then old(putAt) - {key} else old(putAt)
    {
      if !works {
        return Err(Io);
      }
      blobs := blobs - {key};
      index := index - {key};
      putAt := putAt - {key};
      r := Ok(());
    }

    /** The index alone answers, and it answers for exactly the stored blobs. */
    method ListKeysOlderThan(nowMs: nat, ageMs: nat) returns (keys: set<Key>)
      requires Valid()
      ensures forall k :: k in keys <==> k in blobs && Lists(Redis, nowMs, putAt[k], ageMs)
    {
      var cutoff := Elapsed(nowMs / 1000, ageMs / 1000);
      keys := set k | k in index && index[k] <= cutoff;
    }
  }

  // ---------------------------------------------------------------------------
  // Files: write aside, then rename
  // ---------------------------------------------------------------------------

  datatype File = File(bytes: Bytes, mtime: nat)

  /** The steps of writing a blob, each of which may fail. */
  datatype Step = Create | Copy | Flush | SyncFile | Rename | SyncRoot

  predicate Dangerous(name: string) {
    (name != "" && name[0] == '.') || '/' in name || '\\' in name
  }

  /** What a simple UUID looks like: hexadecimal digits only. */
  predicate Hex(name: string) {
    name != "" && forall i :: 0 <= i < |name| ==> '0' <= name[i] <= '9' || 'a' <= name[i] <= 'f'
  }

  /** Keys the store hands out are keys it will serve. */
  lemma HexIsSafe(name: string)
    requires Hex(name)
    ensures !Dangerous(name)
  {
  }

  /** `root` holds the plain files of the store's directory, `tmp` those of its `.tmp` directory. */
  class FsStore {
    var root: map<string, File>
    var tmp: map<string, File>

    /**
     * `write_committed`: `fails` names the step that fails, if any; a failing copy leaves `partial` behind.
     * Renaming carries the file over whole, so no incomplete file ever appears under `root`.
     */
    method WriteCommitted(
      tmpName: string, name: string, bytes: Bytes, partial: Bytes, nowMs: nat, fails: Option<Step>)
      returns (r: Result<nat, StoreError>)
      requires tmpName !in tmp && name !in root
      modifies this
      ensures r == if fails.None? then Ok(|bytes|) else Err(Io)
      ensures root == if fails.None? || fails.value.SyncRoot? then old(root)[name := File(bytes, nowMs)] else old(root)
      ensures tmp - {tmpName} == old(tmp)
      ensures r.Ok? ==> tmp == old(tmp)
    {
      if fails.Some? && fails.value.Create? {
        assert tmp - {tmpName} == tmp;
        return Err(Io);
      }
      if fails.Some? && fails.value.Copy? {
        tmp := tmp[tmpName := File(partial, nowMs)];
        assert tmp - {tmpName} == old(tmp);
        return Err(Io);
      }
      tmp := tmp[tmpName := File(bytes, nowMs)];
      assert tmp - {tmpName} == old(tmp);
      if fails.Some? && (fails.value.Flush? || fails.value.SyncFile? || fails.value.Rename?) {
        return Err(Io);
      }
      root := root[name := tmp[tmpName]];
      tmp := tmp - {tmpName};
      assert tmp - {tmpName} == old(tmp);
      if fails.Some? {
        assert fails.value.SyncRoot?;
        return Err(Io);
      }
      r := Ok(|bytes|);
    }

    /**
     * `put`. An error leaves the store as it was, unless it came from the very last step: then the blob is
     * stored although the caller is told it is not. Only a failing clean-up leaves a temporary file.
     */
    method Put(
      tmpName: string, name: string, bytes: Bytes, partial: Bytes, nowMs: nat, fails: Option<Step>, cleansUp: bool)
      returns (r: Result<nat, StoreError>)
      requires tmpName !in tmp && name !in root && Hex(name)
      modifies this
      ensures r.Ok? <==> fails.None?
      ensures r.Ok? ==> r.value == |bytes| && root == old(root)[name := File(bytes, nowMs)] && tmp == old(tmp)
      ensures r.Err? ==> (root == old(root) <==> fails != Some(SyncRoot))
      ensures forall n :: n in root && n !in old(root) ==> n == name && root[n] == File(bytes, nowMs)
      ensures r.Err? && cleansUp ==> tmp == old(tmp)
    {
      r := WriteCommitted(tmpName, name, bytes, partial, nowMs, fails);
      if r.Err? && cleansUp {
        tmp := tmp - {tmpName};
      }
    }

    method Delete(name: string, works: bool) returns (r: Result<(), StoreError>)
      modifies this`root
      ensures Dangerous(name) ==> r == Err(NotFound) && root == old(root)
      ensures !Dangerous(name) && r.Ok? ==> root == old(root) - {name}
      ensures !Dangerous(name) && r.Err? ==> root == old(root) && name in root && !works
    {
      if Dangerous(name) {
        return Err(NotFound);
      }
      if name !in root {
        assert root - {name} == root;
        return Ok(());
      }
      if !works {
        return Err(Io);
      }
      root := root - {name};
      r := Ok(());
    }

    /** Hidden files are no blobs; a modification time in the future makes a file brand-new. */
    method ListKeysOlderThan(nowMs: nat, ageMs: nat) returns (keys: seq<string>)
      ensures forall n :: n in keys <==>
        n in root && !(n != "" && n[0] == '.') && Lists(Fs, nowMs, root[n].mtime, ageMs)
    {
      keys := [];
      var left := root.Keys;
      while left != {}
        invariant left <= root.Keys
        invariant forall n :: n in keys <==>
          n in root.Keys - left && !(n != "" && n[0] == '.') && Lists(Fs, nowMs, root[n].mtime, ageMs)
        decreases |left|
      {
        var n :| n in left;
        left := left - {n};
        if !(n != "" && n[0] == '.') && Elapsed(nowMs, root[n].mtime) >= ageMs {
          keys := keys + [n];
        }
      }
    }
  }
}
