/** The local-filesystem store: multi-step writes that still take effect at one point in time. */
module LocalStore {
  import opened Options
  import opened ObjectStore

  /** What other processes do to the directory before this process's i-th system call, and whether meanwhile this
      process holds the store's lock. */
  type Others = (nat, bool, Store) -> Store

  /** While the lock is held nobody else touches this key: it is only ever written under the lock. */
  ghost predicate Honours(others: Others, key: Key) {
    forall i: nat, s: Store :: Lookup(others(i, true, s), key) == Lookup(s, key)
  }

  /** A conditional write as it went: the state it took effect at, the state it left, and whether it won. */
  datatype Swapping = Swapping(at: Store, after: Store, won: bool)

  /** Take the lock, if locks work here; read and compare; rename. The others may act before each of the three. */
  function Conditionally(others: Others, locks: bool, n: nat, s: Store, key: Key, data: Object,
                         etag: Option<Object>): Swapping
  {
    var locked := others(n, false, s);
    var read := others(n + 1, locks, locked);
    if Lookup(read, key) != etag then Swapping(read, read, false)
    else
      var at := others(n + 2, locks, read);
      Swapping(at, at[key := data], true)
  }

  /** The write was one compare-and-set. */
  predicate IsSwap(w: Swapping, key: Key, data: Object, etag: Option<Object>) {
    Perform(w.at, Swap(key, data, etag)) == Effect(w.after, Swapped(w.won))
  }

  lemma LockedIsSwap(others: Others, n: nat, s: Store, key: Key, data: Object, etag: Option<Object>)
    requires Honours(others, key)
    ensures IsSwap(Conditionally(others, true, n, s, key, data, etag), key, data, etag)
  {
    var read := others(n + 1, true, others(n, false, s));
    assert Lookup(others(n + 2, true, read), key) == Lookup(read, key);
  }

  /** A conditional write is one compare-and-set, whatever others that honour the lock do, exactly where the lock
      locks. Where it does not, somebody's write can fall between the comparison and the rename and be lost. */
  lemma SwapIffLocked(locks: bool, key: Key, data: Object)
    ensures (forall others: Others, n: nat, s: Store, etag: Option<Object> ::
               Honours(others, key) ==> IsSwap(Conditionally(others, locks, n, s, key, data, etag), key, data, etag))
            <==> locks
  {
    if locks {
      forall others: Others, n: nat, s: Store, etag: Option<Object> | Honours(others, key)
        ensures IsSwap(Conditionally(others, locks, n, s, key, data, etag), key, data, etag)
      {
        LockedIsSwap(others, n, s, key, data, etag);
      }
    } else {
      var others: Others := (i, held, s: Store) => if i == 2 && !held then s[key := data] else s;
      assert Honours(others, key);
      assert !IsSwap(Conditionally(others, locks, 0, map[], key, data, None), key, data, None);
    }
  }

  class Directory {
    const others: Others
    /** Does the lock exclude anybody: not on Windows. */
    const locks: bool
    var files: Store
    var calls: nat
    var held: bool
    /** Every state this process has been able to see, oldest first. */
    ghost var seen: seq<Store>

    constructor (files: Store, others: Others, locks: bool)
      ensures this.files == files && this.others == others && this.locks == locks && calls == 0 && !held && seen == []
    {
      this.files, this.others, this.locks, calls, held, seen := files, others, locks, 0, false, [];
    }

    ghost method Note()
      modifies this`seen
      ensures seen == old(seen) + [files]
    {
      seen := seen + [files];
    }

    /** A system call happens after whatever the others did first. */
    method Call()
      modifies this`files, this`calls, this`seen
      ensures files == others(old(calls), held, old(files)) && calls == old(calls) + 1
      ensures seen == old(seen) + [files]
    {
      files, calls := others(calls, held, files), calls + 1;
      Note();
    }

    method Exists(key: Key) returns (present: bool)
      modifies this`files, this`calls, this`seen
      ensures seen == old(seen) + [files] && (present <==> key in files)
    {
      Call();
      present := key in files;
    }

    /** link(2): the test and the write are one call, and an existing name is an error. */
    method Link(key: Key, data: Object) returns (linked: bool, ghost at: Store)
      modifies this`files, this`calls, this`seen
      ensures seen == old(seen) + [at]
      ensures linked <==> key !in at
      ensures files == if linked then at[key := data] else at
    {
      Call();
      at := files;
      linked := key !in files;
      if linked { files := files[key := data]; }
    }

    method Rename(key: Key, data: Object) returns (ghost at: Store)
      modifies this`files, this`calls, this`seen
      ensures seen == old(seen) + [at] && at == others(old(calls), held, old(files)) && files == at[key := data]
    {
      Call();
      at := files;
      files := files[key := data];
    }

    /** AtomicWriteCreated: stat, write a temporary, stat again, link. With existingOk the whole of it is one
        put-if-absent taking effect at a state the process saw; without, one overwrite. */
    method AtomicWriteCreated(key: Key, data: Object, existingOk: bool) returns (created: bool, ghost at: Store)
      modifies this`files, this`calls, this`seen
      ensures old(seen) < seen && at == seen[|seen| - 1]
      ensures existingOk ==> Perform(at, PutNew(key, data)) == Effect(files, Created(created))
      ensures !existingOk ==> created && files == at[key := data]
    {
      if existingOk {
        var before := Exists(key);
        if before { return false, files; }
      }
      if existingOk {
        var meanwhile := Exists(key);
        if meanwhile { return false, files; }
        created, at := Link(key, data);
        return;
      }
      at := Rename(key, data);
      created := true;
    }

    /** putBytesConditional: lock, read and compare, rename, unlock. Where locks work and the others honour them
        the whole of it is one compare-and-set taking effect at a state the process saw. */
    method PutConditional(key: Key, data: Object, etag: Option<Object>) returns (won: bool, ghost at: Store)
      requires !held
      modifies this
      ensures !held && old(seen) < seen && at == seen[|seen| - 1]
      ensures Swapping(at, files, won) == Conditionally(others, locks, old(calls), old(files), key, data, etag)
      ensures locks && Honours(others, key) ==> Perform(at, Swap(key, data, etag)) == Effect(files, Swapped(won))
    {
      if locks && Honours(others, key) { LockedIsSwap(others, calls, files, key, data, etag); }
      hide Honours, Perform;
      Call();
      held := locks;
      Call();
      if key !in files {
        if etag.Some? {
          held := false;
          return false, files;
        }
      } else if etag.None? || files[key] != etag.value {
        held := false;
        return false, files;
      }
      at := Rename(key, data);
      held := false;
      won := true;
    }
  }

  /** Whatever the call, no object disappears, and only a swap that found the expected content replaces one. */
  lemma PerformNeverLoses(s: Store, c: Call, k: Key)
    requires k in s
    ensures var t := Perform(s, c).store;
            k in t && (t[k] != s[k] ==> c.Swap? && c.key == k && c.etag == Some(s[k]) && t[k] == c.body)
  {
  }
}
