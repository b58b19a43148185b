/**
  The host's key-value storage (the `logical.Storage` the plugin receives with each
  request). Entries are kept as decoded values; an entry that would not decode is
  `Malformed`. Whether a Get or a Put fails is an oracle passed with the call. The
  ghost `trace` records every access so that callers can state which accesses they make.
*/
module Storage {
  import opened Wrappers
  import opened Errors

  datatype Entry<T> = Json(value: T) | Malformed

  datatype Access = Load(key: string) | Store(key: string)

  class Storage<T> {
    var entries: map<string, Entry<T>>
    ghost var trace: seq<Access>

    constructor (initial: map<string, Entry<T>>)
      ensures entries == initial && trace == []
    {
      entries := initial;
      trace := [];
    }

    /** `s.Get(ctx, key)`: an absent key is not an error. */
    method Get(key: string, fault: Option<Error>) returns (r: Result<Option<Entry<T>>, Error>)
      modifies this`trace
      ensures trace == old(trace) + [Load(key)]
      ensures fault.Some? ==> r == Failure(fault.value)
      ensures fault.None? && key !in entries ==> r == Success(None)
      ensures fault.None? && key in entries ==> r == Success(Some(entries[key]))
    {
      trace := trace + [Load(key)];
      if fault.Some? {
        return Failure(fault.value);
      }
      if key in entries {
        return Success(Some(entries[key]));
      }
      return Success(None);
    }

    /** `s.Put(ctx, entry)`: a failed Put leaves the storage as it was. */
    method Put(key: string, e: Entry<T>, fault: Option<Error>) returns (err: Option<Error>)
      modifies this
      ensures trace == old(trace) + [Store(key)]
      ensures err == fault
      ensures entries == if fault.None? then old(entries)[key := e] else old(entries)
    {
      trace := trace + [Store(key)];
      err := fault;
      if fault.None? {
        entries := entries[key := e];
      }
    }
  }
}
