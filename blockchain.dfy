/** The mock ledger: a module-level dictionary from keys to strings, written by
    `addToBlockchain` and read by `getFromBlockchain`. */
module Blockchain {
  import opened Util

  /** What a read returns for a dictionary: the stored string, or `null` (`None`) when the key
      is absent or its value is the empty string, which `|| null` turns into `null`. */
  function Lookup(entries: map<string, string>, key: string): (r: Option<string>)
    ensures r.Some? <==> key in entries && entries[key] != ""
    ensures r.Some? ==> r.value == entries[key]
  {
    if key in entries && entries[key] != "" then Some(entries[key]) else None
  }

  /** Reading back a key just written gives the data, unless the data is empty. */
  lemma AddThenGet(entries: map<string, string>, key: string, data: string)
    ensures Lookup(entries[key := data], key) == if data == "" then None else Some(data)
  {
  }

  /** Writing a key leaves every other key reading as before. */
  lemma AddKeepsOthers(entries: map<string, string>, key: string, data: string, other: string)
    requires other != key
    ensures Lookup(entries[key := data], other) == Lookup(entries, other)
  {
  }

  /** The later of two writes to a key wins. */
  lemma AddOverwrites(entries: map<string, string>, key: string, first: string, second: string)
    ensures entries[key := first][key := second] == entries[key := second]
  {
  }

  /** Storing the empty string is indistinguishable, on reading, from never storing. */
  lemma EmptyReadsAsNull(entries: map<string, string>, key: string)
    requires key !in entries
    ensures Lookup(entries[key := ""], key) == Lookup(entries, key) == None
  {
  }

  class Ledger {
    /** `blockchainStorage`. */
    var entries: map<string, string>

    constructor ()
      ensures entries == map[]
    {
      entries := map[];
    }

    /** `addToBlockchain`. */
    method Add(key: string, data: string)
      modifies this
      ensures entries == old(entries)[key := data]
    {
      entries := entries[key := data];
    }

    /** `getFromBlockchain`. */
    method Get(key: string) returns (r: Option<string>)
      ensures r == Lookup(entries, key)
    {
      if key in entries && entries[key] != "" {
        r := Some(entries[key]);
      } else {
        r := None;
      }
    }
  }

  /** Through the ledger's own operations: after a write the key reads back the data (or
      `null` for the empty string) and another key reads as it did before the write. */
  method AddThenRead(ledger: Ledger, key: string, data: string, other: string)
      returns (got: Option<string>, otherBefore: Option<string>, otherAfter: Option<string>)
    requires other != key
    modifies ledger
    ensures got == if data == "" then None else Some(data)
    ensures otherAfter == otherBefore
  {
    otherBefore := ledger.Get(other);
    ledger.Add(key, data);
    got := ledger.Get(key);
    otherAfter := ledger.Get(other);
  }
}
