/**
 * Readable context ids: each distinct configuration hash gets "context-N", N counting from 0
 * in order of first request; a missing configuration gets "context-unknown".
 */
module ContextIds {
  import opened Wrappers
  import opened Strings

  const UnknownId: string := "context-unknown"

  function ContextId(n: nat): string
  {
    "context-" + NatToString(n)
  }

  /** Different numbers give different ids. */
  lemma ContextIdInjective(a: nat, b: nat)
    requires ContextId(a) == ContextId(b)
    ensures a == b
  {
    PrefixCancel("context-", NatToString(a), NatToString(b));
    NatToStringInjective(a, b);
  }

  /** No numbered id is the id of a missing configuration. */
  lemma UnknownIsNoNumberedId(n: nat)
    ensures ContextId(n) != UnknownId
  {
    assert ContextId(n)[8] == NatToString(n)[0];
    assert UnknownId[8] == 'u';
  }

  /** The generator's counter and hash-to-id table. */
  datatype IdTable = IdTable(counter: nat, hashToId: map<int, string>)
  {
    /**
     * The counter is the number of hashes seen; every id is numbered below the counter, and
     * no two hashes share an id.
     */
    ghost predicate Valid()
    {
      counter == |hashToId|
      && (forall h :: h in hashToId ==> exists n: nat :: n < counter && hashToId[h] == ContextId(n))
      && forall h1, h2 :: h1 in hashToId && h2 in hashToId && h1 != h2 ==> hashToId[h1] != hashToId[h2]
    }

    /** `getContextId`: the id of a configuration with hash `hash`, `None` for `null`. */
    function IdFor(hash: Option<int>): (string, IdTable)
    {
      if hash.None? then (UnknownId, this)
      else if hash.value in hashToId then (hashToId[hash.value], this)
      else (ContextId(counter), IdTable(counter + 1, hashToId[hash.value := ContextId(counter)]))
    }
  }

  function EmptyTable(): (t: IdTable)
    ensures t.Valid() && t.counter == 0
  {
    IdTable(0, map[])
  }

  /**
   * A request keeps the table valid. A missing configuration gets "context-unknown" and
   * changes nothing; a known hash gets its id again and changes nothing; a new hash gets
   * "context-" and the counter, which then rises by one.
   */
  lemma IdForKeepsValid(t: IdTable, hash: Option<int>)
    requires t.Valid()
    ensures var (id, t') := t.IdFor(hash);
      t'.Valid()
      && (hash.None? ==> id == UnknownId && t' == t)
      && (hash.Some? && hash.value in t.hashToId ==> id == t.hashToId[hash.value] && t' == t)
      && (hash.Some? && hash.value !in t.hashToId ==>
            id == ContextId(t.counter) && t'.counter == t.counter + 1 && t'.hashToId[hash.value] == id
            && forall h :: h in t.hashToId ==> t'.hashToId[h] == t.hashToId[h])
  {
    if hash.Some? && hash.value !in t.hashToId {
      var (id, t') := t.IdFor(hash);
      forall h | h in t.hashToId
        ensures t.hashToId[h] != id
      {
        var n: nat :| n < t.counter && t.hashToId[h] == ContextId(n);
        if t.hashToId[h] == id {
          ContextIdInjective(n, t.counter);
        }
      }
      forall h | h in t'.hashToId
        ensures exists n: nat :: n < t'.counter && t'.hashToId[h] == ContextId(n)
      {
        if h == hash.value {
          assert t'.hashToId[h] == ContextId(t.counter);
        } else {
          var n: nat :| n < t.counter && t.hashToId[h] == ContextId(n);
          assert t'.hashToId[h] == ContextId(n);
        }
      }
    }
  }

  /** Two requests with the same hash get the same id, whatever the table. */
  lemma SameHashSameId(t: IdTable, hash: int)
    requires t.Valid()
    ensures var (first, t') := t.IdFor(Some(hash));
      t'.IdFor(Some(hash)) == (first, t')
  {
  }

  /** The ids handed out for two different hashes differ. */
  lemma DistinctHashesDistinctIds(t: IdTable, h1: int, h2: int)
    requires t.Valid() && h1 != h2
    ensures var (id1, t1) := t.IdFor(Some(h1));
      var (id2, t2) := t1.IdFor(Some(h2));
      id1 != id2
  {
    IdForKeepsValid(t, Some(h1));
    var (id1, t1) := t.IdFor(Some(h1));
    IdForKeepsValid(t1, Some(h2));
  }

  /** The generator (static state in Java, an object here). */
  class ContextIdGenerator {
    var contextCounter: nat
    var hashToIdMapping: map<int, string>

    function Table(): IdTable
      reads this
    {
      IdTable(contextCounter, hashToIdMapping)
    }

    constructor ()
      ensures Table() == EmptyTable()
    {
      contextCounter := 0;
      hashToIdMapping := map[];
    }

    method GetContextId(hash: Option<int>) returns (id: string)
      modifies this
      ensures (id, Table()) == old(Table()).IdFor(hash)
    {
      if hash.None? {
        return UnknownId;
      }
      if hash.value !in hashToIdMapping {
        hashToIdMapping := hashToIdMapping[hash.value := ContextId(contextCounter)];
        contextCounter := contextCounter + 1;
      }
      id := hashToIdMapping[hash.value];
    }

    /** `getCurrentCounter()` */
    method GetCurrentCounter() returns (n: nat)
      ensures n == contextCounter
    {
      n := contextCounter;
    }

    method Reset()
      modifies this
      ensures Table() == EmptyTable()
    {
      contextCounter := 0;
      hashToIdMapping := map[];
    }
  }
}
