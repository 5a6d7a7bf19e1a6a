/**
 * The transposition table (src/tt.cpp): a heap array of 16-byte entries
 * indexed by `key % entry_count`, with a replacement policy on store, a
 * key check on probe, and an 8-bit search generation.
 */
module TT {
  import opened Moves
  import opened Bits

  /** The conversions `static_cast<int16_t>`, `<int8_t>` and `<uint8_t>`: modulo the width. */
  function ToInt16(x: int): (r: int)
    ensures -0x8000 <= r < 0x8000
    ensures -0x8000 <= x < 0x8000 ==> r == x
  {
    (x + 0x8000) % 0x1_0000 - 0x8000
  }

  function ToInt8(x: int): (r: int)
    ensures -0x80 <= r < 0x80
    ensures -0x80 <= x < 0x80 ==> r == x
  {
    (x + 0x80) % 0x100 - 0x80
  }

  function ToUInt8(x: int): (r: int)
    ensures 0 <= r < 0x100
    ensures 0 <= x < 0x100 ==> r == x
  {
    x % 0x100
  }

  const EXACT: int := 0
  const ALPHA: int := 1
  const BETA: int := 2

  datatype TTEntry = TTEntry(key: U64, move: Move, score: int, depth: int, flag: int, age: int)

  /** The entry memset leaves: every field zero. */
  const ZeroEntry: TTEntry := TTEntry(0, NoMove(), 0, 0, 0, 0)

  /** Mate-range scores are pushed outward by the ply before they are stored. */
  function AdjustedScore(score: int, ply: int): (r: int)
    ensures score > 29000 ==> r == score + ply
    ensures score < -29000 ==> r == score - ply
    ensures -29000 <= score <= 29000 ==> r == score
  {
    if score > 29000 then score + ply else if score < -29000 then score - ply else score
  }

  /** The replacement policy: a different key, an equal or deeper search, or an entry of an older search. */
  predicate Replaces(e: TTEntry, key: U64, depth: int, generation: int)
  {
    e.key != key || depth >= e.depth || e.age != generation
  }

  /** The entry a replacing store writes over e; a null move keeps e's move. */
  function Written(e: TTEntry, key: U64, m: Move, score: int, depth: int, flag: int, ply: int, generation: int): (w: TTEntry)
    ensures w.key == key && w.age == generation
    ensures w.move == (if m == NoMove() then e.move else m)
    ensures w.score == ToInt16(AdjustedScore(score, ply))
    ensures w.depth == ToInt8(depth) && w.flag == ToInt8(flag)
  {
    TTEntry(key, if m == NoMove() then e.move else m, ToInt16(AdjustedScore(score, ply)), ToInt8(depth), ToInt8(flag), generation)
  }

  /** The table contents after `store`. */
  function StoreSpec(entries: seq<TTEntry>, key: U64, m: Move, score: int, depth: int, flag: int, ply: int, generation: int): (r: seq<TTEntry>)
    requires |entries| > 0
    ensures |r| == |entries|
    ensures forall j :: 0 <= j < |entries| && j != key % |entries| ==> r[j] == entries[j]
    ensures var i := key % |entries|;
      r[i] == if Replaces(entries[i], key, depth, generation) then Written(entries[i], key, m, score, depth, flag, ply, generation) else entries[i]
  {
    var i := key % |entries|;
    if Replaces(entries[i], key, depth, generation) then
      entries[i := Written(entries[i], key, m, score, depth, flag, ply, generation)]
    else entries
  }

  /** What `probe` reports: found, with the entry copied; otherwise the caller's entry untouched. */
  function ProbeSpec(entries: seq<TTEntry>, key: U64, prior: TTEntry): (r: (bool, TTEntry))
    requires |entries| > 0
    ensures r.0 <==> entries[key % |entries|].key == key
    ensures r.0 ==> r.1 == entries[key % |entries|]
    ensures !r.0 ==> r.1 == prior
  {
    var e := entries[key % |entries|];
    if e.key == key then (true, e) else (false, prior)
  }

  /** After a replacing store, probing the same key finds exactly the fields written. */
  lemma {:induction false} StoreThenProbe(entries: seq<TTEntry>, key: U64, m: Move, score: int, depth: int, flag: int,
                                          ply: int, generation: int, prior: TTEntry)
    requires |entries| > 0 && Replaces(entries[key % |entries|], key, depth, generation)
    requires m != NoMove() && -0x80 <= depth < 0x80 && -0x80 <= flag < 0x80
    requires -0x8000 <= AdjustedScore(score, ply) < 0x8000
    ensures ProbeSpec(StoreSpec(entries, key, m, score, depth, flag, ply, generation), key, prior)
      == (true, TTEntry(key, m, AdjustedScore(score, ply), depth, flag, generation))
  {
  }

  /** A store that does not replace changes nothing; keys that are not replaced stay probe-able. */
  lemma {:induction false} StoreKeepsOtherKeys(entries: seq<TTEntry>, key: U64, m: Move, score: int, depth: int, flag: int,
                                               ply: int, generation: int, other: U64, prior: TTEntry)
    requires |entries| > 0 && other % |entries| != key % |entries|
    ensures ProbeSpec(StoreSpec(entries, key, m, score, depth, flag, ply, generation), other, prior)
      == ProbeSpec(entries, other, prior)
  {
  }

  /** Storing the null move over a replaced entry keeps that entry's move. */
  lemma {:induction false} NullMoveKeepsMove(entries: seq<TTEntry>, key: U64, score: int, depth: int, flag: int,
                                             ply: int, generation: int)
    requires |entries| > 0
    ensures StoreSpec(entries, key, NoMove(), score, depth, flag, ply, generation)[key % |entries|].move
      == entries[key % |entries|].move
  {
  }

  /** The table has room for size_mb megabytes of 16-byte entries, computed in 64-bit size_t. */
  function EntryCount(sizeMb: int): (n: nat)
    ensures n < TWO_64
  {
    ((sizeMb % TWO_64) * 1024 * 1024 % TWO_64) / 16
  }

  class TranspositionTable {
    /** The heap block of entries; meaningful only when hasTable. */
    var table: array<TTEntry>
    /** Whether the allocation succeeded (`table != nullptr`). */
    var hasTable: bool
    var generation: int

    ghost predicate Valid()
      reads this
    {
      (hasTable ==> table.Length > 0) && 0 <= generation < 0x100
    }

    /**
     * `TranspositionTable(size_mb)`, which resizes. Whether the allocator
     * returns a block is a parameter; a zero-entry block counts as none.
     */
    constructor(sizeMb: int, gotBlock: bool)
      ensures Valid() && fresh(table) && generation == 0
      ensures hasTable == (gotBlock && EntryCount(sizeMb) > 0)
      ensures table.Length == EntryCount(sizeMb)
      ensures hasTable ==> forall i :: 0 <= i < table.Length ==> table[i] == ZeroEntry
    {
      var n := EntryCount(sizeMb);
      table := new TTEntry[n](_ => ZeroEntry);
      hasTable := gotBlock && n > 0;
      generation := 0;
    }

    /** `resize`: a new block of zeroed entries, and the generation reset. */
    method Resize(sizeMb: int, gotBlock: bool)
      modifies this
      ensures Valid() && fresh(table) && generation == 0
      ensures hasTable == (gotBlock && EntryCount(sizeMb) > 0)
      ensures table.Length == EntryCount(sizeMb)
      ensures hasTable ==> forall i :: 0 <= i < table.Length ==> table[i] == ZeroEntry
    {
      var n := EntryCount(sizeMb);
      table := new TTEntry[n](_ => ZeroEntry);
      hasTable := gotBlock && n > 0;
      Clear();
    }

    /** `clear`: every entry zeroed (when there is a table) and the generation reset. */
    method Clear()
      modifies this, table
      ensures generation == 0 && hasTable == old(hasTable) && table == old(table)
      ensures hasTable ==> forall i :: 0 <= i < table.Length ==> table[i] == ZeroEntry
      ensures !hasTable ==> table[..] == old(table[..])
      ensures old(Valid()) ==> Valid()
    {
      if hasTable {
        forall i | 0 <= i < table.Length {
          table[i] := ZeroEntry;
        }
      }
      generation := 0;
    }

    /** `new_search`: the 8-bit generation counter advances, wrapping at 256. */
    method NewSearch()
      modifies this
      ensures generation == ToUInt8(old(generation) + 1)
      ensures table == old(table) && hasTable == old(hasTable)
    {
      generation := ToUInt8(generation + 1);
    }

    /** `store`: a no-op without a table; otherwise the replacement policy applied at key % entry_count. */
    method Store(key: U64, m: Move, score: int, depth: int, flag: int, ply: int)
      requires Valid()
      modifies table
      ensures hasTable ==> table[..] == StoreSpec(old(table[..]), key, m, score, depth, flag, ply, generation)
      ensures !hasTable ==> table[..] == old(table[..])
    {
      if !hasTable {
        return;
      }
      var s := score;
      if s > 29000 {
        s := s + ply;
      } else if s < -29000 {
        s := s - ply;
      }
      var idx := key % table.Length;
      var entry := table[idx];
      var replace := false;
      if entry.key != key {
        replace := true;
      } else if depth >= entry.depth {
        replace := true;
      } else if entry.age != generation {
        replace := true;
      }
      if replace {
        var mv := m;
        if mv == NoMove() {
          mv := entry.move;
        }
        table[idx] := TTEntry(key, mv, ToInt16(s), ToInt8(depth), ToInt8(flag), generation);
      }
    }

    /** `probe`: false without a table; otherwise whether the slot's key matches, with the entry copied. */
    method Probe(key: U64, prior: TTEntry) returns (found: bool, entry: TTEntry)
      requires Valid()
      ensures hasTable ==> (found, entry) == ProbeSpec(table[..], key, prior)
      ensures !hasTable ==> !found && entry == prior
    {
      if !hasTable {
        return false, prior;
      }
      var idx := key % table.Length;
      var tte := table[idx];
      if tte.key == key {
        return true, tte;
      }
      return false, prior;
    }
  }
}
