/**
 * The Syzygy layer (src/syzygy/tbprobe.cpp): a cache of tablebase results
 * whose size is rounded up to a power of two so that `key & mask` selects a
 * slot, entries that pack a move's from/to squares into 12 bits, and the
 * guards of the WDL probe. No tablebase file is ever decoded: the cache is
 * the only source of results.
 */
module Syzygy {
  import opened Types
  import opened Moves
  import opened Bits
  import opened TT
  import Score

  const MAX_TB_PIECES: int := 6
  const CACHE_SIZE_MB: int := 128

  const WDL_WIN: int := 2
  const WDL_LOSS: int := -2
  const WDL_DRAW: int := 1
  const WDL_BLESSED_LOSS: int := -1
  const WDL_CURSED_WIN: int := 3

  /** A 16-byte cache slot: key, packed from/to, int8 score, generation and quality. */
  datatype TBEntry = TBEntry(key: U64, move: Word16, score: int, generation: int, quality: int)

  const ZeroTBEntry: TBEntry := TBEntry(0, 0, 0, 0, 0)

  /** The number of slots `init` asks for: size_mb MiB of 16-byte entries, in 64-bit size_t. */
  function CacheEntriesWanted(sizeMb: int): (n: nat)
    ensures n < TWO_64 / 16
  {
    ((sizeMb % TWO_64) * 1024 * 1024 % TWO_64) / 16
  }

  /** `m.from() | (m.to() << 6)`: the from/to squares packed as the cache stores them. */
  function PackFromTo(m: Move): (w: Word16)
    ensures w == m.From() + 64 * m.To()
  {
    SixBits();
    DisjointOr(m.From(), m.To(), 6);
    BitOr(m.From(), m.To() * 64)
  }

  lemma {:induction false} SixBits()
    ensures Pow2(6) == 64
  {
    assert Pow2(2) == 4;
  }

  /** The move probe reconstructs: `Move(move & 0x3F, (move >> 6) & 0x3F)`, a normal move. */
  function UnpackFromTo(w: Word16): (m: Move)
    ensures m == NormalMove(w % 64, (w / 64) % 64)
  {
    SixBits();
    LowMask(w, 6);
    LowMask(w / 64, 6);
    NormalMove(BitAnd(w, 0x3F), BitAnd(w / 64, 0x3F))
  }

  /** Packing then unpacking keeps the from and to squares; type and promotion become NORMAL/KNIGHT. */
  lemma {:induction false} PackRoundTrip(m: Move)
    ensures UnpackFromTo(PackFromTo(m)) == NormalMove(m.From(), m.To())
    ensures UnpackFromTo(PackFromTo(m)).From() == m.From() && UnpackFromTo(PackFromTo(m)).To() == m.To()
  {
    var w := PackFromTo(m);
    assert w % 64 == m.From() && w / 64 == m.To();
    NormalMoveFields(m.From(), m.To());
  }

  lemma NormalMoveFields(from: Sq, to: Sq)
    ensures NormalMove(from, to).From() == from && NormalMove(from, to).To() == to
  {
    MoveDetermined(NormalMove(from, to));
  }

  /** The cache contents after `store`: the slot at key mod size gets key, int8 score, packed move and generation. */
  function CacheStore(entries: seq<TBEntry>, key: U64, score: int, m: Move, generation: int): (r: seq<TBEntry>)
    requires |entries| > 0
    ensures |r| == |entries|
    ensures forall j :: 0 <= j < |entries| && j != key % |entries| ==> r[j] == entries[j]
    ensures var e := r[key % |entries|];
      e.key == key && e.score == ToInt8(score) && e.move == m.From() + 64 * m.To() &&
      e.generation == generation && e.quality == entries[key % |entries|].quality
  {
    var i := key % |entries|;
    entries[i := entries[i].(key := key, score := ToInt8(score), move := PackFromTo(m), generation := generation)]
  }

  /** What `probe` reports: found with the slot's score and unpacked move, or the caller's values untouched. */
  function CacheProbe(entries: seq<TBEntry>, key: U64, priorScore: int, priorMove: Move): (r: (bool, int, Move))
    requires |entries| > 0
    ensures r.0 <==> entries[key % |entries|].key == key
    ensures r.0 ==> r.1 == entries[key % |entries|].score
    ensures r.0 ==> r.2 == NormalMove(entries[key % |entries|].move % 64, (entries[key % |entries|].move / 64) % 64)
    ensures !r.0 ==> r.1 == priorScore && r.2 == priorMove
  {
    var e := entries[key % |entries|];
    if e.key == key then (true, e.score, UnpackFromTo(e.move)) else (false, priorScore, priorMove)
  }

  /** A store followed by a probe of the same key finds it, with the from/to squares and the int8 score. */
  lemma {:induction false} CacheStoreThenProbe(entries: seq<TBEntry>, key: U64, score: int, m: Move, generation: int,
                                               priorScore: int, priorMove: Move)
    requires |entries| > 0
    ensures var r := CacheProbe(CacheStore(entries, key, score, m, generation), key, priorScore, priorMove);
      r.0 && r.1 == ToInt8(score) && r.2 == NormalMove(m.From(), m.To())
    ensures -0x80 <= score < 0x80 ==> CacheProbe(CacheStore(entries, key, score, m, generation), key, priorScore, priorMove).1 == score
  {
    var s := CacheStore(entries, key, score, m, generation);
    var e := s[key % |entries|];
    assert e.move == PackFromTo(m);
    PackRoundTrip(m);
  }

  /** A store leaves the probe of every key in another slot as it was. */
  lemma {:induction false} CacheStoreKeepsOtherSlots(entries: seq<TBEntry>, key: U64, score: int, m: Move, generation: int,
                                                     other: U64, priorScore: int, priorMove: Move)
    requires |entries| > 0 && other % |entries| != key % |entries|
    ensures CacheProbe(CacheStore(entries, key, score, m, generation), other, priorScore, priorMove)
      == CacheProbe(entries, other, priorScore, priorMove)
  {
  }

  /** On a freshly zeroed cache only the key 0 is found, with score 0 and the move a1a1. */
  lemma {:induction false} ZeroedCacheProbe(entries: seq<TBEntry>, key: U64, priorScore: int, priorMove: Move)
    requires |entries| > 0 && forall j :: 0 <= j < |entries| ==> entries[j] == ZeroTBEntry
    ensures CacheProbe(entries, key, priorScore, priorMove).0 <==> key == 0
    ensures key == 0 ==> CacheProbe(entries, key, priorScore, priorMove) == (true, 0, NoMove())
  {
    var e := entries[key % |entries|];
    assert e == ZeroTBEntry;
    if key == 0 {
      NoMoveIsA1A1();
    }
  }

  class TBCache {
    var entries: array<TBEntry>
    var size: nat
    var mask: nat
    var generation: int
    /** size == 2^shift once initialised. */
    ghost var shift: nat

    ghost predicate Valid()
      reads this
    {
      size == Pow2(shift) && mask == size - 1 && entries.Length == size && 0 <= generation < 0x100
    }

    /** `TBCache()`: no entries, size, mask and generation zero. */
    constructor()
      ensures size == 0 && mask == 0 && generation == 0 && entries.Length == 0
    {
      entries := new TBEntry[0];
      size := 0;
      mask := 0;
      generation := 0;
      shift := 0;
    }

    /** `init(size_mb)`: size becomes the least power of two at least the wanted entry count. */
    method Init(sizeMb: int)
      modifies this
      ensures Valid() && fresh(entries)
      ensures size >= CacheEntriesWanted(sizeMb) && size < TWO_64
      ensures shift > 0 ==> Pow2(shift - 1) < CacheEntriesWanted(sizeMb)
      ensures forall j :: 0 <= j < entries.Length ==> entries[j] == ZeroTBEntry
      ensures generation == 1
    {
      var wanted := CacheEntriesWanted(sizeMb);
      size := 1;
      shift := 0;
      while size < wanted
        invariant size == Pow2(shift) && (size == 1 || size <= 2 * wanted)
        invariant shift > 0 ==> Pow2(shift - 1) < wanted
        decreases wanted - size
      {
        size := size * 2;
        shift := shift + 1;
      }
      mask := size - 1;
      entries := new TBEntry[size](_ => ZeroTBEntry);
      generation := 1;
    }

    /** `probe`: the slot at `key & mask`, which is key mod size. */
    method Probe(key: U64, priorScore: int, priorMove: Move) returns (found: bool, score: int, bestMove: Move)
      requires Valid()
      ensures (found, score, bestMove) == CacheProbe(entries[..], key, priorScore, priorMove)
    {
      LowMask(key, shift);
      var idx := BitAnd(key, mask);
      var entry := entries[idx];
      if entry.key == key {
        return true, entry.score, UnpackFromTo(entry.move);
      }
      return false, priorScore, priorMove;
    }

    /** `store`: score, packed move and generation written at `key & mask`, the key last. */
    method Store(key: U64, score: int, m: Move)
      requires Valid()
      modifies entries
      ensures entries[..] == CacheStore(old(entries[..]), key, score, m, generation)
    {
      LowMask(key, shift);
      var idx := BitAnd(key, mask);
      var entry := entries[idx];
      entry := entry.(score := ToInt8(score));
      entry := entry.(move := PackFromTo(m));
      entry := entry.(generation := generation);
      entry := entry.(key := key);
      entries[idx] := entry;
    }
  }

  /**
   * `wdl_to_value`: a win and a loss are scores of equal size and opposite
   * sign, `ply` plies short of 30000, and within the search horizon never
   * mate scores; draws, cursed wins, blessed losses and any other code
   * score 0.
   */
  function WdlToValue(wdl: int, ply: int): (v: int)
    ensures wdl == WDL_WIN || wdl == WDL_LOSS ==> Abs(v) == Abs(30000 - ply)
    ensures ply < 30000 ==> (v > 0 <==> wdl == WDL_WIN) && (v < 0 <==> wdl == WDL_LOSS)
    ensures wdl != WDL_WIN && wdl != WDL_LOSS ==> v == 0
    ensures 0 <= ply <= MAX_PLY ==> !Score.IsMate(v) && (wdl == WDL_WIN ==> v > 29000) && (wdl == WDL_LOSS ==> v < -29000)
  {
    if wdl == WDL_WIN then 30000 - ply
    else if wdl == WDL_LOSS then -30000 + ply
    else if wdl == WDL_DRAW then 0
    else 0
  }

  /** `is_capture`: the destination is occupied, or the move is en passant. */
  function IsCapture(board: seq<Piece>, m: Move): (b: bool)
    requires |board| == 64
  {
    board[m.To()] != NO_PIECE || m.Type() == EN_PASSANT
  }

  /** Moves onto an empty square are captures exactly when they are en passant; onto a piece, always. */
  lemma {:induction false} IsCaptureCases(board: seq<Piece>, m: Move)
    requires |board| == 64
    ensures board[m.To()] == NO_PIECE ==> (IsCapture(board, m) <==> m.Type() == EN_PASSANT)
    ensures board[m.To()] != NO_PIECE ==> IsCapture(board, m)
    ensures m.Type() == EN_PASSANT ==> IsCapture(board, m)
  {
  }

  /** The tablebase context: the cache and the number of pieces the loaded tables cover. */
  class Tablebases {
    var cache: TBCache
    var maxPieces: int

    ghost predicate Valid()
      reads this, cache
    {
      (maxPieces == 0 || maxPieces == MAX_TB_PIECES) && (maxPieces != 0 ==> cache.Valid())
    }

    constructor()
      ensures Valid() && maxPieces == 0 && fresh(cache)
    {
      cache := new TBCache();
      maxPieces := 0;
    }

    /**
     * `init(path)`: nothing for an empty path; otherwise the cache is built
     * with 128 MB, and the tables cover six pieces once a WDL file is found.
     * The directory scan is replaced by its outcome, wdlCount.
     */
    method Init(path: string, wdlCount: nat)
      requires Valid()
      modifies this, cache
      ensures Valid() && cache == old(cache)
      ensures path == [] ==> maxPieces == old(maxPieces) && unchanged(cache)
      ensures path != [] ==> cache.Valid() && cache.generation == 1 && cache.size >= CacheEntriesWanted(CACHE_SIZE_MB)
      ensures path != [] ==> maxPieces == (if wdlCount > 0 then MAX_TB_PIECES else old(maxPieces))
    {
      if path == [] {
        return;
      }
      cache.Init(CACHE_SIZE_MB);
      if wdlCount > 0 {
        maxPieces := MAX_TB_PIECES;
      }
    }

    /**
     * `probe_wdl`: false when no tables are loaded, when any castling right
     * remains, or when more pieces are on the board than the tables cover;
     * otherwise a cache hit gives the value of the cached result at ply 0.
     */
    method ProbeWdl(castleRights: int, pieceCount: nat, key: U64, priorScore: int) returns (ok: bool, score: int)
      requires Valid()
      ensures maxPieces == 0 || castleRights != 0 || pieceCount > maxPieces ==> !ok && score == priorScore
      ensures maxPieces != 0 && castleRights == 0 && pieceCount <= maxPieces ==>
        (var r := CacheProbe(cache.entries[..], key, 0, NoMove());
         ok == r.0 && score == (if r.0 then WdlToValue(r.1, 0) else priorScore))
    {
      if maxPieces == 0 {
        return false, priorScore;
      }
      if castleRights != 0 {
        return false, priorScore;
      }
      if pieceCount > maxPieces {
        return false, priorScore;
      }
      var found, cached, dummy := cache.Probe(key, 0, NoMove());
      if found {
        return true, WdlToValue(cached, 0);
      }
      return false, priorScore;
    }
  }
}
