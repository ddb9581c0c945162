/** The engine's values and the bytes behind them: table files and the log file.

    `Db` reads a table as its list of versions and keeps its log as a list of batches.  Here the table file answers
    with exactly that reading, and the log file, torn at any byte, gives back one of the batch lists the engine
    recovers from. */
module LsmFiles {
  import opened Prelude
  import opened Codec
  import opened LsmSpec
  import opened LsmOrder
  import opened LsmLevels
  import opened LsmState
  import opened SsBlocks
  import opened SsTables
  import opened Wal
  import Bloom

  // ------------------------------------------------------------- table files

  /** The file holds exactly these versions; its filter hashes keys as the reader does. */
  ghost predicate FileOf(file: SsTable, entries: seq<Ver>, crc: Bytes -> nat) {
    exists chunks :: TableOk(file, chunks, crc, Bloom.KeyHash) && Flat(chunks) == entries
  }

  method AddAll(builder: TableBuilder, es: seq<Ver>)
    requires builder.Valid() && builder.Added() == [] && Sorted(es) && AllFit(es)
    modifies builder
    ensures builder.Valid() && builder.Added() == es
  {
    for i := 0 to |es|
      invariant builder.Valid() && builder.Added() == es[..i]
    {
      assert Fits(es[i]) && (i > 0 ==> Before(es[i - 1], es[i]));
      assert es[..i + 1] == es[..i] + [es[i]];
      builder.Add(es[i]);
    }
    assert es[..|es|] == es;
  }

  method WriteWith(es: seq<Ver>, blockBytes: nat, bitsPerKey: nat, probes: nat, crc: Bytes -> nat, hash: Bytes -> Bloom.u64)
    returns (file: SsTable, ghost chunks: seq<seq<Ver>>)
    requires es != [] && Sorted(es) && 1 <= probes <= 30 && AllFit(es)
    ensures TableOk(file, chunks, crc, hash) && Flat(chunks) == es
  {
    var builder := new TableBuilder(blockBytes, bitsPerKey, probes, crc, hash);
    AddAll(builder, es);
    file, chunks := builder.Finish();
  }

  /** Writes a table of the engine to a file. */
  method WriteTable(t: Table, blockBytes: nat, bitsPerKey: nat, probes: nat, crc: Bytes -> nat) returns (file: SsTable)
    requires t.Ok() && 1 <= probes <= 30 && AllFit(t.entries)
    ensures FileOf(file, t.entries, crc)
  {
    ghost var chunks;
    file, chunks := WriteWith(t.entries, blockBytes, bitsPerKey, probes, crc, Bloom.KeyHash);
  }

  /** A lookup in the file is the lookup `Db` makes in the table. */
  method ReadTable(file: SsTable, crc: Bytes -> nat, k: Bytes, s: nat, ghost t: Table) returns (r: Option<Ver>)
    requires FileOf(file, t.entries, crc)
    ensures r == FirstHit(t.entries, k, s)
  {
    ghost var chunks :| TableOk(file, chunks, crc, Bloom.KeyHash) && Flat(chunks) == t.entries;
    r := Get(file, crc, Bloom.KeyHash, k, s, chunks);
  }

  // ------------------------------------------------------------- the log file

  /** What opening finds: the manifest as it was, and what the log file replays to. */
  function Found(d: Disk, f: Format, log: Bytes): Disk { d.(wal := ReplayFrom(f, log, 0)) }

  /** A crash at any byte of the frame that `WriteBatch` appends: reopening recovers the old history until the frame is
      complete, and the new one from then on. */
  lemma TornWriteRecovers(d: Disk, w: seq<Op>, ops: seq<Op>, b: Batch, size: seq<Ver> -> nat, f: Format, n: nat)
    requires RecoversTo(d, w, size) && RecoversTo(d.(wal := d.wal + [b]), w + ops, size)
    requires AllFramable(f, d.wal) && Framable(f, b) && n <= |Frame(f, b)|
    ensures var found := Found(d, f, Log(f, d.wal) + Frame(f, b)[..n]);
            RecoversTo(found, if n == |Frame(f, b)| then w + ops else w, size)
  {
    TornAppend(f, d.wal, b, n);
    assert d.(wal := d.wal) == d;
  }

  /** An intact log file is the batch list the engine keeps. */
  lemma LogIsWal(d: Disk, f: Format)
    requires AllFramable(f, d.wal)
    ensures Found(d, f, Log(f, d.wal)) == d
  {
    var all := |Log(f, d.wal)|;
    var offs := FramedLog(f, d.wal);
    CutReplays(f, d.wal, Log(f, d.wal), offs, all, |d.wal|, 0);
    assert Log(f, d.wal)[..all] == Log(f, d.wal) && d.wal[0..|d.wal|] == d.wal;
  }
}
