/**
  Creation of a GUID partition table on a blank disk, and where the single
  partition it creates lies (layout of section 5.3 of the UEFI Specification).
  */
module Partition {
  import opened Objects

  const ENTRIES_BYTES := 16384
  const START_BYTE := 1048576
  const HEADER_BLOCKS := 1
  const TWO_63 := 0x8000_0000_0000_0000
  const TWO_64 := 0x1_0000_0000_0000_0000

  /** A 64-bit unsigned integer. */
  type U64 = x: int | 0 <= x < TWO_64

  /** Subtraction that wraps around. */
  function Sub(a: U64, b: U64): U64 {
    (a - b) % TWO_64
  }

  /** Conversion to a signed 64-bit integer. */
  function Signed(a: U64): int {
    if a < TWO_63 then a else a - TWO_64
  }

  datatype Extent = Extent(start: U64, end: U64)

  datatype Table = Table(logicalSectorSize: int, protectiveMbr: bool, partitions: seq<Extent>)

  /** What is on a disk: a known partition table, a known file system; and whether it accepts writes. */
  datatype Content = Content(table: Option<Table>, fileSystem: string, writable: bool)

  predicate Blank(c: Content) {
    c.table.None? && c.fileSystem == ""
  }

  /** The block devices of the node, by path. */
  class Host {
    var disks: map<string, Content>

    constructor (disks: map<string, Content>)
      ensures this.disks == disks
    {
      this.disks := disks;
    }

    /** Write a table to a disk that accepts writes. */
    method Write(path: string, table: Table) returns (err: bool)
      requires path in disks
      modifies this
      ensures err == !old(disks)[path].writable
      ensures disks == if err then old(disks) else old(disks)[path := old(disks)[path].(table := Some(table))]
    {
      err := !disks[path].writable;
      if !err {
        disks := disks[path := disks[path].(table := Some(table))];
      }
    }
  }

  function BlockSize(logicalBlockSize: U64): (r: U64)
    ensures r != 0
  {
    if logicalBlockSize == 0 then 512 else logicalBlockSize
  }

  /** The first partition of a disk. */
  function FirstExtent(size: U64, lbs: U64): Extent
    requires lbs != 0
  {
    Extent(START_BYTE / lbs, Sub(Sub(size / lbs, ENTRIES_BYTES / lbs + HEADER_BLOCKS), 1))
  }

  /** A table is written only to a disk that opens, is blank, has a size and accepts writes. */
  predicate Formats(disks: map<string, Content>, path: string, size: U64) {
    path in disks && Blank(disks[path]) && size != 0 && disks[path].writable
  }

  class Disk {
    const devPath: string
    const diskSize: U64
    const host: Host
    var logicalBlockSize: U64
    var table: Option<Table>

    constructor (host: Host, devPath: string, diskSize: U64, logicalBlockSize: U64)
      ensures this.host == host && this.devPath == devPath && this.diskSize == diskSize
      ensures this.logicalBlockSize == logicalBlockSize && table == None
    {
      this.host, this.devPath, this.diskSize := host, devPath, diskSize;
      this.logicalBlockSize, table := logicalBlockSize, None;
    }

    /** Start an empty table in memory; without a block size 512 is taken. */
    method InitTable() returns (err: bool)
      modifies this
      ensures err == (diskSize == 0)
      ensures err ==> logicalBlockSize == old(logicalBlockSize) && table == old(table)
      ensures !err ==>
        && logicalBlockSize == (if old(logicalBlockSize) == 0 then 512 else old(logicalBlockSize))
        && table == Some(Table(Signed(logicalBlockSize), true, []))
    {
      if diskSize == 0 {
        return true;
      }
      if logicalBlockSize == 0 {
        logicalBlockSize := 512;
      }
      table := Some(Table(Signed(logicalBlockSize), true, []));
      err := false;
    }

    /** Add a partition up to the end of the disk; only the first one gets a proper start. */
    method AddPartition()
      requires table.Some? && logicalBlockSize != 0
      modifies this`table
      ensures table == Some(old(table).value.(partitions := old(table).value.partitions + [
                FirstExtent(diskSize, logicalBlockSize).(start := if old(table).value.partitions == []
                  then START_BYTE / logicalBlockSize else 0)]))
    {
      var startSector: U64 := 0;
      if |table.value.partitions| == 0 {
        startSector := START_BYTE / logicalBlockSize;
      }
      var primaryTableSize: U64 := ENTRIES_BYTES / logicalBlockSize + HEADER_BLOCKS;
      var endSector := Sub(Sub(diskSize / logicalBlockSize, primaryTableSize), 1);
      table := Some(table.value.(partitions := table.value.partitions + [Extent(startSector, endSector)]));
    }

    /** Refuse a disk that does not open or already holds a table or a file system. */
    method CheckBlank() returns (err: bool)
      ensures err == !(devPath in host.disks && Blank(host.disks[devPath]))
    {
      if devPath !in host.disks {
        return true;
      }
      if host.disks[devPath].table.Some? {
        return true;
      }
      err := |host.disks[devPath].fileSystem| != 0;
    }

    method CreateSinglePartition() returns (err: bool)
      modifies this, host
      ensures err == !Formats(old(host.disks), devPath, diskSize)
      ensures var lbs := BlockSize(old(logicalBlockSize));
              host.disks == if err then old(host.disks) else old(host.disks)[devPath := old(host.disks)[devPath].(
                table := Some(Table(Signed(lbs), true, [FirstExtent(diskSize, lbs)])))]
    {
      err := CheckBlank();
      if err {
        return;
      }
      err := InitTable();
      if err {
        return;
      }
      AddPartition();
      assert table.value.partitions == [FirstExtent(diskSize, logicalBlockSize)];
      if |table.value.partitions| == 0 {
        assert false;
      }
      err := host.Write(devPath, table.value);
    }

    method CreatePartitionTable() returns (err: bool)
      modifies this, host
      ensures err == !Formats(old(host.disks), devPath, diskSize)
      ensures host.disks == if err then old(host.disks) else old(host.disks)[devPath := old(host.disks)[devPath].(
                table := Some(Table(Signed(BlockSize(old(logicalBlockSize))), true, [])))]
    {
      err := CheckBlank();
      if err {
        return;
      }
      err := InitTable();
      if err {
        return;
      }
      err := host.Write(devPath, table.value);
    }
  }

  // --- Where the partition lies --------------------------------------------------

  /** Blocks of one copy of the partition entries. */
  function EntryBlocks(lbs: U64): int
    requires lbs != 0
  {
    ENTRIES_BYTES / lbs
  }

  /**
    Block 0 is the protective MBR, block 1 the header, then the entries; the last
    block is the backup header, before it the backup entries.
    */
  predicate WithinTables(size: U64, lbs: U64, e: Extent)
    requires lbs != 0
  {
    var blocks := size / lbs;
    && 2 + EntryBlocks(lbs) <= e.start <= e.end
    && e.end == blocks - 1 - EntryBlocks(lbs) - 1
  }

  lemma BlocksDivide(lbs: U64)
    requires lbs != 0 && ENTRIES_BYTES % lbs == 0
    ensures ENTRIES_BYTES == EntryBlocks(lbs) * lbs && EntryBlocks(lbs) >= 1
    ensures START_BYTE / lbs == 64 * EntryBlocks(lbs) && START_BYTE % lbs == 0
  {
    var n := EntryBlocks(lbs);
    assert START_BYTE == (64 * n) * lbs + 0;
    UniqueQuotient(START_BYTE, lbs, 64 * n, 0);
  }

  lemma UniqueQuotient(a: int, b: int, q: int, r: int)
    requires b > 0 && a == q * b + r && 0 <= r < b
    ensures a / b == q && a % b == r
  {
    assert a == (a / b) * b + a % b;
    Multiples(a / b - q, b);
  }

  lemma Multiples(d: int, b: int)
    requires b > 0
    ensures (d >= 1 ==> d * b >= b) && (d <= -1 ==> d * b <= -b)
  {}

  /**
    For a block size that divides the 16384 bytes of entries: the partition starts at
    1 MiB and fills exactly the usable blocks after it if and only if the disk has
    room for it.
    */
  lemma PartitionFits(size: U64, lbs: U64)
    requires lbs != 0 && ENTRIES_BYTES % lbs == 0
    ensures FirstExtent(size, lbs).start * lbs == START_BYTE
    ensures WithinTables(size, lbs, FirstExtent(size, lbs)) <==> size / lbs >= START_BYTE / lbs + EntryBlocks(lbs) + 2
  {
    BlocksDivide(lbs);
    SmallDisk(size, lbs);
  }

  /** Short of that the end lies before the start, or it wraps around to a block far beyond the disk. */
  lemma SmallDisk(size: U64, lbs: U64)
    requires lbs != 0 && ENTRIES_BYTES % lbs == 0
    ensures var e, blocks := FirstExtent(size, lbs), size / lbs;
            && (blocks >= EntryBlocks(lbs) + 2 ==> e.end == blocks - EntryBlocks(lbs) - 2)
            && (blocks < EntryBlocks(lbs) + 2 ==> e.end == TWO_64 + blocks - EntryBlocks(lbs) - 2 && e.end > blocks)
  {
    BlocksDivide(lbs);
    EndMeans(size / lbs, EntryBlocks(lbs));
  }

  lemma EndMeans(blocks: U64, n: int)
    requires 1 <= n <= ENTRIES_BYTES
    ensures Sub(Sub(blocks, n + 1), 1) == if blocks >= n + 2 then blocks - n - 2 else TWO_64 + blocks - n - 2
  {
    SubMeans(blocks, n + 1);
    SubMeans(Sub(blocks, n + 1), 1);
  }

  lemma SubMeans(a: U64, b: U64)
    ensures Sub(a, b) == if b <= a then a - b else TWO_64 + a - b
  {}
}
