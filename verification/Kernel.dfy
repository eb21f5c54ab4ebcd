// The calls that a receiver makes, as one process alone would see them: a table of numbers
// and a disk with names. The calls made are recorded with their results.
module Kernel {
  import opened Common
  import opened Descriptors

  type Disk = map<string, Bytes>

  // Numbers with the names they were opened under, and what is on disk.
  datatype Volume = Volume(table: map<int, string>, disk: Disk) {
    function Opened(name: string, n: int): Volume {
      if n >= 0 then Volume(table[n := name], disk[name := []]) else this
    }

    function Written(n: int, b: Bytes): Volume {
      if n in table && table[n] in disk then this.(disk := disk[table[n] := disk[table[n]] + b]) else this
    }

    function Closed(n: int): Volume { this.(table := table - {n}) }

    function Removed(name: string): Volume { this.(disk := disk - {name}) }
  }

  // What one thread sees of it: its file_name, and the volume.
  datatype Place = Place(file: string, v: Volume) {
    function Opened(name: string, n: int): Place { Place(name, v.Opened(name, n)) }

    function Written(n: int, b: Bytes): Place { this.(v := v.Written(n, b)) }

    function Closed(n: int): Place { this.(v := v.Closed(n)) }

    function Removed(): Place { this.(v := v.Removed(file)) }
  }

  class Files {
    var table: map<int, string>
    var disk: Disk
    ghost var calls: seq<Call>

    function Now(): Volume
      reads this
    {
      Volume(table, disk)
    }

    constructor (table: map<int, string>, disk: Disk)
      ensures this.table == table && this.disk == disk && calls == []
    {
      this.table, this.disk, calls := table, disk, [];
    }

    // open(name, O_CREAT | O_TRUNC), to which the system may offer a number
    method Open(name: string, offered: int) returns (n: int)
      modifies this
      ensures n == if 0 <= offered < 0x8000_0000 && offered !in old(table) then offered else -1
      ensures calls == old(calls) + [OpenAt(n)]
      ensures Now() == old(Now()).Opened(name, n)
    {
      n := -1;
      if 0 <= offered < 0x8000_0000 && offered !in table {
        n := offered;
        table := table[n := name];
        disk := disk[name := []];
      }
      calls := calls + [OpenAt(n)];
    }

    method Write(n: int, b: Bytes)
      modifies this`disk, this`calls
      ensures calls == old(calls) + [PutAt(n, b)] && Now() == old(Now()).Written(n, b)
    {
      disk := Now().Written(n, b).disk;
      calls := calls + [PutAt(n, b)];
    }

    // lseek to the end, write a pad, truncate it away: the disk is as before (src/store.c:561-563).
    method PadAndTruncate(n: int, pad: Bytes)
      modifies this`disk, this`calls
      ensures calls == old(calls) + [PadAt(n)] && disk == old(disk)
    {
      if n in table && table[n] in disk {
        var name := table[n];
        var length := |disk[name]|;
        disk := disk[name := disk[name] + pad];
        disk := disk[name := disk[name][..length]];
        assert disk[name] == old(disk)[name];
      }
      calls := calls + [PadAt(n)];
    }

    // lseek(n, 0, SEEK_END)
    method Length(n: int) returns (length: int)
      modifies this`calls
      ensures calls == old(calls) + [SeekAt(n)]
      ensures length == if n in table && table[n] in disk then |disk[table[n]]| else -1
    {
      length := if n in table && table[n] in disk then |disk[table[n]]| else -1;
      calls := calls + [SeekAt(n)];
    }

    method Close(n: int)
      modifies this`table, this`calls
      ensures calls == old(calls) + [CloseAt(n)] && Now() == old(Now()).Closed(n)
    {
      table := table - {n};
      calls := calls + [CloseAt(n)];
    }

    method Unlink(name: string)
      modifies this`disk, this`calls
      ensures calls == old(calls) + [Remove] && Now() == old(Now()).Removed(name)
    {
      disk := disk - {name};
      calls := calls + [Remove];
    }
  }
}
