/** The running checksum object and its table, as the program fills and updates them. */
module Checksum {
  import opened Words
  import opened BitXor
  import opened Crc32c

  predicate IsTable(table: seq<u32>) {
    |table| == 256 && forall i :: 0 <= i < 256 ==> table[i] == TableEntry(i)
  }

  lemma Lookup(table: seq<u32>, c: u32, b: byte)
    requires IsTable(table)
    ensures Xor32(table[Xor32(c, b) % 256], c / 256) == UpdateByte(c, b)
  {
  }

  lemma StepUnfold(c: u32, k: nat)
    requires k > 0
    ensures Steps(c, k) == Steps(if c % 2 == 1 then Xor32(POLY, c / 2) else c / 2, k - 1)
    ensures Steps(c, 0) == c
  {
  }

  lemma EntryIsEightSteps(i: byte)
    ensures TableEntry(i) == Steps(i, 8)
  {
  }

  method FillTable(table: array<u32>)
    requires table.Length == 256
    modifies table
    ensures IsTable(table[..])
  {
    hide Steps, Xor32, TableEntry;
    for i := 0 to 256
      invariant forall j :: 0 <= j < i ==> table[j] == TableEntry(j)
    {
      EntryIsEightSteps(i);
      var c := i;
      ghost var done := table[..i];
      for k := 0 to 8
        invariant 0 <= c <= U32_MAX
        invariant Steps(c, 8 - k) == TableEntry(i)
        invariant table[..i] == done
      {
        StepUnfold(c, 8 - k);
        c := if c % 2 == 1 then Xor32(POLY, c / 2) else c / 2;
      }
      StepUnfold(c, 1);
      assert c == TableEntry(i);
      table[i] := c;
      assert forall j :: 0 <= j < i ==> table[j] == done[j];
    }
  }

  class Crc32 {
    const table: array<u32>
    var crc: u32

    ghost predicate Valid()
      reads this, table
    {
      IsTable(table[..])
    }

    constructor (table: array<u32>)
      requires IsTable(table[..])
      ensures Valid() && this.table == table && crc == U32_MAX
    {
      this.table := table;
      crc := U32_MAX;
    }

    method Add(data: seq<byte>)
      requires Valid()
      modifies this
      ensures Valid() && crc == Update(old(crc), data)
    {
      var c := crc;
      for i := 0 to |data|
        invariant c == Update(crc, data[..i])
      {
        ghost var next := UpdateByte(c, data[i]);
        assert next == Update(crc, data[..i + 1]) by { UpdateNext(crc, data, i); }
        var index := Xor32(c, data[i]) % 256;
        var high := c / 256;
        assert Xor32(table[index], high) == next by { Lookup(table[..], c, data[i]); }
        c := Xor32(table[index], high);
      }
      assert data[..|data|] == data;
      crc := c;
    }

    method Final() returns (x: u32)
      ensures x == U32_MAX - crc
    {
      x := U32_MAX - crc;
    }
  }

  /** The one-shot checksum of a buffer. */
  method ComputeCrc(table: array<u32>, data: seq<byte>) returns (x: u32)
    requires IsTable(table[..])
    ensures x == Crc(data)
  {
    var c := new Crc32(table);
    c.Add(data);
    x := c.Final();
  }
}
