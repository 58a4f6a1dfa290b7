/** An in-memory stand-in for the probe on the two-wire bus: a 56-byte register
    file with a register pointer, and the log of every transaction a driver
    performs. A write transaction [r, d0, ..., dk] selects register r and stores
    d0..dk at r, r+1, ... (the pointer advancing past each byte); a one-byte read
    returns the byte under the pointer and advances it. The stand-in runs no
    device firmware: a command only lands in the task register. */
module Bus {
  import opened Binary32
  import opened RegisterMap

  datatype Transaction =
    | Write(addr: int, bytes: seq<bv8>)   // one write transaction to bus address addr
    | Read(addr: int, value: bv8)         // one single-byte read transaction

  type Registers = r: seq<bv8> | |r| == Size witness seq(Size, _ => 0)

  /** A `uint8_t` argument or field used as a number (bus address, EEPROM cell). */
  type Uint8 = x: int | 0 <= x < 256

  /** The register file after `data` is stored from register r on; bytes that
      would land past register 55 are dropped. */
  function Written(regs: Registers, r: nat, data: seq<bv8>): Registers {
    seq(Size, i requires 0 <= i < Size => if r <= i < r + |data| then data[i - r] else regs[i])
  }

  /** Storing nothing leaves the register file as it is. */
  lemma WrittenNothing(regs: Registers, r: nat)
    ensures Written(regs, r, []) == regs
  {
  }

  /** Storing one more byte updates one more register, unless it falls past the end. */
  lemma WrittenStep(regs: Registers, r: nat, data: seq<bv8>, v: bv8)
    ensures Written(regs, r, data + [v])
      == if r + |data| < Size then Written(regs, r, data)[r + |data| := v] else Written(regs, r, data)
  {
  }

  /** The effect of one write transaction on the register file. */
  function Store(regs: Registers, frame: seq<bv8>): Registers {
    if frame == [] then regs else Written(regs, frame[0] as nat, frame[1..])
  }

  function StoreByte(regs: Registers, r: nat, v: bv8): Registers {
    Written(regs, r, [v])
  }

  function StoreFloat(regs: Registers, r: nat, f: bv32): Registers {
    Written(regs, r, Split(f))
  }

  /** The float held in registers r..r+3. */
  function LoadFloat(regs: Registers, r: nat): bv32
    requires r + 4 <= Size
  {
    Join([regs[r], regs[r + 1], regs[r + 2], regs[r + 3]])
  }

  /** The byte a read returns: past the end nothing drives the bus and it reads 0xFF. */
  function ByteAt(regs: Registers, p: nat): bv8 {
    if p < Size then regs[p] else 0xFF
  }

  /** Reading a float register returns what the last write to it stored. */
  lemma LoadAfterStore(regs: Registers, r: nat, f: bv32)
    requires r + 4 <= Size
    ensures LoadFloat(StoreFloat(regs, r, f), r) == f
  {
    JoinSplit(f);
  }

  /** A float write changes bytes r..r+3 and nothing else. */
  lemma StoreFloatFrame(regs: Registers, r: nat, f: bv32, i: nat)
    requires i < Size && (i < r || r + 4 <= i)
    ensures StoreFloat(regs, r, f)[i] == regs[i]
  {
  }

  /** A float write leaves every float register it does not overlap unchanged. */
  lemma LoadAfterStoreElsewhere(regs: Registers, r: nat, f: bv32, q: nat)
    requires q + 4 <= Size && (q + 4 <= r || r + 4 <= q)
    ensures LoadFloat(StoreFloat(regs, r, f), q) == LoadFloat(regs, q)
  {
  }

  /** A byte write leaves every float register not containing that byte unchanged. */
  lemma LoadAfterStoreByte(regs: Registers, b: nat, v: bv8, q: nat)
    requires q + 4 <= Size && (b < q || q + 4 <= b)
    ensures LoadFloat(StoreByte(regs, b, v), q) == LoadFloat(regs, q)
  {
  }

  /** The transactions on the bus so far, oldest first: Then(t, x) is t followed by x. */
  datatype Log = Start | Then(earlier: Log, last: Transaction)

  /** A one-byte register select followed by one one-byte read. */
  function ReadByteTrace(t: Log, a: int, regs: Registers, r: nat): Log
    requires r < Size
  {
    Then(Then(t, Write(a, [r as bv8])), Read(a, regs[r]))
  }

  /** Register select followed by four one-byte reads. */
  function ReadFloatTrace(t: Log, a: int, regs: Registers, r: nat): Log
    requires r + 4 <= Size
  {
    Then(Then(Then(Then(Then(t, Write(a, [r as bv8])), Read(a, regs[r])), Read(a, regs[r + 1])),
      Read(a, regs[r + 2])), Read(a, regs[r + 3]))
  }

  /** Reads of several float registers, one after the other. */
  function ReadsTrace(t: Log, a: int, regs: Registers, rs: seq<nat>): Log
    requires forall i :: 0 <= i < |rs| ==> rs[i] + 4 <= Size
  {
    if rs == [] then t else ReadFloatTrace(ReadsTrace(t, a, regs, rs[..|rs| - 1]), a, regs, rs[|rs| - 1])
  }

  /** Reading registers xs and then registers ys is reading xs + ys. */
  lemma {:induction false} ReadsTraceAppend(t: Log, a: int, regs: Registers, xs: seq<nat>, ys: seq<nat>)
    requires forall i :: 0 <= i < |xs| ==> xs[i] + 4 <= Size
    requires forall i :: 0 <= i < |ys| ==> ys[i] + 4 <= Size
    ensures ReadsTrace(t, a, regs, xs + ys) == ReadsTrace(ReadsTrace(t, a, regs, xs), a, regs, ys)
  {
    if ys == [] {
      assert xs + ys == xs;
    } else {
      var ys' := ys[..|ys| - 1];
      assert (xs + ys)[..|xs + ys| - 1] == xs + ys';
      ReadsTraceAppend(t, a, regs, xs, ys');
    }
  }

  /** One write transaction [r, v]. */
  function WriteByteTrace(t: Log, a: int, r: nat, v: bv8): Log
    requires r < Size
  {
    Then(t, Write(a, [r as bv8, v]))
  }

  /** A command: the opcode written to the task register. */
  function CommandTrace(t: Log, a: int, op: bv8): Log {
    WriteByteTrace(t, a, TaskRegister, op)
  }

  /** Registers selected by the one-byte writes of a log, in order. */
  function Selected(t: Log): (rs: seq<nat>)
  {
    if t.Start? then []
    else Selected(t.earlier) + (if t.last.Write? && |t.last.bytes| == 1 then [t.last.bytes[0] as nat] else [])
  }

  /** A float read selects exactly its register. */
  lemma SelectedOfFloatRead(t: Log, a: int, regs: Registers, r: nat)
    requires r + 4 <= Size
    ensures Selected(ReadFloatTrace(t, a, regs, r)) == Selected(t) + [r]
  {
    RegisterByte(r);
    var t1 := Then(t, Write(a, [r as bv8]));
    var t2 := Then(t1, Read(a, regs[r]));
    var t3 := Then(t2, Read(a, regs[r + 1]));
    var t4 := Then(t3, Read(a, regs[r + 2]));
    assert Selected(t1) == Selected(t) + [r];
    assert Selected(t2) == Selected(t1) + [];
    assert Selected(t3) == Selected(t2) + [];
    assert Selected(t4) == Selected(t3) + [];
    assert Selected(Then(t4, Read(a, regs[r + 3]))) == Selected(t4) + [];
  }

  /** The registers a sequence of float reads selects are exactly those registers. */
  lemma {:induction false} ReadsTraceSelects(t: Log, a: int, regs: Registers, rs: seq<nat>)
    requires forall i :: 0 <= i < |rs| ==> rs[i] + 4 <= Size
    ensures Selected(ReadsTrace(t, a, regs, rs)) == Selected(t) + rs
  {
    if rs == [] {
      assert Selected(t) + rs == Selected(t);
    } else {
      var r := rs[|rs| - 1];
      ReadsTraceSelects(t, a, regs, rs[..|rs| - 1]);
      SelectedOfFloatRead(ReadsTrace(t, a, regs, rs[..|rs| - 1]), a, regs, r);
      assert rs[..|rs| - 1] + [r] == rs;
    }
  }

  /** Registers the data-carrying writes of a log (a register byte followed by
      at least one data byte) store from, in order. */
  function Stored(t: Log): (rs: seq<nat>)
  {
    if t.Start? then []
    else Stored(t.earlier) + (if t.last.Write? && |t.last.bytes| >= 2 then [t.last.bytes[0] as nat] else [])
  }

  /** A byte write stores at its register and selects nothing. */
  lemma WriteByteTraceOrder(t: Log, a: int, r: nat, v: bv8)
    requires r < Size
    ensures Stored(WriteByteTrace(t, a, r, v)) == Stored(t) + [r]
    ensures Selected(WriteByteTrace(t, a, r, v)) == Selected(t)
  {
    RegisterByte(r);
    assert Selected(WriteByteTrace(t, a, r, v)) == Selected(t) + [];
  }

  /** A byte read selects its register and stores nothing. */
  lemma ReadByteTraceOrder(t: Log, a: int, regs: Registers, r: nat)
    requires r < Size
    ensures Selected(ReadByteTrace(t, a, regs, r)) == Selected(t) + [r]
    ensures Stored(ReadByteTrace(t, a, regs, r)) == Stored(t)
  {
    RegisterByte(r);
    var t1 := Then(t, Write(a, [r as bv8]));
    assert Selected(t1) == Selected(t) + [r];
    assert Stored(t1) == Stored(t) + [];
    assert Selected(Then(t1, Read(a, regs[r]))) == Selected(t1) + [];
    assert Stored(Then(t1, Read(a, regs[r]))) == Stored(t1) + [];
  }

  /** A float read stores nothing. */
  lemma ReadFloatTraceStoresNothing(t: Log, a: int, regs: Registers, r: nat)
    requires r + 4 <= Size
    ensures Stored(ReadFloatTrace(t, a, regs, r)) == Stored(t)
  {
    var t1 := Then(t, Write(a, [r as bv8]));
    var t2 := Then(t1, Read(a, regs[r]));
    var t3 := Then(t2, Read(a, regs[r + 1]));
    var t4 := Then(t3, Read(a, regs[r + 2]));
    assert Stored(t1) == Stored(t) + [];
    assert Stored(t2) == Stored(t1) + [];
    assert Stored(t3) == Stored(t2) + [];
    assert Stored(t4) == Stored(t3) + [];
    assert Stored(Then(t4, Read(a, regs[r + 3]))) == Stored(t4) + [];
  }

  /** A run of float reads stores nothing. */
  lemma {:induction false} ReadsTraceStoresNothing(t: Log, a: int, regs: Registers, rs: seq<nat>)
    requires forall i :: 0 <= i < |rs| ==> rs[i] + 4 <= Size
    ensures Stored(ReadsTrace(t, a, regs, rs)) == Stored(t)
  {
    if rs != [] {
      ReadsTraceStoresNothing(t, a, regs, rs[..|rs| - 1]);
      ReadFloatTraceStoresNothing(ReadsTrace(t, a, regs, rs[..|rs| - 1]), a, regs, rs[|rs| - 1]);
    }
  }

  class RegisterFile {
    var regs: Registers
    var pointer: nat
    var trace: Log

    constructor (initial: Registers)
      ensures regs == initial && pointer == 0 && trace == Start
    {
      regs := initial;
      pointer := 0;
      trace := Start;
    }

    /** One write transaction: the first byte selects a register, the rest are stored from it on. */
    method Transmit(addr: int, frame: seq<bv8>)
      modifies this
      ensures regs == Store(old(regs), frame)
      ensures pointer == if frame == [] then old(pointer) else frame[0] as nat + |frame| - 1
      ensures trace == Then(old(trace), Write(addr, frame))
    {
      if frame != [] {
        StoreFrom(frame[0] as nat, frame[1..]);
        pointer := frame[0] as nat + |frame| - 1;
      }
      trace := Then(trace, Write(addr, frame));
    }

    /** Stores data at registers r, r+1, ..., one byte at a time. */
    method StoreFrom(r: nat, data: seq<bv8>)
      modifies this
      ensures regs == Written(old(regs), r, data)
      ensures trace == old(trace) && pointer == old(pointer)
    {
      var k := 0;
      WrittenNothing(regs, r);
      while k < |data|
        invariant 0 <= k <= |data|
        invariant regs == Written(old(regs), r, data[..k])
        invariant trace == old(trace) && pointer == old(pointer)
      {
        WrittenStep(old(regs), r, data[..k], data[k]);
        assert data[..k + 1] == data[..k] + [data[k]];
        if r + k < Size {
          regs := regs[r + k := data[k]];
        }
        k := k + 1;
      }
      assert data[..|data|] == data;
    }

    /** One single-byte read transaction. */
    method Receive(addr: int) returns (b: bv8)
      modifies this
      ensures b == ByteAt(old(regs), old(pointer))
      ensures regs == old(regs) && pointer == old(pointer) + 1
      ensures trace == Then(old(trace), Read(addr, b))
    {
      b := ByteAt(regs, pointer);
      pointer := pointer + 1;
      trace := Then(trace, Read(addr, b));
    }
  }
}
