/**
 * The checksum of a PNG chunk: eight bit steps a byte folded into one table look-up
 * (packages/testing/src/test-image.support.ts). The reference is the bit-serial CRC-32 of
 * section 3.4 of RFC 2083.
 */
module Crc {
  import opened Folds

  type Word = bv32
  type Byte = w: Word | w <= 0xff

  const POLYNOMIAL: Word := 0xedb88320
  const ONES: Word := 0xffffffff
  const BITS: nat := 8
  const SIZE: nat := 256

  // ---------------------------------------------------------------- the reference, bit by bit

  /** One step of the division by the reversed polynomial, lowest bit first. */
  function BitStep(value: Word): Word {
    if value & 1 == 1 then POLYNOMIAL ^ (value >> 1) else value >> 1
  }

  /** One message bit joins the lowest bit of the register before the register steps. */
  function Feed(register: Word, bit: Word): Word {
    BitStep(register ^ bit)
  }

  /** The lowest `bits` bits of a byte, lowest first. */
  function FeedBits(register: Word, byte: Word, bits: nat): Word
    decreases bits
  {
    if bits == 0 then register else FeedBits(Feed(register, byte & 1), byte >> 1, bits - 1)
  }

  function FeedByte(register: Word, byte: Byte): Word {
    FeedBits(register, byte, BITS)
  }

  /** Every bit of every byte goes through a register that starts with all ones. */
  function Reference(bytes: seq<Byte>): Word {
    Folded(FeedByte, ONES, bytes) ^ ONES
  }

  // ---------------------------------------------------------------- the step is linear

  function Xor(a: Word, b: Word): Word {
    a ^ b
  }

  function Repeated<T>(f: T -> T, value: T, times: nat): T
    decreases times
  {
    if times == 0 then value else Repeated(f, f(value), times - 1)
  }

  /** Eight steps of a value that no message bit joins: what the table holds for a byte. */
  function Eight(value: Word): Word {
    Repeated(BitStep, value, BITS)
  }

  lemma {:induction false} Halves(a: Word, b: Word)
    ensures (a ^ b) >> 1 == (a >> 1) ^ (b >> 1)
    ensures (a ^ b) & 1 == 1 <==> ((a & 1 == 1) != (b & 1 == 1))
  {
  }

  lemma {:induction false} XorRegroups(p: Word, x: Word, y: Word)
    ensures (p ^ x) ^ (p ^ y) == x ^ y && (p ^ x) ^ y == p ^ (x ^ y) && x ^ (p ^ y) == p ^ (x ^ y)
  {
  }

  lemma {:induction false} StepIsLinear(a: Word, b: Word)
    ensures BitStep(a ^ b) == BitStep(a) ^ BitStep(b)
  {
    Halves(a, b);
    XorRegroups(POLYNOMIAL, a >> 1, b >> 1);
  }

  /** What one application of `f` respects, any number of applications respects. */
  lemma {:induction false} RepeatedRespects<T(!new)>(f: T -> T, join: (T, T) -> T, a: T, b: T, times: nat)
    requires forall x, y :: f(join(x, y)) == join(f(x), f(y))
    ensures Repeated(f, join(a, b), times) == join(Repeated(f, a, times), Repeated(f, b, times))
    decreases times
  {
    if times > 0 {
      RepeatedRespects(f, join, f(a), f(b), times - 1);
    }
  }

  lemma {:induction false} StepsAreLinear(a: Word, b: Word, times: nat)
    ensures Repeated(BitStep, Xor(a, b), times) == Xor(Repeated(BitStep, a, times), Repeated(BitStep, b, times))
  {
    forall x, y
      ensures BitStep(Xor(x, y)) == Xor(BitStep(x), BitStep(y))
    {
      StepIsLinear(x, y);
    }
    RepeatedRespects(BitStep, Xor, a, b, times);
  }

  // ---------------------------------------------------------------- feeding a byte at once

  lemma {:induction false} LowBitFirst(register: Word, byte: Word)
    ensures BitStep(register ^ byte) == Feed(register, byte & 1) ^ (byte >> 1)
  {
    assert (register ^ (byte & 1)) & 1 == 1 <==> (register ^ byte) & 1 == 1;
    assert (register ^ (byte & 1)) >> 1 == register >> 1;
    assert (register ^ byte) >> 1 == (register >> 1) ^ (byte >> 1);
    if (register ^ byte) & 1 == 1 {
      assert POLYNOMIAL ^ ((register >> 1) ^ (byte >> 1)) == (POLYNOMIAL ^ (register >> 1)) ^ (byte >> 1);
    } else {
    }
  }

  predicate FitsIn(byte: Word, bits: nat)
    decreases bits
  {
    if bits == 0 then byte == 0 else FitsIn(byte >> 1, bits - 1)
  }

  lemma {:induction false} ByteFits(byte: Byte)
    ensures FitsIn(byte, BITS)
  {
  }

  /** The bits of a byte may all join the register before the first step. */
  lemma {:induction false} FeedingIsStepping(register: Word, byte: Word, bits: nat)
    requires FitsIn(byte, bits)
    ensures FeedBits(register, byte, bits) == Repeated(BitStep, Xor(register, byte), bits)
    decreases bits
  {
    if bits == 0 {
      assert register ^ 0 == register;
    } else {
      LowBitFirst(register, byte);
      FeedingIsStepping(Feed(register, byte & 1), byte >> 1, bits - 1);
    }
  }

  lemma {:induction false} StepsOfHighBits(value: Word)
    requires value & 0xff == 0
    ensures Eight(value) == value >> 8
  {
  }

  lemma {:induction false} SplitsLowByte(value: Word)
    ensures value == (value & 0xff) ^ (value & 0xffffff00)
    ensures (value & 0xffffff00) & 0xff == 0 && (value & 0xffffff00) >> 8 == value >> 8
  {
  }

  /** Eight bit steps are one look-up in a table over the lowest byte. */
  lemma {:induction false} EightStepsAreOneLookUp(value: Word)
    ensures Eight(value) == Eight(value & 0xff) ^ (value >> 8)
  {
    SplitsLowByte(value);
    StepsAreLinear(value & 0xff, value & 0xffffff00, BITS);
    StepsOfHighBits(value & 0xffffff00);
  }

  lemma {:induction false} ByteStaysLow(register: Word, byte: Byte)
    ensures (register ^ byte) >> 8 == register >> 8
  {
  }

  lemma {:induction false} FeedingIsEight(register: Word, byte: Byte)
    ensures FeedBits(register, byte, BITS) == Eight(register ^ byte)
  {
    ByteFits(byte);
    FeedingIsStepping(register, byte, BITS);
  }

  /** What the loop does for a byte is what feeding its eight bits does. */
  lemma {:induction false} FeedingAByte(register: Word, byte: Byte, joined: Word)
    requires joined == register ^ byte
    ensures FeedBits(register, byte, BITS) == Eight(joined & 0xff) ^ (register >> 8)
  {
    FeedingIsEight(register, byte);
    ByteStaysLow(register, byte);
    EightStepsAreOneLookUp(joined);
  }

  // ---------------------------------------------------------------- the table and its loop

  /** A byte as an index into the table. */
  function Index(byte: Byte): (index: nat)
    ensures index < 256 && index as Word == byte
  {
    byte as nat
  }

  function Entry(index: nat): Word
    requires index < SIZE
  {
    Eight(index as Word)
  }

  /** The first entries of a table. */
  function Listed<T>(entry: nat --> T, count: nat): (entries: seq<T>)
    requires forall i :: 0 <= i < count ==> entry.requires(i)
    ensures |entries| == count
  {
    if count == 0 then [] else Listed(entry, count - 1) + [entry(count - 1)]
  }

  lemma {:induction false} ListedAt<T>(entry: nat --> T, count: nat, index: nat)
    requires index < count && forall i :: 0 <= i < count ==> entry.requires(i)
    ensures Listed(entry, count)[index] == entry(index)
    decreases count
  {
    if index < count - 1 {
      ListedAt(entry, count - 1, index);
    }
  }

  ghost predicate IsTable(table: seq<Word>) {
    table == Listed(Entry, SIZE)
  }

  lemma {:induction false} RepeatedGoesOn<T>(f: T -> T, value: T, times: nat)
    ensures Repeated(f, value, times + 1) == f(Repeated(f, value, times))
    decreases times
  {
    if times > 0 {
      RepeatedGoesOn(f, f(value), times - 1);
    }
  }

  method BuildEntry(index: nat) returns (value: Word)
    requires index < SIZE
    ensures value == Entry(index)
  {
    var start := index as Word;
    value := start;
    for bit := 0 to BITS
      invariant value == Repeated(BitStep, start, bit)
    {
      RepeatedGoesOn(BitStep, start, bit);
      value := if value & 1 == 1 then POLYNOMIAL ^ (value >> 1) else value >> 1;
    }
  }

  method BuildTable() returns (table: array<Word>)
    ensures fresh(table) && IsTable(table[..])
  {
    table := new Word[SIZE];
    for index := 0 to SIZE
      invariant table[..index] == Listed(Entry, index)
    {
      var value := BuildEntry(index);
      table[index] := value;
    }
    assert table[..] == table[..SIZE];
  }

  lemma {:induction false} TableHolds(table: seq<Word>, byte: Byte)
    requires IsTable(table)
    ensures table[Index(byte)] == Eight(byte)
  {
    ListedAt(Entry, SIZE, Index(byte));
  }

  method FeedFromTable(table: array<Word>, crc: Word, byte: Byte) returns (next: Word)
    requires IsTable(table[..])
    ensures next == FeedByte(crc, byte)
  {
    var joined := crc ^ byte;
    var low: Byte := joined & 0xff;
    TableHolds(table[..], low);
    FeedingAByte(crc, byte, joined);
    next := table[Index(low)] ^ (crc >> 8);
  }

  method FromTable(table: array<Word>, bytes: seq<Byte>) returns (crc: Word)
    requires IsTable(table[..])
    ensures crc == Folded(FeedByte, ONES, bytes)
  {
    crc := ONES;
    for at := 0 to |bytes|
      invariant crc == Folded(FeedByte, ONES, bytes[..at])
    {
      FoldedGoesOn(FeedByte, ONES, bytes, at);
      crc := FeedFromTable(table, crc, bytes[at]);
    }
    assert bytes[..|bytes|] == bytes;
  }

  /** The table, built once, and the loop over it compute the bit-serial checksum. */
  method Crc32(bytes: seq<Byte>) returns (checksum: Word)
    ensures checksum == Reference(bytes)
  {
    var table := BuildTable();
    var crc := FromTable(table, bytes);
    checksum := crc ^ ONES;
  }

  // ---------------------------------------------------------------- what the checksum notices

  ghost predicate Injective<T(!new)>(f: T -> T) {
    forall x, y :: f(x) == f(y) ==> x == y
  }

  lemma {:induction false} StepIsInjective()
    ensures Injective(BitStep)
  {
    forall x, y | BitStep(x) == BitStep(y)
      ensures x == y
    {
      StepsBack(x, y);
    }
  }

  lemma {:induction false} StepsBack(x: Word, y: Word)
    requires BitStep(x) == BitStep(y)
    ensures x == y
  {
    LowBitShowsOnTop(x);
    LowBitShowsOnTop(y);
    XorRegroups(POLYNOMIAL, x >> 1, y >> 1);
  }

  lemma {:induction false} LowBitShowsOnTop(value: Word)
    ensures BitStep(value) >> 31 == value & 1
    ensures value == ((value >> 1) << 1) ^ (value & 1)
  {
  }

  lemma {:induction false} RepeatedIsInjective<T(!new)>(f: T -> T, x: T, y: T, times: nat)
    requires Injective(f) && x != y
    ensures Repeated(f, x, times) != Repeated(f, y, times)
    decreases times
  {
    if times > 0 {
      RepeatedIsInjective(f, f(x), f(y), times - 1);
    }
  }

  lemma {:induction false} XorKeepsApart(register: Word, other: Word, byte: Word, changed: Word)
    ensures register != other ==> register ^ byte != other ^ byte
    ensures byte != changed ==> register ^ byte != register ^ changed
  {
  }

  lemma {:induction false} FeedingKeepsApart(register: Word, other: Word, byte: Byte)
    requires register != other
    ensures FeedByte(register, byte) != FeedByte(other, byte)
  {
    XorKeepsApart(register, other, byte, byte);
    StepIsInjective();
    RepeatedIsInjective(BitStep, register ^ byte, other ^ byte, BITS);
    FeedingIsEight(register, byte);
    FeedingIsEight(other, byte);
  }

  lemma {:induction false} ChangeShows(register: Word, byte: Byte, changed: Byte)
    requires byte != changed
    ensures FeedByte(register, byte) != FeedByte(register, changed)
  {
    XorKeepsApart(register, register, byte, changed);
    StepIsInjective();
    RepeatedIsInjective(BitStep, register ^ byte, register ^ changed, BITS);
    FeedingIsEight(register, byte);
    FeedingIsEight(register, changed);
  }

  lemma {:induction false} ApartStaysApart<S(!new), T(!new)>(
    f: (S, T) -> S, start: S, items: seq<T>, at: nat, changed: T)
    requires at < |items|
    requires forall x, y, item :: x != y ==> f(x, item) != f(y, item)
    requires forall x :: f(x, items[at]) != f(x, changed)
    ensures Folded(f, start, items) != Folded(f, start, items[at := changed])
    decreases |items|
  {
    var last, other := |items| - 1, items[at := changed];
    if at == last {
      assert other[..last] == items[..last];
    } else {
      assert other[..last] == items[..last][at := changed];
      ApartStaysApart(f, start, items[..last], at, changed);
    }
  }

  /** No change of a single byte goes unnoticed, wherever it is and however long the message. */
  lemma {:induction false} OneByteChangeIsNoticed(bytes: seq<Byte>, at: nat, changed: Byte)
    requires at < |bytes| && changed != bytes[at]
    ensures Reference(bytes[at := changed]) != Reference(bytes)
  {
    forall x, y, byte | x != y
      ensures FeedByte(x, byte) != FeedByte(y, byte)
    {
      FeedingKeepsApart(x, y, byte);
    }
    forall x
      ensures FeedByte(x, bytes[at]) != FeedByte(x, changed)
    {
      ChangeShows(x, bytes[at], changed);
    }
    ApartStaysApart(FeedByte, ONES, bytes, at, changed);
    XorKeepsApart(Folded(FeedByte, ONES, bytes), Folded(FeedByte, ONES, bytes[at := changed]), ONES, ONES);
  }
}
