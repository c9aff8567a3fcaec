/**
 * Reconstruction of a function's last line number from its code object's
 * line-number table (`co_lnotab`): a sequence of byte pairs
 * (address increment, line increment), each relative to the previous pair.
 */
module LineTable {

  /** One byte of a line-number table. */
  type Byte = b: int | 0 <= b < 256

  /** The sum of the line increments, i.e. of the bytes at odd indices. */
  function LineIncrements(table: seq<Byte>): nat
  {
    if |table| < 2 then 0 else table[1] + LineIncrements(table[2..])
  }

  /** The last line of a function: its first line moved forward by every line increment. */
  function FindLastLineNumber(firstLine: int, table: seq<Byte>): (last: int)
    ensures last >= firstLine
    ensures |table| < 2 ==> last == firstLine
  {
    firstLine + LineIncrements(table)
  }

  /**
   * The source's loop: start at the first line and add every second byte,
   * beginning at index 1.
   */
  method FindLastLineNumberLoop(firstLine: int, table: seq<Byte>) returns (last: int)
    ensures last == FindLastLineNumber(firstLine, table)
  {
    last := firstLine;
    var i := 1;
    while i < |table|
      invariant 1 <= i <= |table| + 1
      invariant i % 2 == 1
      invariant last == firstLine + LineIncrements(table[..i - 1])
    {
      IncrementsOfNextPair(table, i - 1);
      last := last + table[i];
      i := i + 2;
    }
    IncrementsIgnoreTrailingByte(table, i - 1);
  }

  /** Concatenating whole pairs in front adds their increments. */
  lemma {:induction false} IncrementsAppend(a: seq<Byte>, b: seq<Byte>)
    requires |a| % 2 == 0
    ensures LineIncrements(a + b) == LineIncrements(a) + LineIncrements(b)
    decreases |a|
  {
    if |a| == 0 {
      assert a + b == b;
    } else {
      assert (a + b)[2..] == a[2..] + b;
      IncrementsAppend(a[2..], b);
    }
  }

  /** Extending an even prefix by one pair adds that pair's line increment. */
  lemma IncrementsOfNextPair(table: seq<Byte>, k: nat)
    requires k % 2 == 0 && k + 2 <= |table|
    ensures LineIncrements(table[..k + 2]) == LineIncrements(table[..k]) + table[k + 1]
  {
    assert table[..k + 2] == table[..k] + table[k..k + 2];
    IncrementsAppend(table[..k], table[k..k + 2]);
  }

  /** A prefix that drops at most one trailing (address) byte has all the increments. */
  lemma IncrementsIgnoreTrailingByte(table: seq<Byte>, k: nat)
    requires k % 2 == 0 && |table| - 1 <= k <= |table|
    ensures LineIncrements(table[..k]) == LineIncrements(table)
  {
    if k < |table| {
      assert table == table[..k] + table[k..];
      IncrementsAppend(table[..k], table[k..]);
    } else {
      assert table[..k] == table;
    }
  }

  /** Bytes at even indices (address increments) never affect the result. */
  lemma {:induction false} AddressBytesIgnored(firstLine: int, t: seq<Byte>, u: seq<Byte>)
    requires |t| == |u|
    requires forall i :: 0 <= i < |t| && i % 2 == 1 ==> t[i] == u[i]
    ensures FindLastLineNumber(firstLine, t) == FindLastLineNumber(firstLine, u)
    decreases |t|
  {
    if |t| >= 2 {
      assert t[1] == u[1];
      forall i | 0 <= i < |t[2..]| && i % 2 == 1
        ensures t[2..][i] == u[2..][i]
      {
        assert t[i + 2] == u[i + 2];
      }
      AddressBytesIgnored(firstLine, t[2..], u[2..]);
    }
  }

  /** Line increments of a prefix never exceed those of the whole table. */
  lemma {:induction false} PrefixIncrementsBounded(table: seq<Byte>, k: nat)
    requires k <= |table|
    ensures LineIncrements(table[..k]) <= LineIncrements(table)
    decreases |table|
  {
    if k >= 2 {
      assert table[..k][2..] == table[2..][..k - 2];
      PrefixIncrementsBounded(table[2..], k - 2);
    }
  }

  /**
   * Under the source's unsigned reading of the bytes (autologging.py:525),
   * the reconstructed last line is the largest line reached at any point
   * while decoding the table. CPython 3.6 and later store signed line
   * increments; that reading is not modelled.
   */
  lemma LastLineIsMaximum(firstLine: int, table: seq<Byte>, k: nat)
    requires k <= |table|
    ensures firstLine + LineIncrements(table[..k]) <= FindLastLineNumber(firstLine, table)
  {
    PrefixIncrementsBounded(table, k);
  }
}
