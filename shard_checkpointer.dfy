/**
 * The Kinesis shard checkpointer: it records, under one key of a metadata
 * store, the highest sequence number processed for a shard. A checkpoint is
 * written only when it is numerically greater than the stored one (or when
 * none is stored), through the store's compare-and-swap operations, and
 * nothing is written once the checkpointer has been closed.
 */
module Kinesis {

  import opened Wrappers
  import opened Decimal
  import opened Metadata

  /** The stored checkpoint for `key`, if there is one, parses as a sequence number. */
  predicate StoredIsDecimal(table: map<string, string>, key: string) {
    key in table ==> IsDecimal(table[key])
  }

  lemma DecimalHasText(s: string)
    requires IsDecimal(s)
    ensures HasText(s)
  {
    assert !IsWhitespace(s[0]);
  }

  /** What one checkpoint call does: whether it wrote, and the table afterwards. */
  datatype Outcome = Outcome(written: bool, table: map<string, string>)

  /**
   * One `checkpoint(sequenceNumber)` of an active checkpointer against the
   * table, with no other writer in between: with no stored value the number
   * is created; otherwise it replaces the stored value only when it is
   * numerically greater.
   */
  function CheckpointStep(table: map<string, string>, key: string, sequenceNumber: string): (o: Outcome)
    requires IsDecimal(sequenceNumber) && StoredIsDecimal(table, key)
    // the result is true exactly when the table changed
    ensures o.written <==> o.table != table
    // a write touches this shard's key only, and stores the given number
    ensures o.written ==> o.table == table[key := sequenceNumber]
    ensures key !in table ==> o.written
    // numeric comparison: only a strictly greater number is written
    ensures key in table ==> (o.written <==> DecimalValue(table[key]) < DecimalValue(sequenceNumber))
    ensures key in o.table && StoredIsDecimal(o.table, key)
    // the stored number never decreases, and afterwards it is at least the one offered
    ensures key in table ==> DecimalValue(table[key]) <= DecimalValue(o.table[key])
    ensures DecimalValue(sequenceNumber) <= DecimalValue(o.table[key])
  {
    if key !in table then Outcome(true, table[key := sequenceNumber])
    else if DecimalValue(table[key]) < DecimalValue(sequenceNumber) then Outcome(true, table[key := sequenceNumber])
    else Outcome(false, table)
  }

  predicate AllDecimal(sequenceNumbers: seq<string>) {
    forall i :: 0 <= i < |sequenceNumbers| ==> IsDecimal(sequenceNumbers[i])
  }

  /** The results of a series of checkpoint calls, and the table they leave. */
  datatype Run = Run(results: seq<bool>, table: map<string, string>)

  function CheckpointRun(table: map<string, string>, key: string, sequenceNumbers: seq<string>): (r: Run)
    requires AllDecimal(sequenceNumbers) && StoredIsDecimal(table, key)
    ensures |r.results| == |sequenceNumbers|
    decreases |sequenceNumbers|
  {
    if |sequenceNumbers| == 0 then Run([], table)
    else
      var o := CheckpointStep(table, key, sequenceNumbers[0]);
      var rest := CheckpointRun(o.table, key, sequenceNumbers[1..]);
      Run([o.written] + rest.results, rest.table)
  }

  /**
   * After a series of checkpoints the shard's stored number is the highest
   * of the initial one and all those offered, it is one of them, and no other
   * key was touched.
   */
  lemma {:induction false} RunKeepsHighest(table: map<string, string>, key: string, sequenceNumbers: seq<string>)
    requires AllDecimal(sequenceNumbers) && StoredIsDecimal(table, key)
    ensures var r := CheckpointRun(table, key, sequenceNumbers);
      && ((key in table || |sequenceNumbers| > 0) <==> key in r.table)
      && StoredIsDecimal(r.table, key)
      && (key in table ==> DecimalValue(table[key]) <= DecimalValue(r.table[key]))
      && (forall i :: 0 <= i < |sequenceNumbers| ==> DecimalValue(sequenceNumbers[i]) <= DecimalValue(r.table[key]))
      && (key in r.table ==> (key in table && r.table[key] == table[key]) || r.table[key] in sequenceNumbers)
      && r.table - {key} == table - {key}
    decreases |sequenceNumbers|
  {
    if |sequenceNumbers| > 0 {
      var o := CheckpointStep(table, key, sequenceNumbers[0]);
      var tail := sequenceNumbers[1..];
      RunKeepsHighest(o.table, key, tail);
      var r := CheckpointRun(table, key, sequenceNumbers);
      assert r == CheckpointRun(o.table, key, tail).(results := [o.written] + CheckpointRun(o.table, key, tail).results);
      forall i | 0 <= i < |sequenceNumbers|
        ensures DecimalValue(sequenceNumbers[i]) <= DecimalValue(r.table[key])
      {
        if i > 0 {
          assert sequenceNumbers[i] == tail[i - 1];
        }
      }
      if r.table[key] != o.table[key] {
        assert r.table[key] in tail;
      }
    }
  }

  /** `s` is numerically above the stored number (if any) and above every earlier number offered. */
  predicate ExceedsAll(table: map<string, string>, key: string, earlier: seq<string>, s: string)
    requires AllDecimal(earlier) && StoredIsDecimal(table, key) && IsDecimal(s)
  {
    && (key in table ==> DecimalValue(table[key]) < DecimalValue(s))
    && forall j :: 0 <= j < |earlier| ==> DecimalValue(earlier[j]) < DecimalValue(s)
  }

  /**
   * In a series of checkpoints, a call returns true exactly when its number
   * is a new high: above the stored one and above every number offered
   * before it. Repeating a number, or offering a lower one, returns false.
   */
  lemma {:induction false} RunWritesNewHighs(table: map<string, string>, key: string, sequenceNumbers: seq<string>)
    requires AllDecimal(sequenceNumbers) && StoredIsDecimal(table, key)
    ensures forall i :: 0 <= i < |sequenceNumbers| ==>
      (CheckpointRun(table, key, sequenceNumbers).results[i] <==> ExceedsAll(table, key, sequenceNumbers[..i], sequenceNumbers[i]))
    decreases |sequenceNumbers|
  {
    if |sequenceNumbers| > 0 {
      var s0 := sequenceNumbers[0];
      var o := CheckpointStep(table, key, s0);
      var tail := sequenceNumbers[1..];
      RunWritesNewHighs(o.table, key, tail);
      var r := CheckpointRun(table, key, sequenceNumbers);
      assert r.results == [o.written] + CheckpointRun(o.table, key, tail).results;
      forall i | 0 < i < |sequenceNumbers|
        ensures r.results[i] <==> ExceedsAll(table, key, sequenceNumbers[..i], sequenceNumbers[i])
      {
        assert sequenceNumbers[i] == tail[i - 1];
        assert sequenceNumbers[..i] == [s0] + tail[..i - 1];
        ExceedsAfterStep(table, key, s0, tail[..i - 1], sequenceNumbers[i]);
      }
    }
  }

  /**
   * Checkpointing `s0` first moves the stored number to the larger of the two,
   * so being above it is the same as being above the old one and `s0`.
   */
  lemma ExceedsAfterStep(table: map<string, string>, key: string, s0: string, earlier: seq<string>, s: string)
    requires IsDecimal(s0) && AllDecimal(earlier) && StoredIsDecimal(table, key) && IsDecimal(s)
    ensures ExceedsAll(CheckpointStep(table, key, s0).table, key, earlier, s) <==> ExceedsAll(table, key, [s0] + earlier, s)
  {
    var o := CheckpointStep(table, key, s0);
    var all := [s0] + earlier;
    if ExceedsAll(table, key, all, s) {
      forall j | 0 <= j < |earlier|
        ensures DecimalValue(earlier[j]) < DecimalValue(s)
      {
        assert earlier[j] == all[j + 1];
      }
      assert all[0] == s0;
    }
    if ExceedsAll(o.table, key, earlier, s) {
      forall j | 0 <= j < |all|
        ensures DecimalValue(all[j]) < DecimalValue(s)
      {
        if j > 0 {
          assert all[j] == earlier[j - 1];
        }
      }
    }
  }

  class ShardCheckpointer {

    const checkpointStore: DynamoDbMetaDataStore

    /** The shard's key in the store. */
    const key: string

    /** The local high-water mark; `None` until the consumer sets it. */
    var lastCheckpointValue: Option<string>

    /** Cleared by `Close`, after which nothing is written. */
    var active: bool

    constructor (checkpointStore: DynamoDbMetaDataStore, key: string)
      ensures this.checkpointStore == checkpointStore && this.key == key
      ensures lastCheckpointValue == None && active
    {
      this.checkpointStore := checkpointStore;
      this.key := key;
      lastCheckpointValue := None;
      active := true;
    }

    /** `checkpoint()`: the same as checkpointing the local high-water mark. */
    method Checkpoint() returns (written: bool)
      requires active ==> HasText(key) && StoredIsDecimal(checkpointStore.table, key)
      requires active ==> lastCheckpointValue.Some? && IsDecimal(lastCheckpointValue.value)
      modifies checkpointStore
      ensures !active ==> !written && checkpointStore.table == old(checkpointStore.table)
      ensures active ==>
        Outcome(written, checkpointStore.table) == CheckpointStep(old(checkpointStore.table), key, lastCheckpointValue.value)
    {
      written := CheckpointSequence(lastCheckpointValue);
    }

    /**
     * `checkpoint(sequenceNumber)`: read the stored number; create it when
     * there is none, or compare-and-swap it when the new one is numerically
     * greater. True exactly when the store applied the write; a closed
     * checkpointer neither reads nor writes the store.
     */
    method CheckpointSequence(sequenceNumber: Option<string>) returns (written: bool)
      requires active ==> HasText(key) && StoredIsDecimal(checkpointStore.table, key)
      requires active ==> sequenceNumber.Some? && IsDecimal(sequenceNumber.value)
      modifies checkpointStore
      ensures !active ==> !written && checkpointStore.table == old(checkpointStore.table)
      ensures active ==>
        Outcome(written, checkpointStore.table) == CheckpointStep(old(checkpointStore.table), key, sequenceNumber.value)
    {
      if active {
        var existing := GetCheckpoint();
        var number := sequenceNumber.value;
        if existing.None? || DecimalValue(existing.value) < DecimalValue(number) {
          DecimalHasText(number);
          if existing.Some? {
            DecimalHasText(existing.value);
            written := checkpointStore.Replace(key, existing.value, number);
          } else {
            var winner := checkpointStore.PutIfAbsent(key, number);
            written := winner.None?;
          }
          return;
        }
      }
      written := false;
    }

    /** `setHighestSequence`: moves the local high-water mark; the store is not touched. */
    method SetHighestSequence(highestSequence: Option<string>)
      modifies this`lastCheckpointValue
      ensures lastCheckpointValue == highestSequence
    {
      lastCheckpointValue := highestSequence;
    }

    /** `getCheckpoint`: the number stored for this shard, or `None` when it was never checkpointed. */
    method GetCheckpoint() returns (value: Option<string>)
      requires HasText(key)
      ensures value.Some? <==> key in checkpointStore.table
      ensures value.Some? ==> value.value == checkpointStore.table[key]
    {
      value := checkpointStore.Get(key);
    }

    /** `getLastCheckpointValue`: the local high-water mark. */
    method GetLastCheckpointValue() returns (value: Option<string>)
      ensures value == lastCheckpointValue
    {
      value := lastCheckpointValue;
    }

    /** `remove`: deletes this shard's checkpoint and no other row. */
    method Remove()
      requires HasText(key)
      modifies checkpointStore
      ensures checkpointStore.table == old(checkpointStore.table) - {key}
    {
      var _ := checkpointStore.Remove(key);
    }

    /** `close`: from now on every checkpoint call returns false without a write. */
    method Close()
      modifies this`active
      ensures !active
    {
      active := false;
    }
  }

}
