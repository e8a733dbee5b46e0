/**
 * Clients of the two classes that replay the documented behaviour of the
 * checkpointer and the store, proved from their contracts alone.
 */
module CheckpointScenarios {

  import opened Wrappers
  import opened Decimal
  import opened Metadata
  import opened Kinesis

  lemma SingleDigit(s: string)
    requires |s| == 1 && IsDigit(s[0])
    ensures DecimalValue(s) == DigitValue(s[0])
  {
    assert s[..0] == "";
  }

  /** A fresh checkpointer for shard "shardId-000000000000" over an empty metadata table. */
  method NewCheckpointer() returns (checkpointer: ShardCheckpointer)
    ensures fresh(checkpointer) && fresh(checkpointer.checkpointStore)
    ensures checkpointer.active && checkpointer.lastCheckpointValue == None
    ensures checkpointer.checkpointStore.table == map[] && HasText(checkpointer.key)
  {
    var store := new DynamoDbMetaDataStore.WithDefaultTable(map[]);
    checkpointer := new ShardCheckpointer(store, "shardId-000000000000");
    assert !IsWhitespace(checkpointer.key[0]);
  }

  /** Checkpoints 5, 3, 10, 7 in turn: only 5 and 10 are written, and 10 stays. */
  method MonotonicSeries() returns (results: seq<bool>, stored: Option<string>)
    ensures results == [true, false, true, false]
    ensures stored == Some("10")
  {
    var c := NewCheckpointer();
    var r5 := c.CheckpointSequence(Some("5"));
    SingleDigit("5");
    SingleDigit("3");
    var r3 := c.CheckpointSequence(Some("3"));
    LongerIsGreater("10", "5");
    var r10 := c.CheckpointSequence(Some("10"));
    LongerIsGreater("10", "7");
    var r7 := c.CheckpointSequence(Some("7"));
    results := [r5, r3, r10, r7];
    stored := c.GetCheckpoint();
  }

  /**
   * "100" is written, "99" is refused although it sorts after "100" as a
   * string, and a 21-digit number beyond the 64-bit range is written.
   */
  method NumericNotLexical() returns (first: bool, second: bool, third: bool, stored: Option<string>)
    ensures first && !second && third
    ensures stored == Some("100000000000000000001")
  {
    var c := NewCheckpointer();
    first := c.CheckpointSequence(Some("100"));
    LexicalOrderIsNotNumeric();
    second := c.CheckpointSequence(Some("99"));
    LongerIsGreater("100000000000000000001", "100");
    third := c.CheckpointSequence(Some("100000000000000000001"));
    stored := c.GetCheckpoint();
  }

  /** Checkpointing the stored number again is refused and changes nothing. */
  method RepeatedCheckpoint() returns (first: bool, again: bool, stored: Option<string>)
    ensures first && !again
    ensures stored == Some("42")
  {
    var c := NewCheckpointer();
    first := c.CheckpointSequence(Some("42"));
    again := c.CheckpointSequence(Some("42"));
    stored := c.GetCheckpoint();
  }

  /** After close a higher number is refused and the stored one stays. */
  method CheckpointAfterClose() returns (before: bool, after: bool, stored: Option<string>)
    ensures before && !after
    ensures stored == Some("5")
  {
    var c := NewCheckpointer();
    before := c.CheckpointSequence(Some("5"));
    c.Close();
    after := c.CheckpointSequence(Some("9"));
    stored := c.GetCheckpoint();
  }

  /**
   * The high-water mark is local until `checkpoint()` persists it; `remove`
   * then deletes the shard's row.
   */
  method HighWaterMark() returns (mark: Option<string>, storedBefore: Option<string>,
                                  written: bool, storedAfter: Option<string>, removed: Option<string>)
    ensures mark == Some("7") && storedBefore == None
    ensures written && storedAfter == Some("7")
    ensures removed == None
  {
    var c := NewCheckpointer();
    c.SetHighestSequence(Some("7"));
    mark := c.GetLastCheckpointValue();
    storedBefore := c.GetCheckpoint();
    written := c.Checkpoint();
    storedAfter := c.GetCheckpoint();
    c.Remove();
    removed := c.GetCheckpoint();
  }

  /** Create-if-absent: the first call creates, the second reports the winner and keeps it. */
  method PutIfAbsentTwice() returns (first: Option<string>, second: Option<string>, stored: Option<string>)
    ensures first == None && second == Some("v1") && stored == Some("v1")
  {
    var store := new DynamoDbMetaDataStore.WithDefaultTable(map[]);
    assert HasText("k") && HasText("v1") && HasText("v2") by {
      assert !IsWhitespace('k') && !IsWhitespace('v');
      assert "k"[0] == 'k' && "v1"[0] == 'v' && "v2"[0] == 'v';
    }
    first := store.PutIfAbsent("k", "v1");
    second := store.PutIfAbsent("k", "v2");
    stored := store.Get("k");
  }

  /** Compare-and-swap succeeds only against the value actually stored; remove returns it once. */
  method ReplaceAndRemove() returns (forward: bool, backward: bool, removed: Option<string>, again: Option<string>)
    ensures forward && !backward
    ensures removed == Some("2") && again == None
  {
    var store := new DynamoDbMetaDataStore.WithDefaultTable(map[]);
    DecimalHasText("1");
    DecimalHasText("2");
    DecimalHasText("0");
    assert HasText("k") by {
      assert "k"[0] == 'k';
    }
    store.Put("k", "1");
    forward := store.Replace("k", "1", "2");
    backward := store.Replace("k", "1", "0");
    removed := store.Remove("k");
    again := store.Remove("k");
  }

}
