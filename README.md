# Kinesis shard checkpointing over a DynamoDB metadata store

This project models the checkpointing core of Spring Integration AWS.

- `DynamoDbMetaDataStore` is a `ConcurrentMetadataStore` backed by a DynamoDB table. It offers an unconditional `put`, a point `get`, a create-if-absent `putIfAbsent`, a compare-and-swap `replace` and a `remove` that returns the old value.
- `ShardCheckpointer` keeps one Kinesis shard's checkpoint under one key of that store. It writes a sequence number only when no number is stored yet, or when the new number is numerically greater than the stored one. It writes nothing after `close()`.

Modules:

- `Wrappers`: `Option`, which stands in for Java's `null`.
- `Decimal`: the `BigInteger` parse of a sequence number, as `DecimalValue: string -> nat`. Its lemmas explain why the comparison must be numeric: a longer number without a leading zero is always larger, leading zeros do not count, and "100" sorts before "99" as a string.
- `Metadata`: `HasText`, which is Spring's `Assert.hasText` check (Java whitespace is as `Character.isWhitespace` defines it), and the class `DynamoDbMetaDataStore`. The class holds the table as a field `table: map<string, string>` from the KEY attribute to the VALUE attribute. Each method's `modifies` clause and postconditions give the whole new table. Every mutator preserves the invariant that all rows have text (`RowsHaveText`).
- `Kinesis`: `CheckpointStep`, a pure specification of one checkpoint by an active checkpointer. Its contract says:
  - the call returns true exactly when the table changed;
  - only this shard's key is written, and only with the offered number;
  - the stored number never decreases.

  `CheckpointRun` applies a series of checkpoints, and two inductive lemmas describe the result. The class `ShardCheckpointer` has the source's fields `active` and `lastCheckpointValue`. Its `CheckpointSequence` is proved equal to `CheckpointStep` while the checkpointer is active. A closed checkpointer leaves the store untouched.
- `CheckpointScenarios`: clients that replay the documented examples through the two classes, proved from their contracts alone. The examples are the series 5, 3, 10, 7; "100" against "99" and a 21-digit number; a repeated checkpoint; checkpointing after close; putIfAbsent twice; and replace then remove.

## Model

| member | source | states |
|---|---|---|
| `Metadata.ItemAt` | src/main/java/org/springframework/integration/aws/metadata/DynamoDbMetaDataStore.java:217 | The item for a key exists exactly when the key has a row, and it carries that key and the row's value. |
| `Metadata.ValueIfAny` | src/main/java/org/springframework/integration/aws/metadata/DynamoDbMetaDataStore.java:288-295 | A missing item gives `null` (`None`). A present item gives its VALUE attribute. |
| `Metadata.DynamoDbMetaDataStore.constructor` | src/main/java/org/springframework/integration/aws/metadata/DynamoDbMetaDataStore.java:95-103 | The table name must have text. The store serves that table's existing rows unchanged. |
| `Metadata.DynamoDbMetaDataStore.WithDefaultTable` | src/main/java/org/springframework/integration/aws/metadata/DynamoDbMetaDataStore.java:91-93 | The store uses the default table name "SpringIntegrationMetadataStore". |
| `Metadata.DynamoDbMetaDataStore.Put` | src/main/java/org/springframework/integration/aws/metadata/DynamoDbMetaDataStore.java:198-209 | Requires a key and a value with text. Afterwards the key maps to the value and every other row is as before. All rows still have text. |
| `Metadata.DynamoDbMetaDataStore.Get` | src/main/java/org/springframework/integration/aws/metadata/DynamoDbMetaDataStore.java:211-220 | Requires a key with text. Returns `None` exactly when the key has no row, and otherwise the stored value. |
| `Metadata.DynamoDbMetaDataStore.PutIfAbsent` | src/main/java/org/springframework/integration/aws/metadata/DynamoDbMetaDataStore.java:222-245 | Returns `None` exactly when the key was absent, and then the value is stored. Otherwise it returns the existing value and the table is unchanged. |
| `Metadata.DynamoDbMetaDataStore.Replace` | src/main/java/org/springframework/integration/aws/metadata/DynamoDbMetaDataStore.java:247-271 | Requires key, old and new values with text. Returns true exactly when the key's stored value equals the old value as a string; only then is the new value stored. An absent key or a different value changes nothing. |
| `Metadata.DynamoDbMetaDataStore.Remove` | src/main/java/org/springframework/integration/aws/metadata/DynamoDbMetaDataStore.java:273-286 | Returns the removed value, or `None` when the key had no row. Afterwards the key is gone and every other row is as before. |
| `Decimal.DecimalValue` | src/main/java/org/springframework/integration/aws/inbound/kinesis/ShardCheckpointer.java:65 | The `BigInteger` value of a digit string. An n-digit string denotes a number below 10^n. |
| `Decimal.LeadingDigitBound` | src/main/java/org/springframework/integration/aws/inbound/kinesis/ShardCheckpointer.java:65 | An n-digit string whose first digit is not zero denotes at least 10^(n-1). |
| `Decimal.LongerIsGreater` | src/main/java/org/springframework/integration/aws/inbound/kinesis/ShardCheckpointer.java:65 | A longer sequence number without a leading zero is numerically greater than any shorter one. |
| `Decimal.LeadingZeroIgnored` | src/main/java/org/springframework/integration/aws/inbound/kinesis/ShardCheckpointer.java:65 | A leading zero does not change the value, so "007" and "7" compare equal. |
| `Decimal.LexicalOrderIsNotNumeric` | src/main/java/org/springframework/integration/aws/inbound/kinesis/ShardCheckpointer.java:65 | "100" sorts before "99" under Java string order, yet it is the larger number. |
| `Kinesis.CheckpointStep` | src/main/java/org/springframework/integration/aws/inbound/kinesis/ShardCheckpointer.java:61-81 | One active checkpoint: true exactly when the table changed. A write stores the offered number under this shard's key only. With no stored number it always writes. With a stored number it writes exactly when the offer is numerically greater. The stored number never decreases and afterwards is at least the offer. |
| `Kinesis.CheckpointRun` | src/main/java/org/springframework/integration/aws/inbound/kinesis/ShardCheckpointer.java:61-81 | A series of checkpoint calls yields one result per call. |
| `Kinesis.RunKeepsHighest` | src/main/java/org/springframework/integration/aws/inbound/kinesis/ShardCheckpointer.java:61-81 | After a series, the stored number is at least the initial one and every number offered. It is one of those numbers, and no other key changed. |
| `Kinesis.RunWritesNewHighs` | src/main/java/org/springframework/integration/aws/inbound/kinesis/ShardCheckpointer.java:61-81 | In a series, call i returns true exactly when its number exceeds the stored number and every number offered before it. So repeats and lower numbers return false. |
| `Kinesis.ExceedsAfterStep` | src/main/java/org/springframework/integration/aws/inbound/kinesis/ShardCheckpointer.java:63-67 | After one checkpoint of s0, exceeding the stored number is the same as exceeding both the old stored number and s0. |
| `Kinesis.ShardCheckpointer.constructor` | src/main/java/org/springframework/integration/aws/inbound/kinesis/ShardCheckpointer.java:50-53 | Binds the store and the key. The checkpointer starts active with no high-water mark. |
| `Kinesis.ShardCheckpointer.Checkpoint` | src/main/java/org/springframework/integration/aws/inbound/kinesis/ShardCheckpointer.java:56-58 | Behaves exactly like `CheckpointSequence(lastCheckpointValue)`. |
| `Kinesis.ShardCheckpointer.CheckpointSequence` | src/main/java/org/springframework/integration/aws/inbound/kinesis/ShardCheckpointer.java:61-81 | When closed: returns false and the store is untouched. When active: the result and the new table are those of `CheckpointStep` on the old table. |
| `Kinesis.ShardCheckpointer.SetHighestSequence` | src/main/java/org/springframework/integration/aws/inbound/kinesis/ShardCheckpointer.java:83-85 | Sets the high-water mark. Only that field may change, so the store is untouched. |
| `Kinesis.ShardCheckpointer.GetCheckpoint` | src/main/java/org/springframework/integration/aws/inbound/kinesis/ShardCheckpointer.java:87-89 | Returns the number stored under the shard's key, or `None` when nothing is stored. |
| `Kinesis.ShardCheckpointer.GetLastCheckpointValue` | src/main/java/org/springframework/integration/aws/inbound/kinesis/ShardCheckpointer.java:91-93 | Returns the high-water mark that `SetHighestSequence` last set. |
| `Kinesis.ShardCheckpointer.Remove` | src/main/java/org/springframework/integration/aws/inbound/kinesis/ShardCheckpointer.java:95-97 | Deletes the shard's row and no other. |
| `Kinesis.ShardCheckpointer.Close` | src/main/java/org/springframework/integration/aws/inbound/kinesis/ShardCheckpointer.java:99-101 | Clears `active`. From then on `CheckpointSequence` returns false without a write. |
| `CheckpointScenarios.MonotonicSeries` | src/main/java/org/springframework/integration/aws/inbound/kinesis/ShardCheckpointer.java:61-81 | Checkpoints 5, 3, 10, 7 return true, false, true, false, and 10 stays stored. |
| `CheckpointScenarios.NumericNotLexical` | src/main/java/org/springframework/integration/aws/inbound/kinesis/ShardCheckpointer.java:64-67 | "100" is written and "99" is refused. "100000000000000000001" is then written over "100". |
| `CheckpointScenarios.RepeatedCheckpoint` | src/main/java/org/springframework/integration/aws/inbound/kinesis/ShardCheckpointer.java:63-67 | Checkpointing the stored number again returns false and leaves it stored. |
| `CheckpointScenarios.CheckpointAfterClose` | src/main/java/org/springframework/integration/aws/inbound/kinesis/ShardCheckpointer.java:62 | After close, a higher number returns false and the earlier checkpoint stays. |
| `CheckpointScenarios.HighWaterMark` | src/main/java/org/springframework/integration/aws/inbound/kinesis/ShardCheckpointer.java:56-58 | Setting the mark does not write to the store. `checkpoint()` then stores it, and `remove()` deletes it. |
| `CheckpointScenarios.PutIfAbsentTwice` | src/main/java/org/springframework/integration/aws/metadata/DynamoDbMetaDataStore.java:229-243 | The first putIfAbsent returns `None`. The second returns the first value, which stays stored. |
| `CheckpointScenarios.ReplaceAndRemove` | src/main/java/org/springframework/integration/aws/metadata/DynamoDbMetaDataStore.java:255-285 | A replace against the stored value succeeds; one against a stale value fails. Remove returns the last value once, then `None`. |

## Left out

- Table provisioning and the readiness gate are not modelled. This covers `afterPropertiesSet`, `awaitForActive`, the `CountDownLatch`, the asynchronous create-table call, the waiter, its retries and delay, and the timeout. They are concurrency and foreign I/O. Every store operation is modelled as if the table were ready.
- The capacity and retry setters (`setReadCapacity`, `setWriteCapacity`, `setCreateTableRetries`, `setCreateTableDelay`) are not modelled. They only feed the provisioning that is left out.
- DynamoDB SDK objects are not modelled: `Item` attribute maps, `UpdateItemSpec`, `Expected`, `ReturnValue`. The table is a map from KEY to VALUE. A failed condition check is the branch that leaves the map unchanged. The item that `getItem` or `deleteItem` returns is `ItemAt`.
- The model is sequential: no other writer acts during a call. The source's races are therefore not modelled:
  - Between `putIfAbsent`'s failed condition and its fallback `get`, another writer could delete the row, and the call would then return `null`.
  - Another writer could change the row between the checkpointer's read and its `replace`, and the call would then return false.
  - An unsynchronised `close()` could run during a `checkpoint`.
  - `volatile` visibility is not modelled.
- `Kinesis.ShardCheckpointer.CheckpointSequence`: while the checkpointer is active, it requires the sequence number to be a non-empty string of decimal digits, and any stored number to be one too. `BigInteger` would also accept a sign, and it throws on malformed text. Those paths are not modelled. Without a stored number the source would store any text, and the model does not allow that. A closed checkpointer accepts any argument, as the source does.
- `Kinesis.ShardCheckpointer.Checkpoint`: while active, it requires a high-water mark to be set. With none set, the source would fail in `putIfAbsent` or in `BigInteger` on `null`.
- The store's argument checks are modelled as preconditions (`HasText`): the source fails fast with an exception. `hasText` is stricter than "non-empty": a key made only of whitespace is refused too.
- `HasText` follows Java's `Character.isWhitespace` for the characters it lists. Those are the ASCII controls and the Unicode space separators other than the no-break spaces. Surrogate pairs outside the Basic Multilingual Plane are not considered.
- The checkpointer in the source accepts any `ConcurrentMetadataStore`. The model binds it to `DynamoDbMetaDataStore`, whose contract is the one that interface promises.
- Logging and `toString` are not modelled.
- The XML parser for the SQS outbound adapter is configuration glue and is not part of this model. So is the SNS handler test.
