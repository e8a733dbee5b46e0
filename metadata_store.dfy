/**
 * The DynamoDB-backed `ConcurrentMetadataStore`: a key-value table with an
 * unconditional put, a point read, and three conditional writes
 * (create-if-absent, compare-and-swap on the value, delete returning the
 * old row). The DynamoDB table is abstracted to a `map` from the KEY
 * attribute to the VALUE attribute; a conditional check that fails
 * (`ConditionalCheckFailedException`) is the branch in which the map is left
 * as it was.
 */
module Metadata {

  import opened Wrappers

  const DefaultTableName := "SpringIntegrationMetadataStore"

  /** `Character.isWhitespace` of the Java platform. */
  predicate IsWhitespace(c: char) {
    || c == ' '
    || '\t' <= c <= '\r'
    || '\U{001C}' <= c <= '\U{001F}'
    || c == '\U{1680}'
    || '\U{2000}' <= c <= '\U{2006}'
    || '\U{2008}' <= c <= '\U{200A}'
    || c == '\U{2028}' || c == '\U{2029}'
    || c == '\U{205F}' || c == '\U{3000}'
  }

  /** Spring's `StringUtils.hasText`: the argument check `Assert.hasText` performs on every key and value. */
  predicate HasText(s: string) {
    exists i :: 0 <= i < |s| && !IsWhitespace(s[i])
  }

  /** Every row that this store writes has a key and a value with text. */
  predicate RowsHaveText(table: map<string, string>) {
    forall k :: k in table ==> HasText(k) && HasText(table[k])
  }

  /** A DynamoDB item of the metadata table: its KEY and VALUE attributes. */
  datatype Item = Item(key: string, value: string)

  /** The item `Table.getItem` or a delete with `ReturnValue.ALL_OLD` yields for `key`; `None` is Java's `null`. */
  function ItemAt(table: map<string, string>, key: string): (item: Option<Item>)
    ensures item.Some? <==> key in table
    ensures item.Some? ==> item.value.key == key && item.value.value == table[key]
  {
    if key in table then Some(Item(key, table[key])) else None
  }

  /** `getValueIfAny`: the VALUE attribute of an item, or `null` when there is no item. */
  function ValueIfAny(item: Option<Item>): (value: Option<string>)
    ensures value.None? <==> item.None?
    ensures item.Some? ==> value.value == item.value.value
  {
    match item
    case None => None
    case Some(it) => Some(it.value)
  }

  class DynamoDbMetaDataStore {

    const tableName: string

    /** The rows of the backing table, KEY to VALUE. */
    var table: map<string, string>

    /**
     * A store over the table `tableName`, whose rows are `existing` (empty
     * when provisioning has just created it).
     */
    constructor (tableName: string, existing: map<string, string>)
      requires HasText(tableName)
      ensures this.tableName == tableName && table == existing
    {
      this.tableName := tableName;
      table := existing;
    }

    /** The store over the table of the default name. */
    constructor WithDefaultTable(existing: map<string, string>)
      ensures tableName == DefaultTableName && table == existing
    {
      tableName := DefaultTableName;
      table := existing;
    }

    /** Unconditional upsert (`putItem`): last writer wins, every other row stays. */
    method Put(key: string, value: string)
      requires HasText(key) && HasText(value)
      modifies this
      ensures table == old(table)[key := value]
      ensures RowsHaveText(old(table)) ==> RowsHaveText(table)
    {
      table := table[key := value];
    }

    /** Point read: the stored value, or `None` when the key has no row. */
    method Get(key: string) returns (value: Option<string>)
      requires HasText(key)
      ensures value.Some? <==> key in table
      ensures value.Some? ==> value.value == table[key]
    {
      var item := ItemAt(table, key);
      value := ValueIfAny(item);
    }

    /**
     * Create-if-absent (`updateItem` expecting KEY not to exist): `None` when
     * the row was created, otherwise the value already stored, which stays.
     */
    method PutIfAbsent(key: string, value: string) returns (existing: Option<string>)
      requires HasText(key) && HasText(value)
      modifies this
      ensures existing.None? <==> key !in old(table)
      ensures existing.None? ==> table == old(table)[key := value]
      ensures existing.Some? ==> existing.value == old(table)[key] && table == old(table)
      ensures RowsHaveText(old(table)) ==> RowsHaveText(table)
    {
      if key !in table {
        table := table[key := value];
        existing := None;
      } else {
        // the conditional check failed: report the winning value
        existing := Get(key);
      }
    }

    /**
     * Compare-and-swap (`updateItem` expecting VALUE to equal `oldValue`):
     * succeeds exactly when the key's row holds `oldValue`, string for string;
     * an absent key or any other value leaves the table untouched.
     */
    method Replace(key: string, oldValue: string, newValue: string) returns (replaced: bool)
      requires HasText(key) && HasText(oldValue) && HasText(newValue)
      modifies this
      ensures replaced <==> key in old(table) && old(table)[key] == oldValue
      ensures replaced ==> table == old(table)[key := newValue]
      ensures !replaced ==> table == old(table)
      ensures RowsHaveText(old(table)) ==> RowsHaveText(table)
    {
      if key in table && table[key] == oldValue {
        table := table[key := newValue];
        // ReturnValue.UPDATED_NEW: the updated attributes come back as an item
        var updated := ItemAt(table, key);
        replaced := updated != None;
      } else {
        replaced := false;
      }
    }

    /** Delete (`deleteItem` with `ReturnValue.ALL_OLD`): the removed value, or `None` when there was no row. */
    method Remove(key: string) returns (previous: Option<string>)
      requires HasText(key)
      modifies this
      ensures previous.Some? <==> key in old(table)
      ensures previous.Some? ==> previous.value == old(table)[key]
      ensures table == old(table) - {key}
      ensures RowsHaveText(old(table)) ==> RowsHaveText(table)
    {
      var item := ItemAt(table, key);
      table := table - {key};
      previous := ValueIfAny(item);
    }
  }

}
