/**
 * The in-memory backend of the manager's tests: a key-value store over a
 * mutable dictionary. Its state is the `values` map; the functions Lookup,
 * Found, Store and Answer say what each call returns and how it changes the
 * map, and the class's methods are proved against them.
 */
module DummyBackend {
  import opened Wrappers
  import opened Values
  import opened DataSource

  /** The dictionary's getValue: the stored value, or undefined for a missing key. */
  function Lookup(values: map<Key, Value>, key: Key): (v: Value)
    ensures key !in values ==> v == Undefined
    ensures key in values ==> v == values[key]
  {
    if key in values then values[key] else Undefined
  }

  /**
   * The dictionary's setValue: the pair is stored, except that an undefined
   * value is refused and leaves the dictionary as it was.
   */
  function SetValue(values: map<Key, Value>, key: Key, value: Value): (m: map<Key, Value>)
    ensures value != Undefined ==> Lookup(m, key) == value
    ensures forall k :: k != key ==> Lookup(m, k) == Lookup(values, k)
    ensures value == Undefined ==> m == values
  {
    if value == Undefined then values else values[key := value]
  }

  /** The confirmation putData resolves with: `{itemId: key}`. */
  function Receipt(key: Key): Value
  {
    Obj(map["itemId" := Str(key)])
  }

  /**
   * What getItems resolves with: the values of the requested keys, in key
   * order, with the falsy ones (missing keys among them) dropped.
   */
  function Found(values: map<Key, Value>, keys: seq<Key>): (items: seq<Value>)
    ensures |items| <= |keys|
    ensures forall j :: 0 <= j < |items| ==> Truthy(items[j])
    ensures forall j :: 0 <= j < |items| ==> exists k :: 0 <= k < |keys| && items[j] == Lookup(values, keys[k])
    ensures items == [] <==> forall k :: 0 <= k < |keys| ==> !Truthy(Lookup(values, keys[k]))
    decreases |keys|
  {
    if keys == [] then []
    else
      var v := Lookup(values, keys[0]);
      var rest := Found(values, keys[1..]);
      assert forall k :: 1 <= k < |keys| ==> keys[1..][k - 1] == keys[k];
      if Truthy(v) then [v] + rest else rest
  }

  /** Found, extended by one more key at the end. */
  lemma {:induction false} FoundSnoc(values: map<Key, Value>, keys: seq<Key>, key: Key)
    ensures Found(values, keys + [key])
         == Found(values, keys) + (if Truthy(Lookup(values, key)) then [Lookup(values, key)] else [])
    decreases |keys|
  {
    if keys == [] {
      assert keys + [key] == [key];
    } else {
      assert (keys + [key])[1..] == keys[1..] + [key];
      FoundSnoc(values, keys[1..], key);
    }
  }

  /** What the backend answers to a call, in a state. */
  function Answer(values: map<Key, Value>, c: Call): (s: Settled)
    ensures s.Resolved?
    ensures c.GetData? ==> s.value == Lookup(values, c.key)
    ensures c.GetItems? ==> s.value == Arr(Found(values, c.keys))
    ensures (c.PutData? || c.UpdateData?) ==> s.value == Receipt(c.key)
    ensures c.SearchData? ==> s.value == Null
    ensures c.DeleteItem? ==> s.value == Bool(true)
  {
    match c
    case GetData(key, _) => Resolved(Lookup(values, key))
    case GetItems(keys, _) => Resolved(Arr(Found(values, keys)))
    case PutData(key, _) => Resolved(Receipt(key))
    case UpdateData(key, _) => Resolved(Receipt(key))
    case SearchData(_) => Resolved(Null)
    case DeleteItem(_) => Resolved(Bool(true))
  }

  /** The state after a call: writes store or remove, reads change nothing. */
  function Store(values: map<Key, Value>, c: Call): (m: map<Key, Value>)
    ensures !c.IsWrite() ==> m == values
    ensures c.DeleteItem? ==> m == values - {c.key}
    ensures (c.PutData? || c.UpdateData?) ==> m == SetValue(values, c.key, c.value)
  {
    match c
    case PutData(key, value) => SetValue(values, key, value)
    case UpdateData(key, value) => SetValue(values, key, value)
    case DeleteItem(key) => values - {key}
    case _ => values
  }

  class DummySource {
    var values: map<Key, Value>

    constructor ()
      ensures values == map[]
    {
      values := map[];
    }

    /** Resolves with the stored value, undefined when the key is missing; `fields` is ignored. */
    method GetData(key: Key, fields: Option<string>) returns (r: Settled)
      ensures r == Resolved(Lookup(values, key))
    {
      r := Resolved(Lookup(values, key));
    }

    /** Looks every key up in order and resolves with the truthy values found. */
    method GetItems(keys: seq<Key>, fields: Option<string>) returns (r: Settled)
      ensures r == Resolved(Arr(Found(values, keys)))
    {
      var items: seq<Value> := [];
      var i := 0;
      while i < |keys|
        invariant 0 <= i <= |keys|
        invariant items == Found(values, keys[..i])
      {
        var v := GetData(keys[i], None);
        FoundSnoc(values, keys[..i], keys[i]);
        assert keys[..i + 1] == keys[..i] + [keys[i]];
        if Truthy(v.value) {
          items := items + [v.value];
        }
        i := i + 1;
      }
      assert keys[..|keys|] == keys;
      r := Resolved(Arr(items));
    }

    method PutData(key: Key, value: Value) returns (r: Settled)
      modifies this
      ensures values == SetValue(old(values), key, value)
      ensures r == Resolved(Receipt(key))
    {
      values := SetValue(values, key, value);
      r := Resolved(Receipt(key));
    }

    /** Updating is putting. */
    method UpdateData(key: Key, value: Value) returns (r: Settled)
      modifies this
      ensures values == SetValue(old(values), key, value)
      ensures r == Resolved(Receipt(key))
    {
      r := PutData(key, value);
    }

    /** Search is not supported: it resolves with null. */
    method SearchData(query: Value) returns (r: Settled)
      ensures r == Resolved(Null)
    {
      r := Resolved(Null);
    }

    method DeleteItem(key: Key) returns (r: Settled)
      modifies this
      ensures values == old(values) - {key}
      ensures r == Resolved(Bool(true))
    {
      values := values - {key};
      r := Resolved(Bool(true));
    }
  }

  // ---------------------------------------------------------------------
  // What a caller can rely on across calls

  /** A value put (or updated) under a key is what a later getData of that key resolves with. */
  lemma PutThenGet(values: map<Key, Value>, key: Key, value: Value, fields: Option<string>)
    requires value != Undefined
    ensures Answer(Store(values, PutData(key, value)), GetData(key, fields)) == Resolved(value)
    ensures Answer(Store(values, UpdateData(key, value)), GetData(key, fields)) == Resolved(value)
  {
  }

  /** After deleteItem, getData of that key resolves with undefined, which the manager reads as Empty. */
  lemma DeleteThenGet(values: map<Key, Value>, key: Key, fields: Option<string>)
    ensures Answer(Store(values, DeleteItem(key)), GetData(key, fields)) == Resolved(Undefined)
    ensures Classify(GetData(key, fields), Answer(Store(values, DeleteItem(key)), GetData(key, fields))) == Empty
  {
  }

  /** An empty store has nothing for any read: every read is read as Empty. */
  lemma EmptyStoreAnswersEmpty(c: Call)
    requires !c.IsWrite()
    ensures Classify(c, Answer(map[], c)) == Empty
  {
    if c.GetItems? {
      assert forall k :: 0 <= k < |c.keys| ==> !Truthy(Lookup(map[], c.keys[k]));
    }
  }

  /** A store without any of the requested keys answers getItems with an empty array, read as Empty. */
  lemma MissingKeysGiveEmptyBatch(values: map<Key, Value>, keys: seq<Key>, fields: Option<string>)
    requires forall k :: 0 <= k < |keys| ==> keys[k] !in values
    ensures Classify(GetItems(keys, fields), Answer(values, GetItems(keys, fields))) == Empty
  {
  }

  /** getItems returns fewer items than keys when some key is missing. */
  lemma {:induction false} MissingKeyShortensBatch(values: map<Key, Value>, keys: seq<Key>, k: nat)
    requires k < |keys| && keys[k] !in values
    ensures |Found(values, keys)| < |keys|
    decreases |keys|
  {
    if k > 0 {
      assert keys[1..][k - 1] == keys[k];
      MissingKeyShortensBatch(values, keys[1..], k - 1);
    }
  }
}
