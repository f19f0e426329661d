/**
 * The backend contract: the calls every data source answers, the settled
 * promise each call yields, and the tri-state reading of that settlement
 * (Success, Empty, Failure) on which the manager's cascades are defined.
 */
module DataSource {
  import opened Wrappers
  import opened Values
  import opened Restify

  type Key = string

  /**
   * One call on a data source. The first five are the methods the DataSource
   * interface declares; DeleteItem is not declared there, although the
   * manager and the in-memory backend both provide it, so it is added here.
   * `fields` is the optional field projection of the two reads.
   */
  datatype Call =
    | GetData(key: Key, fields: Option<string>)
    | PutData(key: Key, value: Value)
    | GetItems(keys: seq<Key>, fields: Option<string>)
    | UpdateData(key: Key, value: Value)
    | SearchData(query: Value)
    | DeleteItem(key: Key)
  {
    /** The call is one of the methods the DataSource interface declares. */
    predicate Declared()
    {
      !DeleteItem?
    }

    /** Writes go to the primary backend only. */
    predicate IsWrite()
    {
      PutData? || UpdateData? || DeleteItem?
    }

    /** The single key the call is about, if it is about exactly one key. */
    function KeyOf(): (k: Option<Key>)
      ensures k.Some? <==> !GetItems? && !SearchData?
      ensures k.Some? ==> k.value == key
    {
      if GetItems? || SearchData? then None else Some(key)
    }
  }

  /** How the promise a call returns settles. */
  datatype Settled = Resolved(value: Value) | Rejected(error: Error)

  /** The manager's reading of one backend answer. */
  datatype Outcome = Success(value: Value) | Empty | Failure(error: Error)

  /**
   * Reading of a read call's answer. A rejection is a Failure; a single read
   * or a search that resolves with null or undefined is Empty; a batch read
   * that resolves with null, undefined or an empty array is Empty; anything
   * else is a Success carrying the value unchanged.
   */
  function Classify(c: Call, s: Settled): (o: Outcome)
    requires !c.IsWrite()
    ensures o.Failure? <==> s.Rejected?
    ensures o.Failure? ==> o.error == s.error
    ensures o.Success? ==> s == Resolved(o.value)
    ensures o.Empty? <==> s.Resolved? && (Nullish(s.value) || (c.GetItems? && s.value == Arr([])))
  {
    match s
    case Rejected(e) => Failure(e)
    case Resolved(v) =>
      if Nullish(v) || (c.GetItems? && v == Arr([])) then Empty else Success(v)
  }

  /** The settlement the manager passes on for a non-empty outcome. */
  function Settle(o: Outcome): (s: Settled)
    requires !o.Empty?
    ensures o.Success? ==> s == Resolved(o.value)
    ensures o.Failure? ==> s == Rejected(o.error)
  {
    if o.Success? then Resolved(o.value) else Rejected(o.error)
  }

  /** Searching takes a query and no key; inserts and updates are keyed and distinct calls. */
  lemma ContractShape(k: Key, v: Value, q: Value)
    ensures SearchData(q).KeyOf() == None
    ensures PutData(k, v).KeyOf() == Some(k) && UpdateData(k, v).KeyOf() == Some(k)
    ensures PutData(k, v) != UpdateData(k, v)
    ensures PutData(k, v).IsWrite() && UpdateData(k, v).IsWrite() && DeleteItem(k).IsWrite()
    ensures !DeleteItem(k).Declared() && PutData(k, v).Declared() && SearchData(q).Declared()
  {
  }
}
