/**
 * The data source manager: an ordered, non-empty list of backends whose first
 * element is the primary. Reads cascade over the list one backend at a time
 * (getData and searchData fail fast, getItems tolerates failures); writes go
 * to the primary alone and return its answer as it is.
 */
module Manager {
  import opened Wrappers
  import opened Values
  import opened Restify
  import opened DataSource
  import opened Cascade
  import opened DummyBackend

  /**
   * A backend in the list: the in-memory store, or a black-box backend given
   * by the answer it settles with for each call (an adapter whose code is
   * not modelled, or a test stub).
   */
  datatype Backend =
    | Dummy(source: DummySource)
    | Stub(respond: Call -> Settled)
  {
    ghost function Footprint(): set<object>
    {
      if Dummy? then {source} else {}
    }

    /** The answer the backend gives to `c` in the current state. */
    function Response(c: Call): Settled
      reads Footprint()
    {
      match this
      case Dummy(s) => Answer(s.values, c)
      case Stub(respond) => respond(c)
    }
  }

  /** Invokes a read on one backend; nothing changes. */
  method Read(b: Backend, c: Call) returns (s: Settled)
    requires !c.IsWrite()
    ensures s == b.Response(c)
  {
    match b
    case Stub(respond) =>
      s := respond(c);
    case Dummy(source) =>
      if c.GetData? {
        s := source.GetData(c.key, c.fields);
      } else if c.GetItems? {
        s := source.GetItems(c.keys, c.fields);
      } else {
        s := source.SearchData(c.query);
      }
  }

  /** Invokes a write on one backend; only that backend's store changes. */
  method Write(b: Backend, c: Call) returns (s: Settled)
    requires c.IsWrite()
    modifies b.Footprint()
    ensures s == old(b.Response(c))
    ensures b.Dummy? ==> b.source.values == Store(old(b.source.values), c)
  {
    match b
    case Stub(respond) =>
      s := respond(c);
    case Dummy(source) =>
      if c.PutData? {
        s := source.PutData(c.key, c.value);
      } else if c.UpdateData? {
        s := source.UpdateData(c.key, c.value);
      } else {
        s := source.DeleteItem(c.key);
      }
  }

  class DataSourceManager {
    const sources: seq<Backend>

    /** Building a manager over no backend is a programming error. */
    constructor (sources: seq<Backend>)
      requires |sources| > 0
      ensures this.sources == sources
      ensures Valid()
    {
      this.sources := sources;
    }

    /** The manager always has a primary. */
    predicate Valid()
    {
      |sources| > 0
    }

    ghost function Stores(): set<object>
    {
      set i | 0 <= i < |sources| && sources[i].Dummy? :: sources[i].source
    }

    /** How each backend, in order, would read the answer to `c`. */
    ghost function Outcomes(c: Call): (outs: seq<Outcome>)
      requires !c.IsWrite()
      reads Stores()
      ensures |outs| == |sources|
      ensures forall i :: 0 <= i < |sources| ==> outs[i] == Classify(c, sources[i].Response(c))
    {
      seq(|sources|, i requires 0 <= i < |sources| reads Stores() => Classify(c, sources[i].Response(c)))
    }

    /** Calls backend `i` with the read `c` and classifies its answer. */
    method Probe(i: nat, c: Call) returns (o: Outcome)
      requires i < |sources| && !c.IsWrite()
      ensures o == Outcomes(c)[i]
    {
      var s := Read(sources[i], c);
      o := Classify(c, s);
    }

    /** A backend that holds nothing reads every call as Empty. */
    lemma EmptyBackend(c: Call, i: nat)
      requires !c.IsWrite() && i < |sources|
      requires sources[i].Dummy? && sources[i].source.values == map[]
      ensures Outcomes(c)[i] == Empty
    {
      EmptyStoreAnswersEmpty(c);
    }

    /** The fail-fast scan shared by getData and searchData. */
    method FailFastScan(c: Call) returns (r: Settled, invoked: nat)
      requires c.GetData? || c.SearchData?
      ensures Reply(r, invoked) == FailFast(Outcomes(c))
    {
      ghost var outs := Outcomes(c);
      var i := 0;
      while i < |sources|
        invariant 0 <= i <= |sources|
        invariant outs == Outcomes(c)
        invariant forall j :: 0 <= j < i ==> outs[j].Empty?
      {
        var o := Probe(i, c);
        if !o.Empty? {
          FailFastFirstNonEmpty(outs, i);
          assert outs == Outcomes(c);
          return Settle(o), i + 1;
        }
        i := i + 1;
      }
      FailFastFirstNonEmpty(outs, |outs|);
      return Rejected(ResourceNotFound), |sources|;
    }

    /**
     * Single read: resolves with the first backend's record, skipping those
     * with none; rejects with the first backend error; rejects with
     * "Resource not found" when no backend has the record. `invoked` is the
     * number of backends called.
     */
    method GetData(key: Key, fields: Option<string>) returns (r: Settled, invoked: nat)
      ensures Reply(r, invoked) == FailFast(Outcomes(Call.GetData(key, fields)))
    {
      r, invoked := FailFastScan(Call.GetData(key, fields));
    }

    /** Search follows the same cascade as the single read. */
    method SearchData(query: Value) returns (r: Settled, invoked: nat)
      ensures Reply(r, invoked) == FailFast(Outcomes(Call.SearchData(query)))
    {
      r, invoked := FailFastScan(Call.SearchData(query));
    }

    /**
     * Batch read: resolves with the first non-empty batch, however short;
     * a backend error is remembered and the scan goes on; when no backend
     * has anything, rejects with the last error remembered, or with
     * "Resource not found".
     */
    method GetItems(keys: seq<Key>, fields: Option<string>) returns (r: Settled, invoked: nat)
      ensures Reply(r, invoked) == Tolerant(Outcomes(Call.GetItems(keys, fields)))
    {
      var c := Call.GetItems(keys, fields);
      ghost var outs := Outcomes(c);
      var lastError: Option<Error> := None;
      var i := 0;
      assert outs[0..] == outs;
      while i < |sources|
        invariant 0 <= i <= |sources|
        invariant outs == Outcomes(c)
        invariant var rest := TolerantFrom(outs[i..], lastError);
          Tolerant(outs) == Reply(rest.result, rest.consulted + i)
      {
        var o := Probe(i, c);
        TolerantFromStep(outs, i, lastError);
        if o.Success? {
          assert outs == Outcomes(c);
          return Resolved(o.value), i + 1;
        }
        if o.Failure? {
          lastError := Some(o.error);
        }
        i := i + 1;
      }
      assert outs[|sources|..] == [];
      assert TolerantFrom([], lastError).consulted == 0;
      r := Rejected(if lastError.Some? then lastError.value else ResourceNotFound);
      invoked := |sources|;
    }

    /** The primary alone answers a write; its answer is passed on as it is. */
    method WritePrimary(c: Call) returns (r: Settled)
      requires Valid() && c.IsWrite()
      modifies sources[0].Footprint()
      ensures r == old(sources[0].Response(c))
      ensures sources[0].Dummy? ==> sources[0].source.values == Store(old(sources[0].source.values), c)
    {
      r := Write(sources[0], c);
    }

    method PutData(key: Key, value: Value) returns (r: Settled)
      requires Valid()
      modifies sources[0].Footprint()
      ensures r == old(sources[0].Response(Call.PutData(key, value)))
      ensures sources[0].Dummy? ==> sources[0].source.values == SetValue(old(sources[0].source.values), key, value)
    {
      r := WritePrimary(Call.PutData(key, value));
    }

    method UpdateData(key: Key, value: Value) returns (r: Settled)
      requires Valid()
      modifies sources[0].Footprint()
      ensures r == old(sources[0].Response(Call.UpdateData(key, value)))
      ensures sources[0].Dummy? ==> sources[0].source.values == SetValue(old(sources[0].source.values), key, value)
    {
      r := WritePrimary(Call.UpdateData(key, value));
    }

    method DeleteItem(key: Key) returns (r: Settled)
      requires Valid()
      modifies sources[0].Footprint()
      ensures r == old(sources[0].Response(Call.DeleteItem(key)))
      ensures sources[0].Dummy? ==> sources[0].source.values == old(sources[0].source.values) - {key}
    {
      r := WritePrimary(Call.DeleteItem(key));
    }
  }
}
