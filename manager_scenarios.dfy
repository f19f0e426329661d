/**
 * The manager's test cases, replayed against the model: each method builds
 * the backends the test builds (a fresh in-memory store, or a store whose
 * one method is stubbed, modelled as a Stub answering that call and
 * answering every other call as an empty store would) and states what the
 * test expects.
 */
module ManagerScenarios {
  import opened Wrappers
  import opened Values
  import opened Restify
  import opened DataSource
  import opened Cascade
  import opened DummyBackend
  import opened Manager

  /** A fresh store whose answer to the calls `stubbed` picks is replaced by `answer`. */
  function StubbedStore(stubbed: Call -> bool, answer: Settled): Backend
  {
    Stub(c => if stubbed(c) then answer else Answer(map[], c))
  }

  /**
   * Four empty stores, then a backend that has an answer: both cascades
   * resolve with that answer, after calling all five.
   */
  lemma FifthBackendAnswers(manager: DataSourceManager, c: Call, s0: DummySource, s1: DummySource, s2: DummySource, s3: DummySource, v: Value)
    requires !c.IsWrite() && |manager.sources| == 5
    requires manager.sources[0] == Dummy(s0) && manager.sources[1] == Dummy(s1)
    requires manager.sources[2] == Dummy(s2) && manager.sources[3] == Dummy(s3)
    requires s0.values == s1.values == s2.values == s3.values == map[]
    requires Classify(c, manager.sources[4].Response(c)) == Success(v)
    ensures FailFast(manager.Outcomes(c)) == Reply(Resolved(v), 5)
    ensures Tolerant(manager.Outcomes(c)) == Reply(Resolved(v), 5)
  {
    manager.EmptyBackend(c, 0);
    manager.EmptyBackend(c, 1);
    manager.EmptyBackend(c, 2);
    manager.EmptyBackend(c, 3);
    var outs := manager.Outcomes(c);
    FailFastFirstNonEmpty(outs, 4);
    TolerantFirstSuccess(outs, 4, None);
  }

  /** An empty primary, an answering second backend; the third is never called. */
  method CallTwoSourcesAndStop(key: Key, third: Call -> Settled) returns (r: Settled, invoked: nat)
    ensures r == Resolved(Str("dummy_data")) && invoked == 2
  {
    var empty := StubbedStore((c: Call) => c.GetData?, Resolved(Null));
    var dummy := StubbedStore((c: Call) => c.GetData?, Resolved(Str("dummy_data")));
    var manager := new DataSourceManager([empty, dummy, Stub(third)]);
    r, invoked := manager.GetData(key, None);
    ghost var outs := manager.Outcomes(Call.GetData(key, None));
    FailFastFirstNonEmpty(outs, 1);
  }

  /** Four empty stores, then the backend that has the record. */
  method FifthSourceAnswers(key: Key) returns (r: Settled, invoked: nat)
    ensures r == Resolved(Str("slaveSource4")) && invoked == 5
  {
    var main := new DummySource();
    var slave1 := new DummySource();
    var slave2 := new DummySource();
    var slave3 := new DummySource();
    var slave4 := StubbedStore((c: Call) => c.GetData?, Resolved(Str("slaveSource4")));
    var manager := new DataSourceManager([Dummy(main), Dummy(slave1), Dummy(slave2), Dummy(slave3), slave4]);
    ghost var c := Call.GetData(key, None);
    FifthBackendAnswers(manager, c, main, slave1, slave2, slave3, Str("slaveSource4"));
    ghost var outs := manager.Outcomes(c);
    r, invoked := manager.GetData(key, None);
    assert manager.Outcomes(c) == outs;
  }

  /** A single empty store: the read rejects with "Resource not found". */
  method EmptyResource(key: Key) returns (r: Settled)
    ensures r == Rejected(NotFound("Resource not found"))
  {
    var main := new DummySource();
    var manager := new DataSourceManager([Dummy(main)]);
    var invoked;
    r, invoked := manager.GetData(key, None);
    ghost var outs := manager.Outcomes(Call.GetData(key, None));
    FailFastFirstNonEmpty(outs, 1);
  }

  /** The primary's partial (here nested) batch is final; the rejecting fallback is not called. */
  method PartialBatch(keys: seq<Key>, content: seq<Value>) returns (r: Settled, invoked: nat)
    ensures r == Resolved(Arr([Arr(content)])) && invoked == 1
  {
    var main := StubbedStore((c: Call) => c.GetItems?, Resolved(Arr([Arr(content)])));
    var external := StubbedStore((c: Call) => c.GetItems?, Rejected(Reason(Str("Not content"))));
    var manager := new DataSourceManager([main, external]);
    r, invoked := manager.GetItems(keys, None);
    ghost var outs := manager.Outcomes(Call.GetItems(keys, None));
    TolerantFirstSuccess(outs, 0, None);
  }

  /** Both backends reject the batch: the last rejection is reported. */
  method EveryBatchRejects(keys: seq<Key>) returns (r: Settled, invoked: nat)
    ensures r == Rejected(Reason(Str("Not content"))) && invoked == 2
  {
    var main := StubbedStore((c: Call) => c.GetItems?, Rejected(Reason(Str("Not content"))));
    var external := StubbedStore((c: Call) => c.GetItems?, Rejected(Reason(Str("Not content"))));
    var manager := new DataSourceManager([main, external]);
    r, invoked := manager.GetItems(keys, None);
    ghost var outs := manager.Outcomes(Call.GetItems(keys, None));
    TolerantExhausted(outs);
  }

  /** Four stores without the key answer an empty batch; the fifth answers. */
  method FifthSourceAnswersBatch(key: Key) returns (r: Settled, invoked: nat)
    ensures r == Resolved(Arr([Str("slaveSource4")])) && invoked == 5
  {
    var main := new DummySource();
    var slave1 := new DummySource();
    var slave2 := new DummySource();
    var slave3 := new DummySource();
    var slave4 := StubbedStore((c: Call) => c.GetItems?, Resolved(Arr([Str("slaveSource4")])));
    var manager := new DataSourceManager([Dummy(main), Dummy(slave1), Dummy(slave2), Dummy(slave3), slave4]);
    ghost var c := Call.GetItems([key], None);
    FifthBackendAnswers(manager, c, main, slave1, slave2, slave3, Arr([Str("slaveSource4")]));
    ghost var outs := manager.Outcomes(c);
    r, invoked := manager.GetItems([key], None);
    assert manager.Outcomes(c) == outs;
  }

  /** Put, then update, on the primary: both confirm with the key, and the primary holds the value. */
  method InsertThenUpdate(key: Key, data: string) returns (put: Settled, updated: Settled)
    ensures put == Resolved(Obj(map["itemId" := Str(key)]))
    ensures updated == Resolved(Obj(map["itemId" := Str(key)]))
  {
    var main := new DummySource();
    var slave1 := new DummySource();
    var manager := new DataSourceManager([Dummy(main), Dummy(slave1)]);
    put := manager.PutData(key, Str(data));
    updated := manager.UpdateData(key, Str(data));
    assert main.values == map[key := Str(data)];
    assert slave1.values == map[];
  }

  /** A rejected put on the primary is passed on unchanged, though a fallback exists. */
  method PrimaryPutFails(key: Key, data: string) returns (r: Settled)
    ensures r == Rejected(InternalServer(""))
  {
    var main := StubbedStore((c: Call) => c.PutData?, Rejected(InternalServer("")));
    var slave1 := new DummySource();
    var manager := new DataSourceManager([main, Dummy(slave1)]);
    r := manager.PutData(key, Str(data));
    assert slave1.values == map[];
  }

  /** A rejected read on the primary is passed on unchanged; the fallback is not called. */
  method PrimaryGetFails(key: Key, data: string) returns (r: Settled, invoked: nat)
    ensures r == Rejected(InternalServer("")) && invoked == 1
  {
    var main := StubbedStore((c: Call) => c.GetData?, Rejected(InternalServer("")));
    var slave1 := new DummySource();
    var manager := new DataSourceManager([main, Dummy(slave1)]);
    r, invoked := manager.GetData(key, Some(data));
    ghost var outs := manager.Outcomes(Call.GetData(key, Some(data)));
    FailFastFirstNonEmpty(outs, 0);
  }

  /** Deleting returns the primary's answer as it is. */
  method DeleteReturnsPrimaryAnswer(key: Key) returns (r: Settled)
    ensures r == Resolved(Str("dummy_source_response"))
  {
    var source := StubbedStore((c: Call) => c.DeleteItem?, Resolved(Str("dummy_source_response")));
    var manager := new DataSourceManager([source]);
    r := manager.DeleteItem(key);
  }
}
