/** Values shared by every layer: identifiers, byte strings and committed operations. */
module Core {

  datatype Option<+T> = None | Some(value: T)

  newtype Byte = b: int | 0 <= b < 256
  type Bytes = seq<Byte>

  type DocId = string
  type SessionId = string
  type NodeId = nat
  type ConnId = nat

  /** One committed change set, as the op log stores it and as it travels in a sync message. */
  datatype Op = Op(seqNo: nat, session: SessionId, payload: Bytes)

  /** The log numbers its entries 1, 2, 3, ... without a gap. */
  ghost predicate Numbered(log: seq<Op>) {
    forall i :: 0 <= i < |log| ==> log[i].seqNo == i + 1
  }

  /** The entries numbered above `after`, in order. The cursor comes from the client, so it may be negative or
      lie beyond the end of the log. */
  function Since(log: seq<Op>, after: int): seq<Op> {
    if after <= 0 then log else if after >= |log| then [] else log[after..]
  }

  /** On a numbered log, `Since` selects exactly the entries a `seq > after` query selects. */
  lemma SinceSelects(log: seq<Op>, after: int)
    requires Numbered(log)
    ensures forall op :: op in Since(log, after) <==> op in log && op.seqNo > after
    ensures forall i, j :: 0 <= i < j < |Since(log, after)| ==> Since(log, after)[i].seqNo < Since(log, after)[j].seqNo
  {
    forall op | op in log && op.seqNo > after
      ensures op in Since(log, after)
    {
      var i :| 0 <= i < |log| && log[i] == op;
      if 0 < after {
        assert log[after..][i - after] == op;
      }
    }
  }
}
