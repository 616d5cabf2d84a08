/** Counting facts behind the retry budget: a queue tail in which no call
    occurs more than twice is at most twice as long as the set of calls it is
    drawn from. This bounds how far one `execute` can grow the queue. */
module Budget {
  import opened Operations

  /** `ops` with every occurrence of the call `id` removed. */
  function Without(ops: seq<BatchOperation>, id: nat): (r: seq<BatchOperation>)
    ensures forall j :: 0 <= j < |r| ==> r[j].id != id
    ensures forall j :: 0 <= j < |r| ==> exists k :: 0 <= k < |ops| && r[j] == ops[k]
    decreases |ops|
  {
    if |ops| == 0 then []
    else
      var rest := Without(ops[1..], id);
      assert forall j :: 0 <= j < |rest| ==> exists k :: 0 <= k < |ops| && rest[j] == ops[k] by {
        forall j | 0 <= j < |rest|
          ensures exists k :: 0 <= k < |ops| && rest[j] == ops[k]
        {
          var k :| 0 <= k < |ops[1..]| && rest[j] == ops[1..][k];
          assert rest[j] == ops[k + 1];
        }
      }
      if ops[0].id == id then rest else [ops[0]] + rest
  }

  lemma {:induction false} WithoutCounts(ops: seq<BatchOperation>, id: nat)
    ensures |Without(ops, id)| == |ops| - CountId(ops, id)
    ensures forall x :: x != id ==> CountId(Without(ops, id), x) == CountId(ops, x)
    decreases |ops|
  {
    if |ops| > 0 {
      WithoutCounts(ops[1..], id);
      var rest := Without(ops[1..], id);
      if ops[0].id != id {
        assert ([ops[0]] + rest)[1..] == rest;
      }
    }
  }

  /** No call occurs more than twice in `ops`, and every call in it comes
      from `calls`: then `ops` has at most `2 * |calls|` entries. */
  lemma {:induction false} AtMostTwiceEach(ops: seq<BatchOperation>, calls: set<nat>)
    requires forall j :: 0 <= j < |ops| ==> ops[j].id in calls
    requires forall id :: CountId(ops, id) <= 2
    ensures |ops| <= 2 * |calls|
    decreases |calls|
  {
    if |ops| > 0 {
      var id := ops[0].id;
      var rest := Without(ops, id);
      WithoutCounts(ops, id);
      assert forall j :: 0 <= j < |rest| ==> rest[j].id in calls - {id} by {
        forall j | 0 <= j < |rest|
          ensures rest[j].id in calls - {id}
        {
          var k :| 0 <= k < |ops| && rest[j] == ops[k];
        }
      }
      assert forall x :: CountId(rest, x) <= 2 by {
        forall x ensures CountId(rest, x) <= 2 {
          if x == id {
            CountIdOfAbsent(rest, id);
          }
        }
      }
      AtMostTwiceEach(rest, calls - {id});
    }
  }

  lemma {:induction false} CountIdOfAbsent(ops: seq<BatchOperation>, id: nat)
    requires forall j :: 0 <= j < |ops| ==> ops[j].id != id
    ensures CountId(ops, id) == 0
    decreases |ops|
  {
    if |ops| > 0 {
      CountIdOfAbsent(ops[1..], id);
    }
  }
}
