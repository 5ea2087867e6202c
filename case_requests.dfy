/** The advocate's inbox of case requests: a status update by id, and the
    split of the list into pending and handled requests. */
module CaseRequests {
  import opened Types
  import MockData

  /** The two statuses a decision can set. */
  type Decision = s: string | s == "Accepted" || s == "Rejected" witness "Accepted"

  /** The request with its status replaced when its id is `requestId`. */
  function UpdateOne(request: CaseRequest, requestId: string, newStatus: string): CaseRequest {
    if request.id == requestId then request.(status := newStatus) else request
  }

  /** The list handleUpdateRequest stores: a copy of `requests` in which every
      request with id `requestId` carries `newStatus`. */
  function UpdateStatus(requests: seq<CaseRequest>, requestId: string, newStatus: string): seq<CaseRequest> {
    if requests == [] then []
    else [UpdateOne(requests[0], requestId, newStatus)] + UpdateStatus(requests[1..], requestId, newStatus)
  }

  /** The update keeps length and order, touches only the status, and only of
      the requests whose id matches. */
  lemma {:induction false} UpdateStatusAt(requests: seq<CaseRequest>, requestId: string, newStatus: string)
    ensures |UpdateStatus(requests, requestId, newStatus)| == |requests|
    ensures forall i :: 0 <= i < |requests| ==>
      var r := UpdateStatus(requests, requestId, newStatus)[i];
      && r.id == requests[i].id
      && r == requests[i].(status := r.status)
      && r.status == (if requests[i].id == requestId then newStatus else requests[i].status)
  {
    if requests != [] {
      UpdateStatusAt(requests[1..], requestId, newStatus);
      var r := UpdateStatus(requests, requestId, newStatus);
      forall i | 1 <= i < |requests|
        ensures r[i] == UpdateStatus(requests[1..], requestId, newStatus)[i - 1]
      {
      }
    }
  }

  /** An id that no request carries leaves the list as it was. */
  lemma {:induction false} UpdateUnknownId(requests: seq<CaseRequest>, requestId: string, newStatus: string)
    requires forall i :: 0 <= i < |requests| ==> requests[i].id != requestId
    ensures UpdateStatus(requests, requestId, newStatus) == requests
  {
    if requests != [] {
      UpdateUnknownId(requests[1..], requestId, newStatus);
    }
  }

  /** Applying the same decision twice is the same as applying it once. */
  lemma {:induction false} UpdateIdempotent(requests: seq<CaseRequest>, requestId: string, newStatus: string)
    ensures UpdateStatus(UpdateStatus(requests, requestId, newStatus), requestId, newStatus)
         == UpdateStatus(requests, requestId, newStatus)
  {
    if requests != [] {
      UpdateIdempotent(requests[1..], requestId, newStatus);
      var once := UpdateStatus(requests, requestId, newStatus);
      assert once[1..] == UpdateStatus(requests[1..], requestId, newStatus);
    }
  }

  /** `requests.filter(r => r.status === 'Pending')`. */
  function Pending(requests: seq<CaseRequest>): (p: seq<CaseRequest>)
    ensures |p| <= |requests|
  {
    if requests == [] then []
    else (if requests[0].status == "Pending" then [requests[0]] else []) + Pending(requests[1..])
  }

  /** `requests.filter(r => r.status !== 'Pending')`. */
  function Handled(requests: seq<CaseRequest>): (h: seq<CaseRequest>)
    ensures |h| <= |requests|
  {
    if requests == [] then []
    else (if requests[0].status != "Pending" then [requests[0]] else []) + Handled(requests[1..])
  }

  /** The pending list holds exactly the pending requests, and the handled
      list exactly the others. */
  lemma {:induction false} FilterMembers(requests: seq<CaseRequest>, x: CaseRequest)
    ensures x in Pending(requests) <==> x in requests && x.status == "Pending"
    ensures x in Handled(requests) <==> x in requests && x.status != "Pending"
  {
    if requests != [] {
      FilterMembers(requests[1..], x);
      assert requests == [requests[0]] + requests[1..];
    }
  }

  /** The two lists split the requests: every request lands in exactly one of
      them, so their sizes add up to the total. */
  lemma {:induction false} PendingHandledPartition(requests: seq<CaseRequest>)
    ensures multiset(Pending(requests)) + multiset(Handled(requests)) == multiset(requests)
    ensures |Pending(requests)| + |Handled(requests)| == |requests|
  {
    if requests != [] {
      PendingHandledPartition(requests[1..]);
      assert requests == [requests[0]] + requests[1..];
    }
  }

  /** Both filters keep relative order: filtering a concatenation filters each
      part and concatenates the results. */
  lemma FiltersKeepOrder(a: seq<CaseRequest>, b: seq<CaseRequest>)
    ensures Pending(a + b) == Pending(a) + Pending(b)
    ensures Handled(a + b) == Handled(a) + Handled(b)
  {
    PendingConcat(a, b);
    HandledConcat(a, b);
  }

  lemma {:induction false} PendingConcat(a: seq<CaseRequest>, b: seq<CaseRequest>)
    ensures Pending(a + b) == Pending(a) + Pending(b)
  {
    if a == [] {
      assert a + b == b;
    } else {
      var x, rest := a[0], a[1..];
      assert a + b == [x] + (rest + b);
      PendingConcat(rest, b);
      PendingCons(x, rest + b);
      PendingCons(x, rest);
      assert a == [x] + rest;
    }
  }

  lemma {:induction false} HandledConcat(a: seq<CaseRequest>, b: seq<CaseRequest>)
    ensures Handled(a + b) == Handled(a) + Handled(b)
  {
    if a == [] {
      assert a + b == b;
    } else {
      var x, rest := a[0], a[1..];
      assert a + b == [x] + (rest + b);
      HandledConcat(rest, b);
      HandledCons(x, rest + b);
      HandledCons(x, rest);
      assert a == [x] + rest;
    }
  }

  /** One step of each filter. */
  lemma PendingCons(x: CaseRequest, rest: seq<CaseRequest>)
    ensures Pending([x] + rest) == (if x.status == "Pending" then [x] else []) + Pending(rest)
  {
    assert ([x] + rest)[1..] == rest;
  }

  lemma HandledCons(x: CaseRequest, rest: seq<CaseRequest>)
    ensures Handled([x] + rest) == (if x.status != "Pending" then [x] else []) + Handled(rest)
  {
    assert ([x] + rest)[1..] == rest;
  }

  /** After Accept or Reject on a request, no pending request has its id any
      more, and the decided request is among the handled ones. */
  lemma DecisionMovesToHandled(requests: seq<CaseRequest>, i: int, newStatus: Decision)
    requires 0 <= i < |requests|
    ensures forall x :: x in Pending(UpdateStatus(requests, requests[i].id, newStatus)) ==> x.id != requests[i].id
    ensures requests[i].(status := newStatus) in Handled(UpdateStatus(requests, requests[i].id, newStatus))
  {
    var id := requests[i].id;
    var after := UpdateStatus(requests, id, newStatus);
    UpdateStatusAt(requests, id, newStatus);
    forall x | x in Pending(after) ensures x.id != id {
      FilterMembers(after, x);
      var k :| 0 <= k < |after| && after[k] == x;
    }
    assert after[i] == requests[i].(status := newStatus);
    FilterMembers(after, after[i]);
  }

  /** The seed inbox holds two pending requests, REQ001 and REQ002, in that order. */
  lemma SeedInboxSplit()
    ensures |Pending(MockData.InitialCaseRequests)| == 2
    ensures Pending(MockData.InitialCaseRequests)[0].id == "REQ001"
    ensures Pending(MockData.InitialCaseRequests)[1].id == "REQ002"
    ensures |Handled(MockData.InitialCaseRequests)| == 2
  {
    var rs := MockData.InitialCaseRequests;
    var r0, r1, r2, r3 := rs[0], rs[1], rs[2], rs[3];
    assert rs == [r0] + ([r1] + ([r2] + ([r3] + [])));
    assert r0.status == "Pending" && r1.status == "Pending";
    assert r2.status != "Pending" && r3.status != "Pending";
    PendingCons(r3, []);
    PendingCons(r2, [r3] + []);
    PendingCons(r1, [r2] + ([r3] + []));
    PendingCons(r0, [r1] + ([r2] + ([r3] + [])));
    HandledCons(r3, []);
    HandledCons(r2, [r3] + []);
    HandledCons(r1, [r2] + ([r3] + []));
    HandledCons(r0, [r1] + ([r2] + ([r3] + [])));
  }

  /** The inbox component's state. */
  class Inbox {
    var requests: seq<CaseRequest>
    var loading: bool

    /** On mount: an empty list while the fetch is simulated. */
    constructor ()
      ensures requests == [] && loading
    {
      requests := [];
      loading := true;
    }

    /** The simulated fetch completes with the seed list. */
    method FetchCompleted()
      modifies this
      ensures requests == MockData.InitialCaseRequests && !loading
    {
      requests := MockData.InitialCaseRequests;
      loading := false;
    }

    /** handleUpdateRequest: Accept or Reject on one request. */
    method HandleUpdateRequest(requestId: string, newStatus: Decision)
      modifies this
      ensures requests == UpdateStatus(old(requests), requestId, newStatus)
      ensures loading == old(loading)
    {
      requests := UpdateStatus(requests, requestId, newStatus);
    }

    /** The requests listed with Accept/Reject controls. */
    function PendingRequests(): seq<CaseRequest>
      reads this
    {
      Pending(requests)
    }

    /** The requests listed without controls. */
    function HandledRequests(): seq<CaseRequest>
      reads this
    {
      Handled(requests)
    }
  }
}
