/**
 The replay window: each stream remembers its last accepted identifiers, as a set to look them up in
 and a list to forget them by, and refuses one it remembers.
 */
module Correlation {
  import opened Text
  import P = Protocol
  import opened Frames

  /** Equal entries of the history are more than n apart. */
  predicate SpacedOut(history: seq<string>, n: nat) {
    forall i, j | 0 <= i < j < |history| && history[i] == history[j] :: j - i >= n + 1
  }

  /** What the tracker remembers of a history of acceptances: the list, and the set beside it. */
  predicate Remembers(order: seq<string>, seen: set<string>, history: seq<string>, n: nat) {
    && order == LastN(history, n)
    && seen == (set id | id in order)
  }

  predicate Distinct(ids: seq<string>) {
    forall i, j | 0 <= i < j < |ids| :: ids[i] != ids[j]
  }

  /** So any n + 1 consecutive acceptances are of different identifiers. */
  lemma {:induction false} WindowIsDistinct(history: seq<string>, n: nat)
    requires SpacedOut(history, n)
    ensures Distinct(LastN(history, n + 1))
  {
    var window := LastN(history, n + 1);
    var start := |history| - |window|;
    forall i, j | 0 <= i < j < |window| ensures window[i] != window[j] {
      assert window[i] == history[start + i] && window[j] == history[start + j];
    }
  }

  /** An identifier outside the window may be accepted again, and then it is far from its last acceptance. */
  lemma {:induction false} AcceptKeepsSpacing(history: seq<string>, id: string, n: nat)
    requires SpacedOut(history, n) && id !in LastN(history, n)
    ensures SpacedOut(history + [id], n)
  {
    var start := |history| - |LastN(history, n)|;
    assert forall i | start <= i < |history| :: history[i] == LastN(history, n)[i - start];
  }

  /**
   Adding an identifier to list and set, then forgetting the head of a list that has grown too long,
   keeps exactly the last n remembered. Forgetting removes one element from the set because no
   identifier is in the list twice.
   */
  lemma RemembersSlides(order: seq<string>, seen: set<string>, history: seq<string>, id: string, n: nat)
    requires n >= 1 && Remembers(order, seen, history, n) && SpacedOut(history + [id], n)
    ensures var longer := order + [id];
      if |longer| > n then Remembers(longer[1..], seen + {id} - {longer[0]}, history + [id], n)
      else Remembers(longer, seen + {id}, history + [id], n)
  {
    var longer := order + [id];
    assert (set x | x in longer) == seen + {id};
    if |longer| > n {
      WindowIsDistinct(history + [id], n);
      assert longer == LastN(history + [id], n + 1);
      assert longer == [longer[0]] + longer[1..];
      assert longer[0] !in longer[1..];
    }
  }

  class Phase6CorrelationTracker {
    const maxHistory: nat
    var seenRequestIds: set<string>
    var seenNonces: set<string>
    var requestOrder: seq<string>
    var nonceOrder: seq<string>
    ghost var acceptedRequests: seq<string>
    ghost var acceptedNonces: seq<string>

    /** Both streams remember exactly the last accepted identifiers, and never accepted one too early. */
    ghost predicate Valid()
      reads this
    {
      && 1 <= maxHistory
      && Remembers(requestOrder, seenRequestIds, acceptedRequests, maxHistory)
      && Remembers(nonceOrder, seenNonces, acceptedNonces, maxHistory)
      && SpacedOut(acceptedRequests, maxHistory)
      && SpacedOut(acceptedNonces, maxHistory)
    }

    constructor (maxHistory: nat)
      requires 1 <= maxHistory <= 4096
      ensures Valid() && this.maxHistory == maxHistory
      ensures acceptedRequests == [] && acceptedNonces == []
    {
      this.maxHistory := maxHistory;
      seenRequestIds, seenNonces := {}, {};
      requestOrder, nonceOrder := [], [];
      acceptedRequests, acceptedNonces := [], [];
    }

    /** Accepts a well-formed identifier exactly when it is not among the last accepted ones. */
    method TrackRequest(requestId: P.Value) returns (accepted: bool)
      requires Valid()
      modifies this
      ensures Valid()
      ensures accepted <==> IsId(requestId) && requestId.s !in LastN(old(acceptedRequests), maxHistory)
      ensures acceptedRequests == old(acceptedRequests) + if accepted then [requestId.s] else []
      ensures acceptedNonces == old(acceptedNonces)
    {
      hide SpacedOut, LastN;
      if !IsId(requestId) {
        return false;
      }
      var id := requestId.s;
      if id in seenRequestIds {
        return false;
      }
      AcceptKeepsSpacing(acceptedRequests, id, maxHistory);
      RemembersSlides(requestOrder, seenRequestIds, acceptedRequests, id, maxHistory);
      acceptedRequests := acceptedRequests + [id];
      seenRequestIds := seenRequestIds + {id};
      requestOrder := requestOrder + [id];
      if |requestOrder| > maxHistory {
        var oldest := requestOrder[0];
        requestOrder := requestOrder[1..];
        seenRequestIds := seenRequestIds - {oldest};
      }
      return true;
    }

    /** Accepts a safe text exactly when it is not among the last accepted ones. */
    method TrackNonce(nonce: P.Value) returns (accepted: bool)
      requires Valid()
      modifies this
      ensures Valid()
      ensures accepted <==> IsSafeText(nonce, 80) && nonce.s !in LastN(old(acceptedNonces), maxHistory)
      ensures acceptedNonces == old(acceptedNonces) + if accepted then [nonce.s] else []
      ensures acceptedRequests == old(acceptedRequests)
    {
      hide SpacedOut, LastN;
      if !IsSafeText(nonce, 80) {
        return false;
      }
      var id := nonce.s;
      if id in seenNonces {
        return false;
      }
      AcceptKeepsSpacing(acceptedNonces, id, maxHistory);
      RemembersSlides(nonceOrder, seenNonces, acceptedNonces, id, maxHistory);
      acceptedNonces := acceptedNonces + [id];
      seenNonces := seenNonces + {id};
      nonceOrder := nonceOrder + [id];
      if |nonceOrder| > maxHistory {
        var oldest := nonceOrder[0];
        nonceOrder := nonceOrder[1..];
        seenNonces := seenNonces - {oldest};
      }
      return true;
    }

    /** Forgets everything: any identifier may be accepted again. */
    method Clear()
      requires Valid()
      modifies this
      ensures Valid() && acceptedRequests == [] && acceptedNonces == []
    {
      seenRequestIds, seenNonces := {}, {};
      requestOrder, nonceOrder := [], [];
      acceptedRequests, acceptedNonces := [], [];
    }
  }

  // ---------- Over whole runs ----------

  /** The acceptances that a stream of well-formed identifiers leads to, from a given history. */
  function Run(history: seq<string>, ids: seq<string>, n: nat): seq<string>
    decreases ids
  {
    if ids == [] then history
    else Run(if ids[0] in LastN(history, n) then history else history + [ids[0]], ids[1..], n)
  }

  /** Whatever is submitted, in whatever order, no identifier is accepted twice within n acceptances. */
  lemma {:induction false} RunsAreSpacedOut(history: seq<string>, ids: seq<string>, n: nat)
    requires SpacedOut(history, n)
    ensures SpacedOut(Run(history, ids, n), n)
    decreases ids
  {
    if ids != [] {
      if ids[0] in LastN(history, n) {
        RunsAreSpacedOut(history, ids[1..], n);
      } else {
        AcceptKeepsSpacing(history, ids[0], n);
        RunsAreSpacedOut(history + [ids[0]], ids[1..], n);
      }
    }
  }

  /** Submitting an identifier again at once never changes anything. */
  lemma {:induction false} ReplayIsIgnored(history: seq<string>, id: string, n: nat)
    requires n >= 1
    ensures Run(history, [id, id], n) == Run(history, [id], n)
  {
    var next := if id in LastN(history, n) then history else history + [id];
    assert id in LastN(next, n) by {
      if id !in LastN(history, n) {
        assert LastN(next, n)[|LastN(next, n)| - 1] == id;
      }
    }
    assert [id, id][1..] == [id] && [id][1..] == [];
  }

  /** Replay is only kept out for n acceptances: n others later, the same identifier is accepted again. */
  lemma {:induction false} ForgottenAfterNOthers(history: seq<string>, id: string, others: seq<string>, n: nat)
    requires |others| == n && id !in others
    ensures id !in LastN(history + [id] + others, n)
  {
    assert LastN(history + [id] + others, n) == others;
  }
}
