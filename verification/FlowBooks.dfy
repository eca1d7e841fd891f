/**
 The bookkeeping of one provider round: which decision was obtained for which provider, which were
 settled, and how these books agree with the trace of what really happened.
 */
module FlowBooks {
  import opened Options
  import opened FlowTrace

  datatype Books = Books(
    auditIds: seq<(string, string)>, settled: set<string>, attempted: set<string>, auditFailed: bool,
    approvalFailed: bool)

  ghost function OpenIds(books: Books): set<string> {
    set k | 0 <= k < |books.auditIds| && books.auditIds[k].1 !in books.settled :: books.auditIds[k].1
  }

  /** The providers whose decision is still to be settled. */
  ghost function OpenProviders(auditIds: seq<(string, string)>, settled: set<string>): set<string> {
    set k | 0 <= k < |auditIds| && auditIds[k].1 !in settled :: auditIds[k].0
  }

  lemma OpenProvidersGrow(auditIds: seq<(string, string)>, settled: set<string>, provider: string, auditId: string)
    ensures OpenProviders(auditIds + [(provider, auditId)], settled) ==
            OpenProviders(auditIds, settled) + if auditId in settled then {} else {provider}
  {
    var longer := auditIds + [(provider, auditId)];
    assert longer[|auditIds|] == (provider, auditId);
    assert forall k | 0 <= k < |auditIds| :: longer[k] == auditIds[k];
  }

  /** A new entry that is settled at once leaves the open providers as they are. */
  lemma OpenProvidersStay(auditIds: seq<(string, string)>, settled: set<string>, provider: string, auditId: string)
    requires forall k | 0 <= k < |auditIds| :: auditIds[k].1 != auditId
    ensures OpenProviders(auditIds + [(provider, auditId)], settled + {auditId}) == OpenProviders(auditIds, settled)
  {
    var longer := auditIds + [(provider, auditId)];
    assert longer[|auditIds|] == (provider, auditId);
    assert forall k | 0 <= k < |auditIds| :: longer[k] == auditIds[k];
  }

  ghost predicate HasAllowance(trace: Trace, taskId: string, path: string, provider: string, auditId: string) {
    exists i :: 0 <= i < |trace| && IsSendAllowance(trace[i], taskId, path, provider) && trace[i].auditId == auditId
  }

  ghost predicate AreEntries(books: Books, trace: Trace) {
    && (forall k | 0 <= k < |books.auditIds| ::
          books.auditIds[k].0 in books.attempted && books.auditIds[k].1 in Decided(trace))
    && (forall k, l | 0 <= k < l < |books.auditIds| ::
          books.auditIds[k].0 != books.auditIds[l].0 && books.auditIds[k].1 != books.auditIds[l].1)
    && books.settled <= Decided(trace)
  }

  ghost predicate OpenAreAllowed(books: Books, trace: Trace, taskId: string, path: string) {
    forall k | 0 <= k < |books.auditIds| && books.auditIds[k].1 !in books.settled ::
      HasAllowance(trace, taskId, path, books.auditIds[k].0, books.auditIds[k].1)
  }

  ghost predicate ContactsAreAttempts(books: Books, trace: Trace) {
    forall p | WasContacted(trace, p) :: p in books.attempted
  }

  ghost predicate Keeps(books: Books, trace: Trace, taskId: string, path: string, providers: seq<string>) {
    && IsSafe(trace, taskId, path, providers) && SettlesOnce(trace)
    && Outstanding(trace) == OpenIds(books)
    && AreEntries(books, trace)
    && OpenAreAllowed(books, trace, taskId, path)
    && ContactsAreAttempts(books, trace)
    && (books.auditFailed <==> !NoneFailed(trace))
  }

  lemma AllowanceStays(trace: Trace, event: Event, taskId: string, path: string, provider: string, auditId: string)
    requires HasAllowance(trace, taskId, path, provider, auditId)
    ensures HasAllowance(trace + [event], taskId, path, provider, auditId)
  {
    var i :| 0 <= i < |trace| && IsSendAllowance(trace[i], taskId, path, provider) && trace[i].auditId == auditId;
    assert (trace + [event])[i] == trace[i];
  }

  lemma ContactAppended(trace: Trace, event: Event)
    ensures Contacts(Calls(trace + [event])) ==
            Contacts(Calls(trace)) + if event.Contacted? then [event.provider] else []
  {
    CallsAppended(trace, event);
    if IsOfCall(event) {
      ContactsAppended(Calls(trace), event);
    } else {
      assert Calls(trace) + [] == Calls(trace);
    }
  }

  lemma ContactsStayAttempts(books: Books, trace: Trace, event: Event)
    requires ContactsAreAttempts(books, trace) && (event.Contacted? ==> event.provider in books.attempted)
    ensures ContactsAreAttempts(books, trace + [event])
  {
    ContactAppended(trace, event);
  }

  lemma OpenStayAllowed(books: Books, trace: Trace, event: Event, taskId: string, path: string)
    requires OpenAreAllowed(books, trace, taskId, path)
    ensures OpenAreAllowed(books, trace + [event], taskId, path)
  {
    forall k | 0 <= k < |books.auditIds| && books.auditIds[k].1 !in books.settled
      ensures HasAllowance(trace + [event], taskId, path, books.auditIds[k].0, books.auditIds[k].1)
    {
      AllowanceStays(trace, event, taskId, path, books.auditIds[k].0, books.auditIds[k].1);
    }
  }

  lemma NotYetEntered(
    books: Books, trace: Trace, taskId: string, path: string, providers: seq<string>, provider: string)
    requires Keeps(books, trace, taskId, path, providers) && provider !in books.attempted
    ensures !WasContacted(trace, provider)
    ensures forall k | 0 <= k < |books.auditIds| :: books.auditIds[k].0 != provider
  {
    hide IsSafe, SettlesOnce, NoneFailed, HasAllowance, WasContacted, Decided, Outstanding;
  }

  lemma NotYetSettled(books: Books, trace: Trace, taskId: string, path: string, providers: seq<string>, auditId: string)
    requires Keeps(books, trace, taskId, path, providers) && auditId !in Decided(trace)
    ensures auditId !in books.settled && forall k | 0 <= k < |books.auditIds| :: books.auditIds[k].1 != auditId
  {
    hide IsSafe, SettlesOnce, NoneFailed, HasAllowance, WasContacted, Decided, Outstanding;
  }

  /** Starting to ask for one more provider only extends the attempts. */
  lemma KeepsAfterAttempt(
    books: Books, trace: Trace, taskId: string, path: string, providers: seq<string>, provider: string)
    requires Keeps(books, trace, taskId, path, providers)
    ensures Keeps(books.(attempted := books.attempted + {provider}), trace, taskId, path, providers)
    ensures Keeps(books.(attempted := books.attempted + {provider}, approvalFailed := true), trace, taskId, path,
                  providers)
  {
    hide IsSafe, SettlesOnce, NoneFailed, HasAllowance, WasContacted;
  }

  lemma KeepsAfterNeutral(
    books: Books, trace: Trace, event: Event, taskId: string, path: string, providers: seq<string>)
    requires Keeps(books, trace, taskId, path, providers) && (event.SeenRunning? || event.Replied? || event.Crashed?)
    ensures Keeps(books, trace + [event], taskId, path, providers)
  {
    hide IsSafe, SettlesOnce, NoneFailed, HasAllowance, WasContacted, Decided, Outstanding, OpenAreAllowed;
    Appended(trace, event);
    SafeAppended(trace, event, taskId, path, providers);
    ContactsStayAttempts(books, trace, event);
    OpenStayAllowed(books, trace, event, taskId, path);
  }

  lemma KeepsAfterAllowance(
    books: Books, trace: Trace, taskId: string, path: string, providers: seq<string>, provider: string, auditId: string,
    grant: string)
    requires Keeps(books, trace, taskId, path, providers) && provider in books.attempted
    requires forall k | 0 <= k < |books.auditIds| :: books.auditIds[k].0 != provider
    requires auditId !in Decided(trace)
    ensures Keeps(books.(auditIds := books.auditIds + [(provider, auditId)]),
                  trace + [Decision(auditId, true, SEND_DOCUMENT, path, Some(provider), taskId, grant)],
                  taskId, path, providers)
  {
    var event := Decision(auditId, true, SEND_DOCUMENT, path, Some(provider), taskId, grant);
    var longer := trace + [event];
    assert HasAllowance(longer, taskId, path, provider, auditId) by {
      assert longer[|trace|] == event;
    }
    hide IsSafe, SettlesOnce, NoneFailed, HasAllowance, WasContacted, Decided, Outstanding;
    Appended(trace, event);
    SafeAppended(trace, event, taskId, path, providers);
    ContactsStayAttempts(books, trace, event);
    OpenStayAllowed(books, trace, event, taskId, path);
    assert OpenIds(books.(auditIds := books.auditIds + [(provider, auditId)])) == OpenIds(books) + {auditId} by {
      OpenIdsGrow(books, provider, auditId);
    }
  }

  lemma OpenIdsGrow(books: Books, provider: string, auditId: string)
    ensures OpenIds(books.(auditIds := books.auditIds + [(provider, auditId)])) ==
            OpenIds(books) + if auditId in books.settled then {} else {auditId}
  {
    var longer := books.auditIds + [(provider, auditId)];
    assert longer[|books.auditIds|] == (provider, auditId);
    assert forall k | 0 <= k < |books.auditIds| :: longer[k] == books.auditIds[k];
  }

  /** A refusal is entered and settled in one go. */
  lemma KeepsAfterRefusal(
    books: Books, trace: Trace, taskId: string, path: string, providers: seq<string>, provider: string,
    auditId: string, grant: string, attempt: Attempt, at: nat)
    requires Keeps(books, trace, taskId, path, providers) && provider in books.attempted
    requires forall k | 0 <= k < |books.auditIds| :: books.auditIds[k].0 != provider
    requires auditId !in Decided(trace)
    ensures Keeps(books.(auditIds := books.auditIds + [(provider, auditId)], settled := books.settled + {auditId},
                         auditFailed := books.auditFailed || attempt.NotWritten?),
                  trace + [Decision(auditId, false, SEND_DOCUMENT, path, Some(provider), taskId, grant)]
                        + [Settled(auditId, SettledFailed, attempt, at)],
                  taskId, path, providers)
  {
    var decision := Decision(auditId, false, SEND_DOCUMENT, path, Some(provider), taskId, grant);
    var settlement := Settled(auditId, SettledFailed, attempt, at);
    hide IsSafe, SettlesOnce, NoneFailed, HasAllowance, WasContacted, Decided, Outstanding, ContactsAreAttempts;
    Appended(trace, decision);
    SafeAppended(trace, decision, taskId, path, providers);
    ContactsStayAttempts(books, trace, decision);
    OpenStayAllowed(books, trace, decision, taskId, path);
    Appended(trace + [decision], settlement);
    SafeAppended(trace + [decision], settlement, taskId, path, providers);
    ContactsStayAttempts(books, trace + [decision], settlement);
    OpenStayAllowed(books, trace + [decision], settlement, taskId, path);
    var marked := books.(settled := books.settled + {auditId});
    assert OpenIds(marked) == OpenIds(books);
    OpenIdsGrow(marked, provider, auditId);
    ContactsKept(books, trace + [decision] + [settlement], (provider, auditId), auditId, attempt.NotWritten?);
  }

  lemma ContactsKept(books: Books, trace: Trace, entry: (string, string), auditId: string, failed: bool)
    requires ContactsAreAttempts(books, trace)
    ensures ContactsAreAttempts(
              books.(auditIds := books.auditIds + [entry], settled := books.settled + {auditId},
                     auditFailed := books.auditFailed || failed), trace)
  {
  }

  lemma KeepsAfterSettlement(
    books: Books, trace: Trace, taskId: string, path: string, providers: seq<string>, k: nat,
    status: SettledAs, attempt: Attempt, at: nat)
    requires Keeps(books, trace, taskId, path, providers)
    requires k < |books.auditIds| && books.auditIds[k].1 !in books.settled
    requires MayFollow(trace, Settled(books.auditIds[k].1, status, attempt, at), taskId, path, providers)
    ensures Keeps(books.(settled := books.settled + {books.auditIds[k].1},
                         auditFailed := books.auditFailed || attempt.NotWritten?),
                  trace + [Settled(books.auditIds[k].1, status, attempt, at)], taskId, path, providers)
  {
    var id := books.auditIds[k].1;
    var event := Settled(id, status, attempt, at);
    hide MayFollow, IsSafe, SettlesOnce, NoneFailed, HasAllowance, WasContacted, Decided, Outstanding;
    Appended(trace, event);
    SafeAppended(trace, event, taskId, path, providers);
    ContactsStayAttempts(books, trace, event);
    OpenStayAllowed(books, trace, event, taskId, path);
    var after := books.(settled := books.settled + {id});
    assert OpenIds(after) == OpenIds(books) - {id};
  }

  lemma KeepsAfterContact(
    books: Books, trace: Trace, taskId: string, path: string, providers: seq<string>, provider: string)
    requires Keeps(books, trace, taskId, path, providers) && provider in books.attempted
    requires provider in providers && !WasContacted(trace, provider) && SendCleared(trace, taskId, path, provider)
    ensures Keeps(books, trace + [Contacted(provider)], taskId, path, providers)
  {
    var event := Contacted(provider);
    hide IsSafe, SettlesOnce, NoneFailed, HasAllowance, WasContacted, Decided, Outstanding, OpenAreAllowed, SendCleared;
    Appended(trace, event);
    SafeAppended(trace, event, taskId, path, providers);
    ContactsStayAttempts(books, trace, event);
    OpenStayAllowed(books, trace, event, taskId, path);
  }

  lemma DistinctEntries(books: Books, trace: Trace, taskId: string, path: string, providers: seq<string>)
    requires Keeps(books, trace, taskId, path, providers)
    ensures forall k, l | 0 <= k < |books.auditIds| && 0 <= l < |books.auditIds| && k != l ::
              books.auditIds[k].0 != books.auditIds[l].0 && books.auditIds[k].1 != books.auditIds[l].1
  {
    hide IsSafe, SettlesOnce, NoneFailed, HasAllowance, WasContacted, Decided, Outstanding;
  }

  lemma KeepsSettlesOnce(books: Books, trace: Trace, taskId: string, path: string, providers: seq<string>)
    requires Keeps(books, trace, taskId, path, providers)
    ensures SettlesOnce(trace)
  {
  }

  /** An entry that is not marked as settled stands for an open decision. */
  lemma OpenIsOutstanding(
    books: Books, trace: Trace, taskId: string, path: string, providers: seq<string>, k: nat)
    requires Keeps(books, trace, taskId, path, providers)
    requires k < |books.auditIds| && books.auditIds[k].1 !in books.settled
    ensures SettlesOnce(trace) && books.auditIds[k].1 in Outstanding(trace)
  {
    hide IsSafe, NoneFailed, Outstanding, SettlesOnce;
  }

  lemma OkUnlessFailed(books: Books, trace: Trace, taskId: string, path: string, providers: seq<string>)
    requires Keeps(books, trace, taskId, path, providers)
    ensures books.auditFailed <==> !NoneFailed(trace)
  {
  }

  /** How many entries from the k-th on are open. */
  ghost function OpenFrom(books: Books, k: nat): nat
    requires k <= |books.auditIds|
    decreases |books.auditIds| - k
  {
    if k == |books.auditIds| then 0
    else (if books.auditIds[k].1 in books.settled then 0 else 1) + OpenFrom(books, k + 1)
  }

  lemma OpenFromNext(books: Books, k: nat)
    requires k < |books.auditIds|
    ensures OpenFrom(books, k) ==
            (if books.auditIds[k].1 in books.settled then 0 else 1) + OpenFrom(books, k + 1)
  {
  }

  ghost function OpenIdsFrom(books: Books, k: nat): set<string> {
    set i | k <= i < |books.auditIds| && books.auditIds[i].1 !in books.settled :: books.auditIds[i].1
  }

  lemma {:induction false} OpenFromCounts(books: Books, k: nat)
    requires k <= |books.auditIds|
    requires forall i, j | 0 <= i < j < |books.auditIds| :: books.auditIds[i].1 != books.auditIds[j].1
    ensures OpenFrom(books, k) == |OpenIdsFrom(books, k)|
    decreases |books.auditIds| - k
  {
    if k < |books.auditIds| {
      OpenFromCounts(books, k + 1);
      OpenIdsFromNext(books, k);
      hide OpenIdsFrom;
    }
  }

  lemma OpenIdsFromNext(books: Books, k: nat)
    requires k < |books.auditIds|
    requires forall i | k < i < |books.auditIds| :: books.auditIds[i].1 != books.auditIds[k].1
    ensures var id := books.auditIds[k].1;
      && id !in OpenIdsFrom(books, k + 1)
      && OpenIdsFrom(books, k) == OpenIdsFrom(books, k + 1) + if id in books.settled then {} else {id}
  {
    var id, rest := books.auditIds[k].1, OpenIdsFrom(books, k + 1);
    forall x | x in OpenIdsFrom(books, k) ensures x in rest || (x == id && id !in books.settled) {
      var i :| k <= i < |books.auditIds| && books.auditIds[i].1 !in books.settled && books.auditIds[i].1 == x;
    }
    forall x | x in rest ensures x in OpenIdsFrom(books, k) {
      var i :| k + 1 <= i < |books.auditIds| && books.auditIds[i].1 !in books.settled && books.auditIds[i].1 == x;
    }
  }

  /** The open decisions are as many as the open entries. */
  lemma OutstandingAreCounted(books: Books, trace: Trace, taskId: string, path: string, providers: seq<string>)
    requires Keeps(books, trace, taskId, path, providers)
    ensures |Outstanding(trace)| == OpenFrom(books, 0)
  {
    hide IsSafe, NoneFailed, SettlesOnce, HasAllowance, Decided, Outstanding, WasContacted;
    OpenFromCounts(books, 0);
    assert OpenIdsFrom(books, 0) == OpenIds(books);
  }

  /** With the first k entries settled since, what is open are the entries after them that were open before. */
  lemma {:induction false} OpenWhenFrontIsSettled(before: Books, after: Books, k: nat)
    requires after.auditIds == before.auditIds && k <= |after.auditIds|
    requires forall i | 0 <= i < k :: after.auditIds[i].1 in after.settled
    requires forall i | k <= i < |after.auditIds| ::
               after.auditIds[i].1 in after.settled <==> before.auditIds[i].1 in before.settled
    ensures OpenFrom(after, 0) == OpenFrom(before, k)
  {
    OpenTail(before, after, k);
    if k > 0 {
      SettledFront(after, 0, k);
    }
  }

  lemma {:induction false} OpenTail(before: Books, after: Books, k: nat)
    requires after.auditIds == before.auditIds && k <= |after.auditIds|
    requires forall i | k <= i < |after.auditIds| ::
               after.auditIds[i].1 in after.settled <==> before.auditIds[i].1 in before.settled
    ensures OpenFrom(after, k) == OpenFrom(before, k)
    decreases |after.auditIds| - k
  {
    if k < |after.auditIds| {
      OpenTail(before, after, k + 1);
    }
  }

  lemma {:induction false} SettledFront(books: Books, i: nat, k: nat)
    requires i <= k <= |books.auditIds|
    requires forall j | i <= j < k :: books.auditIds[j].1 in books.settled
    ensures OpenFrom(books, i) == OpenFrom(books, k)
    decreases k - i
  {
    if i < k {
      SettledFront(books, i + 1, k);
    }
  }

  /** With every entry settled nothing is outstanding. */
  lemma NothingOpen(books: Books, trace: Trace, taskId: string, path: string, providers: seq<string>)
    requires Keeps(books, trace, taskId, path, providers)
    requires forall k | 0 <= k < |books.auditIds| :: books.auditIds[k].1 in books.settled
    ensures AtRest(trace, taskId, path, providers)
  {
    hide IsSafe, NoneFailed;
    assert OpenIds(books) == {};
  }

  /** A round cut short by a settlement that raised is accounted for as far as it went. */
  lemma CutShort(books: Books, trace: Trace, taskId: string, path: string, providers: seq<string>)
    requires Keeps(books, trace, taskId, path, providers) && EndsRaised(trace)
    ensures IsAccounted(trace, taskId, path, providers, false)
  {
    hide IsSafe, NoneFailed;
  }

  /** Empty books keep any trace at rest in which nobody was contacted yet. */
  lemma EmptyBooksKeep(trace: Trace, taskId: string, path: string, providers: seq<string>)
    requires AtRest(trace, taskId, path, providers) && NoneFailed(trace)
    requires Calls(trace) == []
    ensures Keeps(Books([], {}, {}, false, false), trace, taskId, path, providers)
  {
    hide IsSafe, NoneFailed, SettlesOnce;
  }
}
