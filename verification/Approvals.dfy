/**
 * The approval gate: requests wait for a person, a timer or the shutdown, and a
 * person may consent to a whole scope for the session.
 */
module Approvals {
  import opened Common
  import opened Text

  datatype Decision = Allow | Deny | Session

  /** A waiting request; the scope is kept only when there is one to consent to. */
  datatype Entry = Entry(id: string, scope: Option<string>)

  datatype Settlement = Settlement(id: string, allowed: bool)

  /** `timers` holds the requests whose timeout has neither fired nor been cleared. */
  datatype State = State(pending: seq<Entry>, granted: set<string>, timers: set<string>, settled: seq<Settlement>)

  const INITIAL := State([], {}, {}, [])

  datatype Event =
    | Request(id: string, scope: Option<string>)
    | Answer(id: string, decision: Decision)
    | TimeoutFires(id: string)
    | Revoke(revoked: string)
    | DenyAll

  /** `Map.get` and `Map.delete` on the insertion-ordered map of waiting requests. */
  function Find(pending: seq<Entry>, id: string): (r: Option<Entry>)
    ensures r.Some? ==> r.value in pending && r.value.id == id
    ensures r.None? ==> forall e :: e in pending ==> e.id != id
  {
    if pending == [] then None
    else if pending[0].id == id then Some(pending[0])
    else Find(pending[1..], id)
  }

  function Remove(pending: seq<Entry>, id: string): (r: seq<Entry>)
    ensures |r| <= |pending|
  {
    if pending == [] then []
    else if pending[0].id == id then Remove(pending[1..], id)
    else [pending[0]] + Remove(pending[1..], id)
  }

  /** The entry's own `resolve`. */
  function Settled(s: State, entry: Entry, decision: Decision): State {
    State(Remove(s.pending, entry.id),
          if decision == Session && entry.scope.Some? then s.granted + {entry.scope.value} else s.granted,
          s.timers - {entry.id},
          s.settled + [Settlement(entry.id, decision != Deny)])
  }

  function Requested(s: State, id: string, scope: Option<string>): State {
    var wanted := OnlyTruthy(scope);
    if wanted.Some? && wanted.value in s.granted then s.(settled := s.settled + [Settlement(id, true)])
    else s.(pending := s.pending + [Entry(id, wanted)], timers := s.timers + {id})
  }

  function Answered(s: State, id: string, decision: Decision): State {
    var entry := Find(s.pending, id);
    if entry.None? then s else Settled(s, entry.value, decision)
  }

  function TimedOut(s: State, id: string): State {
    if id !in s.timers then s
    else State(Remove(s.pending, id), s.granted, s.timers - {id}, s.settled + [Settlement(id, false)])
  }

  function AllDenied(s: State, entries: seq<Entry>): State
    decreases |entries|
  {
    if entries == [] then s else AllDenied(Settled(s, entries[0], Deny), entries[1..])
  }

  function Step(s: State, e: Event): State {
    match e
    case Request(id, scope) => Requested(s, id, scope)
    case Answer(id, decision) => Answered(s, id, decision)
    case TimeoutFires(id) => TimedOut(s, id)
    case Revoke(scope) => s.(granted := s.granted - {scope})
    case DenyAll => AllDenied(s, s.pending)
  }

  // ----- The gate itself -----

  class ApprovalGate {
    var pending: seq<Entry>
    var grantedScopes: set<string>
    var timers: set<string>
    var settled: seq<Settlement>

    function View(): State
      reads this
    {
      State(pending, grantedScopes, timers, settled)
    }

    constructor ()
      ensures View() == INITIAL
    {
      pending, grantedScopes, timers, settled := [], {}, {}, [];
    }

    method RequestApproval(id: string, scope: Option<string>)
      modifies this
      ensures View() == Step(old(View()), Request(id, scope))
    {
      if scope.Some? && scope.value != "" && scope.value in grantedScopes {
        settled := settled + [Settlement(id, true)];
        return;
      }
      timers := timers + {id};
      pending := pending + [Entry(id, OnlyTruthy(scope))];
    }

    /** The closure stored with an entry. */
    method ResolveEntry(entry: Entry, decision: Decision)
      modifies this
      ensures View() == Settled(old(View()), entry, decision)
    {
      timers := timers - {entry.id};
      pending := Remove(pending, entry.id);
      if decision == Session && entry.scope.Some? {
        grantedScopes := grantedScopes + {entry.scope.value};
      }
      settled := settled + [Settlement(entry.id, decision != Deny)];
    }

    /** True exactly when the request was waiting. */
    method Resolve(id: string, decision: Decision) returns (known: bool)
      modifies this
      ensures known <==> exists e :: e in old(pending) && e.id == id
      ensures View() == Step(old(View()), Answer(id, decision))
    {
      var entry := Find(pending, id);
      if entry.None? { return false; }
      ResolveEntry(entry.value, decision);
      known := true;
    }

    method OnTimeout(id: string)
      modifies this
      ensures View() == Step(old(View()), TimeoutFires(id))
    {
      if id !in timers { return; }
      timers := timers - {id};
      pending := Remove(pending, id);
      settled := settled + [Settlement(id, false)];
    }

    method RevokeScope(scope: string)
      modifies this
      ensures View() == Step(old(View()), Revoke(scope))
    {
      grantedScopes := grantedScopes - {scope};
    }

    method DenyEverything()
      modifies this
      ensures View() == Step(old(View()), DenyAll)
    {
      var entries := pending;
      for i := 0 to |entries|
        invariant AllDenied(View(), entries[i..]) == AllDenied(old(View()), entries)
      {
        assert entries[i..][1..] == entries[i + 1..];
        ResolveEntry(entries[i], Deny);
      }
    }
  }

  // ----- Every run -----

  /** The state after a run. */
  function Run(events: seq<Event>): State
    decreases |events|
  {
    if events == [] then INITIAL else Step(Run(events[..|events| - 1]), events[|events| - 1])
  }

  /** Request ids are drawn at random and never repeat. */
  ghost predicate FreshIds(events: seq<Event>) {
    forall i, j :: 0 <= i < j < |events| && events[i].Request? && events[j].Request? ==> events[i].id != events[j].id
  }

  ghost predicate WasRequested(events: seq<Event>, id: string) {
    exists i :: 0 <= i < |events| && events[i].Request? && events[i].id == id
  }

  function PendingIds(pending: seq<Entry>): set<string> { set e | e in pending :: e.id }

  function SettledIds(settled: seq<Settlement>): set<string> { set x | x in settled :: x.id }

  ghost predicate Inv(s: State) {
    && (forall i, j :: 0 <= i < j < |s.pending| ==> s.pending[i].id != s.pending[j].id)
    && (forall i, j :: 0 <= i < j < |s.settled| ==> s.settled[i].id != s.settled[j].id)
    && PendingIds(s.pending) !! SettledIds(s.settled)
    && s.timers == PendingIds(s.pending)
  }

  lemma {:induction false} RemoveIs(pending: seq<Entry>, id: string)
    ensures forall e :: e in Remove(pending, id) <==> e in pending && e.id != id
    ensures (forall i, j :: 0 <= i < j < |pending| ==> pending[i].id != pending[j].id) ==>
            forall i, j :: 0 <= i < j < |Remove(pending, id)| ==> Remove(pending, id)[i].id != Remove(pending, id)[j].id
  {
    if pending != [] {
      RemoveIs(pending[1..], id);
    }
  }

  lemma RemovedIds(pending: seq<Entry>, id: string)
    ensures PendingIds(Remove(pending, id)) == PendingIds(pending) - {id}
  {
    RemoveIs(pending, id);
  }

  /** Settling one waiting request keeps the invariant. */
  lemma SettleKeepsInv(s: State, t: State, id: string, allowed: bool)
    requires Inv(s) && id in PendingIds(s.pending)
    requires t.pending == Remove(s.pending, id) && t.timers == s.timers - {id} && t.settled == s.settled + [Settlement(id, allowed)]
    ensures Inv(t)
  {
    RemoveIs(s.pending, id);
    RemovedIds(s.pending, id);
    assert forall x :: x in s.settled ==> x.id in SettledIds(s.settled);
    assert SettledIds(t.settled) == SettledIds(s.settled) + {id};
  }

  lemma {:induction false} AllDeniedKeepsInv(s: State, entries: seq<Entry>)
    requires Inv(s) && (forall e :: e in entries ==> e.id in PendingIds(s.pending))
    requires forall i, j :: 0 <= i < j < |entries| ==> entries[i].id != entries[j].id
    ensures Inv(AllDenied(s, entries))
    ensures PendingIds(AllDenied(s, entries).pending) == PendingIds(s.pending) - PendingIds(entries)
    decreases |entries|
  {
    if entries != [] {
      var t := Settled(s, entries[0], Deny);
      SettleKeepsInv(s, t, entries[0].id, false);
      RemovedIds(s.pending, entries[0].id);
      assert forall e :: e in entries[1..] ==> exists j :: 1 <= j < |entries| && entries[j] == e;
      AllDeniedKeepsInv(t, entries[1..]);
      assert PendingIds(entries) == {entries[0].id} + PendingIds(entries[1..]);
    }
  }

  /** No settlement from index `from` on allows anything. */
  predicate DeniesFrom(settled: seq<Settlement>, from: nat) {
    forall i :: from <= i < |settled| ==> !settled[i].allowed
  }

  lemma {:induction false} AllDeniedOnlyDenies(s: State, entries: seq<Entry>)
    ensures var t := AllDenied(s, entries);
            t.granted == s.granted && s.settled <= t.settled && DeniesFrom(t.settled, |s.settled|)
    decreases |entries|
  {
    if entries != [] {
      AllDeniedOnlyDenies(Settled(s, entries[0], Deny), entries[1..]);
    }
  }

  /** What one event may do, apart from keeping the invariant. */
  ghost predicate StepEffect(s: State, e: Event, t: State) {
    && s.settled <= t.settled
    && (e.TimeoutFires? || e.DenyAll? ==> DeniesFrom(t.settled, |s.settled|))
    && (e.DenyAll? ==> t.pending == [])
    && t.granted ==
       match e {
         case Answer(id, decision) =>
           var entry := Find(s.pending, id);
           if decision == Session && entry.Some? && entry.value.scope.Some? then s.granted + {entry.value.scope.value} else s.granted
         case Revoke(scope) => s.granted - {scope}
         case _ => s.granted
       }
  }

  lemma NoIdsNoEntries(pending: seq<Entry>)
    ensures PendingIds(pending) == {} ==> pending == []
  {
    if pending != [] {
      assert pending[0].id in PendingIds(pending);
    }
  }

  lemma StepKeepsInv(s: State, e: Event)
    requires Inv(s)
    requires e.Request? ==> e.id !in PendingIds(s.pending) && e.id !in SettledIds(s.settled)
    ensures Inv(Step(s, e)) && StepEffect(s, e, Step(s, e))
  {
    var t := Step(s, e);
    match e
    case Request(id, scope) => RequestKeepsInv(s, id, scope);
    case Answer(id, decision) =>
      var entry := Find(s.pending, id);
      if entry.Some? { SettleKeepsInv(s, t, id, decision != Deny); }
    case TimeoutFires(id) =>
      if id in s.timers { SettleKeepsInv(s, t, id, false); }
    case Revoke(scope) =>
    case DenyAll =>
      AllDeniedKeepsInv(s, s.pending);
      AllDeniedOnlyDenies(s, s.pending);
      NoIdsNoEntries(t.pending);
  }

  lemma RequestKeepsInv(s: State, id: string, scope: Option<string>)
    requires Inv(s) && id !in PendingIds(s.pending) && id !in SettledIds(s.settled)
    ensures Inv(Requested(s, id, scope))
  {
    var t := Requested(s, id, scope);
    assert forall e :: e in s.pending ==> e.id in PendingIds(s.pending);
    assert forall x :: x in s.settled ==> x.id in SettledIds(s.settled);
    if t.pending == s.pending {
      assert SettledIds(t.settled) == SettledIds(s.settled) + {id};
    } else {
      assert PendingIds(t.pending) == PendingIds(s.pending) + {id};
    }
  }

  lemma {:induction false} IdsComeFromRequests(events: seq<Event>)
    requires FreshIds(events)
    ensures Inv(Run(events))
    ensures forall id :: id in PendingIds(Run(events).pending) || id in SettledIds(Run(events).settled) ==> WasRequested(events, id)
    decreases |events|
  {
    if events != [] {
      var before, e := events[..|events| - 1], events[|events| - 1];
      IdsComeFromRequests(before);
      StepKeepsInv(Run(before), e);
      StepIds(Run(before), e);
      forall id | id in PendingIds(Run(events).pending) || id in SettledIds(Run(events).settled) ensures WasRequested(events, id) {
        if e.Request? && e.id == id {
          assert events[|events| - 1] == e;
        } else {
          assert WasRequested(before, id);
          var i :| 0 <= i < |before| && before[i].Request? && before[i].id == id;
          assert events[i] == before[i];
        }
      }
    }
  }

  /** No event makes an id up. */
  lemma StepIds(s: State, e: Event)
    requires Inv(s)
    ensures PendingIds(Step(s, e).pending) + SettledIds(Step(s, e).settled)
         <= PendingIds(s.pending) + SettledIds(s.settled) + if e.Request? then {e.id} else {}
  {
    var t := Step(s, e);
    match e
    case Request(id, scope) =>
    case Answer(id, decision) => RemoveIs(s.pending, id);
    case TimeoutFires(id) => RemoveIs(s.pending, id);
    case Revoke(scope) =>
    case DenyAll => AllDeniedIds(s, s.pending);
  }

  lemma {:induction false} AllDeniedIds(s: State, entries: seq<Entry>)
    requires forall e :: e in entries ==> e.id in PendingIds(s.pending) + SettledIds(s.settled)
    ensures PendingIds(AllDenied(s, entries).pending) + SettledIds(AllDenied(s, entries).settled)
         <= PendingIds(s.pending) + SettledIds(s.settled)
    decreases |entries|
  {
    if entries != [] {
      var t := Settled(s, entries[0], Deny);
      RemoveIs(s.pending, entries[0].id);
      assert entries[0] in entries;
      assert PendingIds(t.pending) + SettledIds(t.settled) == PendingIds(s.pending) + SettledIds(s.settled);
      AllDeniedIds(t, entries[1..]);
    }
  }

  /** In every run each request is settled at most once, and is not waiting once it is settled. */
  lemma SettledAtMostOnce(events: seq<Event>)
    requires FreshIds(events)
    ensures var s := Run(events);
            && (forall i, j :: 0 <= i < j < |s.settled| ==> s.settled[i].id != s.settled[j].id)
            && (forall e, x :: e in s.pending && x in s.settled ==> e.id != x.id)
  {
    IdsComeFromRequests(events);
    var s := Run(events);
    forall e, x | e in s.pending && x in s.settled ensures e.id != x.id {
      assert e.id in PendingIds(s.pending) && x.id in SettledIds(s.settled);
    }
  }

  // ----- Who may allow -----

  /** Event `i` is the request `id`, with a scope one can consent to. */
  ghost predicate AsksFor(events: seq<Event>, i: int, id: string, scope: string) {
    0 <= i < |events| && events[i] == Request(id, Some(scope)) && scope != ""
  }

  ghost predicate AskedFor(events: seq<Event>, id: string, scope: string) {
    exists i :: AsksFor(events, i, id, scope)
  }

  /** Event `j` is a session answer to a waiting request that asked for this scope. */
  ghost predicate GrantsAt(events: seq<Event>, j: int, scope: string) {
    && 0 <= j < |events| && events[j].Answer? && events[j].decision == Session
    && events[j].id in PendingIds(Run(events[..j]).pending)
    && AskedFor(events[..j], events[j].id, scope)
  }

  /** The scope was consented to at `j`, and not revoked before `n`. */
  ghost predicate GrantedSince(events: seq<Event>, j: int, n: int, scope: string) {
    GrantsAt(events, j, scope) && j < n <= |events| && forall l :: j < l < n ==> events[l] != Revoke(scope)
  }

  /** A consent to the scope is in force before event `n`. */
  ghost predicate InForce(events: seq<Event>, n: int, scope: string) {
    exists j :: GrantedSince(events, j, n, scope)
  }

  lemma RunPrefix(events: seq<Event>, n: nat)
    requires n < |events|
    ensures Run(events[..n + 1]) == Step(Run(events[..n]), events[n])
  {
    assert events[..n + 1][..n] == events[..n];
  }

  lemma FreshPrefix(events: seq<Event>, n: nat)
    requires FreshIds(events) && n <= |events|
    ensures FreshIds(events[..n])
  {
  }

  lemma RequestIsFresh(events: seq<Event>, n: nat)
    requires FreshIds(events) && n < |events| && events[n].Request?
    ensures events[n].id !in PendingIds(Run(events[..n]).pending) && events[n].id !in SettledIds(Run(events[..n]).settled)
  {
    FreshPrefix(events, n);
    IdsComeFromRequests(events[..n]);
    assert !WasRequested(events[..n], events[n].id);
  }

  lemma RunStep(events: seq<Event>, n: nat)
    requires FreshIds(events) && n < |events|
    ensures Inv(Run(events[..n])) && StepEffect(Run(events[..n]), events[n], Run(events[..n + 1]))
  {
    FreshPrefix(events, n);
    IdsComeFromRequests(events[..n]);
    if events[n].Request? { RequestIsFresh(events, n); }
    StepKeepsInv(Run(events[..n]), events[n]);
    RunPrefix(events, n);
  }

  /** A waiting entry keeps the scope that its request asked for. */
  ghost predicate AsAsked(events: seq<Event>, entry: Entry) {
    forall scope :: entry.scope == Some(scope) <==> AskedFor(events, entry.id, scope)
  }

  lemma AskedForNext(events: seq<Event>, n: nat, id: string, scope: string)
    requires n < |events|
    ensures AskedFor(events[..n + 1], id, scope) <==> AskedFor(events[..n], id, scope) || AsksFor(events, n, id, scope)
  {
    if AskedFor(events[..n + 1], id, scope) {
      var i :| AsksFor(events[..n + 1], i, id, scope);
      assert i < n ==> AsksFor(events[..n], i, id, scope);
    }
    if AskedFor(events[..n], id, scope) {
      var i :| AsksFor(events[..n], i, id, scope);
      assert AsksFor(events[..n + 1], i, id, scope);
    }
    if AsksFor(events, n, id, scope) {
      assert AsksFor(events[..n + 1], n, id, scope);
    }
  }

  /** No event but the request itself brings an entry in. */
  lemma EntriesAreOld(s: State, e: Event, entry: Entry)
    requires Inv(s) && entry in Step(s, e).pending && !(e.Request? && e.id == entry.id)
    ensures entry in s.pending
  {
    match e
    case Request(id, scope) =>
    case Answer(id, decision) => RemoveIs(s.pending, id);
    case TimeoutFires(id) => RemoveIs(s.pending, id);
    case Revoke(scope) =>
    case DenyAll =>
      AllDeniedKeepsInv(s, s.pending);
      NoIdsNoEntries(AllDenied(s, s.pending).pending);
  }

  lemma {:induction false} EntriesAsAsked(events: seq<Event>, n: nat, entry: Entry)
    requires FreshIds(events) && n <= |events| && entry in Run(events[..n]).pending
    ensures AsAsked(events[..n], entry)
  {
    if n > 0 {
      var s, e := Run(events[..n - 1]), events[n - 1];
      RunStep(events, n - 1);
      RunPrefix(events, n - 1);
      assert entry.id in PendingIds(Run(events[..n]).pending);
      if e.Request? && e.id == entry.id {
        NewEntryAsAsked(events, n - 1, entry);
      } else {
        EntriesAreOld(s, e, entry);
        EntriesAsAsked(events, n - 1, entry);
        forall scope ensures AskedFor(events[..n], entry.id, scope) <==> AskedFor(events[..n - 1], entry.id, scope) {
          AskedForNext(events, n - 1, entry.id, scope);
        }
      }
    }
  }

  lemma NotAskedBefore(events: seq<Event>, n: nat, scope: string)
    requires FreshIds(events) && n < |events| && events[n].Request?
    ensures !AskedFor(events[..n], events[n].id, scope)
  {
  }

  lemma NewEntryAsAsked(events: seq<Event>, n: nat, entry: Entry)
    requires FreshIds(events) && n < |events| && events[n].Request? && events[n].id == entry.id
    requires entry in Run(events[..n + 1]).pending
    ensures AsAsked(events[..n + 1], entry)
  {
    RunPrefix(events, n);
    RequestIsFresh(events, n);
    assert forall x :: x in Run(events[..n]).pending ==> x.id in PendingIds(Run(events[..n]).pending);
    var e := events[n];
    assert entry == Entry(e.id, OnlyTruthy(e.scope)) && e == Request(entry.id, e.scope);
    forall scope ensures entry.scope == Some(scope) <==> AskedFor(events[..n + 1], entry.id, scope) {
      AskedForNext(events, n, entry.id, scope);
      NotAskedBefore(events, n, scope);
    }
  }

  /** How one event changes the scopes in force. */
  lemma GrantedStep(events: seq<Event>, n: nat, scope: string)
    requires FreshIds(events) && n < |events|
    ensures scope in Run(events[..n + 1]).granted
       <==> GrantsAt(events, n, scope) || (scope in Run(events[..n]).granted && events[n] != Revoke(scope))
  {
    RunStep(events, n);
    if events[n].Answer? {
      var entry := Find(Run(events[..n]).pending, events[n].id);
      if entry.Some? {
        EntriesAsAsked(events, n, entry.value);
        assert events[n].id in PendingIds(Run(events[..n]).pending);
      }
    }
  }

  lemma GrantedSinceStep(events: seq<Event>, n: nat, scope: string)
    requires n < |events|
    ensures InForce(events, n + 1, scope)
       <==> GrantsAt(events, n, scope) || (InForce(events, n, scope) && events[n] != Revoke(scope))
  {
    if GrantsAt(events, n, scope) {
      assert GrantedSince(events, n, n + 1, scope);
    }
    if events[n] != Revoke(scope) {
      if InForce(events, n, scope) {
        var j :| GrantedSince(events, j, n, scope);
        assert GrantedSince(events, j, n + 1, scope);
      }
    }
    if InForce(events, n + 1, scope) {
      var later := n + 1;
      var j :| GrantedSince(events, j, later, scope);
      if j < n {
        assert GrantedSince(events, j, n, scope) && events[n] != Revoke(scope);
      }
    }
  }

  lemma InForceNext(events: seq<Event>, n: nat, scope: string)
    requires FreshIds(events) && n < |events|
    ensures (scope in Run(events[..n]).granted <==> InForce(events, n, scope)) ==>
            (scope in Run(events[..n + 1]).granted <==> InForce(events, n + 1, scope))
  {
    GrantedStep(events, n, scope);
    GrantedSinceStep(events, n, scope);
  }

  /** The scopes in force are exactly those consented to and not revoked since. */
  lemma {:induction false} GrantedIff(events: seq<Event>, n: nat, scope: string)
    requires FreshIds(events) && n <= |events|
    ensures scope in Run(events[..n]).granted <==> InForce(events, n, scope)
  {
    if n == 0 {
      assert events[..0] == [];
    } else {
      GrantedIff(events, n - 1, scope);
      InForceNext(events, n - 1, scope);
    }
  }

  /** Event `n` is an allowing answer to the waiting request `id`. */
  ghost predicate AnsweredYes(events: seq<Event>, n: int, id: string) {
    && 0 <= n < |events| && events[n].Answer? && events[n].id == id && events[n].decision != Deny
    && id in PendingIds(Run(events[..n]).pending)
  }

  /** Event `n` is the request `id` itself, under a scope that is in force. */
  ghost predicate CoveredByGrant(events: seq<Event>, n: int, id: string) {
    exists scope :: AsksFor(events, n, id, scope) && InForce(events, n, scope)
  }

  /** Event `n` gives the request `id` a reason to be allowed. */
  ghost predicate EarnsAllow(events: seq<Event>, n: int, id: string) {
    AnsweredYes(events, n, id) || CoveredByGrant(events, n, id)
  }

  lemma CoveredIffGranted(events: seq<Event>, n: nat)
    requires FreshIds(events) && n < |events| && events[n].Request?
    ensures var wanted := OnlyTruthy(events[n].scope);
            CoveredByGrant(events, n, events[n].id) <==> wanted.Some? && wanted.value in Run(events[..n]).granted
  {
    var wanted := OnlyTruthy(events[n].scope);
    if wanted.Some? {
      GrantedIff(events, n, wanted.value);
      assert AsksFor(events, n, events[n].id, wanted.value);
    }
  }

  /**
   * A settlement that event `n` adds is an `allow` exactly when the event earns
   * it: an answer of the person to this very request, or the request itself under
   * a scope consented to before and not revoked since.
   */
  lemma AllowedIffEarned(events: seq<Event>, n: nat, i: nat)
    requires FreshIds(events) && n < |events|
    requires |Run(events[..n]).settled| <= i < |Run(events[..n + 1]).settled|
    ensures Run(events[..n + 1]).settled[i].allowed <==> EarnsAllow(events, n, Run(events[..n + 1]).settled[i].id)
  {
    RunStep(events, n);
    RunPrefix(events, n);
    var s := Run(events[..n]);
    match events[n]
    case Request(id, scope) => CoveredIffGranted(events, n);
    case Answer(id, decision) =>
      var entry := Find(s.pending, id);
      assert entry.Some? ==> id in PendingIds(s.pending);
    case _ =>
  }

  /** Timers and the shutdown only ever deny, and the shutdown leaves nothing waiting. */
  lemma OnlyDenials(events: seq<Event>, n: nat)
    requires FreshIds(events) && n < |events|
    requires events[n].TimeoutFires? || events[n].DenyAll?
    ensures DeniesFrom(Run(events[..n + 1]).settled, |Run(events[..n]).settled|)
    ensures events[n].DenyAll? ==> Run(events[..n + 1]).pending == []
  {
    RunStep(events, n);
  }

  /** What was settled stays settled the same way. */
  lemma {:induction false} SettlementsStay(events: seq<Event>, m: nat, n: nat)
    requires FreshIds(events) && m <= n <= |events|
    ensures Run(events[..m]).settled <= Run(events[..n]).settled
    decreases n - m
  {
    if m < n {
      SettlementsStay(events, m, n - 1);
      RunStep(events, n - 1);
    }
  }

  // ----- Every request is decided as it should be -----

  /** The event decides a waiting request: an answer to it, its timer, or the shutdown. */
  predicate Decides(e: Event, id: string) {
    e == DenyAll || e == TimeoutFires(id) || (e.Answer? && e.id == id)
  }

  /** Request `i` was not covered by a grant, and nothing has decided it before `n`. */
  ghost predicate WaitsSince(events: seq<Event>, i: int, n: int, id: string) {
    && 0 <= i < n <= |events| && events[i].Request? && events[i].id == id && !CoveredByGrant(events, i, id)
    && forall l :: i < l < n ==> !Decides(events[l], id)
  }

  ghost predicate Waits(events: seq<Event>, n: int, id: string) { exists i :: WaitsSince(events, i, n, id) }

  /** Event `n` settles the request `id`, and with this result. */
  ghost predicate SettlesAs(events: seq<Event>, n: int, id: string, allowed: bool) {
    && 0 <= n < |events|
    && (if CoveredByGrant(events, n, id) then allowed
        else
          && Waits(events, n, id) && Decides(events[n], id)
          && allowed == (events[n].Answer? && events[n].decision != Deny))
  }

  /** How one event changes who waits, and what is settled. */
  ghost predicate StepDecides(s: State, e: Event, granted: bool, t: State) {
    && (forall id :: id in PendingIds(t.pending)
          <==> (e.Request? && e.id == id && !granted) || (id in PendingIds(s.pending) && !Decides(e, id)))
    && (forall id, allowed :: Settlement(id, allowed) in t.settled
          <==> || Settlement(id, allowed) in s.settled
               || (e.Request? && e.id == id && granted && allowed)
               || (id in PendingIds(s.pending) && Decides(e, id) && allowed == (e.Answer? && e.decision != Deny)))
  }

  lemma {:induction false} AllDeniedSettles(s: State, entries: seq<Entry>)
    ensures forall x :: x in AllDenied(s, entries).settled <==> x in s.settled || (!x.allowed && x.id in PendingIds(entries))
    decreases |entries|
  {
    if entries != [] {
      AllDeniedSettles(Settled(s, entries[0], Deny), entries[1..]);
      assert PendingIds(entries) == {entries[0].id} + PendingIds(entries[1..]);
    }
  }

  lemma RequestDecides(s: State, id: string, scope: Option<string>, granted: bool)
    requires Inv(s) && id !in PendingIds(s.pending)
    requires granted <==> OnlyTruthy(scope).Some? && OnlyTruthy(scope).value in s.granted
    ensures StepDecides(s, Request(id, scope), granted, Requested(s, id, scope))
  {
    var t := Requested(s, id, scope);
    if !granted {
      assert PendingIds(t.pending) == PendingIds(s.pending) + {id};
    }
  }

  lemma EventDecides(s: State, e: Event)
    requires Inv(s) && !e.Request?
    ensures StepDecides(s, e, false, Step(s, e))
  {
    match e
    case Answer(id, decision) =>
      RemovedIds(s.pending, id);
      var entry := Find(s.pending, id);
      assert entry.Some? ==> entry.value.id in PendingIds(s.pending);
    case TimeoutFires(id) => RemovedIds(s.pending, id);
    case Revoke(scope) =>
    case DenyAll =>
      AllDeniedKeepsInv(s, s.pending);
      AllDeniedSettles(s, s.pending);
  }

  lemma RunDecides(events: seq<Event>, n: nat)
    requires FreshIds(events) && n < |events|
    ensures StepDecides(Run(events[..n]), events[n], events[n].Request? && CoveredByGrant(events, n, events[n].id),
                        Run(events[..n + 1]))
  {
    RunStep(events, n);
    RunPrefix(events, n);
    if events[n].Request? {
      RequestIsFresh(events, n);
      CoveredIffGranted(events, n);
      RequestDecides(Run(events[..n]), events[n].id, events[n].scope, CoveredByGrant(events, n, events[n].id));
    } else {
      EventDecides(Run(events[..n]), events[n]);
    }
  }

  lemma WaitsNext(events: seq<Event>, n: nat, id: string)
    requires n < |events|
    ensures Waits(events, n + 1, id)
       <==> || (events[n].Request? && events[n].id == id && !CoveredByGrant(events, n, id))
            || (Waits(events, n, id) && !Decides(events[n], id))
  {
    var later := n + 1;
    if Waits(events, later, id) {
      var i :| WaitsSince(events, i, later, id);
      assert i < n ==> WaitsSince(events, i, n, id) && !Decides(events[n], id);
    }
    if events[n].Request? && events[n].id == id && !CoveredByGrant(events, n, id) {
      assert WaitsSince(events, n, later, id);
    }
    if Waits(events, n, id) && !Decides(events[n], id) {
      var i :| WaitsSince(events, i, n, id);
      assert WaitsSince(events, i, later, id);
    }
  }

  /** A request waits from its own event on, unless a grant covers it, up to the first event that decides it. */
  lemma {:induction false} PendingIffWaits(events: seq<Event>, n: nat, id: string)
    requires FreshIds(events) && n <= |events|
    ensures id in PendingIds(Run(events[..n]).pending) <==> Waits(events, n, id)
  {
    if n == 0 {
      assert events[..0] == [];
    } else {
      PendingIffWaits(events, n - 1, id);
      RunDecides(events, n - 1);
      WaitsNext(events, n - 1, id);
    }
  }

  /** Some event before `n` settles the request with this result. */
  ghost predicate SettlesBefore(events: seq<Event>, n: int, id: string, allowed: bool) {
    exists i :: i < n && SettlesAs(events, i, id, allowed)
  }

  lemma SettlesNext(events: seq<Event>, n: nat, id: string, allowed: bool)
    ensures SettlesBefore(events, n + 1, id, allowed) <==> SettlesBefore(events, n, id, allowed) || SettlesAs(events, n, id, allowed)
  {
  }

  /**
   * What is settled, and how, in every run: a request under a scope in force is
   * allowed at once; any other is settled by the first event that decides it,
   * allowed by an allowing answer and denied by everything else.
   */
  lemma {:induction false} SettledIffDecided(events: seq<Event>, n: nat, id: string, allowed: bool)
    requires FreshIds(events) && n <= |events|
    ensures Settlement(id, allowed) in Run(events[..n]).settled <==> SettlesBefore(events, n, id, allowed)
  {
    if n == 0 {
      assert events[..0] == [];
    } else {
      SettledIffDecided(events, n - 1, id, allowed);
      SettlesNext(events, n - 1, id, allowed);
      SettledStep(events, n - 1, id, allowed);
    }
  }

  lemma SettledStep(events: seq<Event>, n: nat, id: string, allowed: bool)
    requires FreshIds(events) && n < |events|
    ensures Settlement(id, allowed) in Run(events[..n + 1]).settled
       <==> Settlement(id, allowed) in Run(events[..n]).settled || SettlesAs(events, n, id, allowed)
  {
    RunDecides(events, n);
    PendingIffWaits(events, n, id);
    SettlesIffCoveredOrDecided(events, n, id, allowed);
  }

  lemma SettlesIffCoveredOrDecided(events: seq<Event>, n: nat, id: string, allowed: bool)
    requires n < |events|
    ensures SettlesAs(events, n, id, allowed)
       <==> || (events[n].Request? && events[n].id == id && CoveredByGrant(events, n, id) && allowed)
            || (Waits(events, n, id) && Decides(events[n], id) && allowed == (events[n].Answer? && events[n].decision != Deny))
  {
  }

  /** Nobody is forgotten: what waits and what is settled together are exactly the requests made. */
  lemma {:induction false} NobodyIsForgotten(events: seq<Event>)
    requires FreshIds(events)
    ensures forall id :: id in PendingIds(Run(events).pending) + SettledIds(Run(events).settled) <==> WasRequested(events, id)
    decreases |events|
  {
    IdsComeFromRequests(events);
    if events != [] {
      var n := |events| - 1;
      assert events[..n + 1] == events;
      FreshPrefix(events, n);
      NobodyIsForgotten(events[..n]);
      RunDecides(events, n);
      forall id | WasRequested(events, id) ensures id in PendingIds(Run(events).pending) + SettledIds(Run(events).settled) {
        var i :| 0 <= i < |events| && events[i].Request? && events[i].id == id;
        if i < n {
          assert events[..n][i] == events[i];
          assert WasRequested(events[..n], id);
        }
        KnownStays(Run(events[..n]), events[n], events[n].Request? && CoveredByGrant(events, n, events[n].id), Run(events), id);
      }
    }
  }

  lemma KnownStays(s: State, e: Event, granted: bool, t: State, id: string)
    requires StepDecides(s, e, granted, t)
    requires (e.Request? && e.id == id) || id in PendingIds(s.pending) || id in SettledIds(s.settled)
    ensures id in PendingIds(t.pending) || id in SettledIds(t.settled)
  {
    if id in SettledIds(s.settled) {
      var x :| x in s.settled && x.id == id;
      assert Settlement(id, x.allowed) in t.settled;
    } else if e.Request? && e.id == id {
      assert granted ==> Settlement(id, true) in t.settled;
    } else {
      assert Decides(e, id) ==> Settlement(id, e.Answer? && e.decision != Deny) in t.settled;
    }
  }
}
