/**
 * Live sessions over the store: opening, sending, deleting and restarting, step
 * by step, with turns and openings of different callers interleaved.
 */
module Sessions {
  import opened Common
  import opened Protocol
  import opened Text
  import St = Store

  /** An agent holds its own copy of the history, loaded when it was made. */
  datatype Agent = Agent(thread: string, history: seq<Message>)

  /**
   * `sessions` maps a thread to its agent. An agent in `opening` has loaded its
   * history and is not yet in the map, since `get` waits in between.
   */
  datatype State = State(
    threads: map<string, seq<Message>>, sessions: map<string, nat>, agents: map<nat, Agent>, opening: set<nat>, next: nat)

  datatype Event =
    | BeginOpen(id: string)
    | EndOpen(agent: nat)
    | Deliver(sender: nat, message: Message)
    | Delete(deleted: string)
    | NewThread(uuid: string)
    | Restart

  const EMPTY := State(map[], map[], map[], {}, 0)

  function Load(s: State, id: string): seq<Message> { if id in s.threads then s.threads[id] else [] }

  /** A blank id is refused; a live session is returned as it is. */
  function BeginOpened(s: State, id: string): State {
    if Trim(id) == "" || id in s.sessions then s
    else s.(threads := s.threads[id := Load(s, id)],
            agents := s.agents[s.next := Agent(id, Load(s, id))],
            opening := s.opening + {s.next},
            next := s.next + 1)
  }

  function EndOpened(s: State, agent: nat): State {
    if agent in s.opening && agent in s.agents then
      s.(sessions := s.sessions[s.agents[agent].thread := agent], opening := s.opening - {agent})
    else s
  }

  /** The agent takes the message up first; the row is refused when the thread is gone. */
  function Delivered(s: State, sender: nat, m: Message): State {
    if sender !in s.agents || sender in s.opening then s
    else
      var a := s.agents[sender];
      s.(agents := s.agents[sender := a.(history := a.history + [m])],
         threads := if a.thread in s.threads then s.threads[a.thread := s.threads[a.thread] + [m]] else s.threads)
  }

  function Step(s: State, e: Event): State {
    match e
    case BeginOpen(id) => BeginOpened(s, id)
    case EndOpen(agent) => EndOpened(s, agent)
    case Deliver(sender, message) => Delivered(s, sender, message)
    case Delete(id) => s.(sessions := s.sessions - {id}, threads := s.threads - {id})
    case NewThread(uuid) => if uuid in s.threads then s else s.(threads := s.threads[uuid := []])
    case Restart => State(s.threads, map[], map[], {}, s.next)
  }

  function Run(s: State, events: seq<Event>): State
    decreases |events|
  {
    if events == [] then s else Run(Step(s, events[0]), events[1..])
  }

  // ----- Agreement -----

  /** The live session of the thread has a thread, and remembers exactly its rows. */
  predicate LiveAgrees(s: State, id: string)
    requires id in s.sessions
  {
    var h := s.sessions[id];
    && h in s.agents && h !in s.opening && s.agents[h].thread == id
    && id in s.threads && s.agents[h].history == s.threads[id]
  }

  /** The agent about to go live still has what the rows say. */
  predicate OpeningAgrees(s: State, h: nat)
    requires h in s.opening
  {
    h in s.agents && s.agents[h].thread in s.threads && s.agents[h].history == s.threads[s.agents[h].thread]
  }

  /** What the rows say is what the live agents remember, also those about to go live. */
  predicate Agree(s: State) {
    && (forall h :: h in s.agents ==> h < s.next)
    && (forall id :: id in s.sessions ==> LiveAgrees(s, id))
    && (forall h :: h in s.opening ==> OpeningAgrees(s, h))
  }

  /** Some session that is live, or will be as soon as its opening ends, lacks its thread or differs from the rows. */
  predicate Apart(s: State) {
    || (exists id :: id in s.sessions && !LiveAgrees(s, id))
    || (exists h :: h in s.opening && LiveApart(EndOpened(s, h), h))
  }

  /** The agent is a live session that lacks its thread or differs from the rows. */
  predicate LiveApart(s: State, h: nat) {
    h in s.agents && s.agents[h].thread in s.sessions && !LiveAgrees(s, s.agents[h].thread)
  }

  lemma AgreeIsNotApart(s: State)
    requires Agree(s)
    ensures !Apart(s)
  {
    forall h | h in s.opening ensures !LiveApart(EndOpened(s, h), h) {
      assert OpeningAgrees(s, h);
    }
  }

  predicate BeingOpened(s: State, id: string) {
    exists h :: h in s.opening && h in s.agents && s.agents[h].thread == id
  }

  /**
   * What a caller can check before a step: a message comes from the thread's
   * current agent, if it has one, and neither messages nor a deletion fall into
   * an opening of the thread.
   */
  predicate Orderly(s: State, e: Event) {
    match e
    case Deliver(sender, _) =>
      sender !in s.agents || sender in s.opening || s.agents[sender].thread !in s.threads
      || (var id := s.agents[sender].thread; (id in s.sessions ==> s.sessions[id] == sender) && !BeingOpened(s, id))
    case Delete(id) => !BeingOpened(s, id)
    case _ => true
  }

  lemma BeginOpenKeeps(s: State, id: string)
    requires Agree(s)
    ensures Agree(BeginOpened(s, id))
  {
    var t := BeginOpened(s, id);
    if t != s {
      assert s.next !in s.agents;
      forall i | i in t.sessions ensures LiveAgrees(t, i) { assert LiveAgrees(s, i); }
      forall h | h in t.opening ensures OpeningAgrees(t, h) {
        if h != s.next { assert OpeningAgrees(s, h); }
      }
    }
  }

  lemma EndOpenKeeps(s: State, agent: nat)
    requires Agree(s)
    ensures Agree(EndOpened(s, agent))
  {
    var t := EndOpened(s, agent);
    if t != s {
      assert OpeningAgrees(s, agent);
      forall i | i in t.sessions ensures LiveAgrees(t, i) {
        if i != s.agents[agent].thread { assert LiveAgrees(s, i); }
      }
      forall h | h in t.opening ensures OpeningAgrees(t, h) { assert OpeningAgrees(s, h); }
    }
  }

  lemma OrderlyDeliveryKeeps(s: State, sender: nat, m: Message)
    requires Agree(s) && Orderly(s, Deliver(sender, m))
    ensures Agree(Delivered(s, sender, m))
  {
    var t := Delivered(s, sender, m);
    if sender in s.agents && sender !in s.opening {
      forall i | i in t.sessions ensures LiveAgrees(t, i) { assert LiveAgrees(s, i); }
      forall h | h in t.opening ensures OpeningAgrees(t, h) { assert OpeningAgrees(s, h); }
    }
  }

  /** The thread has grown: whoever else holds a copy of it is behind. */
  lemma DisorderlyDeliveryParts(s: State, sender: nat, m: Message)
    requires Agree(s) && !Orderly(s, Deliver(sender, m))
    ensures Apart(Delivered(s, sender, m))
  {
    var t := Delivered(s, sender, m);
    var id := s.agents[sender].thread;
    if id in s.sessions && s.sessions[id] != sender {
      assert LiveAgrees(s, id) && id in t.sessions && !LiveAgrees(t, id);
    } else {
      var h :| h in s.opening && h in s.agents && s.agents[h].thread == id;
      assert OpeningAgrees(s, h) && h in t.opening && LiveApart(EndOpened(t, h), h);
    }
  }

  lemma OrderlyDeletionKeeps(s: State, id: string)
    requires Agree(s) && Orderly(s, Delete(id))
    ensures Agree(Step(s, Delete(id)))
  {
    var t := Step(s, Delete(id));
    forall i | i in t.sessions ensures LiveAgrees(t, i) { assert LiveAgrees(s, i); }
    forall h | h in t.opening ensures OpeningAgrees(t, h) { assert OpeningAgrees(s, h); }
  }

  /** The opening ends all the same: a live session whose messages have nowhere to go. */
  lemma DisorderlyDeletionParts(s: State, id: string)
    requires Agree(s) && !Orderly(s, Delete(id))
    ensures Apart(Step(s, Delete(id)))
  {
    var t := Step(s, Delete(id));
    var h :| h in s.opening && h in s.agents && s.agents[h].thread == id;
    assert h in t.opening && LiveApart(EndOpened(t, h), h);
  }

  lemma NewThreadKeeps(s: State, uuid: string)
    requires Agree(s)
    ensures Agree(Step(s, NewThread(uuid)))
  {
    var t := Step(s, NewThread(uuid));
    forall i | i in t.sessions ensures LiveAgrees(t, i) { assert LiveAgrees(s, i); }
    forall h | h in t.opening ensures OpeningAgrees(t, h) { assert OpeningAgrees(s, h); }
  }

  /**
   * An orderly step keeps live and stored histories equal. After any other step
   * some session is apart from its rows, at once or when its opening ends.
   */
  lemma StepKeepsAgreementIff(s: State, e: Event)
    requires Agree(s)
    ensures Orderly(s, e) ==> Agree(Step(s, e))
    ensures Orderly(s, e) <==> !Apart(Step(s, e))
  {
    match e {
      case BeginOpen(id) => BeginOpenKeeps(s, id);
      case EndOpen(agent) => EndOpenKeeps(s, agent);
      case Deliver(sender, m) =>
        if Orderly(s, e) {
          OrderlyDeliveryKeeps(s, sender, m);
        } else {
          DisorderlyDeliveryParts(s, sender, m);
        }
      case Delete(id) =>
        if Orderly(s, e) {
          OrderlyDeletionKeeps(s, id);
        } else {
          DisorderlyDeletionParts(s, id);
        }
      case NewThread(uuid) => NewThreadKeeps(s, uuid);
      case Restart =>
    }
    if Orderly(s, e) { AgreeIsNotApart(Step(s, e)); }
  }

  /** A deletion inside an opening: the next message is remembered, and no row will ever say so. */
  lemma DisorderlyDeletionLosesMessage(s: State, id: string, m: Message) returns (h: nat)
    requires Agree(s) && !Orderly(s, Delete(id))
    ensures var t := Run(s, [Delete(id), EndOpen(h), Deliver(h, m)]);
            && id in t.sessions && t.sessions[id] == h && h in t.agents
            && |t.agents[h].history| > 0 && t.agents[h].history != Load(t, id) == []
  {
    h :| h in s.opening && h in s.agents && s.agents[h].thread == id;
    RunOfThree(s, Delete(id), EndOpen(h), Deliver(h, m));
  }

  predicate OrderlyRun(s: State, events: seq<Event>)
    decreases |events|
  {
    events == [] || (Orderly(s, events[0]) && OrderlyRun(Step(s, events[0]), events[1..]))
  }

  /** At every point of the run, every live session, and every one about to be, agrees with its rows. */
  predicate TogetherThroughout(s: State, events: seq<Event>)
    decreases |events|
  {
    !Apart(s) && (events == [] || TogetherThroughout(Step(s, events[0]), events[1..]))
  }

  /** The runs in which live and stored histories stay together are exactly the orderly ones. */
  lemma {:induction false} ResumeAgreesWithLive(s: State, events: seq<Event>)
    requires Agree(s)
    ensures OrderlyRun(s, events) <==> TogetherThroughout(s, events)
    ensures OrderlyRun(s, events) ==> Agree(Run(s, events))
    decreases |events|
  {
    AgreeIsNotApart(s);
    if events != [] {
      StepKeepsAgreementIff(s, events[0]);
      if Orderly(s, events[0]) {
        ResumeAgreesWithLive(Step(s, events[0]), events[1..]);
      }
    }
  }

  /** Restarting and opening a thread again gives an agent the history that the live one had. */
  lemma RestartRestoresHistory(s: State, id: string)
    requires Agree(s) && id in s.sessions && Trim(id) != ""
    ensures var t := Run(s, [Restart, BeginOpen(id), EndOpen(s.next)]);
            && Agree(t) && id in t.sessions && t.sessions[id] in t.agents
            && t.agents[t.sessions[id]].history == s.agents[s.sessions[id]].history
            && t.threads == s.threads
  {
    var s1 := Step(s, Restart);
    var s2 := Step(s1, BeginOpen(id));
    var s3 := Step(s2, EndOpen(s.next));
    assert LiveAgrees(s, id);
    RunOfThree(s, Restart, BeginOpen(id), EndOpen(s.next));
    StepKeepsAgreementIff(s, Restart);
    StepKeepsAgreementIff(s1, BeginOpen(id));
    StepKeepsAgreementIff(s2, EndOpen(s.next));
  }

  lemma RunOfThree(s: State, a: Event, b: Event, c: Event)
    ensures Run(s, [a, b, c]) == Step(Step(Step(s, a), b), c)
  {
    assert [a, b, c][1..] == [b, c] && [b, c][1..] == [c] && [c][1..] == [];
    assert Run(s, [a, b, c]) == Run(Step(s, a), [b, c]);
    assert Run(Step(s, a), [b, c]) == Run(Step(Step(s, a), b), [c]);
    assert Run(Step(Step(s, a), b), [c]) == Run(Step(Step(Step(s, a), b), c), []);
  }

  // ----- What disorder does -----

  lemma {:induction false} RunAppend(s: State, a: seq<Event>, b: seq<Event>)
    ensures Run(s, a + b) == Run(Run(s, a), b)
    decreases |a|
  {
    if a == [] {
      assert a + b == b;
    } else {
      assert (a + b)[1..] == a[1..] + b;
      RunAppend(Step(s, a[0]), a[1..], b);
    }
  }

  /**
   * A turn outlives the deletion of its thread: the thread is opened again under
   * the same id, and the old agent's answer lands in the new thread's rows.
   */
  lemma LateAnswerEntersReopenedThread(id: string, answer: Message)
    requires Trim(id) != ""
    ensures var s := Run(EMPTY, [BeginOpen(id), EndOpen(0), Delete(id)] + [BeginOpen(id), EndOpen(1), Deliver(0, answer)]);
            && id in s.sessions && s.sessions[id] in s.agents
            && s.agents[s.sessions[id]].history == [] && Load(s, id) == [answer]
  {
    RunOfThree(EMPTY, BeginOpen(id), EndOpen(0), Delete(id));
    var s := Run(EMPTY, [BeginOpen(id), EndOpen(0), Delete(id)]);
    assert s.threads == map[] && s.sessions == map[];
    RunOfThree(s, BeginOpen(id), EndOpen(1), Deliver(0, answer));
    RunAppend(EMPTY, [BeginOpen(id), EndOpen(0), Delete(id)], [BeginOpen(id), EndOpen(1), Deliver(0, answer)]);
  }

  /** Two first requests overlap, which alone does no harm; then the caller of the first talks past the second. */
  lemma OverlappingOpensSplit(id: string, question: Message, answer: Message)
    requires Trim(id) != ""
    ensures var s := Run(EMPTY, [BeginOpen(id), BeginOpen(id), EndOpen(0)] + [EndOpen(1), Deliver(0, question), Deliver(0, answer)]);
            && id in s.sessions && s.sessions[id] in s.agents
            && s.agents[s.sessions[id]].history == [] && Load(s, id) == [question, answer]
  {
    RunOfThree(EMPTY, BeginOpen(id), BeginOpen(id), EndOpen(0));
    var s := Run(EMPTY, [BeginOpen(id), BeginOpen(id), EndOpen(0)]);
    RunOfThree(s, EndOpen(1), Deliver(0, question), Deliver(0, answer));
    RunAppend(EMPTY, [BeginOpen(id), BeginOpen(id), EndOpen(0)], [EndOpen(1), Deliver(0, question), Deliver(0, answer)]);
  }

  // ----- Everything said is kept -----

  /** The agent takes messages of its thread. */
  predicate SpeaksFor(s: State, sender: nat, id: string) {
    sender in s.agents && sender !in s.opening && s.agents[sender].thread == id
  }

  /** The messages that a run delivers for a thread, in order. */
  function Said(s: State, events: seq<Event>, id: string): seq<Message>
    decreases |events|
  {
    if events == [] then []
    else
      (if events[0].Deliver? && SpeaksFor(s, events[0].sender, id) then [events[0].message] else [])
      + Said(Step(s, events[0]), events[1..], id)
  }

  /** Those that one agent is given. */
  function Heard(s: State, events: seq<Event>, agent: nat): seq<Message>
    decreases |events|
  {
    if events == [] then []
    else
      (if events[0].Deliver? && events[0].sender == agent && agent !in s.opening then [events[0].message] else [])
      + Heard(Step(s, events[0]), events[1..], agent)
  }

  lemma Associate(a: seq<Message>, b: seq<Message>, c: seq<Message>)
    ensures a + (b + c) == a + b + c
  {
  }

  lemma StepStoresWhatIsSaid(s: State, e: Event, id: string)
    requires id in s.threads && e != Delete(id)
    ensures id in Step(s, e).threads
    ensures Step(s, e).threads[id]
         == s.threads[id] + if e.Deliver? && SpeaksFor(s, e.sender, id) then [e.message] else []
  {
  }

  /** The rows of a thread that is not deleted are those it had and everything said since, once each and in order. */
  lemma {:induction false} RowsAreWhatWasSaid(s: State, events: seq<Event>, id: string)
    requires id in s.threads && Delete(id) !in events
    ensures id in Run(s, events).threads
    ensures Run(s, events).threads[id] == s.threads[id] + Said(s, events, id)
    decreases |events|
  {
    if events != [] {
      var e := events[0];
      StepStoresWhatIsSaid(s, e, id);
      RowsAreWhatWasSaid(Step(s, e), events[1..], id);
      Associate(s.threads[id], if e.Deliver? && SpeaksFor(s, e.sender, id) then [e.message] else [],
                Said(Step(s, e), events[1..], id));
    }
  }

  lemma StepRemembersWhatIsHeard(s: State, e: Event, agent: nat)
    requires agent in s.agents && agent < s.next && e != Restart
    ensures agent in Step(s, e).agents && agent < Step(s, e).next
    ensures Step(s, e).agents[agent].thread == s.agents[agent].thread
    ensures Step(s, e).agents[agent].history
         == s.agents[agent].history + if e.Deliver? && e.sender == agent && agent !in s.opening then [e.message] else []
  {
  }

  /** An agent remembers what it was made with and everything it has heard, until the server restarts. */
  lemma {:induction false} AgentsRememberWhatTheyHeard(s: State, events: seq<Event>, agent: nat)
    requires agent in s.agents && agent < s.next && Restart !in events
    ensures agent in Run(s, events).agents
    ensures Run(s, events).agents[agent].history == s.agents[agent].history + Heard(s, events, agent)
    decreases |events|
  {
    if events != [] {
      var e := events[0];
      StepRemembersWhatIsHeard(s, e, agent);
      AgentsRememberWhatTheyHeard(Step(s, e), events[1..], agent);
      Associate(s.agents[agent].history, if e.Deliver? && e.sender == agent && agent !in s.opening then [e.message] else [],
                Heard(Step(s, e), events[1..], agent));
    }
  }

  /**
   * What opening a thread leads to: a live session with the thread's rows as its
   * history, and a thread where there was none; a live one is reused, a blank id refused.
   */
  lemma OpeningGoesLive(s: State, id: string)
    requires Agree(s)
    ensures Trim(id) == "" ==> Step(s, BeginOpen(id)) == s
    ensures id in s.sessions ==> Step(s, BeginOpen(id)) == s
    ensures Trim(id) != "" && id !in s.sessions ==>
              var t := Step(Step(s, BeginOpen(id)), EndOpen(s.next));
              && id in t.sessions && t.sessions[id] in t.agents
              && t.agents[t.sessions[id]] == Agent(id, if id in s.threads then s.threads[id] else [])
              && t.threads == s.threads[id := if id in s.threads then s.threads[id] else []]
              && t.opening == s.opening
  {
    if Trim(id) != "" && id !in s.sessions {
      assert s.next in s.opening ==> OpeningAgrees(s, s.next);
    }
  }

  /** Threads come and go by their own commands only; a restart keeps all of them and ends every session. */
  lemma ThreadsComeAndGo(s: State, e: Event, id: string)
    requires !e.BeginOpen?
    ensures id in Step(s, e).threads <==> e == NewThread(id) || (id in s.threads && e != Delete(id))
    ensures e == NewThread(id) && id !in s.threads ==> Step(s, e).threads[id] == []
    ensures e == Delete(id) ==> id !in Step(s, e).sessions
    ensures e == Restart ==> Step(s, e).sessions == map[] && Step(s, e).threads == s.threads
  {
  }

  // ----- The manager -----

  class SessionManager {
    const store: St.Store
    var sessions: map<string, nat>
    var agents: map<nat, Agent>
    var opening: set<nat>
    var next: nat

    ghost predicate Valid()
      reads this, store
    {
      store.Valid()
    }

    ghost function View(): State
      reads this, store
    {
      State(store.model, sessions, agents, opening, next)
    }

    constructor (store: St.Store)
      requires store.Valid()
      ensures this.store == store && Valid() && View() == EMPTY.(threads := store.model)
    {
      this.store, sessions, agents, opening, next := store, map[], map[], {}, 0;
    }

    /** The first half of `get`, up to the history that the new agent starts from. */
    method BeginOpen(id: string) returns (r: Result<nat, St.StoreError>)
      requires Valid()
      modifies this, store
      ensures Valid() && View() == Step(old(View()), Event.BeginOpen(id))
      ensures r.Ok? <==> Trim(id) != ""
      ensures r.Ok? ==> r.value == if id in old(sessions) then old(sessions)[id] else old(next)
    {
      if Trim(id) == "" {
        return Err(St.EmptyId);
      }
      if id in sessions {
        return Ok(sessions[id]);
      }
      var found := store.HasThread(id);
      if !found {
        var created := store.CreateThread(Some(id), id);
      }
      var history := store.LoadMessages(id);
      r := Ok(next);
      agents, opening, next := agents[next := Agent(id, history)], opening + {next}, next + 1;
      assert old(store.model)[id := Load(old(View()), id)] == store.model;
    }

    method EndOpen(agent: nat)
      requires Valid()
      modifies this
      ensures Valid() && View() == Step(old(View()), Event.EndOpen(agent))
    {
      if agent in opening && agent in agents {
        sessions, opening := sessions[agents[agent].thread := agent], opening - {agent};
      }
    }

    /** `history.push` and the `onMessage` hook: for what the user says, and for the answer of a completed turn. */
    method Deliver(sender: nat, message: Message) returns (r: Result<(), St.StoreError>)
      requires Valid() && sender in agents && sender !in opening
      modifies this, store
      ensures Valid() && View() == Step(old(View()), Event.Deliver(sender, message))
      ensures r.Ok? <==> old(agents)[sender].thread in old(store.model)
    {
      var agent := agents[sender];
      agents := agents[sender := agent.(history := agent.history + [message])];
      r := store.AppendMessages(agent.thread, [message]);
    }

    /** The user's message first, the answer only when the turn completes. */
    method Send(sender: nat, question: Message, answer: Option<Message>) returns (r: Result<(), St.StoreError>)
      requires Valid() && sender in agents && sender !in opening
      modifies this, store
      ensures Valid()
      ensures r.Err? || answer.None? ==> View() == Step(old(View()), Event.Deliver(sender, question))
      ensures r.Ok? && answer.Some? ==>
              View() == Step(Step(old(View()), Event.Deliver(sender, question)), Event.Deliver(sender, answer.value))
      ensures r.Ok? <==> old(agents)[sender].thread in old(store.model)
    {
      r := Deliver(sender, question);
      if r.Ok? && answer.Some? {
        r := Deliver(sender, answer.value);
      }
    }

    method DeleteThread(id: string)
      requires Valid()
      modifies this, store
      ensures Valid() && View() == Step(old(View()), Event.Delete(id))
      ensures forall k :: k in store.rows <==> k in old(store.rows) && k.thread != id
      ensures store.costs == St.CostsWithout(old(store.costs), id)
    {
      sessions := sessions - {id};
      store.DeleteThread(id);
    }

    method Restart()
      requires Valid()
      modifies this
      ensures Valid() && View() == Step(old(View()), Event.Restart)
    {
      sessions, agents, opening := map[], map[], {};
    }
  }
}
