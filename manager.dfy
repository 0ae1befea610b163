/** The agent manager: routes each utterance to the current agent and hands
    the call over, once and for good, from the Tier-1/2 agent to a Tier-3
    specialist. The voice session is reduced to a log of events. */
module Manager {
  import opened Text
  import opened Tier12
  import opened Tier3

  /** Which agent the manager's current agent is. */
  datatype Role = General | Specialist

  /** What the manager asks of the voice session. */
  datatype SessionEvent =
    | Closed
    | Started(role: Role)
    | GreetingRequested(role: Role)

  /** The hand-offs in a log: the sessions started for a Tier-3 agent. */
  function HandoffCount(events: seq<SessionEvent>): nat {
    if events == [] then 0
    else (if events[0] == Started(Specialist) then 1 else 0) + HandoffCount(events[1..])
  }

  lemma {:induction false} HandoffCountAppend(a: seq<SessionEvent>, b: seq<SessionEvent>)
    ensures HandoffCount(a + b) == HandoffCount(a) + HandoffCount(b)
    decreases |a|
  {
    if a == [] {
      assert a + b == b;
    } else {
      assert (a + b)[0] == a[0];
      assert (a + b)[1..] == a[1..] + b;
      HandoffCountAppend(a[1..], b);
    }
  }

  /** The events of one `_escalate_to_tier3`: close the open session, if
      any, then start one for the specialist and ask it to greet. */
  function EscalationEvents(hadSession: bool): (e: seq<SessionEvent>)
    ensures HandoffCount(e) == 1
  {
    var opening := if hadSession then [Closed] else [];
    HandoffCountAppend(opening, [Started(Specialist), GreetingRequested(Specialist)]);
    opening + [Started(Specialist), GreetingRequested(Specialist)]
  }

  class AgentManager {
    /** The class-level `EscalationState.value`, which every manager shares. */
    const state: EscalationState
    const tier12: Tier12Agent
    var tier3: Tier3Agent?
    var current: Role
    var session: Option<Role>
    var events: seq<SessionEvent>

    /** The current agent is the Tier-3 agent exactly when one exists; it
        exists only after the flag was raised, and it was handed over once. */
    predicate Valid()
      reads this, tier3, state
    {
      && (current == Specialist <==> tier3 != null)
      && (tier3 != null ==> tier3.Valid() && state.value && session == Some(Specialist))
      && HandoffCount(events) == (if tier3 == null then 0 else 1)
    }

    /** `__init__`: no session yet, the Tier-1/2 agent answers. */
    constructor(state: EscalationState)
      ensures this.state == state && fresh(tier12) && !tier12.askedForTracking
      ensures tier3 == null && current == General && session == None && events == []
      ensures Valid()
    {
      this.state := state;
      tier12 := new Tier12Agent();
      tier3 := null;
      current := General;
      session := None;
      events := [];
    }

    /** The session `entrypoint` opens for a new manager's Tier-1/2 agent,
        followed by the request for its welcome. */
    method OpenGeneralSession()
      requires Valid() && tier3 == null
      modifies this
      ensures session == Some(General)
      ensures events == old(events) + [Started(General), GreetingRequested(General)]
      ensures tier3 == null && current == General
      ensures Valid()
    {
      session := Some(General);
      events := events + [Started(General), GreetingRequested(General)];
      HandoffCountAppend(old(events), [Started(General), GreetingRequested(General)]);
    }

    /** `_escalate_to_tier3`, with the serial `random.randint` draws for the
        new specialist's case number. */
    method EscalateToTier3(serial: CaseSerial)
      modifies this
      ensures fresh(tier3) && tier3.caseNumber == CaseNumber(serial) && tier3.firstMessage
      ensures current == Specialist && session == Some(Specialist)
      ensures events == old(events) + EscalationEvents(old(session).Some?)
      ensures HandoffCount(events) == HandoffCount(old(events)) + 1
    {
      var hadSession := session.Some?;
      if session.Some? {
        session := None;
      }
      tier3 := new Tier3Agent(serial);
      current := Specialist;
      session := Some(Specialist);
      events := events + EscalationEvents(hadSession);
      HandoffCountAppend(old(events), EscalationEvents(hadSession));
    }

    /** `handle_message`: hand over first if the flag is already raised, let
        the current agent answer, and hand over afterwards if that answer
        announced a transfer. */
    method HandleMessage(message: string, choice: StatusIndex, serial: CaseSerial)
      returns (reply: string)
      requires Valid()
      modifies this, tier12, state, tier3
      ensures Valid()
      ensures HandoffCount(events) <= 1
      // the hand-off is one way, and the specialist is never replaced
      ensures old(current) == Specialist ==> current == Specialist && tier3 == old(tier3)
      ensures current == Specialist <==>
        old(current) == Specialist || old(state.value) || ShouldEscalate(message)
      ensures state.value <==> current == Specialist
      ensures HandoffCount(events) == HandoffCount(old(events)) +
        (if old(current) == General && current == Specialist then 1 else 0)
      // a Tier-3 turn
      ensures old(current) == Specialist ==>
        && events == old(events) && session == old(session) && !tier3.firstMessage
        && tier12.askedForTracking == old(tier12.askedForTracking)
        && reply == if old(tier3.firstMessage) then Greeting(tier3.caseNumber, message)
                    else if IsAffirmation(message) then Closing(tier3.caseNumber)
                    else Solution(tier3.caseNumber)
      // the flag was raised elsewhere: the new specialist greets this message
      ensures old(current) == General && old(state.value) ==>
        && fresh(tier3) && tier3.caseNumber == CaseNumber(serial) && !tier3.firstMessage
        && events == old(events) + EscalationEvents(old(session).Some?)
        && reply == Greeting(tier3.caseNumber, message)
        && tier12.askedForTracking == old(tier12.askedForTracking)
      // an escalating message: the transfer announcement, then the hand-off
      ensures old(current) == General && !old(state.value) && ShouldEscalate(message) ==>
        && fresh(tier3) && tier3.caseNumber == CaseNumber(serial) && tier3.firstMessage
        && events == old(events) + EscalationEvents(old(session).Some?)
        && reply == TransferMessage
        && tier12.askedForTracking == old(tier12.askedForTracking)
      // an ordinary question stays with the Tier-1/2 agent
      ensures old(current) == General && !old(state.value) && !ShouldEscalate(message) ==>
        && tier3 == null && events == old(events) && session == old(session)
        && NormalRouting(old(tier12.askedForTracking), message, choice, reply, tier12.askedForTracking)
    {
      if state.value && current == General {
        EscalateToTier3(serial);
      }
      if current == General {
        reply := tier12.HandleMessage(state, message, choice);
      } else {
        reply := tier3.HandleMessage(message);
      }
      if IsSubstring(TransferPhrase, reply) {
        state.value := true;
        EscalateToTier3(serial);
      }
    }
  }

  // ---------------------------------------------------------------------
  // Conversations

  /** An utterance that names neither a cancellation nor a payment. */
  lemma PlainGreetingIsGeneric(cn: string, m: string)
    requires m == "hello po"
    ensures Greeting(cn, m) == GenericGreeting(cn)
  {
    assert Lower(m) == m;
    MissingCharNotSubstring("cancel", m, 'c');
    MissingCharNotSubstring("kansel", m, 'k');
    MissingCharNotSubstring("bayad", m, 'y');
    MissingCharNotSubstring("payment", m, 'y');
    assert !MentionsCancellation(m);
    assert !MentionsPayment(m);
  }

  /** A tracking question with its code stays with the Tier-1/2 agent and is
      answered with a status for that code; nothing is handed over. */
  method TrackingCallerConversation(serial: CaseSerial, choice: StatusIndex)
    returns (reply: string, handedOff: bool, escalated: bool)
    ensures reply == OrderStatus("SB-482913", choice)
    ensures !handedOff && !escalated
  {
    var state := new EscalationState();
    var manager := new AgentManager(state);
    manager.OpenGeneralSession();
    var question := "Nasaan na ang order ko? " + "SB-482913";
    QuestionDoesNotEscalate(question);
    QuestionIsTrackingQuery(question);
    ExtractsCodeFromQuestion(question);
    reply := manager.HandleMessage(question, choice, serial);
    handedOff := manager.current == Specialist;
    escalated := state.value;
  }

  /** An angry cancellation is answered with the transfer announcement; the
      specialist then greets the caller's next utterance, and a thank-you
      closes the case under the number drawn at the hand-off. The serials
      offered on the later turns are never drawn. */
  method AngryCallerConversation(serial1: CaseSerial, serial2: CaseSerial, serial3: CaseSerial, choice: StatusIndex)
    returns (r1: string, r2: string, r3: string)
    ensures r1 == TransferMessage
    ensures r2 == GenericGreeting(CaseNumber(serial1))
    ensures r3 == Closing(CaseNumber(serial1))
  {
    var state := new EscalationState();
    var manager := new AgentManager(state);
    manager.OpenGeneralSession();
    var angry := "GAGO CANCEL NA ORDER KO" + "!!!";
    AngryCancellationEscalates(angry);
    r1 := manager.HandleMessage(angry, choice, serial1);
    var cn := manager.tier3.caseNumber;
    PlainGreetingIsGeneric(cn, "hello po");
    r2 := manager.HandleMessage("hello po", choice, serial2);
    ThanksIsAffirmation("salamat, ok na");
    r3 := manager.HandleMessage("salamat, ok na", choice, serial3);
  }

  /** The flag outlives the manager that raised it: a second manager sharing
      it hands over before its first answer, and its specialist greets. */
  method SharedFlagConversation(serial1: CaseSerial, serial2: CaseSerial, choice: StatusIndex)
    returns (r1: string, r2: string)
    ensures r1 == TransferMessage
    ensures r2 == GenericGreeting(CaseNumber(serial2))
  {
    var state := new EscalationState();
    var first := new AgentManager(state);
    var angry := "GAGO CANCEL NA ORDER KO" + "!!!";
    AngryCancellationEscalates(angry);
    r1 := first.HandleMessage(angry, choice, serial1);
    var second := new AgentManager(state);
    PlainGreetingIsGeneric(CaseNumber(serial2), "hello po");
    r2 := second.HandleMessage("hello po", choice, serial2);
  }
}
