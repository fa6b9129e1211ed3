/**
 * TaskAmqpChannel: one caller thread blocks in exchange() while the broker's thread delivers replies.
 * Each step below is one critical section of the channel's mutex, so a run is any interleaving.
 */
module TaskChannel {
  import opened Prelude

  /** A delivered message; missing ids read as empty, anything unparsable is Garbage. */
  datatype Message = Garbage | Reply(requestId: string, correlationId: string, body: string)

  datatype Event =
    | BecameReady
    | TransportError
    | Deliver(msg: Message)
    | Begin(id: string)  // exchange() after waiting for readiness
    | Return             // exchange() after waiting for the reply, woken or timed out

  /** The fields guarded by the mutex, and the request id the caller is blocked on, if any. */
  datatype State = State(ready: bool, pendingCorr: string, result: Option<string>, waitingFor: Option<string>)

  const INITIAL := State(false, "", None, None)

  predicate Answers(m: Message, id: string) {
    m.Reply? && id != "" && (m.requestId == id || m.correlationId == id)
  }

  /** An exchange that begins on a channel that is not ready returns at once, empty-handed. */
  function Step(s: State, e: Event): State {
    match e
    case BecameReady => s.(ready := true)
    case TransportError => s.(ready := false)
    case Deliver(m) => if Answers(m, s.pendingCorr) then s.(result := Some(m.body), pendingCorr := "") else s
    case Begin(id) => if s.ready then State(true, id, None, Some(id)) else s
    case Return => s.(waitingFor := None)
  }

  class Channel {
    var ready: bool
    var pendingCorr: string
    var pendingResult: Option<string>
    var waitingFor: Option<string>

    function Snapshot(): State
      reads this
    {
      State(ready, pendingCorr, pendingResult, waitingFor)
    }

    constructor ()
      ensures Snapshot() == INITIAL
    {
      ready, pendingCorr, pendingResult, waitingFor := false, "", None, None;
    }

    method OnReceiverOpen()
      modifies this
      ensures Snapshot() == Step(old(Snapshot()), BecameReady) == old(Snapshot()).(ready := true)
    {
      ready := true;
    }

    method OnTransportError()
      modifies this
      ensures Snapshot() == Step(old(Snapshot()), TransportError) == old(Snapshot()).(ready := false)
    {
      ready := false;
    }

    method OnMessage(m: Message)
      modifies this
      ensures Snapshot() == Step(old(Snapshot()), Deliver(m))
      ensures
        var taken := m.Reply? && old(pendingCorr) != ""
          && (m.requestId == old(pendingCorr) || m.correlationId == old(pendingCorr));
        && pendingResult == (if taken then Some(m.body) else old(pendingResult))
        && pendingCorr == (if taken then "" else old(pendingCorr))
      ensures ready == old(ready) && waitingFor == old(waitingFor)
    {
      if m.Reply? && pendingCorr != "" && (m.requestId == pendingCorr || m.correlationId == pendingCorr) {
        pendingResult := Some(m.body);
        pendingCorr := "";
      }
    }

    /** exchange(), first half: register the request unless the channel is not ready. */
    method BeginExchange(id: string) returns (registered: bool)
      modifies this
      ensures Snapshot() == Step(old(Snapshot()), Begin(id)) && registered == old(ready)
      ensures registered ==> pendingCorr == id && pendingResult.None? && waitingFor == Some(id)
      ensures !registered ==> Snapshot() == old(Snapshot())
    {
      if !ready {
        return false;
      }
      pendingCorr := id;
      pendingResult := None;
      waitingFor := Some(id);
      return true;
    }

    /** exchange(), second half: hand over whatever has arrived. */
    method EndExchange() returns (r: Option<string>)
      modifies this
      ensures Snapshot() == Step(old(Snapshot()), Return) && r == old(Snapshot()).result
      ensures r == old(pendingResult) && pendingResult == old(pendingResult) && pendingCorr == old(pendingCorr)
      ensures waitingFor.None?
    {
      r := pendingResult;
      waitingFor := None;
    }
  }

  // ---------- Runs ----------

  function StateAt(es: seq<Event>, k: nat): State
    requires k <= |es|
  {
    if k == 0 then INITIAL else Step(StateAt(es, k - 1), es[k - 1])
  }

  /** One caller thread: it begins only when idle and returns only when blocked. */
  predicate OneCaller(es: seq<Event>) {
    forall k :: 0 <= k < |es| ==>
      && (es[k].Begin? ==> StateAt(es, k).waitingFor.None?)
      && (es[k].Return? ==> StateAt(es, k).waitingFor.Some?)
  }

  /** Event k registers a request. */
  predicate Registers(es: seq<Event>, k: nat)
    requires k < |es|
  {
    es[k].Begin? && StateAt(es, k).ready
  }

  /** The body of the first message in es[i..k] that answers the id. */
  function FirstAnswer(es: seq<Event>, i: nat, k: nat, id: string): Option<string>
    requires k <= |es|
  {
    if k <= i then None
    else
      var earlier := FirstAnswer(es, i, k - 1, id);
      if earlier.Some? then earlier
      else if es[k - 1].Deliver? && Answers(es[k - 1].msg, id) then Some(es[k - 1].msg.body)
      else None
  }

  /** Since registration i the slot holds the first answer, and is open exactly while there is none. */
  lemma {:induction false} SlotHoldsFirstAnswer(es: seq<Event>, i: nat, k: nat)
    requires i < k <= |es| && Registers(es, i)
    requires forall j :: i < j < k ==> !Registers(es, j)
    ensures
      var id, s := es[i].id, StateAt(es, k);
      && s.result == FirstAnswer(es, i + 1, k, id)
      && s.pendingCorr == if s.result.Some? then "" else id
    decreases k
  {
    if i + 1 == k {
    } else {
      SlotHoldsFirstAnswer(es, i, k - 1);
      assert !Registers(es, k - 1);
    }
  }

  /** While the caller is blocked, its registration is the latest one. */
  lemma {:induction false} BlockedOnLatest(es: seq<Event>, k: nat) returns (i: nat)
    requires k <= |es| && OneCaller(es) && StateAt(es, k).waitingFor.Some?
    ensures i < k && Registers(es, i) && StateAt(es, k).waitingFor == Some(es[i].id)
    ensures forall j :: i < j < k ==> !Registers(es, j) && !es[j].Begin? && !es[j].Return?
  {
    if Registers(es, k - 1) {
      i := k - 1;
    } else {
      i := BlockedOnLatest(es, k - 1);
      assert !es[k - 1].Begin?;
    }
  }

  /**
   * What exchange(id) returns, in every interleaving: the body of the first message answering id
   * that arrived after this very call registered it, and nothing if there was none.
   */
  lemma ReturnIsFirstAnswer(es: seq<Event>, k: nat) returns (i: nat)
    requires k < |es| && OneCaller(es) && es[k].Return?
    ensures i < k && Registers(es, i) && StateAt(es, k).waitingFor == Some(es[i].id)
    ensures forall j :: i < j < k ==> !Registers(es, j) && !es[j].Return?
    ensures StateAt(es, k).result == FirstAnswer(es, i + 1, k, es[i].id)
  {
    i := BlockedOnLatest(es, k);
    SlotHoldsFirstAnswer(es, i, k);
  }

  lemma {:induction false} FirstAnswerArrived(es: seq<Event>, i: nat, k: nat, id: string) returns (j: nat)
    requires i <= k <= |es| && FirstAnswer(es, i, k, id).Some?
    ensures i <= j < k && es[j].Deliver? && Answers(es[j].msg, id)
    ensures es[j].msg.body == FirstAnswer(es, i, k, id).value
    ensures forall m :: i <= m < j ==> !(es[m].Deliver? && Answers(es[m].msg, id))
  {
    if FirstAnswer(es, i, k - 1, id).Some? {
      j := FirstAnswerArrived(es, i, k - 1, id);
    } else {
      j := k - 1;
      NoAnswerYet(es, i, k - 1, id);
    }
  }

  lemma {:induction false} NoAnswerYet(es: seq<Event>, i: nat, k: nat, id: string)
    requires k <= |es| && FirstAnswer(es, i, k, id).None?
    ensures forall m :: i <= m < k ==> !(es[m].Deliver? && Answers(es[m].msg, id))
  {
    if i >= k {
    } else {
      NoAnswerYet(es, i, k - 1, id);
    }
  }

  /** A message that carries neither id of the pending request, or meets none, changes nothing. */
  lemma ForeignReplyIgnored(s: State, m: Message)
    requires m.Garbage? || s.pendingCorr == "" || (m.requestId != s.pendingCorr && m.correlationId != s.pendingCorr)
    ensures Step(s, Deliver(m)) == s
  {
  }

  /** One that carries either id of a pending request fills the slot and closes it. */
  lemma OwnReplyTaken(s: State, m: Message)
    requires m.Reply? && s.pendingCorr != "" && (m.requestId == s.pendingCorr || m.correlationId == s.pendingCorr)
    ensures Step(s, Deliver(m)) == s.(result := Some(m.body), pendingCorr := "")
  {
  }

  /**
   * A received result carries the caller's own id as one of its two ids, arrived between the call's
   * registration and its return, and no message before it in that time carried the id.
   */
  lemma ReceivedIsOwnReply(es: seq<Event>, k: nat) returns (i: nat, j: nat)
    requires k < |es| && OneCaller(es) && es[k].Return? && StateAt(es, k).result.Some?
    ensures i < j < k && Registers(es, i) && es[j].Deliver?
    ensures forall m :: i < m < k ==> !Registers(es, m) && !es[m].Return?
    ensures StateAt(es, k).waitingFor == Some(es[i].id) && es[i].id != ""
    ensures es[j].msg.Reply? && (es[j].msg.requestId == es[i].id || es[j].msg.correlationId == es[i].id)
    ensures es[j].msg.body == StateAt(es, k).result.value
    ensures forall m :: i < m < j && es[m].Deliver? && es[m].msg.Reply? ==>
      es[m].msg.requestId != es[i].id && es[m].msg.correlationId != es[i].id
  {
    i := ReturnIsFirstAnswer(es, k);
    j := FirstAnswerArrived(es, i + 1, k, es[i].id);
  }

  /** Nothing is received exactly when no message since the registration carried the caller's id. */
  lemma NothingReceivedIff(es: seq<Event>, k: nat) returns (i: nat)
    requires k < |es| && OneCaller(es) && es[k].Return?
    ensures i < k && Registers(es, i) && StateAt(es, k).waitingFor == Some(es[i].id)
    ensures StateAt(es, k).result.None? <==> forall m :: i < m < k && es[m].Deliver? && es[m].msg.Reply? ==>
      es[i].id == "" || (es[m].msg.requestId != es[i].id && es[m].msg.correlationId != es[i].id)
  {
    i := ReturnIsFirstAnswer(es, k);
    if StateAt(es, k).result.None? {
      NoAnswerYet(es, i + 1, k, es[i].id);
    } else {
      var j := FirstAnswerArrived(es, i + 1, k, es[i].id);
    }
  }

  /** Message j is taken into the slot. */
  predicate Consumed(es: seq<Event>, j: nat)
    requires j < |es|
  {
    es[j].Deliver? && Answers(es[j].msg, StateAt(es, j).pendingCorr)
  }

  lemma {:induction false} SlotStaysClosed(es: seq<Event>, j: nat, k: nat)
    requires j < k <= |es| && Consumed(es, j) && forall m :: j < m < k ==> !Registers(es, m)
    ensures StateAt(es, k).pendingCorr == ""
    decreases k
  {
    if j + 1 == k {
    } else {
      SlotStaysClosed(es, j, k - 1);
      assert !Registers(es, k - 1);
    }
  }

  /** Between two consumed replies there is always a new registration. */
  lemma OneReplyPerRegistration(es: seq<Event>, j: nat, k: nat)
    requires j < k < |es| && Consumed(es, j) && Consumed(es, k)
    ensures exists m :: j < m < k && Registers(es, m)
  {
    if forall m :: j < m < k ==> !Registers(es, m) {
      SlotStaysClosed(es, j, k);
    }
  }
}
