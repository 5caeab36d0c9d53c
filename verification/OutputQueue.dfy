/** The first-in first-out queue of task outputs in front of a provider's TCP agent. */
module OutputQueue {
  const NULL: nat := 0

  /** A message: the object it carries, as an address, and its length. */
  datatype Message = Message(pointer: nat, bytes: int)

  class PoaBuf {
    const message: Message
    var next: PoaBuf?

    constructor (pointer: nat, bytes: int)
      ensures message == Message(pointer, bytes) && next == null
    {
      message := Message(pointer, bytes);
      next := null;
    }
  }

  /** A list with a head and a tail; spine is its chain of buffers from head to tail. */
  class PoaBufList {
    var head: PoaBuf?
    var tail: PoaBuf?
    ghost var spine: seq<PoaBuf>

    ghost predicate Valid()
      reads this, spine
    {
      && (spine == [] ==> head == null && tail == null)
      && (spine != [] ==> head == spine[0] && tail == spine[|spine| - 1] && tail.next == null)
      && (forall i | 0 <= i < |spine| - 1 :: spine[i].next == spine[i + 1])
      && (forall i, j | 0 <= i < j < |spine| :: spine[i] != spine[j])
    }

    ghost function Contents(): (s: seq<Message>)
      reads this
    {
      seq(|spine|, i requires 0 <= i < |spine| reads this => spine[i].message)
    }

    constructor ()
      ensures Valid() && Contents() == [] && spine == []
    {
      head, tail := null, null;
      spine := [];
    }

    method Insert(poabuf: PoaBuf)
      requires Valid() && poabuf !in spine && poabuf.next == null
      modifies this, spine
      ensures Valid() && spine == old(spine) + [poabuf]
      ensures Contents() == old(Contents()) + [poabuf.message]
    {
      if tail == null {
        head, tail := poabuf, poabuf;
      } else {
        tail.next := poabuf;
        tail := poabuf;
      }
      spine := spine + [poabuf];
    }

    method Detach() returns (p: PoaBuf?)
      requires Valid()
      modifies this
      ensures Valid()
      ensures old(spine) == [] ==> p == null && spine == []
      ensures old(spine) != [] ==> p == old(spine)[0] && spine == old(spine)[1..] && Contents() == old(Contents())[1..]
    {
      if head == null {
        return null;
      }
      p := head;
      head := head.next;
      if head == null {
        tail := null;
      }
      spine := spine[1..];
    }
  }

  /**
   The agent.  submitted and handed record the messages given to the agent and those it passed on to
   TCP.  currentPointer is TCP's: it is set by TcpAgent::sendmsg and cleared with the last packet.
   */
  class ProviderOutAgent {
    const poabuf: PoaBufList
    var currentPointer: nat
    ghost var submitted: seq<Message>
    ghost var handed: seq<Message>

    ghost predicate Valid()
      reads this, poabuf, poabuf.spine
    {
      poabuf.Valid() && handed + poabuf.Contents() == submitted
    }

    constructor ()
      ensures Valid() && submitted == [] && fresh(poabuf) && poabuf.spine == [] && currentPointer == NULL
    {
      poabuf := new PoaBufList();
      currentPointer := NULL;
      submitted, handed := [], [];
    }

    /** TcpAgent::sendmsg; atOnce tells whether the window lets the whole message leave within the call. */
    method TcpSend(m: Message, atOnce: bool)
      modifies this`currentPointer, this`handed
      ensures handed == old(handed) + [m]
      ensures currentPointer == if atOnce then NULL else m.pointer
    {
      currentPointer := m.pointer;
      handed := handed + [m];
      if atOnce {
        currentPointer := NULL;
      }
    }

    /** Passes on the oldest queued message, but only while TCP has no pointer outstanding. */
    method TryToSend(atOnce: bool)
      requires Valid()
      modifies this`currentPointer, this`handed, poabuf
      ensures Valid() && submitted == old(submitted)
      ensures old(currentPointer) != NULL || old(poabuf.Contents()) == [] ==>
        handed == old(handed) && poabuf.Contents() == old(poabuf.Contents()) && currentPointer == old(currentPointer)
      ensures old(currentPointer) == NULL && old(poabuf.Contents()) != [] ==>
        && handed == old(handed) + [old(poabuf.Contents())[0]]
        && poabuf.Contents() == old(poabuf.Contents())[1..]
        && currentPointer == if atOnce then NULL else old(poabuf.Contents())[0].pointer
      ensures |poabuf.spine| <= |old(poabuf.spine)| && forall b :: b in poabuf.spine ==> b in old(poabuf.spine)
    {
      if currentPointer == NULL {
        var cb := poabuf.Detach();
        if cb != null {
          TcpSend(cb.message, atOnce);
        }
      }
    }

    /** sendmsg: queue, then try to send. */
    method SendMsg(bytes: int, pointer: nat, atOnce: bool)
      requires Valid()
      modifies this, poabuf, poabuf.spine
      ensures Valid() && submitted == old(submitted) + [Message(pointer, bytes)]
      ensures forall b :: b in poabuf.spine ==> b in old(poabuf.spine) || fresh(b)
      ensures old(currentPointer) != NULL ==> handed == old(handed) && currentPointer == old(currentPointer)
      ensures old(currentPointer) == NULL ==>
        && |old(handed)| < |submitted| && handed == submitted[..|old(handed)| + 1]
        && currentPointer == if atOnce then NULL else submitted[|old(handed)|].pointer
    {
      var b := new PoaBuf(pointer, bytes);
      submitted := submitted + [b.message];
      poabuf.Insert(b);
      TryToSend(atOnce);
    }

    /** TCP has put the last packet of its message on the wire. */
    method LastPacketSent()
      requires Valid()
      modifies this`currentPointer
      ensures Valid() && currentPointer == NULL
    {
      currentPointer := NULL;
    }
  }

  /** What can happen to an agent: a submission, the end of a transmission, an acknowledgement at the sink. */
  datatype Event =
    | Submit(message: Message, atOnce: bool)
    | Sent
    | Acknowledged(atOnce: bool)

  function Submissions(es: seq<Event>): seq<Message> {
    if es == [] then []
    else (if es[0].Submit? then [es[0].message] else []) + Submissions(es[1..])
  }

  lemma {:induction false} SubmissionsAppend(es: seq<Event>, e: Event)
    ensures Submissions(es + [e]) == Submissions(es) + (if e.Submit? then [e.message] else [])
  {
    if es == [] {
      assert es + [e] == [e];
    } else {
      assert es + [e] == [es[0]] + (es[1..] + [e]);
      assert ([es[0]] + (es[1..] + [e]))[1..] == es[1..] + [e];
      SubmissionsAppend(es[1..], e);
      var first, last := if es[0].Submit? then [es[0].message] else [], if e.Submit? then [e.message] else [];
      assert first + (Submissions(es[1..]) + last) == (first + Submissions(es[1..])) + last;
    }
  }

  /** How many messages TCP has been given after the events, and the pointer it has outstanding. */
  function Given(es: seq<Event>): (r: (nat, nat))
    ensures r.0 <= |Submissions(es)|
  {
    if es == [] then (0, NULL) else
    var before, e := es[..|es| - 1], es[|es| - 1];
    var (n, p) := Given(before);
    SubmissionsLast(es);
    match e
    case Sent => (n, NULL)
    case Submit(_, atOnce) => if p == NULL then Next(es, n, atOnce) else (n, p)
    case Acknowledged(atOnce) => if p == NULL && n < |Submissions(es)| then Next(es, n, atOnce) else (n, p)
  }

  lemma SubmissionsLast(es: seq<Event>)
    requires es != []
    ensures var e := es[|es| - 1];
      Submissions(es) == Submissions(es[..|es| - 1]) + (if e.Submit? then [e.message] else [])
  {
    assert es == es[..|es| - 1] + [es[|es| - 1]];
    SubmissionsAppend(es[..|es| - 1], es[|es| - 1]);
  }

  /** Message n is given to TCP. */
  function Next(es: seq<Event>, n: nat, atOnce: bool): (nat, nat)
    requires n < |Submissions(es)|
  {
    (n + 1, if atOnce then NULL else Submissions(es)[n].pointer)
  }

  lemma GivenAppend(es: seq<Event>, e: Event)
    ensures Submissions(es + [e]) == Submissions(es) + (if e.Submit? then [e.message] else [])
    ensures var (n, p), m := Given(es), |Submissions(es + [e])|;
      n <= m && Given(es + [e]) ==
        if e.Sent? then (n, NULL)
        else if p == NULL && n < m then Next(es + [e], n, e.atOnce) else (n, p)
  {
    SubmissionsAppend(es, e);
    assert (es + [e])[..|es|] == es;
  }

  /** The times TCP is free again: a message has been sent, or left at once. */
  function Freed(es: seq<Event>): nat {
    if es == [] then 0 else (if es[|es| - 1].Sent? || es[|es| - 1].atOnce then 1 else 0) + Freed(es[..|es| - 1])
  }

  /** TCP gets one message at a time: it is given at most one more than the times it was free again. */
  lemma {:induction false} OneAtATime(es: seq<Event>)
    requires forall m :: m in Submissions(es) ==> m.pointer != NULL
    ensures Given(es).0 <= Freed(es) + if Given(es).1 == NULL then 0 else 1
  {
    if es != [] {
      SubmissionsLast(es);
      OneAtATime(es[..|es| - 1]);
    }
  }

  function Acknowledgements(k: nat): (r: seq<Event>)
    ensures |r| == k
  {
    if k == 0 then [] else Acknowledgements(k - 1) + [Acknowledged(true)]
  }

  lemma AcknowledgeNext(es: seq<Event>, k: nat)
    ensures es + Acknowledgements(k + 1) == es + Acknowledgements(k) + [Acknowledged(true)]
  {}

  /** Once TCP is free, each acknowledgement gives it the next message, until none is queued. */
  lemma {:induction false} DrainedFrom(es: seq<Event>, k: nat)
    requires Given(es).1 == NULL
    ensures var m, fs := |Submissions(es)|, es + Acknowledgements(k);
      && Submissions(fs) == Submissions(es)
      && Given(fs) == (if Given(es).0 + k <= m then Given(es).0 + k else m, NULL)
  {
    hide Given, Submissions;
    if k == 0 {
      assert es + Acknowledgements(k) == es;
    } else {
      hide Acknowledgements;
      DrainedFrom(es, k - 1);
      GivenAppend(es + Acknowledgements(k - 1), Acknowledged(true));
      AcknowledgeNext(es, k - 1);
    }
  }

  /** Once a message has been sent, each acknowledgement gives TCP the next one, until none is queued. */
  lemma Drained(es: seq<Event>, k: nat)
    ensures var m, fs := |Submissions(es)|, es + [Sent] + Acknowledgements(k);
      && Submissions(fs) == Submissions(es)
      && Given(fs) == (if Given(es).0 + k <= m then Given(es).0 + k else m, NULL)
  {
    hide Given, Submissions, Acknowledgements;
    GivenAppend(es, Sent);
    DrainedFrom(es + [Sent], k);
  }

  lemma NothingGiven()
    ensures Submissions([]) == [] && Given([]) == (0, NULL)
  {}

  /**
   Any interleaving: what TCP was given, followed by what is queued, is what was submitted, in the
   order of submission, and TCP was given as much as the events let it take.
   */
  method Deliver(es: seq<Event>) returns (a: ProviderOutAgent)
    ensures a.Valid() && a.submitted == Submissions(es)
    ensures a.handed + a.poabuf.Contents() == Submissions(es)
    ensures (|a.handed|, a.currentPointer) == Given(es)
  {
    hide Given, Submissions;
    NothingGiven();
    a := new ProviderOutAgent();
    for i := 0 to |es|
      invariant a.Valid() && a.submitted == Submissions(es[..i])
      invariant (|a.handed|, a.currentPointer) == Given(es[..i])
      invariant fresh(a) && fresh(a.poabuf) && fresh(a.poabuf.spine)
    {
      assert es[..i + 1] == es[..i] + [es[i]];
      GivenAppend(es[..i], es[i]);
      ghost var queued := |a.poabuf.Contents()|;
      assert queued == |a.submitted| - |a.handed|;
      ghost var before := a.poabuf.spine;
      assert forall b :: b in before ==> fresh(b);
      match es[i] {
        case Submit(m, atOnce) => a.SendMsg(m.bytes, m.pointer, atOnce);
        case Sent => a.LastPacketSent();
        case Acknowledged(atOnce) => a.TryToSend(atOnce);
      }
      forall k | 0 <= k < |a.poabuf.spine|
        ensures fresh(a.poabuf.spine[k])
      {
        assert a.poabuf.spine[k] in a.poabuf.spine;
      }
    }
    assert es[..|es|] == es;
  }
}
