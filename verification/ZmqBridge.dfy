/**
 The bridge from MSGQ to ZMQ (cereal/messaging/msgq_to_zmq.cc). The monitor thread handles connect and disconnect events
 and the main thread polls, each under the same lock, so each handler is one method and every order of calls is a run.
 */
module ZmqBridge {

  type Message = string

  /** A subscriber socket with the messages waiting in it. */
  class SubSocket {
    var pending: seq<Message>

    constructor ()
      ensures pending == []
    {
      pending := [];
    }
  }

  datatype SendResult = Done | Interrupted | Refused

  /**
   A publisher socket with the messages sent through it. How often the send of its n-th message is interrupted, and whether
   it is then refused for another reason, is up to the system.
   */
  class PubSocket {
    const interrupts: nat -> nat
    const refuses: nat -> bool
    var sent: seq<Message>
    var settled: nat
    var tried: nat

    constructor (interrupts: nat -> nat, refuses: nat -> bool)
      ensures this.interrupts == interrupts && this.refuses == refuses
      ensures sent == [] && settled == 0 == tried
    {
      this.interrupts := interrupts;
      this.refuses := refuses;
      sent := [];
      settled := 0;
      tried := 0;
    }

    method SendMessage(msg: Message) returns (r: SendResult)
      modifies this
      ensures r == if old(tried) < interrupts(old(settled)) then Interrupted
                   else if refuses(old(settled)) then Refused else Done
      ensures sent == if r == Done then old(sent) + [msg] else old(sent)
      ensures settled == old(settled) + if r == Interrupted then 0 else 1
      ensures tried == if r == Interrupted then old(tried) + 1 else 0
    {
      if tried < interrupts(settled) {
        tried := tried + 1;
        return Interrupted;
      }
      r := if refuses(settled) then Refused else Done;
      sent := sent + if r == Done then [msg] else [];
      settled := settled + 1;
      tried := 0;
    }

    /** An interrupted send is tried again, a refused one is not. */
    method Settle(msg: Message)
      modifies this
      ensures settled == old(settled) + 1
      ensures sent == old(sent) + if refuses(old(settled)) then [] else [msg]
    {
      var r := SendMessage(msg);
      while r == Interrupted
        invariant r == Interrupted ==> settled == old(settled) && sent == old(sent)
        invariant r != Interrupted ==> settled == old(settled) + 1
        invariant r != Interrupted ==> sent == old(sent) + if refuses(old(settled)) then [] else [msg]
        decreases r == Interrupted, interrupts(old(settled)) - tried
      {
        r := SendMessage(msg);
      }
    }
  }

  /** Of the messages, the first being the n-th for the publisher, those that are not refused. */
  function Through(refuses: nat -> bool, n: nat, msgs: seq<Message>): seq<Message> {
    if |msgs| == 0 then []
    else
      var last := |msgs| - 1;
      Through(refuses, n, msgs[..last]) + if refuses(n + last) then [] else [msgs[last]]
  }

  function Refusals(refuses: nat -> bool, n: nat, k: nat): nat {
    if k == 0 then 0 else Refusals(refuses, n, k - 1) + if refuses(n + k - 1) then 1 else 0
  }

  /** Nothing is lost or sent twice but for the refused messages, and interruptions do not matter. */
  lemma {:induction false} ThroughLosesRefused(refuses: nat -> bool, n: nat, msgs: seq<Message>)
    ensures |Through(refuses, n, msgs)| + Refusals(refuses, n, |msgs|) == |msgs|
    ensures Through(refuses, n, msgs) == msgs <==> forall k :: n <= k < n + |msgs| ==> !refuses(k)
  {
    if |msgs| > 0 {
      var last := |msgs| - 1;
      ThroughLosesRefused(refuses, n, msgs[..last]);
      assert msgs == msgs[..last] + [msgs[last]];
    }
  }

  class SocketPair {
    const pub: PubSocket
    var sub: SubSocket?
    var clients: int

    constructor (pub: PubSocket)
      ensures this.pub == pub && sub == null && clients == 0
    {
      this.pub := pub;
      sub := null;
      clients := 0;
    }
  }

  const MAX_MESSAGES_PER_SOCKET: nat := 50

  datatype Event = Accepted(pair: nat) | Disconnected(pair: nat)

  // ---------------------------------------------------------------- the client count

  /** The count of pair `i` after the events: a disconnect at zero leaves it at zero. */
  function Count(events: seq<Event>, i: nat): int {
    if |events| == 0 then 0
    else
      var before := Count(events[..|events| - 1], i);
      match events[|events| - 1]
      case Accepted(p) => if p == i then before + 1 else before
      case Disconnected(p) => if p == i && before > 0 then before - 1 else before
  }

  /** Accepts minus disconnects. */
  function Balance(events: seq<Event>, i: nat): int {
    if |events| == 0 then 0
    else
      Balance(events[..|events| - 1], i)
      + match events[|events| - 1]
        case Accepted(p) => if p == i then 1 else 0
        case Disconnected(p) => if p == i then -1 else 0
  }

  /** The lowest balance at any moment so far. */
  function Lowest(events: seq<Event>, i: nat): int {
    if |events| == 0 then 0
    else
      var before := Lowest(events[..|events| - 1], i);
      if Balance(events, i) < before then Balance(events, i) else before
  }

  /** The count is the balance above its lowest point; with no unmatched disconnect it is the balance itself. */
  lemma {:induction false} CountIsReflectedBalance(events: seq<Event>, i: nat)
    ensures Count(events, i) == Balance(events, i) - Lowest(events, i)
    ensures Lowest(events, i) <= 0 && Lowest(events, i) <= Balance(events, i)
    ensures Lowest(events, i) == 0 ==> Count(events, i) == Balance(events, i)
  {
    if |events| > 0 {
      CountIsReflectedBalance(events[..|events| - 1], i);
    }
  }

  // ---------------------------------------------------------------- consistency of the bookkeeping

  /** The sockets that exist, in pair order. */
  function NonNull(subs: seq<SubSocket?>): seq<SubSocket> {
    if |subs| == 0 then []
    else
      var before := NonNull(subs[..|subs| - 1]);
      var sub := subs[|subs| - 1];
      if sub == null then before else before + [sub]
  }

  lemma {:induction false} NonNullMembers(subs: seq<SubSocket?>, s: SubSocket)
    ensures s in NonNull(subs) <==> s in subs
  {
    if |subs| > 0 {
      NonNullMembers(subs[..|subs| - 1], s);
      assert s in subs <==> s in subs[..|subs| - 1] || s == subs[|subs| - 1];
    }
  }

  lemma NoneLive(n: nat)
    ensures NonNull(seq(n, _ => null)) == []
  {
    if n > 0 {
      var subs: seq<SubSocket?> := seq(n, _ => null);
      assert subs[..n - 1] == seq(n - 1, _ => null);
      NoneLive(n - 1);
    }
  }

  ghost predicate Differ(subs: seq<SubSocket?>) {
    forall i, j :: 0 <= i < j < |subs| && subs[i] != null ==> subs[i] != subs[j]
  }

  /**
   A pair has a subscriber socket exactly when it has clients; the map's keys are exactly these sockets, each mapped to
   its own pair's publisher; the poller has exactly these sockets; and they are exactly the sockets not destroyed.
   */
  ghost predicate Consistent(subs: seq<SubSocket?>, clients: seq<int>, pubs: seq<PubSocket>,
                             sub2pub: map<SubSocket, PubSocket>, poller: seq<SubSocket>, alive: set<SubSocket>, events: seq<Event>)
  {
    && |subs| == |clients| == |pubs| && Differ(subs)
    && (forall i :: 0 <= i < |subs| ==> clients[i] == Count(events, i) >= 0 && (subs[i] != null <==> clients[i] >= 1))
    && (forall i :: 0 <= i < |subs| && subs[i] != null ==> subs[i] in sub2pub && sub2pub[subs[i]] == pubs[i])
    && (forall s :: s in sub2pub ==> s in subs)
    && poller == NonNull(subs)
    && alive == sub2pub.Keys
  }

  function Shift(e: Event, i: nat, count: int): int {
    match e
    case Accepted(p) => if p == i then 1 else 0
    case Disconnected(p) => if p == i && count > 0 then -1 else 0
  }

  lemma CountsAfter(events: seq<Event>, e: Event)
    ensures forall i: nat :: Count(events + [e], i) == Count(events, i) + Shift(e, i, Count(events, i))
  {
    forall i: nat ensures Count(events + [e], i) == Count(events, i) + Shift(e, i, Count(events, i)) {
      assert (events + [e])[..|events|] == events;
    }
  }

  lemma FirstClient(subs: seq<SubSocket?>, clients: seq<int>, pubs: seq<PubSocket>, m: map<SubSocket, PubSocket>,
                    poller: seq<SubSocket>, alive: set<SubSocket>, events: seq<Event>, i: nat, s: SubSocket)
    requires Consistent(subs, clients, pubs, m, poller, alive, events) && i < |subs| && clients[i] == 0 && s !in m
    ensures Consistent(subs[i := s], clients[i := 1], pubs, m[s := pubs[i]], NonNull(subs[i := s]), alive + {s}, events + [Accepted(i)])
  {
    CountsAfter(events, Accepted(i));
    hide Count, NonNull;
    var now := subs[i := s];
    assert now[i] == s;
    forall k | k in m ensures k in now {
      var j :| 0 <= j < |subs| && subs[j] == k;
      assert now[j] == k;
    }
  }

  lemma AnotherClient(subs: seq<SubSocket?>, clients: seq<int>, pubs: seq<PubSocket>, m: map<SubSocket, PubSocket>,
                      poller: seq<SubSocket>, alive: set<SubSocket>, events: seq<Event>, i: nat)
    requires Consistent(subs, clients, pubs, m, poller, alive, events) && i < |subs| && clients[i] >= 1
    ensures Consistent(subs, clients[i := clients[i] + 1], pubs, m, poller, alive, events + [Accepted(i)])
  {
    CountsAfter(events, Accepted(i));
    hide Count, NonNull;
  }

  lemma ClientLeaves(subs: seq<SubSocket?>, clients: seq<int>, pubs: seq<PubSocket>, m: map<SubSocket, PubSocket>,
                     poller: seq<SubSocket>, alive: set<SubSocket>, events: seq<Event>, i: nat)
    requires Consistent(subs, clients, pubs, m, poller, alive, events) && i < |subs| && clients[i] > 1
    ensures Consistent(subs, clients[i := clients[i] - 1], pubs, m, poller, alive, events + [Disconnected(i)])
  {
    CountsAfter(events, Disconnected(i));
    hide Count, NonNull;
  }

  function Unmapped(m: map<SubSocket, PubSocket>, s: SubSocket?): map<SubSocket, PubSocket> {
    map k | k in m && k != s :: m[k]
  }

  ghost function Destroyed(alive: set<SubSocket>, s: SubSocket?): set<SubSocket> {
    set k | k in alive && k != s
  }

  lemma LastClientLeaves(subs: seq<SubSocket?>, clients: seq<int>, pubs: seq<PubSocket>, m: map<SubSocket, PubSocket>,
                         poller: seq<SubSocket>, alive: set<SubSocket>, events: seq<Event>, i: nat)
    requires Consistent(subs, clients, pubs, m, poller, alive, events) && i < |subs| && clients[i] <= 1
    ensures Consistent(subs[i := null], clients[i := 0], pubs, Unmapped(m, subs[i]), NonNull(subs[i := null]),
                       Destroyed(alive, subs[i]), events + [Disconnected(i)])
  {
    CountsAfter(events, Disconnected(i));
    hide Count, NonNull;
    var now := subs[i := null];
    forall k | k in m && k != subs[i] ensures k in now {
      var j :| 0 <= j < |subs| && subs[j] == k;
      assert now[j] == k;
    }
  }

  // ---------------------------------------------------------------- the bridge

  class MsgqToZmq {
    const pairs: seq<SocketPair>
    var sub2pub: map<SubSocket, PubSocket>
    var poller: seq<SubSocket>
    /** Sockets created and not yet destroyed, and the events handled so far. */
    ghost var alive: set<SubSocket>
    ghost var events: seq<Event>

    ghost function Subs(): seq<SubSocket?>
      reads pairs
    {
      seq(|pairs|, i requires 0 <= i < |pairs| reads pairs => pairs[i].sub)
    }

    ghost function Clients(): seq<int>
      reads pairs
    {
      seq(|pairs|, i requires 0 <= i < |pairs| reads pairs => pairs[i].clients)
    }

    ghost function Pubs(): seq<PubSocket> {
      seq(|pairs|, i requires 0 <= i < |pairs| => pairs[i].pub)
    }

    ghost predicate Distinct() {
      forall i, j :: 0 <= i < j < |pairs| ==> pairs[i] != pairs[j] && pairs[i].pub != pairs[j].pub
    }

    /** What holds whenever the lock is free. */
    ghost predicate Valid()
      reads this, pairs
    {
      Distinct() && Consistent(Subs(), Clients(), Pubs(), sub2pub, poller, alive, events)
    }

    constructor (publishers: seq<PubSocket>)
      requires forall i, j :: 0 <= i < j < |publishers| ==> publishers[i] != publishers[j]
      ensures Valid() && Pubs() == publishers && events == [] && forall i :: 0 <= i < |pairs| ==> fresh(pairs[i])
    {
      var made: seq<SocketPair> := [];
      for i := 0 to |publishers|
        invariant |made| == i
        invariant forall k :: 0 <= k < i ==> fresh(made[k]) && made[k].pub == publishers[k] && made[k].sub == null && made[k].clients == 0
        invariant forall j, k :: 0 <= j < k < i ==> made[j] != made[k]
      {
        var p := new SocketPair(publishers[i]);
        made := made + [p];
      }
      pairs := made;
      sub2pub := map[];
      poller := [];
      alive := {};
      events := [];
      new;
      NoneLive(|pairs|);
      assert Subs() == seq(|pairs|, _ => null);
      assert Pubs() == publishers;
    }

    method RegisterSockets()
      modifies this`poller
      ensures poller == NonNull(Subs())
    {
      ghost var subs := Subs();
      poller := [];
      for i := 0 to |pairs|
        invariant poller == NonNull(subs[..i])
      {
        assert subs[..i + 1][..i] == subs[..i];
        if pairs[i].sub != null {
          poller := poller + [pairs[i].sub];
        }
      }
      assert subs[..|pairs|] == subs;
    }

    lemma ClientsMatch(i: nat)
      requires Valid() && i < |pairs|
      ensures pairs[i].clients >= 0 && (pairs[i].sub != null <==> pairs[i].clients >= 1)
    {
      assert Subs()[i] == pairs[i].sub && Clients()[i] == pairs[i].clients;
    }

    /** A socket for the pair, mapped to its publisher and registered. */
    method Connect(i: nat) returns (sub: SubSocket)
      requires i < |pairs| && Distinct()
      modifies this`sub2pub, this`poller, this`alive, pairs[i]
      ensures fresh(sub) && Subs() == old(Subs())[i := sub] && Clients() == old(Clients())
      ensures sub2pub == old(sub2pub)[sub := Pubs()[i]] && alive == old(alive) + {sub} && poller == NonNull(Subs())
    {
      sub := new SubSocket();
      pairs[i].sub := sub;
      sub2pub := sub2pub[sub := pairs[i].pub];
      alive := alive + {sub};
      RegisterSockets();
    }

    /** The pair's socket, if any, unmapped and destroyed. */
    method Disconnect(i: nat)
      requires i < |pairs| && Distinct()
      modifies this`sub2pub, this`poller, this`alive, pairs[i]
      ensures Subs() == old(Subs())[i := null] && Clients() == old(Clients())
      ensures sub2pub == Unmapped(old(sub2pub), old(pairs[i].sub)) && alive == Destroyed(old(alive), old(pairs[i].sub))
      ensures poller == NonNull(Subs())
    {
      var sub := pairs[i].sub;
      sub2pub := Unmapped(sub2pub, sub);
      alive := Destroyed(alive, sub);
      pairs[i].sub := null;
      RegisterSockets();
    }

    method SetClients(i: nat, n: int)
      requires i < |pairs| && Distinct()
      modifies pairs[i]
      ensures Clients() == old(Clients())[i := n] && Subs() == old(Subs()) && pairs[i].clients == n
    {
      pairs[i].clients := n;
    }

    /** ZMQ_EVENT_ACCEPTED on the monitor of pair `i`. */
    method HandleAccepted(i: nat)
      requires Valid() && i < |pairs|
      modifies this, pairs[i]
      ensures Valid() && events == old(events) + [Accepted(i)]
      ensures Clients() == old(Clients())[i := old(Clients())[i] + 1]
      ensures i < |Subs()| == |old(Subs())| && (old(Clients())[i] == 0 ==> Subs()[i] != null && fresh(Subs()[i]))
      ensures Subs() == if old(Clients())[i] == 0 then old(Subs())[i := Subs()[i]] else old(Subs())
    {
      hide Consistent, NonNull, Count, Subs, Clients, Pubs, Unmapped, Destroyed;
      ghost var (subs, clients) := (Subs(), Clients());
      Lengths();
      AtIndex(i);
      SetClients(i, pairs[i].clients + 1);
      if pairs[i].clients == 1 {
        var sub := Connect(i);
        FirstClient(subs, clients, Pubs(), old(sub2pub), old(poller), old(alive), events, i, sub);
      } else {
        AnotherClient(subs, clients, Pubs(), sub2pub, poller, alive, events, i);
      }
      events := events + [Accepted(i)];
    }

    lemma Lengths()
      ensures |Subs()| == |Clients()| == |Pubs()| == |pairs|
    {
    }

    lemma AtIndex(i: nat)
      requires Valid() && i < |pairs|
      ensures |Clients()| == |pairs| && Clients()[i] == pairs[i].clients >= 0
    {
      ClientsMatch(i);
    }

    /** ZMQ_EVENT_DISCONNECTED on the monitor of pair `i`. */
    method HandleDisconnected(i: nat)
      requires Valid() && i < |pairs|
      modifies this, pairs[i]
      ensures Valid() && events == old(events) + [Disconnected(i)]
      ensures Clients() == old(Clients())[i := if old(Clients())[i] > 0 then old(Clients())[i] - 1 else 0]
      ensures |Subs()| == |old(Subs())| && Subs() == if old(Clients())[i] <= 1 then old(Subs())[i := null] else old(Subs())
    {
      hide Consistent, NonNull, Count, Subs, Clients, Pubs, Unmapped, Destroyed;
      ghost var (subs, clients) := (Subs(), Clients());
      Lengths();
      AtIndex(i);
      if pairs[i].clients > 0 {
        SetClients(i, pairs[i].clients - 1);
      } else {
        SetClients(i, 0);
      }
      if pairs[i].clients == 0 {
        SubAt(i, subs);
        Disconnect(i);
        LastClientLeaves(subs, clients, Pubs(), old(sub2pub), old(poller), old(alive), events, i);
      } else {
        ClientLeaves(subs, clients, Pubs(), sub2pub, poller, alive, events, i);
      }
      events := events + [Disconnected(i)];
    }

    lemma SubAt(i: nat, subs: seq<SubSocket?>)
      requires i < |pairs| && subs == Subs()
      ensures i < |subs| && subs[i] == pairs[i].sub
    {
    }

    /** Up to 50 messages from a socket to its publisher. */
    method Forward(sub: SubSocket, pub: PubSocket)
      modifies sub, pub
      ensures pub.sent == old(pub.sent) + Through(pub.refuses, old(pub.settled), Take(old(sub.pending)))
      ensures sub.pending == Rest(old(sub.pending))
    {
      var i := 0;
      while i < MAX_MESSAGES_PER_SOCKET && |sub.pending| > 0
        invariant i <= MAX_MESSAGES_PER_SOCKET && i <= |old(sub.pending)|
        invariant sub.pending == old(sub.pending)[i..]
        invariant pub.settled == old(pub.settled) + i
        invariant pub.sent == old(pub.sent) + Through(pub.refuses, old(pub.settled), old(sub.pending)[..i])
      {
        var msg := sub.pending[0];
        sub.pending := sub.pending[1..];
        pub.Settle(msg);
        i := i + 1;
        assert old(sub.pending)[..i][..i - 1] == old(sub.pending)[..i - 1];
      }
      assert old(sub.pending)[..i] == Take(old(sub.pending));
    }

    lemma OwnerOf(sub: SubSocket) returns (i: nat)
      requires Valid() && sub in poller
      ensures sub in sub2pub && sub in alive
      ensures i < |pairs| && pairs[i].sub == sub && sub2pub[sub] == pairs[i].pub
      ensures forall j :: 0 <= j < |pairs| && j != i ==> pairs[j].sub != sub && pairs[j].pub != pairs[i].pub
    {
      NonNullMembers(Subs(), sub);
      hide Count, NonNull;
      i :| 0 <= i < |Subs()| && Subs()[i] == sub;
      assert Pubs()[i] == pairs[i].pub;
      forall j | 0 <= j < |pairs| && j != i ensures pairs[j].sub != sub && pairs[j].pub != pairs[i].pub {
        assert Subs()[j] == pairs[j].sub;
      }
    }

    /**
     One round of the main loop over the sockets the poller reports: each is in the map, is alive, and its messages go
     to the publisher of its own pair.
     */
    method PollOnce(ready: seq<SubSocket>)
      requires Valid() && (forall k :: 0 <= k < |ready| ==> ready[k] in poller)
      requires forall j, k :: 0 <= j < k < |ready| ==> ready[j] != ready[k]
      modifies ready, set k | 0 <= k < |pairs| :: pairs[k].pub
      ensures Valid()
      ensures forall i :: 0 <= i < |pairs| ==>
        pairs[i].pub.sent == old(pairs[i].pub.sent)
          + Through(pairs[i].pub.refuses, old(pairs[i].pub.settled), Delivered(ready, pairs[i].sub, old(PendingOf(pairs[i].sub))))
      ensures forall k :: 0 <= k < |ready| ==> ready[k].pending == Rest(old(ready[k].pending))
    {
      hide Consistent, NonNull, Count, Delivered, Subs, Clients, Pubs, Through, Take, Rest;
      NothingYet(ready);
      for k := 0 to |ready|
        invariant forall j :: k <= j < |ready| ==> ready[j].pending == old(ready[j].pending)
        invariant forall j :: 0 <= j < k ==> ready[j].pending == Rest(old(ready[j].pending))
        invariant forall i :: 0 <= i < |pairs| ==>
          pairs[i].pub.sent == old(pairs[i].pub.sent)
            + Through(pairs[i].pub.refuses, old(pairs[i].pub.settled), Delivered(ready[..k], pairs[i].sub, old(PendingOf(pairs[i].sub))))
        invariant forall i :: 0 <= i < |pairs| && pairs[i].sub !in ready[..k] ==> pairs[i].pub.settled == old(pairs[i].pub.settled)
      {
        var sub := ready[k];
        ghost var own := OwnerOf(sub);
        DeliveredStep(ready, k);
        Forward(sub, sub2pub[sub]);
      }
      assert ready[..|ready|] == ready;
    }

    ghost function PendingOf(sub: SubSocket?): seq<Message>
      reads sub
    {
      if sub == null then [] else sub.pending
    }
  }

  function Take(pending: seq<Message>): seq<Message> {
    if |pending| < MAX_MESSAGES_PER_SOCKET then pending else pending[..MAX_MESSAGES_PER_SOCKET]
  }

  /** At most 50 are taken, all of them if there are no more, from the front; the others wait. */
  lemma TakesUpToFifty(pending: seq<Message>)
    ensures |Take(pending)| == (if |pending| < 50 then |pending| else 50) && Take(pending) + Rest(pending) == pending
  {
  }

  function Rest(pending: seq<Message>): seq<Message> {
    pending[|Take(pending)|..]
  }

  /** The messages that a round over `ready` takes from a socket. */
  function Delivered(ready: seq<SubSocket>, sub: SubSocket?, pending: seq<Message>): seq<Message> {
    if sub == null || sub !in ready then [] else Take(pending)
  }

  lemma NothingYet(ready: seq<SubSocket>)
    ensures forall s, p :: Delivered(ready[..0], s, p) == []
    ensures forall f: nat -> bool, n: nat :: Through(f, n, []) == []
  {
  }

  lemma DeliveredStep(ready: seq<SubSocket>, k: nat)
    requires k < |ready| && forall i, j :: 0 <= i < j < |ready| ==> ready[i] != ready[j]
    ensures forall s, p :: s != ready[k] ==> Delivered(ready[..k + 1], s, p) == Delivered(ready[..k], s, p)
    ensures forall p :: Delivered(ready[..k], ready[k], p) == [] && Delivered(ready[..k + 1], ready[k], p) == Take(p)
  {
    assert ready[..k + 1] == ready[..k] + [ready[k]];
  }
}
