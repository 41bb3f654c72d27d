/** The application buffer: the linked queue between the network thread and mic_tcp_recv. */
module AppQueue {
  import opened Pdus
  import opened Systems

  class Entry {
    const bf: Payload
    var next: Entry?

    constructor (bf: Payload)
      ensures this.bf == bf && next == null
    {
      this.bf, next := bf, null;
    }
  }

  /** What happens while mic_tcp_recv waits, its lock released: the network thread inserts a payload,
      or the waiting thread runs again. */
  datatype QueueTurn = Arrive(bf: Payload) | Resume

  function Arrivals(turns: seq<QueueTurn>): seq<Payload> {
    if turns == [] then []
    else
      var t := turns[|turns| - 1];
      Arrivals(turns[..|turns| - 1]) + if t.Arrive? then [t.bf] else []
  }

  /** The global queue, guarded by a lock that makes each insertion and each removal one step. */
  class Queue {
    var first: Entry?
    var last: Entry?
    ghost var nodes: seq<Entry>
    ghost var Repr: set<Entry>
    ghost var entries: seq<Payload>

    /** The links lead through `nodes`, once each, and carry `entries`. */
    ghost predicate Valid()
      reads this, Repr
    {
      && |nodes| == |entries| && (forall n :: n in nodes ==> n in Repr)
      && (if nodes == [] then first == null
          else first == nodes[0] && last == nodes[|nodes| - 1] && last.next == null)
      && (forall i :: 0 <= i < |nodes| ==> nodes[i].bf == entries[i])
      && (forall i :: 0 <= i < |nodes| - 1 ==> nodes[i].next == nodes[i + 1])
      && (forall i, j :: 0 <= i < j < |nodes| ==> nodes[i] != nodes[j])
    }

    constructor ()
      ensures Valid() && entries == [] && fresh(Repr)
    {
      first, last := null, null;
      nodes, entries, Repr := [], [], {};
    }

    method Put(bf: Payload)
      requires Valid()
      modifies this, Repr
      ensures Valid() && fresh(Repr - old(Repr)) && entries == old(entries) + [bf]
    {
      var entry := new Entry(bf);
      if first == null {
        first := entry;
      } else {
        last.next := entry;
      }
      last := entry;
      nodes, entries, Repr := nodes + [entry], entries + [bf], Repr + {entry};
    }

    /** Removes the oldest entry and copies what fits of it. */
    method Take(max: nat) returns (size: nat, data: Payload)
      requires Valid() && entries != []
      modifies this
      ensures Valid() && fresh(Repr - old(Repr)) && old(entries) == [old(entries)[0]] + entries
      ensures Fits(data, old(entries)[0], max) && size == |data|
    {
      size := MinSize(|first.bf|, max);
      data := first.bf[..size];
      first := first.next;
      nodes, entries := nodes[1..], entries[1..];
      assert forall i :: 0 <= i < |nodes| ==> nodes[i] == old(nodes)[i + 1];
    }

    /** pthread_cond_wait: the lock is released until this thread runs again. */
    method Sleep(turns: seq<QueueTurn>, from: nat, ghost before: seq<Payload>) returns (used: nat, woken: bool)
      requires Valid() && from <= |turns| && entries == before + Arrivals(turns[..from])
      modifies this, Repr
      ensures Valid() && fresh(Repr - old(Repr)) && from <= used <= |turns|
      ensures entries == before + Arrivals(turns[..used])
      ensures if woken then from < used else used == |turns|
    {
      used, woken := from, false;
      while used < |turns| && !woken
        invariant Valid() && fresh(Repr - old(Repr)) && from <= used <= |turns| && (woken ==> from < used)
        invariant entries == before + Arrivals(turns[..used])
        decreases |turns| - used
      {
        assert turns[..used + 1][..used] == turns[..used];
        if turns[used].Arrive? {
          Put(turns[used].bf);
        } else {
          woken := true;
        }
        used := used + 1;
      }
    }

    /** For every schedule: waits until the queue is not empty, then removes the oldest entry, as one
        step of the system does. None when the schedule ends during the wait. */
    method Get(max: nat, turns: seq<QueueTurn>) returns (used: nat, data: Option<Payload>)
      requires Valid()
      modifies this, Repr
      ensures Valid() && fresh(Repr - old(Repr)) && used <= |turns|
      ensures old(entries) != [] ==> used == 0 && data.Some?
      ensures var all := old(entries) + Arrivals(turns[..used]);
        if data.None? then used == |turns| && entries == all
        else all != [] && all == [all[0]] + entries && Fits(data.value, all[0], max)
      ensures data.Some? ==> forall st: State :: st.server.buffer == old(entries) + Arrivals(turns[..used]) ==>
                                                   ApplyRecv(st, max) == Received(st, max, data.value, entries)
    {
      used, data := 0, None;
      while first == null
        invariant Valid() && fresh(Repr - old(Repr)) && used <= |turns| && data == None
        invariant entries == old(entries) + Arrivals(turns[..used])
        invariant old(entries) != [] ==> used == 0
        decreases |turns| - used
      {
        var woken;
        used, woken := Sleep(turns, used, old(entries));
        if !woken { return; }
      }
      ghost var oldest := entries[0];
      var size, cut := Take(max);
      FitsOnce(cut, oldest, max);
      data := Some(cut);
    }
  }

  /** st after a mic_tcp_recv that returned this and left this queue. */
  function Received(st: State, max: nat, data: Payload, queue: seq<Payload>): State {
    st.(server := st.server.(buffer := queue), log := st.log.(received := st.log.received + [Receipt(max, data)]))
  }
}
