/**
  The class of include/net/TcpServer.h: the name-keyed map of connections and the three
  methods that create and remove them, proved against ServerModel.
 */
module TcpServer {
  import opened FunctorQueue
  import opened ServerModel
  import C = ConnectionModel

  // ------------------------------------------------------------------ names

  const INT_MAX: nat := 2147483647
  // snprintf into char[64] keeps 63 characters.
  const NAME_ROOM: nat := 63

  function Digit(d: nat): char
    requires d < 10
  {
    "0123456789"[d]
  }

  /** What %d prints for a non-negative number. */
  function Decimal(n: nat): (s: string)
    ensures 1 <= |s| && (|s| == 1 <==> n < 10)
  {
    if n < 10 then [Digit(n)] else Decimal(n / 10) + [Digit(n % 10)]
  }

  function Truncated(s: string): string {
    if |s| <= NAME_ROOM then s else s[..NAME_ROOM]
  }

  function Suffix(ipPort: string, n: nat): string {
    Truncated("-" + ipPort + "#" + Decimal(n))
  }

  function Pow10(k: nat): nat { if k == 0 then 1 else 10 * Pow10(k - 1) }

  predicate IsDigit(c: char) { '0' <= c <= '9' }

  /** The number that a string of digits denotes. */
  function ValueOf(s: string): int {
    if s == [] then 0 else 10 * ValueOf(s[..|s| - 1]) + (s[|s| - 1] as int - '0' as int)
  }

  lemma DigitDenotes(d: nat)
    requires d < 10
    ensures IsDigit(Digit(d)) && Digit(d) as int - '0' as int == d && (Digit(d) == '0' <==> d == 0)
  {
  }

  /** Decimal writes the number in digits, with no zero in front of it. */
  lemma {:induction false} DecimalDenotes(n: nat)
    ensures ValueOf(Decimal(n)) == n && (forall c :: c in Decimal(n) ==> IsDigit(c))
    ensures 0 < n ==> Decimal(n)[0] != '0'
  {
    hide Digit;
    DigitDenotes(n % 10);
    if n < 10 {
      assert [Digit(n)][..0] == [];
    } else {
      DecimalDenotes(n / 10);
      assert Decimal(n)[..|Decimal(n)| - 1] == Decimal(n / 10);
    }
  }

  lemma DecimalInjective(a: nat, b: nat)
    requires Decimal(a) == Decimal(b)
    ensures a == b
  {
    DecimalDenotes(a);
    DecimalDenotes(b);
  }

  lemma {:induction false} DecimalLength(n: nat, k: nat)
    requires 1 <= k && Pow10(k - 1) <= n < Pow10(k)
    ensures |Decimal(n)| == k
    decreases k
  {
    if k > 1 {
      assert Pow10(k - 1) == 10 * Pow10(k - 2) && Pow10(k) == 10 * Pow10(k - 1);
      DecimalLength(n / 10, k - 1);
    }
  }

  lemma {:induction false} DecimalAtMost(n: nat, k: nat)
    requires 1 <= k && n < Pow10(k)
    ensures 1 <= |Decimal(n)| <= k
    decreases k
  {
    if n >= 10 {
      assert Pow10(1) == 10 * Pow10(0);
      assert 1 < k && Pow10(k) == 10 * Pow10(k - 1);
      DecimalAtMost(n / 10, k - 1);
    }
  }

  lemma TenDigits()
    ensures Pow10(10) == 10_000_000_000 && Pow10(9) == 1_000_000_000
  {
    assert Pow10(3) == 1000;
    assert Pow10(6) == 1_000_000;
    assert Pow10(9) == 1_000_000_000;
  }

  lemma SuffixUntruncated(ipPort: string, n: nat)
    requires |ipPort| <= 51 && n <= INT_MAX
    ensures Suffix(ipPort, n) == "-" + ipPort + "#" + Decimal(n)
  {
    TenDigits();
    DecimalAtMost(n, 10);
  }

  lemma SuffixInjective(ipPort: string, i: nat, j: nat)
    requires |ipPort| <= 51 && i <= INT_MAX && j <= INT_MAX && Suffix(ipPort, i) == Suffix(ipPort, j)
    ensures i == j
  {
    SuffixUntruncated(ipPort, i);
    SuffixUntruncated(ipPort, j);
    var head := "-" + ipPort + "#";
    assert (head + Decimal(i))[|head|..] == Decimal(i) && (head + Decimal(j))[|head|..] == Decimal(j);
    DecimalInjective(i, j);
  }

  lemma LastDigitCut(ipPort: string)
    requires 51 < |ipPort|
    ensures Suffix(ipPort, 1_000_000_000) == Suffix(ipPort, 1_000_000_001)
  {
    TenDigits();
    DecimalLength(1_000_000_000, 10);
    DecimalLength(1_000_000_001, 10);
    var a, b := Decimal(1_000_000_000), Decimal(1_000_000_001);
    assert a == Decimal(100_000_000) + [Digit(0)] && b == Decimal(100_000_000) + [Digit(1)];
    var head := "-" + ipPort + "#";
    assert forall k :: 0 <= k < NAME_ROOM ==> (head + a)[k] == (head + b)[k];
    assert (head + a)[..NAME_ROOM] == (head + b)[..NAME_ROOM];
  }

  /** Connection numbers give distinct names, over the whole range of int, exactly when
      the listening address is at most 51 characters; the longest IPv4 one is 21. */
  lemma NamesDistinctExactly(ipPort: string)
    ensures (forall i, j :: 1 <= i < j <= INT_MAX ==> Suffix(ipPort, i) != Suffix(ipPort, j)) <==> |ipPort| <= 51
  {
    if |ipPort| <= 51 {
      forall i, j | 1 <= i < j <= INT_MAX ensures Suffix(ipPort, i) != Suffix(ipPort, j) {
        if Suffix(ipPort, i) == Suffix(ipPort, j) { SuffixInjective(ipPort, i, j); }
      }
    } else {
      LastDigitCut(ipPort);
    }
  }

  // ------------------------------------------------------------------ class

  class TcpServer {
    const cfg: C.Config
    const name: string
    const ipPort: string
    var nextConnId: nat
    var connections: map<string, nat>  // name -> connection
    var peers: seq<Peer>               // the connection objects, in order of creation
    var loops: seq<Loop>               // the main loop, then the io loops

    function NameOf(id: nat): string { name + Suffix(ipPort, id + 1) }

    ghost predicate Valid()
      reads this
    {
      && WellFormed(View())
      && |ipPort| <= 51 && nextConnId == |peers| + 1 && nextConnId <= INT_MAX
      && (forall n :: n in connections ==> connections[n] < |peers| && n == NameOf(connections[n]))
    }

    ghost function View(): Server
      reads this
    {
      Server(loops, peers, connections.Values)
    }

    constructor (cfg: C.Config, name: string, ipPort: string, numLoops: nat)
      requires 1 <= numLoops && |ipPort| <= 51
      ensures Valid() && View() == Initial(numLoops) && connections == map[] && nextConnId == 1
      ensures this.cfg == cfg && this.name == name && this.ipPort == ipPort
    {
      this.cfg, this.name, this.ipPort := cfg, name, ipPort;
      nextConnId, connections, peers := 1, map[], [];
      loops := seq(numLoops, i => Loop(Polling, Queue([], [], [])));
    }

    lemma NamesOfIds(a: nat, b: nat)
      requires |ipPort| <= 51 && a < INT_MAX && b < INT_MAX && NameOf(a) == NameOf(b)
      ensures a == b
    {
      assert NameOf(a)[|name|..] == Suffix(ipPort, a + 1) && NameOf(b)[|name|..] == Suffix(ipPort, b + 1);
      SuffixInjective(ipPort, a + 1, b + 1);
    }

    lemma WithoutName(m: map<string, nat>, id: nat)
      requires |ipPort| <= 51 && id < INT_MAX && forall n :: n in m ==> m[n] < INT_MAX && n == NameOf(m[n])
      ensures (m - {NameOf(id)}).Values == m.Values - {id}
    {
      var r := m - {NameOf(id)};
      forall v | v in m.Values - {id} ensures v in r.Values {
        var n :| n in m && m[n] == v;
        if n == NameOf(id) { NamesOfIds(v, id); }
        assert r[n] == v;
      }
      forall v | v in r.Values ensures v in m.Values - {id} {
        var n :| n in r && r[n] == v;
        assert m[n] == v && n != NameOf(id);
      }
    }

    lemma WithNewName(m: map<string, nat>, id: nat)
      requires |ipPort| <= 51 && id < INT_MAX && forall n :: n in m ==> m[n] < id && n == NameOf(m[n])
      ensures NameOf(id) !in m && m[NameOf(id) := id].Values == m.Values + {id}
    {
      var r := m[NameOf(id) := id];
      if NameOf(id) in m { NamesOfIds(m[NameOf(id)], id); }
      assert r[NameOf(id)] == id;
      forall v | v in m.Values ensures v in r.Values {
        var n :| n in m && m[n] == v;
        assert r[n] == v;
      }
    }

    /** newConnection, with the loop getNextLoop chose: the name is new, so no entry of
        the map is overwritten. */
    method NewConnection(l: nat, fd: int, calls: seq<C.AppCall>) returns (connName: string)
      requires Valid() && l < |loops| && nextConnId < INT_MAX
      modifies this
      ensures Valid() && View() == ServerModel.NewConnection(cfg, old(View()), l, fd, calls)
      ensures connName !in old(connections) && connections == old(connections)[connName := old(|peers|)]
      ensures connName == name + ("-" + ipPort + "#" + Decimal(old(nextConnId))) && nextConnId == old(nextConnId) + 1
      ensures if l == MAIN then loops == old(loops) && peers[old(|peers|)].conn.ups == 1
              else loops[l].queue.pending == old(loops[l].queue.pending) + [Establish(old(|peers|))]
                   && peers[old(|peers|)].conn == C.NEW_CONN
    {
      var id := |peers|;
      connName := name + Suffix(ipPort, nextConnId);
      WithNewName(connections, id);
      nextConnId := nextConnId + 1;
      peers := peers + [Peer(l, fd, C.NEW_CONN, 0, 0, true, 0)];
      connections := connections[connName := id];
      SuffixUntruncated(ipPort, old(nextConnId));
      if l == MAIN {
        C.CallsAnnounceNothing(cfg, C.BroughtUp(C.NEW_CONN), calls);
        peers := peers[id := peers[id].(conn := C.ConnectEstablished(cfg, peers[id].conn, calls))];
      } else {
        QueueInLoop(l, Establish(id));
      }
    }

    method QueueInLoop(l: nat, f: Functor)
      requires l < |loops|
      modifies this`loops
      ensures View() == Push(old(View()), l, f) && loops[l].queue.pending == old(loops[l].queue.pending) + [f]
    {
      var q := loops[l].queue;
      loops := loops[l := loops[l].(queue := q.(pending := q.pending + [f]))];
    }

    /** The close callback of a connection, on its own loop. */
    method RemoveConnection(id: nat)
      requires Valid() && id < |peers|
      modifies this
      ensures Valid() && View() == ServerModel.RemoveConnection(old(View()), id)
      ensures loops[MAIN].queue.pending
              == old(loops[MAIN].queue.pending) + [if peers[id].loop == MAIN then Destroy(id) else RemoveInLoop(id)]
      ensures connections == if peers[id].loop == MAIN then old(connections) - {NameOf(id)} else old(connections)
    {
      if peers[id].loop == MAIN {
        RemoveConnectionInLoop(id);
      } else {
        QueueInLoop(MAIN, RemoveInLoop(id));
      }
    }

    /** Erases the entry of the connection's name, if it is still there, and queues its
        destruction on its own loop; a second removal finds nothing to erase. */
    method RemoveConnectionInLoop(id: nat)
      requires Valid() && id < |peers|
      modifies this
      ensures Valid() && View() == ServerModel.RemoveConnectionInLoop(old(View()), id)
      ensures connections == old(connections) - {NameOf(id)} && peers[id].loop == old(peers[id].loop)
      ensures loops[peers[id].loop].queue.pending == old(loops[peers[id].loop].queue.pending) + [Destroy(id)]
    {
      WithoutName(connections, id);
      connections := connections - {NameOf(id)};
      peers := peers[id := peers[id].(erases := peers[id].erases + 1)];
      QueueInLoop(peers[id].loop, Destroy(id));
    }
  }
}
