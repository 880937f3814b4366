/** Change propagation through a bench: Listener.update_listeners calls every
    subscriber's listener_update in subscription order, Block.listener_update
    runs the block's process and then notifies the listeners of the stream it
    returned, and Streams.listener_update re-notifies the group's listeners.
    Everything happens synchronously, depth first, and nothing on the way
    catches an exception: a process that raises ends its own listener_update
    and every loop and listener_update that encloses it.

    The heap of streams, groups and blocks is abstracted to a table of nodes
    keyed by identity; a block's process is recorded in a trace rather than
    computed, and whether it raises is a flag of the block. A rank that
    strictly decreases along every subscription stands for the acyclic wiring
    the source relies on: a cycle would recurse until Python's recursion
    limit. */
module Propagation {

  /** The identity of a stream, parameter, group or block. */
  type Id = nat

  /** A node of the bench: a notifier that is never itself notified (a Stream
      or a Parameter), a Streams group (notified by its members, notifying its
      own listeners), or a block with its result stream and whether its
      process raises. */
  datatype Node = Source(listeners: seq<Id>) | Group(listeners: seq<Id>) | Block(result: Id, raises: bool)

  /** The nodes whose listener_update can be subscribed. */
  predicate IsListener(n: Node)
  {
    n.Group? || n.Block?
  }

  /** A block whose process raises. */
  predicate Raising(n: Node)
  {
    n.Block? && n.raises
  }

  /** Node a is wired consistently: its subscribers are listeners of lower
      rank, and a block's result is a stream of lower rank. */
  predicate NodeRanked(net: map<Id, Node>, rank: map<Id, nat>, a: Id)
    requires a in net && a in rank
  {
    match net[a]
    case Block(res, _) => res in net && net[res].Source? && res in rank && rank[res] < rank[a]
    case _ => forall l :: l in net[a].listeners ==> l in net && IsListener(net[l]) && l in rank && rank[l] < rank[a]
  }

  /** Every node is ranked and wired consistently. */
  predicate WellFormed(net: map<Id, Node>, rank: map<Id, nat>)
  {
    forall a :: a in net ==> a in rank && NodeRanked(net, rank, a)
  }

  /** What a notification does: the listener_update calls made, in order,
      and whether it ended in an exception. */
  datatype Run = Run(trace: seq<Id>, raised: bool)

  /** The calls made by x.update_listeners(). */
  function Notify(net: map<Id, Node>, rank: map<Id, nat>, x: Id): Run
    requires WellFormed(net, rank) && x in net && !net[x].Block?
    decreases rank[x], 1, 0
  {
    NotifyAll(net, rank, net[x].listeners, rank[x])
  }

  /** The calls made by looping over the subscribers ls, each of rank below
      bound: an exception in one subscriber leaves the loop. */
  function NotifyAll(net: map<Id, Node>, rank: map<Id, nat>, ls: seq<Id>, bound: nat): Run
    requires WellFormed(net, rank)
    requires forall l :: l in ls ==> l in net && IsListener(net[l]) && rank[l] < bound
    decreases bound, 0, |ls|
  {
    if ls == [] then Run([], false)
    else
      var head := Handle(net, rank, ls[0]);
      if head.raised then head
      else
        var rest := NotifyAll(net, rank, ls[1..], bound);
        Run(head.trace + rest.trace, rest.raised)
  }

  /** The calls made by l.listener_update(...): l itself (for a block, its
      process runs here), then, unless that process raised, the notification
      of the block's result stream, or of the group itself. */
  function Handle(net: map<Id, Node>, rank: map<Id, nat>, l: Id): Run
    requires WellFormed(net, rank) && l in net && IsListener(net[l])
    decreases rank[l], 2, 0
  {
    var inner := match net[l]
                 case Block(res, raises) => if raises then Run([], true) else Notify(net, rank, res)
                 case Group(_) => Notify(net, rank, l)
                 case Source(_) => Run([], false);
    Run([l] + inner.trace, inner.raised)
  }

  /* An independent description of who runs: the chains of subscriptions. */

  /** The listeners notified right after a's listener_update: the listeners
      of a block's result stream, or a group's own listeners. */
  function Subscribers(net: map<Id, Node>, a: Id): seq<Id>
    requires a in net
  {
    match net[a]
    case Block(res, _) => if res in net && !net[res].Block? then net[res].listeners else []
    case Group(ls) => ls
    case Source(_) => []
  }

  /** Each element of p is subscribed downstream of the one before it. */
  predicate Chain(net: map<Id, Node>, p: seq<Id>)
  {
    forall i :: 0 <= i < |p| - 1 ==> p[i] in net && p[i + 1] in Subscribers(net, p[i])
  }

  /** y lies on some chain of subscriptions starting at l. */
  ghost predicate Reaches(net: map<Id, Node>, l: Id, y: Id)
  {
    exists p :: |p| > 0 && p[0] == l && Chain(net, p) && p[|p| - 1] == y
  }

  /** No call in trace t is the process of a raising block. */
  predicate Clean(net: map<Id, Node>, t: seq<Id>)
  {
    forall k :: k in t && k in net ==> !Raising(net[k])
  }

  /** Appending one subscriber to a loop that has not raised appends that
      subscriber's calls, and its outcome. */
  lemma {:induction false} NotifyAllSnoc(net: map<Id, Node>, rank: map<Id, nat>, ls: seq<Id>, l: Id, bound: nat)
    requires WellFormed(net, rank)
    requires forall k :: k in ls ==> k in net && IsListener(net[k]) && rank[k] < bound
    requires l in net && IsListener(net[l]) && rank[l] < bound
    requires !NotifyAll(net, rank, ls, bound).raised
    ensures NotifyAll(net, rank, ls + [l], bound)
            == Run(NotifyAll(net, rank, ls, bound).trace + Handle(net, rank, l).trace, Handle(net, rank, l).raised)
  {
    var all := ls + [l];
    var last := Handle(net, rank, l);
    if ls == [] {
      assert all[0] == l && all[1..] == [];
      assert [] + last.trace == last.trace;
    } else {
      var rest := ls[1..];
      assert all[0] == ls[0] && all[1..] == rest + [l];
      assert forall k :: k in rest ==> k in ls;
      var head := Handle(net, rank, ls[0]);
      assert !head.raised;
      var before := NotifyAll(net, rank, rest, bound);
      assert NotifyAll(net, rank, ls, bound) == Run(head.trace + before.trace, before.raised);
      calc {
        NotifyAll(net, rank, all, bound);
        Run(head.trace + NotifyAll(net, rank, rest + [l], bound).trace, NotifyAll(net, rank, rest + [l], bound).raised);
        { NotifyAllSnoc(net, rank, rest, l, bound); }
        Run(head.trace + (before.trace + last.trace), last.raised);
        { assert head.trace + (before.trace + last.trace) == (head.trace + before.trace) + last.trace; }
        Run(NotifyAll(net, rank, ls, bound).trace + last.trace, last.raised);
      }
    }
  }

  /** Once the first j subscribers have raised, the loop's later subscribers
      never run. */
  lemma {:induction false} NotifyAllStops(net: map<Id, Node>, rank: map<Id, nat>, ls: seq<Id>, j: nat, bound: nat)
    requires WellFormed(net, rank)
    requires forall k :: k in ls ==> k in net && IsListener(net[k]) && rank[k] < bound
    requires 1 <= j <= |ls|
    requires forall k :: k in ls[..j] ==> k in ls
    requires NotifyAll(net, rank, ls[..j], bound).raised
    ensures NotifyAll(net, rank, ls, bound) == NotifyAll(net, rank, ls[..j], bound)
  {
    var pre := ls[..j];
    assert pre[0] == ls[0];
    var head := Handle(net, rank, ls[0]);
    if !head.raised {
      assert pre[1..] == ls[1..][..j - 1];
      assert forall k :: k in pre[1..] ==> k in pre;
      assert NotifyAll(net, rank, pre[1..], bound).raised;
      assert j > 1;
      assert forall k :: k in ls[1..] ==> k in ls;
      assert forall k :: k in ls[1..][..j - 1] ==> k in ls[1..];
      NotifyAllStops(net, rank, ls[1..], j - 1, bound);
    }
  }

  /** In a loop that does not raise, no subscriber raised, and every call of
      one of them occurs in the loop's calls. */
  lemma {:induction false} NotifyAllIncludes(net: map<Id, Node>, rank: map<Id, nat>, ls: seq<Id>, bound: nat, l: Id, y: Id)
    requires WellFormed(net, rank)
    requires forall k :: k in ls ==> k in net && IsListener(net[k]) && rank[k] < bound
    requires l in ls && !NotifyAll(net, rank, ls, bound).raised
    ensures !Handle(net, rank, l).raised
    ensures y in Handle(net, rank, l).trace ==> y in NotifyAll(net, rank, ls, bound).trace
  {
    assert !Handle(net, rank, ls[0]).raised;
    if ls[0] != l {
      NotifyAllIncludes(net, rank, ls[1..], bound, l, y);
    }
  }

  /** Soundness: whoever runs lies on a chain of subscriptions from l. */
  lemma {:induction false} HandleSound(net: map<Id, Node>, rank: map<Id, nat>, l: Id, y: Id)
    requires WellFormed(net, rank) && l in net && IsListener(net[l])
    requires y in Handle(net, rank, l).trace
    ensures Reaches(net, l, y)
    decreases rank[l], 2, 0
  {
    if y == l {
      assert Chain(net, [l]);
    } else {
      var z := if net[l].Block? then net[l].result else l;
      var inner := Notify(net, rank, z);
      assert Handle(net, rank, l).trace == [l] + inner.trace;
      assert y in inner.trace;
      var s, p := NotifyAllSound(net, rank, net[z].listeners, rank[z], y);
      ChainCons(net, l, p);
      assert ([l] + p)[|[l] + p| - 1] == y;
    }
  }

  /** A chain from one of l's subscribers extends to a chain from l. */
  lemma ChainCons(net: map<Id, Node>, l: Id, p: seq<Id>)
    requires l in net && |p| > 0 && p[0] in Subscribers(net, l) && Chain(net, p)
    ensures Chain(net, [l] + p)
  {
    var q := [l] + p;
    forall i | 0 <= i < |q| - 1
      ensures q[i] in net && q[i + 1] in Subscribers(net, q[i])
    {
      if i > 0 {
        assert q[i] == p[i - 1] && q[i + 1] == p[i];
      }
    }
  }

  /** The loop version of soundness, returning the subscriber and the chain. */
  lemma {:induction false} NotifyAllSound(net: map<Id, Node>, rank: map<Id, nat>, ls: seq<Id>, bound: nat, y: Id)
      returns (s: Id, p: seq<Id>)
    requires WellFormed(net, rank)
    requires forall k :: k in ls ==> k in net && IsListener(net[k]) && rank[k] < bound
    requires y in NotifyAll(net, rank, ls, bound).trace
    ensures s in ls && |p| > 0 && p[0] == s && Chain(net, p) && p[|p| - 1] == y
    decreases bound, 0, |ls|
  {
    if y in Handle(net, rank, ls[0]).trace {
      HandleSound(net, rank, ls[0], y);
      s := ls[0];
      p :| |p| > 0 && p[0] == s && Chain(net, p) && p[|p| - 1] == y;
    } else {
      s, p := NotifyAllSound(net, rank, ls[1..], bound, y);
    }
  }

  /** Completeness: when l's listener_update does not raise, every listener
      on a chain of subscriptions from l runs. */
  lemma {:induction false} HandleComplete(net: map<Id, Node>, rank: map<Id, nat>, p: seq<Id>)
    requires WellFormed(net, rank) && |p| > 0 && p[0] in net && IsListener(net[p[0]])
    requires Chain(net, p) && !Handle(net, rank, p[0]).raised
    ensures p[|p| - 1] in Handle(net, rank, p[0]).trace
    decreases |p|
  {
    if |p| > 1 {
      var l := p[0];
      var z := if net[l].Block? then net[l].result else l;
      assert p[1] in net[z].listeners;
      var q := p[1..];
      assert Chain(net, q) by {
        forall i | 0 <= i < |q| - 1
          ensures q[i] in net && q[i + 1] in Subscribers(net, q[i])
        {
          assert q[i] == p[i + 1] && q[i + 1] == p[i + 2];
        }
      }
      assert !NotifyAll(net, rank, net[z].listeners, rank[z]).raised;
      NotifyAllIncludes(net, rank, net[z].listeners, rank[z], p[1], p[|p| - 1]);
      HandleComplete(net, rank, q);
    }
  }

  /** The last call of trace t is the process of a raising block. */
  predicate EndsRaising(net: map<Id, Node>, t: seq<Id>)
  {
    |t| > 0 && t[|t| - 1] in net && Raising(net[t[|t| - 1]])
  }

  /** A listener_update raises exactly when one of the processes it ran is
      that of a raising block, and then that process is the last call. */
  lemma {:induction false} HandleRaised(net: map<Id, Node>, rank: map<Id, nat>, l: Id)
    requires WellFormed(net, rank) && l in net && IsListener(net[l])
    ensures Handle(net, rank, l).raised <==> !Clean(net, Handle(net, rank, l).trace)
    ensures Handle(net, rank, l).raised ==> EndsRaising(net, Handle(net, rank, l).trace)
    decreases rank[l], 2, 0
  {
    var h := Handle(net, rank, l);
    if Raising(net[l]) {
      assert h.trace == [l];
    } else {
      var z := if net[l].Block? then net[l].result else l;
      var inner := Notify(net, rank, z);
      assert h == Run([l] + inner.trace, inner.raised);
      NotifyAllRaised(net, rank, net[z].listeners, rank[z]);
      CleanPrepend(net, l, inner.trace);
      if inner.raised {
        EndsRaisingAppend(net, [l], inner.trace);
      }
    }
  }

  lemma {:induction false} NotifyAllRaised(net: map<Id, Node>, rank: map<Id, nat>, ls: seq<Id>, bound: nat)
    requires WellFormed(net, rank)
    requires forall k :: k in ls ==> k in net && IsListener(net[k]) && rank[k] < bound
    ensures NotifyAll(net, rank, ls, bound).raised <==> !Clean(net, NotifyAll(net, rank, ls, bound).trace)
    ensures NotifyAll(net, rank, ls, bound).raised ==> EndsRaising(net, NotifyAll(net, rank, ls, bound).trace)
    decreases bound, 0, |ls|
  {
    if ls != [] {
      var head := Handle(net, rank, ls[0]);
      HandleRaised(net, rank, ls[0]);
      if !head.raised {
        var rest := NotifyAll(net, rank, ls[1..], bound);
        NotifyAllRaised(net, rank, ls[1..], bound);
        CleanAppend(net, head.trace, rest.trace);
        if rest.raised {
          EndsRaisingAppend(net, head.trace, rest.trace);
        }
      }
    }
  }

  lemma EndsRaisingAppend(net: map<Id, Node>, s: seq<Id>, t: seq<Id>)
    requires EndsRaising(net, t)
    ensures EndsRaising(net, s + t)
  {
    assert (s + t)[|s + t| - 1] == t[|t| - 1];
  }

  /** The calls of a listener that is not a raising block are clean when the
      calls after it are. */
  lemma CleanPrepend(net: map<Id, Node>, l: Id, t: seq<Id>)
    requires l in net && !Raising(net[l])
    ensures Clean(net, [l] + t) <==> Clean(net, t)
  {
    assert forall k :: k in [l] + t <==> k == l || k in t;
  }

  lemma CleanAppend(net: map<Id, Node>, s: seq<Id>, t: seq<Id>)
    requires Clean(net, s)
    ensures Clean(net, s + t) <==> Clean(net, t)
  {
    assert forall k :: k in s + t <==> k in s || k in t;
  }

  /** Propagation reaches exactly the transitive subscribers: whoever runs
      during l's listener_update is downstream of l, and when it does not
      raise, everyone downstream of l has run before it returns. */
  lemma ListenerUpdateReaches(net: map<Id, Node>, rank: map<Id, nat>, l: Id, y: Id)
    requires WellFormed(net, rank) && l in net && IsListener(net[l])
    ensures y in Handle(net, rank, l).trace ==> Reaches(net, l, y)
    ensures !Handle(net, rank, l).raised ==> (y in Handle(net, rank, l).trace <==> Reaches(net, l, y))
  {
    if y in Handle(net, rank, l).trace {
      HandleSound(net, rank, l, y);
    }
    if Reaches(net, l, y) && !Handle(net, rank, l).raised {
      var p :| |p| > 0 && p[0] == l && Chain(net, p) && p[|p| - 1] == y;
      HandleComplete(net, rank, p);
    }
  }

  /** l's listener_update raises if and only if a raising block is downstream
      of l: either that block runs, or an earlier raise aborted the cascade. */
  lemma HandleRaisesIff(net: map<Id, Node>, rank: map<Id, nat>, l: Id)
    requires WellFormed(net, rank) && l in net && IsListener(net[l])
    ensures Handle(net, rank, l).raised <==> exists y :: Reaches(net, l, y) && y in net && Raising(net[y])
  {
    var h := Handle(net, rank, l);
    HandleRaised(net, rank, l);
    if h.raised {
      var y := h.trace[|h.trace| - 1];
      HandleSound(net, rank, l, y);
    }
    if exists y :: Reaches(net, l, y) && y in net && Raising(net[y]) {
      var y :| Reaches(net, l, y) && y in net && Raising(net[y]);
      ListenerUpdateReaches(net, rank, l, y);
    }
  }

  /** Notifying x runs only listeners downstream of one of x's subscribers,
      and when it does not raise it runs all of them. */
  lemma UpdateListenersReaches(net: map<Id, Node>, rank: map<Id, nat>, x: Id, y: Id)
    requires WellFormed(net, rank) && x in net && !net[x].Block?
    ensures y in Notify(net, rank, x).trace ==> exists l :: l in net[x].listeners && Reaches(net, l, y)
    ensures !Notify(net, rank, x).raised ==>
              (y in Notify(net, rank, x).trace <==> exists l :: l in net[x].listeners && Reaches(net, l, y))
  {
    assert NodeRanked(net, rank, x);
    if y in Notify(net, rank, x).trace {
      var s, p := NotifyAllSound(net, rank, net[x].listeners, rank[x], y);
      assert Reaches(net, s, y);
    }
    if !Notify(net, rank, x).raised && exists l :: l in net[x].listeners && Reaches(net, l, y) {
      var l :| l in net[x].listeners && Reaches(net, l, y);
      NotifyAllIncludes(net, rank, net[x].listeners, rank[x], l, y);
      ListenerUpdateReaches(net, rank, l, y);
    }
  }

  /** The calls made by the first i iterations of x's notification loop. */
  function Prefix(net: map<Id, Node>, rank: map<Id, nat>, x: Id, i: nat): Run
    requires WellFormed(net, rank) && x in net && !net[x].Block? && i <= |net[x].listeners|
  {
    var ls := net[x].listeners;
    assert NodeRanked(net, rank, x);
    assert forall k :: k in ls[..i] ==> k in ls;
    NotifyAll(net, rank, ls[..i], rank[x])
  }

  /** Iteration i of x's notification loop, when the earlier subscribers did
      not raise: its subscriber is a listener, and handling it extends the
      calls of the earlier ones. */
  lemma SubscriberStep(net: map<Id, Node>, rank: map<Id, nat>, x: Id, i: nat)
    requires WellFormed(net, rank) && x in net && !net[x].Block? && i < |net[x].listeners|
    requires !Prefix(net, rank, x, i).raised
    ensures var l := net[x].listeners[i]; l in net && IsListener(net[l])
    ensures Prefix(net, rank, x, i + 1)
            == Run(Prefix(net, rank, x, i).trace + Handle(net, rank, net[x].listeners[i]).trace,
                   Handle(net, rank, net[x].listeners[i]).raised)
  {
    var ls := net[x].listeners;
    var l := ls[i];
    assert NodeRanked(net, rank, x);
    assert forall k :: k in ls[..i] ==> k in ls;
    assert l in ls && ls[..i + 1] == ls[..i] + [l];
    NotifyAllSnoc(net, rank, ls[..i], l, rank[x]);
  }

  /** The end of x's notification loop: after the whole list, or after the
      first subscriber that raised. */
  lemma SubscriberExit(net: map<Id, Node>, rank: map<Id, nat>, x: Id, i: nat)
    requires WellFormed(net, rank) && x in net && !net[x].Block? && i <= |net[x].listeners|
    requires i == |net[x].listeners| || (i > 0 && Prefix(net, rank, x, i).raised)
    ensures Notify(net, rank, x) == Prefix(net, rank, x, i)
  {
    var ls := net[x].listeners;
    assert NodeRanked(net, rank, x);
    assert forall k :: k in ls[..i] ==> k in ls;
    if i == |ls| {
      assert ls[..i] == ls;
    } else {
      NotifyAllStops(net, rank, ls, i, rank[x]);
    }
  }

  /** The diamond A -> B, A -> C, B -> D, C -> D: stream A (0) feeds blocks
      B (1) and C (2), whose result streams 3 and 4 both feed block D (5),
      whose result stream is 6. Block B's process raises when bRaises holds. */
  function Diamond(bRaises: bool): map<Id, Node>
  {
    map a | 0 <= a < 7 :: [Source([1, 2]), Block(3, bRaises), Block(4, false), Source([5]), Source([5]),
                           Block(6, false), Source([])][a]
  }

  const DiamondRank: map<Id, nat> := map a | 0 <= a < 7 :: [4, 3, 3, 2, 2, 1, 0][a]

  /** The diamond is wired consistently. */
  lemma DiamondWellFormed(bRaises: bool)
    ensures WellFormed(Diamond(bRaises), DiamondRank)
  {
    forall a | a in Diamond(bRaises)
      ensures a in DiamondRank && NodeRanked(Diamond(bRaises), DiamondRank, a)
    {
      assert a in {0, 1, 2, 3, 4, 5, 6};
    }
  }

  /** D's listener_update runs D alone, and each of the streams 3 and 4
      notifies D once. */
  lemma DiamondJoin()
    requires WellFormed(Diamond(false), DiamondRank)
    ensures Handle(Diamond(false), DiamondRank, 5) == Run([5], false)
    ensures Notify(Diamond(false), DiamondRank, 3) == Run([5], false)
    ensures Notify(Diamond(false), DiamondRank, 4) == Run([5], false)
  {
    var net := Diamond(false);
    assert Notify(net, DiamondRank, 6) == Run([], false);
    assert NotifyAll(net, DiamondRank, [5][1..], 2) == Run([], false);
  }

  /** B runs and then D; C runs and then D. */
  lemma DiamondBranches()
    requires WellFormed(Diamond(false), DiamondRank)
    ensures Handle(Diamond(false), DiamondRank, 1) == Run([1, 5], false)
    ensures Handle(Diamond(false), DiamondRank, 2) == Run([2, 5], false)
  {
    DiamondJoin();
  }

  /** Notifying A runs B's cascade and then C's. */
  lemma DiamondTop()
    requires WellFormed(Diamond(false), DiamondRank)
    ensures Notify(Diamond(false), DiamondRank, 0) == Run([1, 5] + [2, 5], false)
  {
    var net := Diamond(false);
    DiamondBranches();
    assert net[0].listeners == [1, 2];
    assert [1, 2][1..] == [2];
    assert [2][1..] == [];
    assert NotifyAll(net, DiamondRank, [2], 4) == Run([2, 5] + [], false);
  }

  /** A trace [B, D, C, D] holds D exactly twice. */
  lemma CountInTrace(t: seq<Id>)
    requires t == [1, 5, 2, 5]
    ensures multiset(t)[5] == 2
  {
    assert t == [1] + [5] + [2] + [5];
  }

  /** With no process raising, one notification of A runs B, D, C, D: the
      join D runs once per path. */
  lemma DiamondRunsTwice()
    ensures WellFormed(Diamond(false), DiamondRank)
    ensures Notify(Diamond(false), DiamondRank, 0) == Run([1, 5, 2, 5], false)
    ensures multiset(Notify(Diamond(false), DiamondRank, 0).trace)[5] == 2
  {
    DiamondWellFormed(false);
    DiamondTop();
    assert [1, 5] + [2, 5] == [1, 5, 2, 5];
    CountInTrace([1, 5, 2, 5]);
  }

  /** When B's process raises, the notification of A ends there: C and D
      never run. */
  lemma DiamondAborts()
    ensures WellFormed(Diamond(true), DiamondRank)
    ensures Notify(Diamond(true), DiamondRank, 0) == Run([1], true)
  {
    DiamondWellFormed(true);
    var net := Diamond(true);
    assert net[0].listeners == [1, 2] && net[1] == Block(3, true);
    assert Handle(net, DiamondRank, 1) == Run([1], true);
  }

  /** The bench at run time: the wiring, and the trace of listener_update
      calls made so far (a block's process runs at its entry). */
  class Network {
    const net: map<Id, Node>
    const rank: map<Id, nat>
    var trace: seq<Id>

    constructor (net: map<Id, Node>, rank: map<Id, nat>)
      requires WellFormed(net, rank)
      ensures this.net == net && this.rank == rank && trace == []
    {
      this.net := net;
      this.rank := rank;
      trace := [];
    }

    /** Listener.update_listeners on notifier x: each subscriber's
        listener_update in turn, until one raises. */
    method UpdateListeners(x: Id) returns (raised: bool)
      requires WellFormed(net, rank) && x in net && !net[x].Block?
      modifies this`trace
      ensures trace == old(trace) + Notify(net, rank, x).trace
      ensures raised == Notify(net, rank, x).raised
      decreases rank[x], 1, 0
    {
      var ls := net[x].listeners;
      var i := 0;
      raised := false;
      while i < |ls| && !raised
        invariant 0 <= i <= |ls|
        invariant trace == old(trace) + Prefix(net, rank, x, i).trace
        invariant raised == Prefix(net, rank, x, i).raised
        invariant raised ==> i > 0
        decreases |ls| - i
      {
        SubscriberStep(net, rank, x, i);
        raised := ListenerUpdate(ls[i]);
        i := i + 1;
      }
      SubscriberExit(net, rank, x, i);
    }

    /** listener_update of a block (process, then notify the result stream,
        unless the process raised) or of a group (notify the group's
        listeners). */
    method ListenerUpdate(l: Id) returns (raised: bool)
      requires WellFormed(net, rank) && l in net && IsListener(net[l])
      modifies this`trace
      ensures trace == old(trace) + Handle(net, rank, l).trace
      ensures raised == Handle(net, rank, l).raised
      decreases rank[l], 2, 0
    {
      trace := trace + [l];
      match net[l] {
        case Block(res, raises) =>
          if raises {
            raised := true;
          } else {
            raised := UpdateListeners(res);
          }
        case Group(_) =>
          raised := UpdateListeners(l);
        case Source(_) =>
          raised := false;
      }
    }
  }
}
