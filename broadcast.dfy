/**
 * The viewer list of server/keydisp/src/main.rs. The broadcaster thread
 * writes each character it receives to every connected viewer and removes,
 * in the same pass (`drain_filter`), the viewers whose write failed; the
 * acceptor thread appends each new viewer. Whether a write succeeds is an
 * input: `writeOk[i]` is the outcome for the viewer at position `i`.
 */
module Broadcast {

  /** The elements of `cs` whose flag in `ok` equals `keep`, in their original order. */
  function Select<C>(cs: seq<C>, ok: seq<bool>, keep: bool): (r: seq<C>)
    requires |ok| == |cs|
    ensures |r| <= |cs|
    decreases |cs|
  {
    if cs == [] then []
    else
      var n := |cs| - 1;
      Select(cs[..n], ok[..n], keep) + (if ok[n] == keep then [cs[n]] else [])
  }

  /** The positions whose flag equals `keep`, in increasing order. */
  function Positions(ok: seq<bool>, keep: bool): (ps: seq<nat>)
    ensures forall j :: 0 <= j < |ps| ==> ps[j] < |ok|
    decreases |ok|
  {
    if ok == [] then []
    else
      var n := |ok| - 1;
      Positions(ok[..n], keep) + (if ok[n] == keep then [n] else [])
  }

  /** The selected elements are the elements at the selected positions. */
  lemma {:induction false} SelectAtPositions<C>(cs: seq<C>, ok: seq<bool>, keep: bool)
    requires |ok| == |cs|
    ensures |Select(cs, ok, keep)| == |Positions(ok, keep)|
    ensures forall j :: 0 <= j < |Positions(ok, keep)| ==> Select(cs, ok, keep)[j] == cs[Positions(ok, keep)[j]]
    decreases |cs|
  {
    if cs != [] {
      var n := |cs| - 1;
      SelectAtPositions(cs[..n], ok[..n], keep);
    }
  }

  /** Every selected position has the flag `keep`. */
  lemma {:induction false} PositionsSound(ok: seq<bool>, keep: bool)
    ensures forall j :: 0 <= j < |Positions(ok, keep)| ==> ok[Positions(ok, keep)[j]] == keep
    decreases |ok|
  {
    if ok != [] {
      var n := |ok| - 1;
      var prefix := ok[..n];
      PositionsSound(prefix, keep);
      var qs := Positions(prefix, keep);
      var ps := Positions(ok, keep);
      assert ps == qs + (if ok[n] == keep then [n] else []);
      forall j | 0 <= j < |ps|
        ensures ok[ps[j]] == keep
      {
        if j < |qs| {
          assert ps[j] == qs[j] && ok[qs[j]] == prefix[qs[j]];
        }
      }
    }
  }

  /** Every position with the flag `keep` is selected. */
  lemma {:induction false} PositionsComplete(ok: seq<bool>, keep: bool)
    ensures forall i :: 0 <= i < |ok| && ok[i] == keep ==> i in Positions(ok, keep)
    decreases |ok|
  {
    if ok != [] {
      var n := |ok| - 1;
      var prefix := ok[..n];
      PositionsComplete(prefix, keep);
      forall i | 0 <= i < |ok| && ok[i] == keep
        ensures i in Positions(ok, keep)
      {
        if i < n {
          assert prefix[i] == ok[i];
        }
      }
    }
  }

  /** The selected positions are strictly increasing: the selection keeps the original order. */
  lemma {:induction false} PositionsIncreasing(ok: seq<bool>, keep: bool)
    ensures forall j, k :: 0 <= j < k < |Positions(ok, keep)| ==> Positions(ok, keep)[j] < Positions(ok, keep)[k]
    decreases |ok|
  {
    if ok != [] {
      var n := |ok| - 1;
      PositionsIncreasing(ok[..n], keep);
      var qs := Positions(ok[..n], keep);
      assert Positions(ok, keep) == qs + (if ok[n] == keep then [n] else []);
      assert forall j :: 0 <= j < |qs| ==> qs[j] < n;
    }
  }

  /** Kept and removed elements together are exactly the original elements. */
  lemma {:induction false} SelectPartition<C>(cs: seq<C>, ok: seq<bool>)
    requires |ok| == |cs|
    ensures multiset(Select(cs, ok, true)) + multiset(Select(cs, ok, false)) == multiset(cs)
    decreases |cs|
  {
    if cs != [] {
      var n := |cs| - 1;
      var front, last := cs[..n], cs[n];
      SelectPartition(front, ok[..n]);
      assert cs == front + [last];
      var kept, gone := Select(front, ok[..n], true), Select(front, ok[..n], false);
      if ok[n] {
        assert Select(cs, ok, true) == kept + [last];
        assert Select(cs, ok, false) == gone;
      } else {
        assert Select(cs, ok, true) == kept;
        assert Select(cs, ok, false) == gone + [last];
      }
    }
  }

  /** When every write succeeds, nobody is removed. */
  lemma {:induction false} AllWritesSucceed<C>(cs: seq<C>, ok: seq<bool>)
    requires |ok| == |cs| && forall i :: 0 <= i < |ok| ==> ok[i]
    ensures Select(cs, ok, true) == cs && Select(cs, ok, false) == []
    decreases |cs|
  {
    if cs != [] {
      var n := |cs| - 1;
      AllWritesSucceed(cs[..n], ok[..n]);
      assert cs == cs[..n] + [cs[n]];
    }
  }

  /** The shared list of connected viewers. */
  class Broadcaster<C> {
    var clients: seq<C>

    constructor ()
      ensures clients == []
    {
      clients := [];
    }

    /** The acceptor: a new viewer joins at the end of the list. */
    method Accept(client: C)
      modifies this
      ensures clients == old(clients) + [client]
    {
      clients := clients + [client];
    }

    /**
     * One character from the channel: it is written, as a one-character
     * text message, to every viewer in list order, each exactly once; the
     * viewers whose write failed are removed and the rest stay in order.
     */
    method Deliver(c: char, writeOk: seq<bool>) returns (writes: seq<(C, string)>, removed: seq<C>)
      requires |writeOk| == |clients|
      modifies this
      ensures |writes| == |old(clients)|
      ensures forall i :: 0 <= i < |writes| ==> writes[i] == (old(clients)[i], [c])
      ensures clients == Select(old(clients), writeOk, true)
      ensures removed == Select(old(clients), writeOk, false)
    {
      var kept: seq<C> := [];
      writes, removed := [], [];
      for i := 0 to |clients|
        invariant |writes| == i
        invariant forall j :: 0 <= j < i ==> writes[j] == (clients[j], [c])
        invariant kept == Select(clients[..i], writeOk[..i], true)
        invariant removed == Select(clients[..i], writeOk[..i], false)
      {
        var client := clients[i];
        writes := writes + [(client, [c])];
        if !writeOk[i] {
          removed := removed + [client];
        } else {
          kept := kept + [client];
        }
        assert clients[..i + 1][..i] == clients[..i];
        assert writeOk[..i + 1][..i] == writeOk[..i];
      }
      assert clients[..|clients|] == clients;
      assert writeOk[..|writeOk|] == writeOk;
      clients := kept;
    }
  }

  /**
   * A viewer accepted after others is written to last, and survives the
   * pass exactly when its own write succeeds.
   */
  lemma AcceptedLast<C>(cs: seq<C>, client: C, ok: seq<bool>)
    requires |ok| == |cs| + 1
    ensures var kept := Select(cs + [client], ok, true);
            ok[|cs|] ==> kept != [] && kept[|kept| - 1] == client
    ensures Select(cs + [client], ok, true)
            == Select(cs, ok[..|cs|], true) + (if ok[|cs|] then [client] else [])
  {
    assert (cs + [client])[..|cs|] == cs;
  }
}
