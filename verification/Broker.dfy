/** The broker's side of flattening: net positions, moved at once by every market order that lands. */
module Broker {
  import opened Trading

  /** What one placement call comes to. A call can raise although its order landed. */
  datatype Outcome = Accepted | Rejected | LandedAnyway

  datatype Sent = Sent(key: Key, side: Side, quantity: int, landed: bool)

  function Held(net: map<Key, int>, k: Key): int { if k in net then net[k] else 0 }

  function After(net: map<Key, int>, o: Sent): map<Key, int> {
    if o.landed then net[o.key := Held(net, o.key) + Signed(o.side, o.quantity)] else net
  }

  function AfterAll(net: map<Key, int>, log: seq<Sent>): map<Key, int> {
    if log == [] then net else After(AfterAll(net, log[..|log| - 1]), log[|log| - 1])
  }

  /** `b` is `a` or nearer to zero, on the same side of it. */
  predicate Toward(a: int, b: int) { 0 <= b <= a || a <= b <= 0 }

  /** How much of an instrument has been traded. */
  function Traded(log: seq<Sent>, k: Key): int {
    if log == [] then 0
    else Traded(log[..|log| - 1], k) + (var o := log[|log| - 1]; if o.landed && o.key == k then o.quantity else 0)
  }

  lemma LogMore(net: map<Key, int>, log: seq<Sent>, o: Sent, k: Key)
    ensures AfterAll(net, log + [o]) == After(AfterAll(net, log), o)
    ensures Traded(log + [o], k) == Traded(log, k) + if o.landed && o.key == k then o.quantity else 0
  {
  }

  class Account {
    var net: map<Key, int>
    var log: seq<Sent>

    constructor (net: map<Key, int>)
      ensures this.net == net && log == []
    {
      this.net, log := net, [];
    }

    /** True unless the call raised. */
    method PlaceMarketOrder(key: Key, side: Side, quantity: int, outcome: Outcome) returns (ok: bool)
      modifies this
      ensures ok <==> outcome.Accepted?
      ensures log == old(log) + [Sent(key, side, quantity, !outcome.Rejected?)]
      ensures net == After(old(net), Sent(key, side, quantity, !outcome.Rejected?))
    {
      var landed := !outcome.Rejected?;
      if landed {
        var held := if key in net then net[key] else 0;
        net := net[key := if side == BUY then held + quantity else held - quantity];
      }
      log := log + [Sent(key, side, quantity, landed)];
      return outcome.Accepted?;
    }
  }
}
