/** Flattening positions from the broker's own book: freeze-sized slices, three attempts, each on
    freshly read quantities. */
module PositionFlatten {
  import opened Trading
  import opened Broker

  const MAX_ATTEMPTS := 3

  /** What the call runs into: an instrument's freeze quantity (none if its rules cannot be read), what
      each chunk of each attempt comes to, and whether the positions call after an attempt raises. */
  datatype Weather = Weather(freeze: Key -> Option<int>, outcome: (nat, Key, nat) -> Outcome, refreshRaises: nat -> bool)

  datatype Result = Result(success: bool, quantity: int, attempts: nat)

  // ---- slices ------------------------------------------------------------------------------------

  function Sum(xs: seq<int>): int { if xs == [] then 0 else Sum(xs[..|xs| - 1]) + xs[|xs| - 1] }

  function Repeat(x: int, n: nat): seq<int> { seq(n, _ => x) }

  lemma {:induction false} SumRepeat(x: int, n: nat)
    ensures Sum(Repeat(x, n)) == n * x
  {
    if n > 0 {
      assert Repeat(x, n)[..n - 1] == Repeat(x, n - 1);
      SumRepeat(x, n - 1);
      assert n * x == (n - 1) * x + x;
    }
  }

  lemma SumMore(xs: seq<int>, x: int)
    ensures Sum(xs + [x]) == Sum(xs) + x
  {
  }

  /** `_split_quantity`: positive slices of at most the slice size that sum to the quantity, all but the
      last of full size. */
  method SplitQuantity(quantity: int, slice: int) returns (slices: seq<int>)
    requires quantity >= 0
    ensures Sum(slices) == quantity
    ensures quantity > 0 ==> forall i :: 0 <= i < |slices| ==> 1 <= slices[i] <= Max(slice, 1)
    ensures forall i :: 0 <= i < |slices| - 1 ==> slices[i] == Max(slice, 1)
    ensures forall i :: 0 <= i < |slices| ==> slices[i] == Min(quantity - Sum(slices[..i]), Max(slice, 1))
    ensures |slices| > 0
  {
    var safe := Max(slice, 1);
    var whole, rest := quantity / safe, quantity % safe;
    Divided(quantity, safe);
    slices := Repeat(safe, whole);
    if rest != 0 {
      slices := slices + [rest];
    }
    if slices == [] {
      slices := [quantity];
      assert Sum([0]) == 0;
    } else {
      SlicesAdd(safe, whole, rest, slices);
    }
    AllFullButLast(slices, safe, quantity);
  }

  lemma Divided(quantity: int, safe: int)
    requires quantity >= 0 && safe >= 1
    ensures quantity / safe >= 0 && 0 <= quantity % safe < safe && quantity / safe * safe + quantity % safe == quantity
    ensures quantity / safe == 0 && quantity % safe == 0 ==> quantity == 0
  {
  }

  lemma SlicesAdd(safe: int, whole: nat, rest: int, slices: seq<int>)
    requires 0 <= rest < safe && slices == Repeat(safe, whole) + (if rest != 0 then [rest] else []) && slices != []
    ensures Sum(slices) == whole * safe + rest
    ensures (forall j :: 0 <= j < |slices| - 1 ==> slices[j] == safe) && 1 <= slices[|slices| - 1] <= safe
  {
    SumRepeat(safe, whole);
    if rest != 0 { SumMore(Repeat(safe, whole), rest); } else { assert slices == Repeat(safe, whole); }
  }

  lemma AllFullButLast(slices: seq<int>, full: int, quantity: int)
    requires slices != [] && Sum(slices) == quantity && full >= 1
    requires (forall j :: 0 <= j < |slices| - 1 ==> slices[j] == full) && 0 <= slices[|slices| - 1] <= full
    ensures forall i :: 0 <= i < |slices| ==> slices[i] == Min(quantity - Sum(slices[..i]), full)
  {
    forall i | 0 <= i < |slices| ensures slices[i] == Min(quantity - Sum(slices[..i]), full) { FullButLast(slices, full, quantity, i); }
  }

  /** A slice is all that is left, or a full one. */
  lemma FullButLast(slices: seq<int>, full: int, quantity: int, i: nat)
    requires i < |slices| && Sum(slices) == quantity && full >= 1
    requires (forall j :: 0 <= j < |slices| - 1 ==> slices[j] == full) && 0 <= slices[|slices| - 1] <= full
    ensures slices[i] == Min(quantity - Sum(slices[..i]), full)
  {
    if i < |slices| - 1 {
      assert slices[..i + 1][..i] == slices[..i];
      FullSums(slices, full, i + 1);
    }
  }

  lemma {:induction false} FullSums(slices: seq<int>, full: int, n: nat)
    requires n <= |slices| && full >= 1
    requires (forall j :: 0 <= j < |slices| - 1 ==> slices[j] == full) && (slices != [] ==> 0 <= slices[|slices| - 1] <= full)
    ensures Sum(slices[..n]) <= Sum(slices)
    decreases |slices|
  {
    if n < |slices| {
      var front := slices[..|slices| - 1];
      FullSums(front, full, n);
      assert front[..n] == slices[..n];
    } else {
      assert slices[..n] == slices;
    }
  }

  // ---- one position ------------------------------------------------------------------------------

  function ClosingSide(held: int): Side { if held > 0 then SELL else BUY }

  /** An order that closes some of a position, no larger than a slice. */
  predicate Closes(o: Sent, key: Key, held: int, slice: int) {
    o.key == key && o.side == ClosingSide(held) && 1 <= o.quantity <= Max(slice, 1)
  }

  /** The new orders only close `key`, the position only went toward zero, and by what was traded; no
      other position moved. */
  ghost predicate OnlyCloses(net: map<Key, int>, log: seq<Sent>, net': map<Key, int>, log': seq<Sent>, key: Key, slice: int) {
    && log <= log'
    && (forall i :: |log| <= i < |log'| ==> Closes(log'[i], key, Held(net, key), slice))
    && Toward(Held(net, key), Held(net', key))
    && Traded(log', key) - Traded(log, key) == Abs(Held(net, key)) - Abs(Held(net', key))
    && (forall k :: k != key ==> Held(net', k) == Held(net, k) && Traded(log', k) == Traded(log, k))
  }

  lemma OneMoreCloses(net: map<Key, int>, log: seq<Sent>, net1: map<Key, int>, log1: seq<Sent>, key: Key, slice: int, o: Sent)
    requires OnlyCloses(net, log, net1, log1, key, slice) && Closes(o, key, Held(net, key), slice)
    requires Held(net, key) != 0 && o.quantity <= Abs(Held(net1, key))
    ensures OnlyCloses(net, log, After(net1, o), log1 + [o], key, slice)
    ensures Abs(Held(After(net1, o), key)) == Abs(Held(net1, key)) - if o.landed then o.quantity else 0
  {
  }

  /** The order is for all that was left of the position then, up to `most`. */
  predicate TakesAllLeft(log: seq<Sent>, i: nat, key: Key, held: int, traded: int, most: int)
    requires i < |log|
  {
    log[i].quantity == Min(held - (Traded(log[..i], key) - traded), most)
  }

  /** Each new order of the position is. */
  ghost predicate TakesAllItCan(log: seq<Sent>, log': seq<Sent>, key: Key, held: int, most: int) {
    forall i :: |log| <= i < |log'| ==> TakesAllLeft(log', i, key, held, Traded(log, key), most)
  }

  lemma StillTakes(log: seq<Sent>, o: Sent, i: nat, key: Key, held: int, traded: int, most: int)
    requires i < |log|
    ensures TakesAllLeft(log + [o], i, key, held, traded, most) == TakesAllLeft(log, i, key, held, traded, most)
  {
    assert (log + [o])[..i] == log[..i];
  }

  lemma LastTakes(log: seq<Sent>, o: Sent, key: Key, held: int, traded: int, most: int)
    ensures TakesAllLeft(log + [o], |log|, key, held, traded, most) <==> o.quantity == Min(held - (Traded(log, key) - traded), most)
  {
    assert (log + [o])[..|log|] == log;
  }

  lemma OneMoreTakes(log: seq<Sent>, log1: seq<Sent>, key: Key, held: int, most: int, o: Sent)
    requires TakesAllItCan(log, log1, key, held, most) && o.quantity == Min(held - (Traded(log1, key) - Traded(log, key)), most)
    ensures TakesAllItCan(log, log1 + [o], key, held, most)
  {
    LastTakes(log1, o, key, held, Traded(log, key), most);
    forall i | |log| <= i < |log1| ensures TakesAllLeft(log1 + [o], i, key, held, Traded(log, key), most) {
      StillTakes(log1, o, i, key, held, Traded(log, key), most);
    }
  }

  /** Sends the chunks of one position until one raises. */
  method ClosePosition(account: Account, key: Key, quantity: int, slice: int, outcome: nat -> Outcome) returns (ok: bool)
    requires quantity == Held(account.net, key) != 0
    modifies account
    ensures OnlyCloses(old(account.net), old(account.log), account.net, account.log, key, slice)
    ensures ok ==> Held(account.net, key) == 0
    ensures (forall i :: outcome(i).Accepted?) ==> ok
    ensures TakesAllItCan(old(account.log), account.log, key, Abs(quantity), Max(slice, 1))
  {
    ghost var net0, log0 := account.net, account.log;
    var chunks := SplitQuantity(Abs(quantity), slice);
    for i := 0 to |chunks|
      invariant OnlyCloses(net0, log0, account.net, account.log, key, slice)
      invariant Abs(Held(account.net, key)) == Abs(quantity) - Sum(chunks[..i])
      invariant TakesAllItCan(log0, account.log, key, Abs(quantity), Max(slice, 1))
    {
      ghost var o := Broker.Sent(key, ClosingSide(quantity), chunks[i], !outcome(i).Rejected?);
      SumOfFirst(chunks, i, Max(slice, 1));
      OneMoreCloses(net0, log0, account.net, account.log, key, slice, o);
      OneMoreTakes(log0, account.log, key, Abs(quantity), Max(slice, 1), o);
      var sent := account.PlaceMarketOrder(key, if quantity > 0 then SELL else BUY, chunks[i], outcome(i));
      if !sent {
        return false;
      }
    }
    assert chunks[..|chunks|] == chunks;
    return true;
  }

  lemma SumOfFirst(xs: seq<int>, i: nat, most: int)
    requires i < |xs| && forall j :: 0 <= j < |xs| ==> 1 <= xs[j] <= most
    ensures Sum(xs[..i + 1]) == Sum(xs[..i]) + xs[i] <= Sum(xs)
  {
    assert xs[..i + 1][..i] == xs[..i];
    SumGrows(xs, i + 1, most);
  }

  lemma {:induction false} SumGrows(xs: seq<int>, i: nat, most: int)
    requires i <= |xs| && forall j :: 0 <= j < |xs| ==> 1 <= xs[j] <= most
    ensures Sum(xs[..i]) <= Sum(xs)
    decreases |xs|
  {
    if i < |xs| {
      SumGrows(xs[..|xs| - 1], i, most);
      assert xs[..|xs| - 1][..i] == xs[..i];
    } else {
      assert xs[..i] == xs;
    }
  }

  // ---- the whole flatten -----------------------------------------------------------------------------

  function SliceOf(w: Weather, key: Key, quantity: int): int {
    if w.freeze(key).Some? then Min(quantity, w.freeze(key).value) else quantity
  }

  /** A good order closes a position that was open at the start, in a slice of at most its freeze
      quantity and at most all of it. */
  predicate GoodOrder(o: Sent, net: map<Key, int>, w: Weather) {
    && Held(net, o.key) != 0 && o.side == ClosingSide(Held(net, o.key))
    && 1 <= o.quantity <= Abs(Held(net, o.key))
    && (w.freeze(o.key).Some? ==> o.quantity <= Max(w.freeze(o.key).value, 1))
  }

  /** Since the start, no position went through zero or grew, and each moved by what was traded. */
  predicate Safe(net: map<Key, int>, net': map<Key, int>, log: seq<Sent>, k: Key) {
    Toward(Held(net, k), Held(net', k)) && Traded(log, k) == Abs(Held(net, k)) - Abs(Held(net', k))
  }

  ghost predicate AllSafe(net: map<Key, int>, net': map<Key, int>, log: seq<Sent>, w: Weather) {
    && (forall k :: Safe(net, net', log, k))
    && (forall i :: 0 <= i < |log| ==> GoodOrder(log[i], net, w))
  }

  /** Every order is for all that is left of its position, up to its freeze quantity. */
  predicate ForAllThatIsLeft(log: seq<Sent>, i: nat, net: map<Key, int>, w: Weather)
    requires i < |log|
  {
    var left, freeze := Abs(Held(net, log[i].key)) - Traded(log[..i], log[i].key), w.freeze(log[i].key);
    log[i].quantity == if freeze.Some? then Min(left, Max(freeze.value, 1)) else left
  }

  ghost predicate Greedy(net: map<Key, int>, log: seq<Sent>, w: Weather) { forall i :: 0 <= i < |log| ==> ForAllThatIsLeft(log, i, net, w) }

  lemma ClosingIsGreedy(net: map<Key, int>, net1: map<Key, int>, log1: seq<Sent>, log2: seq<Sent>, key: Key, w: Weather)
    requires Greedy(net, log1, w) && Safe(net, net1, log1, key) && Held(net1, key) != 0 && log1 <= log2
    requires forall i :: |log1| <= i < |log2| ==> log2[i].key == key && log2[i].quantity >= 1
    requires TakesAllItCan(log1, log2, key, Abs(Held(net1, key)), Max(SliceOf(w, key, Abs(Held(net1, key))), 1))
    requires forall i :: |log1| <= i < |log2| ==> Traded(log2[..i], key) >= Traded(log1, key)
    ensures Greedy(net, log2, w)
  {
    forall i | 0 <= i < |log2| ensures ForAllThatIsLeft(log2, i, net, w) {
      if i < |log1| { EarlierStays(log1, log2, i, net, w); } else { LaterTakesAll(net, net1, log1, log2, key, w, i); }
    }
  }

  lemma EarlierStays(log1: seq<Sent>, log2: seq<Sent>, i: nat, net: map<Key, int>, w: Weather)
    requires i < |log1| && log1 <= log2 && ForAllThatIsLeft(log1, i, net, w)
    ensures ForAllThatIsLeft(log2, i, net, w)
  {
    assert log2[..i] == log1[..i] && log2[i] == log1[i];
  }

  lemma LaterTakesAll(net: map<Key, int>, net1: map<Key, int>, log1: seq<Sent>, log2: seq<Sent>, key: Key, w: Weather, i: nat)
    requires Safe(net, net1, log1, key) && Held(net1, key) != 0 && i < |log2| && log2[i].key == key && log2[i].quantity >= 1
    requires TakesAllLeft(log2, i, key, Abs(Held(net1, key)), Traded(log1, key), Max(SliceOf(w, key, Abs(Held(net1, key))), 1))
    requires Traded(log2[..i], key) >= Traded(log1, key)
    ensures ForAllThatIsLeft(log2, i, net, w)
  {
  }

  lemma {:induction false} TradedGrows(log: seq<Sent>, key: Key, a: nat, b: nat)
    requires a <= b <= |log| && forall i :: a <= i < |log| ==> log[i].quantity >= 0
    ensures Traded(log[..a], key) <= Traded(log[..b], key)
    decreases b
  {
    if a < b {
      TradedGrows(log, key, a, b - 1);
      assert log[..b][..b - 1] == log[..b - 1];
    }
  }

  lemma ClosingIsSafe(net: map<Key, int>, net1: map<Key, int>, log1: seq<Sent>, net2: map<Key, int>, log2: seq<Sent>, key: Key, w: Weather)
    requires AllSafe(net, net1, log1, w) && Held(net1, key) != 0
    requires OnlyCloses(net1, log1, net2, log2, key, SliceOf(w, key, Abs(Held(net1, key))))
    ensures AllSafe(net, net2, log2, w)
  {
    forall k ensures Safe(net, net2, log2, k) { assert Safe(net, net1, log1, k); }
    forall i | 0 <= i < |log2| ensures GoodOrder(log2[i], net, w) {
      assert Safe(net, net1, log1, key);
      if i < |log1| { assert log2[i] == log1[i]; } else { assert Closes(log2[i], key, Held(net1, key), SliceOf(w, key, Abs(Held(net1, key)))); }
    }
  }

  /** The positions to attempt are the broker's, and what is already answered is answered truly. */
  ghost predicate Pending(net: map<Key, int>, positions: map<Key, int>, results: map<Key, Result>, targets: set<Key>) {
    && positions.Keys <= targets && results.Keys <= targets
    && (forall k :: k in positions ==> positions[k] == Held(net, k) != 0)
    && (forall k :: k in targets ==> k in positions || k in results)
    && (forall k :: k in results && results[k].success && k !in positions ==> Held(net, k) == 0)
    && (forall k :: k in results && !results[k].success ==> k in positions)
  }

  /** No chunk of the position raises in the attempt. */
  ghost predicate KeyAccepted(w: Weather, attempt: nat, k: Key) { forall i :: w.outcome(attempt, k, i).Accepted? }

  /** Up to here no attempt would have gone through at these positions, and positions could be read again
      after each. */
  ghost predicate NoneWentThrough(w: Weather, keys: set<Key>, attempt: nat) {
    && (forall k, a :: k in keys && 1 <= a < attempt ==> !KeyAccepted(w, a, k))
    && (forall a :: 1 <= a < attempt ==> !w.refreshRaises(a))
  }

  ghost predicate AllAccepted(w: Weather, attempt: nat) { forall k, i :: w.outcome(attempt, k, i).Accepted? }

  /** The answers of an attempt that has been at every position but the ones `left`. */
  ghost predicate Answered(results: map<Key, Result>, given: map<Key, Result>, done: set<Key>, failed: set<Key>, original: map<Key, int>, attempt: nat)
    requires done <= original.Keys
  {
    && results.Keys == given.Keys + done
    && (forall k :: k in done ==> results[k] == Result(k !in failed, original[k], attempt))
    && (forall k :: k in given && k !in done ==> results[k] == given[k])
  }

  /** One attempt at one position. */
  method AttemptOne(account: Account, key: Key, quantity: int, attempt: nat, w: Weather, ghost net0: map<Key, int>) returns (ok: bool)
    requires AllSafe(net0, account.net, account.log, w) && Greedy(net0, account.log, w) && quantity == Held(account.net, key) != 0
    modifies account
    ensures AllSafe(net0, account.net, account.log, w) && Greedy(net0, account.log, w)
    ensures forall k :: k != key ==> Held(account.net, k) == Held(old(account.net), k)
    ensures ok ==> Held(account.net, key) == 0
    ensures KeyAccepted(w, attempt, key) ==> ok
  {
    var remaining := Abs(quantity);
    var slice := if w.freeze(key).Some? then Min(remaining, w.freeze(key).value) else remaining;
    ghost var net1, log1 := account.net, account.log;
    ok := ClosePosition(account, key, quantity, slice, (i: nat) => w.outcome(attempt, key, i));
    ClosingIsSafe(net0, net1, log1, account.net, account.log, key, w);
    CloseTakesAll(net0, net1, log1, account.net, account.log, key, w);
  }

  lemma CloseTakesAll(net: map<Key, int>, net1: map<Key, int>, log1: seq<Sent>, net2: map<Key, int>, log2: seq<Sent>, key: Key, w: Weather)
    requires AllSafe(net, net1, log1, w) && Greedy(net, log1, w) && Held(net1, key) != 0
    requires OnlyCloses(net1, log1, net2, log2, key, SliceOf(w, key, Abs(Held(net1, key))))
    requires TakesAllItCan(log1, log2, key, Abs(Held(net1, key)), Max(SliceOf(w, key, Abs(Held(net1, key))), 1))
    ensures Greedy(net, log2, w)
  {
    assert Safe(net, net1, log1, key);
    forall i | |log1| <= i < |log2| ensures Traded(log2[..i], key) >= Traded(log1, key) && log2[i].key == key && log2[i].quantity >= 1 {
      assert Closes(log2[i], key, Held(net1, key), SliceOf(w, key, Abs(Held(net1, key))));
      TradedGrows(log2, key, |log1|, i);
      assert log2[..|log1|] == log1;
    }
    ClosingIsGreedy(net, net1, log1, log2, key, w);
  }

  /** What is read again after an attempt: the failed positions still open, and the answers with those
      found flat turned into successes. */
  method Refresh(net: map<Key, int>, failed: set<Key>, results: map<Key, Result>, attempt: nat, ghost before: map<Key, int>, ghost targets: set<Key>)
    returns (positions: map<Key, int>, answers: map<Key, Result>)
    requires failed <= before.Keys <= targets && results.Keys == targets
    requires forall k :: k in results && k !in failed ==> results[k].success && Held(net, k) == 0
    ensures Pending(net, positions, answers, targets) && answers.Keys == targets
    ensures positions == map[] ==> forall k :: k in answers ==> answers[k].success && Held(net, k) == 0
    ensures positions.Keys <= failed
    ensures forall k :: k in results ==> answers[k].quantity == results[k].quantity
                                         && answers[k].attempts == if k in failed && k !in positions then attempt else results[k].attempts
  {
    positions := map k | k in net && k in failed && net[k] != 0 :: net[k];
    var closed := failed - positions.Keys;
    answers := map k | k in results :: if k in closed then results[k].(success := true, attempts := attempt) else results[k];
  }

  /** One attempt at every position still open. */
  method Attempt(account: Account, positions: map<Key, int>, attempt: nat, w: Weather, original: map<Key, int>,
                 given: map<Key, Result>, ghost net0: map<Key, int>, ghost targets: set<Key>)
    returns (results: map<Key, Result>, failed: set<Key>)
    requires AllSafe(net0, account.net, account.log, w) && Greedy(net0, account.log, w) && Pending(account.net, positions, given, targets) && original.Keys == targets
    modifies account
    ensures AllSafe(net0, account.net, account.log, w) && Greedy(net0, account.log, w)
    ensures failed <= positions.Keys && Answered(results, given, positions.Keys, failed, original, attempt)
    ensures forall k :: k !in positions ==> Held(account.net, k) == Held(old(account.net), k)
    ensures forall k :: k in positions && k !in failed ==> Held(account.net, k) == 0
    ensures forall k :: k in failed ==> !KeyAccepted(w, attempt, k)
  {
    results, failed := given, {};
    var left := positions.Keys;
    while left != {}
      invariant left <= positions.Keys && failed <= positions.Keys - left
      invariant AllSafe(net0, account.net, account.log, w) && Greedy(net0, account.log, w)
      invariant forall k :: k !in positions || k in left ==> Held(account.net, k) == Held(old(account.net), k)
      invariant Answered(results, given, positions.Keys - left, failed, original, attempt)
      invariant forall k :: k in positions && k !in left && k !in failed ==> Held(account.net, k) == 0
      invariant forall k :: k in failed ==> !KeyAccepted(w, attempt, k)
      decreases left
    {
      var key :| key in left;
      var ok := AttemptOne(account, key, positions[key], attempt, w, net0);
      OneMoreAnswered(results, given, positions.Keys - left, failed, original, attempt, key, ok);
      assert positions.Keys - (left - {key}) == positions.Keys - left + {key};
      left := left - {key};
      results := results[key := Result(ok, original[key], attempt)];
      if !ok {
        failed := failed + {key};
      }
    }
    assert positions.Keys - left == positions.Keys;
  }

  lemma OneMoreAnswered(results: map<Key, Result>, given: map<Key, Result>, done: set<Key>, failed: set<Key>, original: map<Key, int>,
                        attempt: nat, key: Key, ok: bool)
    requires done <= original.Keys && key in original && key !in done && failed <= done
    requires Answered(results, given, done, failed, original, attempt)
    ensures Answered(results[key := Result(ok, original[key], attempt)], given, done + {key},
                     if ok then failed else failed + {key}, original, attempt)
  {
  }

  /** The positions a flatten goes for. */
  function Targets(net: map<Key, int>, wanted: Option<set<Key>>): set<Key> {
    set k | k in net && net[k] != 0 && (wanted.Some? ==> k in wanted.value)
  }

  /** `flatten_positions`. Over all attempts and partial slices no position goes through zero or grows,
      what was traded never exceeds what was held, other positions are left alone, and a position
      reported as a success is flat. */
  method FlattenPositions(account: Account, wanted: Option<set<Key>>, w: Weather) returns (results: map<Key, Result>)
    requires account.log == []
    modifies account
    ensures AllSafe(old(account.net), account.net, account.log, w) && Greedy(old(account.net), account.log, w)
    ensures forall k :: k in results <==> Held(old(account.net), k) != 0 && (wanted.None? || k in wanted.value)
    ensures forall k :: k !in results ==> Held(account.net, k) == Held(old(account.net), k)
    ensures forall k :: k in results ==> results[k].quantity == Abs(Held(old(account.net), k)) && 1 <= results[k].attempts <= MAX_ATTEMPTS
    ensures forall k :: k in results && results[k].success ==> Held(account.net, k) == 0
    ensures AllAccepted(w, 1) ==> forall k :: k in results ==> results[k].success && results[k].attempts == 1
    ensures forall k :: k in results && !results[k].success ==> GaveUp(w, k, results[k].attempts)
  {
    ghost var net0 := account.net;
    ghost var targets := Targets(net0, wanted);
    var positions := map k | k in account.net && account.net[k] != 0 && (wanted.Some? ==> k in wanted.value) :: account.net[k];
    var original := map k | k in positions :: Abs(positions[k]);
    results := map[];
    var attempt, done := 1, false;
    while !done
      invariant 1 <= attempt && (!done ==> attempt <= MAX_ATTEMPTS)
      invariant AllSafe(net0, account.net, account.log, w) && Greedy(net0, account.log, w)
      invariant if done then Final(account.net, results, targets) else Pending(account.net, positions, results, targets)
      invariant original == map k | k in targets :: Abs(Held(net0, k))
      invariant forall k :: k !in targets ==> Held(account.net, k) == Held(net0, k)
      invariant Counted(results, original, if done then MAX_ATTEMPTS else attempt - 1)
      invariant if done then AllGaveUp(w, results) else NoneWentThrough(w, positions.Keys, attempt)
      invariant AllAccepted(w, 1) ==> if done then FirstTry(results) else attempt == 1 && results == map[]
      decreases MAX_ATTEMPTS + 1 - attempt, !done
    {
      positions, results, done := Round(account, positions, attempt, w, original, results, net0, targets);
      attempt := attempt + 1;
    }
  }

  /** Why a position is reported as not closed: every attempt up to this one raised at one of its chunks,
      and this was the third, or the positions could not be read again after it. */
  ghost predicate GaveUp(w: Weather, k: Key, attempts: nat) {
    && (forall a :: 1 <= a <= attempts ==> !KeyAccepted(w, a, k))
    && (attempts == 3 || w.refreshRaises(attempts))
  }

  ghost predicate AllGaveUp(w: Weather, results: map<Key, Result>) {
    forall k :: k in results && !results[k].success ==> GaveUp(w, k, results[k].attempts)
  }

  /** The answers are in, and true. */
  ghost predicate Final(net: map<Key, int>, results: map<Key, Result>, targets: set<Key>) {
    results.Keys == targets && forall k :: k in results && results[k].success ==> Held(net, k) == 0
  }

  ghost predicate Counted(results: map<Key, Result>, original: map<Key, int>, most: int)
  {
    forall k :: k in results ==> k in original && results[k].quantity == original[k] && 1 <= results[k].attempts <= most
  }

  ghost predicate FirstTry(results: map<Key, Result>) { forall k :: k in results ==> results[k].success && results[k].attempts == 1 }

  lemma FailuresAreFresh(net: map<Key, int>, positions: map<Key, int>, given: map<Key, Result>, results: map<Key, Result>, failed: set<Key>,
                         original: map<Key, int>, attempt: nat, targets: set<Key>)
    requires positions.Keys <= original.Keys && Answered(results, given, positions.Keys, failed, original, attempt)
    requires forall k :: k in given && !given[k].success ==> k in positions
    ensures forall k :: k in results && !results[k].success ==> k in failed && results[k].attempts == attempt
  {
  }

  lemma FailuresGaveUp(w: Weather, results: map<Key, Result>, failed: set<Key>, keys: set<Key>, attempt: nat)
    requires forall k :: k in results && !results[k].success ==> k in failed && results[k].attempts == attempt
    requires failed <= keys && NoneWentThrough(w, keys, attempt) && forall k :: k in failed ==> !KeyAccepted(w, attempt, k)
    ensures attempt == 3 || w.refreshRaises(attempt) ==> AllGaveUp(w, results)
    ensures failed == {} ==> AllGaveUp(w, results)
    ensures !w.refreshRaises(attempt) ==> NoneWentThrough(w, failed, attempt + 1)
  {
  }

  /** An attempt and, unless the flatten ends with it, the positions for the next one. */
  method Round(account: Account, positions: map<Key, int>, attempt: nat, w: Weather, original: map<Key, int>,
               given: map<Key, Result>, ghost net0: map<Key, int>, ghost targets: set<Key>)
    returns (next: map<Key, int>, results: map<Key, Result>, done: bool)
    requires AllSafe(net0, account.net, account.log, w) && Greedy(net0, account.log, w) && Pending(account.net, positions, given, targets) && original.Keys == targets
    requires 1 <= attempt <= MAX_ATTEMPTS && Counted(given, original, attempt - 1) && NoneWentThrough(w, positions.Keys, attempt)
    modifies account
    ensures AllSafe(net0, account.net, account.log, w) && Greedy(net0, account.log, w)
    ensures if done then Final(account.net, results, targets) else Pending(account.net, next, results, targets) && attempt < MAX_ATTEMPTS
    ensures forall k :: k !in targets ==> Held(account.net, k) == Held(old(account.net), k)
    ensures Counted(results, original, attempt)
    ensures if done then AllGaveUp(w, results) else NoneWentThrough(w, next.Keys, attempt + 1)
    ensures AllAccepted(w, attempt) && given == map[] && attempt == 1 ==> done && FirstTry(results)
  {
    var failed;
    results, failed := Attempt(account, positions, attempt, w, original, given, net0, targets);
    next, done := positions, true;
    FailuresAreFresh(account.net, positions, given, results, failed, original, attempt, targets);
    FailuresGaveUp(w, results, failed, positions.Keys, attempt);
    if failed == {} || attempt == MAX_ATTEMPTS || w.refreshRaises(attempt) {
      return;
    }
    next, results := Refresh(account.net, failed, results, attempt, positions, targets);
    done := next == map[];
  }
}
