/** The upstream subscription protocol: the broker keeps a map from instrument to mode and executes
    messages on it; the client diffs mode sets, drops messages while its socket is down, and replays
    everything it wants, message by message, after each reconnect. */
module FeedWire {
  import opened Trading

  datatype Mode = LTPC | FULL | D30

  datatype Wishes = Wishes(d30: set<Key>, full: set<Key>, ltpc: set<Key>)

  /** Unsubscribing clears a key whatever its mode; subscribing sets its mode. */
  datatype Message = Unsub(keys: set<Key>) | Sub(mode: Mode, keys: set<Key>)

  const NO_WISHES := Wishes({}, {}, {})

  /** D30 wins over full, full wins over LTPC. */
  function Cleaned(d30: set<Key>, full: set<Key>, ltpc: set<Key>): Wishes {
    Wishes(d30, full - d30, ltpc - d30 - full)
  }

  predicate Disjoint(w: Wishes) { w.d30 !! w.full && w.d30 !! w.ltpc && w.full !! w.ltpc }

  function Keys(w: Wishes): set<Key> { w.d30 + w.full + w.ltpc }

  function Wanted(w: Wishes, k: Key): Option<Mode> {
    if k in w.d30 then Some(D30) else if k in w.full then Some(FULL) else if k in w.ltpc then Some(LTPC) else None
  }

  function ModesOf(w: Wishes): map<Key, Mode> { map k | k in Keys(w) :: Wanted(w, k).value }

  // ---- messages ----------------------------------------------------------------------------------

  function Execute(up: map<Key, Mode>, m: Message): map<Key, Mode> {
    match m
    case Unsub(keys) => up - keys
    case Sub(mode, keys) => up + map k | k in keys :: mode
  }

  function ExecuteAll(up: map<Key, Mode>, messages: seq<Message>): map<Key, Mode>
    decreases |messages|
  {
    if messages == [] then up else ExecuteAll(Execute(up, messages[0]), messages[1..])
  }

  /** A message without keys is not sent. */
  function IfAny(m: Message): seq<Message> { if m.keys == {} then [] else [m] }

  function Changed(was: Wishes, will: Wishes): set<Key> { set k | k in Keys(was) && Wanted(will, k) != Wanted(was, k) }

  function Added(was: Wishes, will: Wishes, mode: Mode): set<Key> {
    set k | k in Keys(will) && Wanted(will, k) == Some(mode) && Wanted(was, k) != Some(mode)
  }

  /** What a replacement sends: keys that leave or change mode are unsubscribed first. */
  function Diff(was: Wishes, will: Wishes): seq<Message> {
    IfAny(Unsub(Changed(was, will))) + Additions(was, will)
  }

  function Additions(was: Wishes, will: Wishes): seq<Message> {
    IfAny(Sub(D30, Added(was, will, D30))) + IfAny(Sub(FULL, Added(was, will, FULL))) + IfAny(Sub(LTPC, Added(was, will, LTPC)))
  }

  /** What a fresh socket is sent. */
  function Replay(w: Wishes): seq<Message> {
    IfAny(Sub(D30, w.d30)) + IfAny(Sub(FULL, w.full)) + IfAny(Sub(LTPC, w.ltpc))
  }

  predicate Agrees(m: Message, w: Wishes) { m.Sub? && forall k :: k in m.keys ==> Wanted(w, k) == Some(m.mode) }

  /** Subscriptions in the wanted modes and nothing else. */
  predicate OnlySubs(messages: seq<Message>, w: Wishes) {
    forall i :: 0 <= i < |messages| ==> Agrees(messages[i], w)
  }

  predicate Promised(messages: seq<Message>, k: Key) {
    exists i :: 0 <= i < |messages| && messages[i].Sub? && k in messages[i].keys
  }

  /** Keys are subscribed again in their modes, some after being unsubscribed first. */
  predicate IsHeal(messages: seq<Message>, w: Wishes) {
    OnlySubs(messages, w)
    || (messages != [] && messages[0].Unsub? && OnlySubs(messages[1..], w) && forall k :: k in messages[0].keys ==> Promised(messages[1..], k))
  }

  // ---- the protocol --------------------------------------------------------------------------------

  /** `jobs` are the messages the replacement in progress has still to send, `replay` those of the
      fresh socket, `heals` those of a self-heal pass. Replacements are serialized by the subscription
      manager's lock and self-heal passes by their loop; the three run side by side. */
  datatype State = State(desired: Wishes, socket: Option<map<Key, Mode>>, replay: seq<Message>, jobs: seq<Message>, heals: seq<Message>)

  datatype Step =
    | Drop
    | Connect
    | SendReplay
    | Replace(d30: set<Key>, full: set<Key>, ltpc: set<Key>)
    | SendJob
    | Heal(messages: seq<Message>)
    | SendHeal

  function Next(s: State, e: Step): State {
    match e
    case Drop => s.(socket := None, replay := [])
    case Connect => if s.socket.None? then s.(socket := Some(map[]), replay := Replay(s.desired)) else s
    case SendReplay => if s.replay == [] then s else s.(socket := Sent(s.socket, s.replay[0]), replay := s.replay[1..])
    case SendJob => if s.jobs == [] then s else s.(socket := Sent(s.socket, s.jobs[0]), jobs := s.jobs[1..])
    case SendHeal => if s.heals == [] then s else s.(socket := Sent(s.socket, s.heals[0]), heals := s.heals[1..])
    case Heal(messages) => if s.heals == [] && IsHeal(messages, s.desired) then s.(heals := messages) else s
    case Replace(d30, full, ltpc) =>
      var wishes := Cleaned(d30, full, ltpc);
      if s.jobs != [] || ModesOf(wishes) == ModesOf(s.desired) then s
      else s.(desired := wishes, jobs := Diff(s.desired, wishes))
  }

  /** Best effort: a message is dropped while there is no socket. */
  function Sent(socket: Option<map<Key, Mode>>, m: Message): Option<map<Key, Mode>> {
    if socket.None? then None else Some(Execute(socket.value, m))
  }

  function Run(s: State, steps: seq<Step>): State
    decreases |steps|
  {
    if steps == [] then s else Run(Next(s, steps[0]), steps[1..])
  }

  const INITIAL := State(NO_WISHES, None, [], [], [])

  /** Nothing is on its way. */
  predicate Quiet(s: State) { s.jobs == [] && s.replay == [] && s.heals == [] }
}
