/**
 * Keyboard monitoring for assistive technologies: clients grab and watch keys, and the keys they grab are kept from
 * normal handling. Key events arrive between the clients' requests in any order.
 */
module KeyMonitor {
  import opened Prelude

  type ClientId = nat
  type Keysym = nat
  type ModMask = nat

  datatype Client = Client(watched: bool, grabbed: bool, modifiers: set<Keysym>, keystrokes: seq<(Keysym, ModMask)>)
  {
    predicate ShouldGrab(suppressed: set<Keysym>, mods: ModMask, key: Keysym) {
      || grabbed
      || (exists m | m in modifiers :: m == key || m in suppressed)
      || (key, mods) in keystrokes
    }

    predicate ShouldWatch(suppressed: set<Keysym>, mods: ModMask, key: Keysym) {
      watched || ShouldGrab(suppressed, mods, key)
    }
  }

  const NO_REQUESTS := Client(false, false, {}, [])

  datatype Data = Data(
    clients: map<ClientId, Client>,
    grabbedMods: set<Keysym>,
    lastPress: map<Keysym, nat>,
    suppressed: set<Keysym>)
  {
    /** What the client asked for so far. */
    function Requests(c: ClientId): Client {
      if c in clients then clients[c] else NO_REQUESTS
    }
  }

  const INITIAL := Data(map[], {}, map[], {})

  datatype Verdict = Pass | ModifierFirstPress | Block

  datatype Key = Key(sym: Keysym, mods: ModMask, time: nat, repeatDelay: nat)

  datatype Event =
    | GrabKeyboard(client: ClientId)
    | UngrabKeyboard(client: ClientId)
    | WatchKeyboard(client: ClientId)
    | UnwatchKeyboard(client: ClientId)
    | SetKeyGrabs(client: ClientId, modifiers: set<Keysym>, keystrokes: seq<(Keysym, ModMask)>)
    | Disconnected(client: ClientId)
    | Press(key: Key)
    | Release(key: Key)

  function AsSet(syms: seq<Keysym>): set<Keysym> {
    set m | m in syms
  }

  function AllModifiers(clients: map<ClientId, Client>): set<Keysym> {
    set c, m | c in clients && m in clients[c].modifiers :: m
  }

  function Change(d: Data, c: ClientId, to: Client): Data {
    d.(clients := d.clients[c := to])
  }

  function Rebuilt(d: Data): Data {
    d.(grabbedMods := AllModifiers(d.clients))
  }

  // Keys.

  /** A second press of a grabbed modifier in quick succession. */
  predicate DoublePress(d: Data, k: Key) {
    k.sym in d.grabbedMods && k.time <= (if k.sym in d.lastPress then d.lastPress[k.sym] else 0) + k.repeatDelay
  }

  predicate Grabbed(d: Data, k: Key) {
    exists c | c in d.clients :: d.clients[c].ShouldGrab(d.suppressed, k.mods, k.sym)
  }

  predicate BlocksPress(d: Data, k: Key) {
    !DoublePress(d, k) && (k.sym in d.suppressed || Grabbed(d, k))
  }

  function AfterPress(d: Data, k: Key): Data {
    var noted := if k.sym in d.grabbedMods then d.(lastPress := d.lastPress[k.sym := k.time]) else d;
    if BlocksPress(d, k) then noted.(suppressed := d.suppressed + {k.sym}) else noted
  }

  function AfterRelease(d: Data, k: Key): Data {
    d.(suppressed := d.suppressed - {k.sym})
  }

  function Watchers(d: Data, k: Key): set<ClientId> {
    set c | c in d.clients && d.clients[c].ShouldWatch(d.suppressed, k.mods, k.sym)
  }

  // Runs.

  function Step(d: Data, e: Event): Data {
    match e
    case GrabKeyboard(c) => Change(d, c, d.Requests(c).(grabbed := true))
    case UngrabKeyboard(c) => if c in d.clients then Change(d, c, d.clients[c].(grabbed := false)) else d
    case WatchKeyboard(c) => Change(d, c, d.Requests(c).(watched := true))
    case UnwatchKeyboard(c) => if c in d.clients then Change(d, c, d.clients[c].(watched := false)) else d
    case SetKeyGrabs(c, modifiers, keystrokes) =>
      Rebuilt(Change(d, c, d.Requests(c).(modifiers := modifiers, keystrokes := keystrokes)))
    case Disconnected(c) => Rebuilt(d.(clients := d.clients - {c}))
    case Press(k) => AfterPress(d, k)
    case Release(k) => AfterRelease(d, k)
  }

  function Run(es: seq<Event>): Data {
    if es == [] then INITIAL else Step(Run(es[..|es| - 1]), es[|es| - 1])
  }

  /** The key event at `i` is kept from normal handling. */
  predicate BlockedAt(es: seq<Event>, i: nat)
    requires i < |es|
  {
    match es[i]
    case Press(k) => BlocksPress(Run(es[..i]), k)
    case Release(k) => k.sym in Run(es[..i]).suppressed
    case _ => false
  }

  predicate PressOf(e: Event, sym: Keysym) {
    e.Press? && e.key.sym == sym
  }

  predicate ReleaseOf(e: Event, sym: Keysym) {
    e.Release? && e.key.sym == sym
  }

  /** The press at `i` is blocked and its key has not been released since. */
  ghost predicate BlockedPressHeld(es: seq<Event>, i: nat, sym: Keysym) {
    i < |es| && PressOf(es[i], sym) && BlockedAt(es, i) && forall j | i < j < |es| :: !ReleaseOf(es[j], sym)
  }

  /** The grabbed modifiers are always exactly those that the connected clients ask for. */
  lemma {:induction false} GrabbedModsAreUnion(es: seq<Event>)
    ensures Run(es).grabbedMods == AllModifiers(Run(es).clients)
  {
    if es != [] {
      var n := |es| - 1;
      var d := Run(es[..n]);
      GrabbedModsAreUnion(es[..n]);
      match es[n] {
        case GrabKeyboard(c) => SameModifiers(d.clients, c, d.Requests(c).(grabbed := true));
        case WatchKeyboard(c) => SameModifiers(d.clients, c, d.Requests(c).(watched := true));
        case UngrabKeyboard(c) => if c in d.clients { SameModifiers(d.clients, c, d.clients[c].(grabbed := false)); }
        case UnwatchKeyboard(c) => if c in d.clients { SameModifiers(d.clients, c, d.clients[c].(watched := false)); }
        case _ => {}
      }
    }
  }

  lemma SameModifiers(clients: map<ClientId, Client>, c: ClientId, to: Client)
    requires to.modifiers == if c in clients then clients[c].modifiers else {}
    ensures AllModifiers(clients[c := to]) == AllModifiers(clients)
  {
    var after := clients[c := to];
    forall m | m in AllModifiers(clients) ensures m in AllModifiers(after) {
      var o :| o in clients && m in clients[o].modifiers;
      assert o in after && m in after[o].modifiers;
    }
  }

  lemma EarlierIsSame(es: seq<Event>, i: nat)
    requires i < |es| - 1
    ensures es[..|es| - 1][..i] == es[..i]
    ensures BlockedAt(es[..|es| - 1], i) == BlockedAt(es, i)
  {
    assert es[..|es| - 1][..i] == es[..i];
  }

  /** One more event keeps a blocked press held unless it is the key's release. */
  lemma HeldFurther(es: seq<Event>, i: nat, sym: Keysym)
    requires es != []
    ensures i < |es| - 1 ==> (BlockedPressHeld(es, i, sym) <==>
      BlockedPressHeld(es[..|es| - 1], i, sym) && !ReleaseOf(es[|es| - 1], sym))
  {
    if i < |es| - 1 {
      EarlierIsSame(es, i);
      assert forall j | i < j < |es| - 1 :: es[..|es| - 1][j] == es[j];
    }
  }

  /**
   * A key is suppressed exactly while a blocked press of it has not been released, whatever the clients ask for in
   * between and however presses and releases arrive.
   */
  lemma {:induction false} SuppressedIffBlockedPressHeld(es: seq<Event>, sym: Keysym)
    ensures sym in Run(es).suppressed <==> exists i: nat :: BlockedPressHeld(es, i, sym)
  {
    if es != [] {
      var n := |es| - 1;
      SuppressedIffBlockedPressHeld(es[..n], sym);
      forall i: nat ensures i < n ==> (BlockedPressHeld(es, i, sym) <==>
        BlockedPressHeld(es[..n], i, sym) && !ReleaseOf(es[n], sym))
      {
        HeldFurther(es, i, sym);
      }
      assert BlockedPressHeld(es, n, sym) <==> PressOf(es[n], sym) && BlocksPress(Run(es[..n]), es[n].key);
    }
  }

  /** A release is blocked exactly when some press of the key since its last release was. */
  lemma {:induction false} ReleaseBlockedIffPressWas(es: seq<Event>, j: nat)
    requires j < |es| && es[j].Release?
    ensures BlockedAt(es, j) <==> exists i: nat :: BlockedPressHeld(es[..j], i, es[j].key.sym)
  {
    SuppressedIffBlockedPressHeld(es[..j], es[j].key.sym);
  }

  // What the clients ask for, by their requests alone.

  /** The last of the client's requests to watch all keys, or no longer to, says which. */
  function Watching(es: seq<Event>, c: ClientId): bool {
    if es == [] then false
    else
      match es[|es| - 1]
      case WatchKeyboard(b) => b == c || Watching(es[..|es| - 1], c)
      case UnwatchKeyboard(b) => b != c && Watching(es[..|es| - 1], c)
      case Disconnected(b) => b != c && Watching(es[..|es| - 1], c)
      case _ => Watching(es[..|es| - 1], c)
  }

  function Grabbing(es: seq<Event>, c: ClientId): bool {
    if es == [] then false
    else
      match es[|es| - 1]
      case GrabKeyboard(b) => b == c || Grabbing(es[..|es| - 1], c)
      case UngrabKeyboard(b) => b != c && Grabbing(es[..|es| - 1], c)
      case Disconnected(b) => b != c && Grabbing(es[..|es| - 1], c)
      case _ => Grabbing(es[..|es| - 1], c)
  }

  /** The modifiers and keystrokes of the client's last request for key grabs. */
  function KeyGrabs(es: seq<Event>, c: ClientId): (set<Keysym>, seq<(Keysym, ModMask)>) {
    if es == [] then ({}, [])
    else
      match es[|es| - 1]
      case SetKeyGrabs(b, modifiers, keystrokes) => if b == c then (modifiers, keystrokes) else KeyGrabs(es[..|es| - 1], c)
      case Disconnected(b) => if b == c then ({}, []) else KeyGrabs(es[..|es| - 1], c)
      case _ => KeyGrabs(es[..|es| - 1], c)
  }

  lemma {:induction false} ClientsFollowRequests(es: seq<Event>, c: ClientId)
    ensures Run(es).Requests(c) == Client(Watching(es, c), Grabbing(es, c), KeyGrabs(es, c).0, KeyGrabs(es, c).1)
  {
    if es != [] {
      ClientsFollowRequests(es[..|es| - 1], c);
    }
  }

  ghost predicate ModifierGrabbed(es: seq<Event>, sym: Keysym) {
    exists c :: sym in KeyGrabs(es, c).0
  }

  lemma GrabbedByRequests(es: seq<Event>, sym: Keysym)
    ensures sym in Run(es).grabbedMods <==> ModifierGrabbed(es, sym)
  {
    GrabbedModsAreUnion(es);
    var d := Run(es);
    if sym in d.grabbedMods {
      var c :| c in d.clients && sym in d.clients[c].modifiers;
      ClientsFollowRequests(es, c);
    }
    if ModifierGrabbed(es, sym) {
      var c :| sym in KeyGrabs(es, c).0;
      ClientsFollowRequests(es, c);
      assert c in d.clients && sym in d.clients[c].modifiers;
    }
  }

  /** The time of the last press of the key while it was a grabbed modifier. */
  ghost function LastNoted(es: seq<Event>, sym: Keysym): Option<nat> {
    if es == [] then None
    else
      var before := es[..|es| - 1];
      match es[|es| - 1]
      case Press(k) => if k.sym == sym && ModifierGrabbed(before, sym) then Some(k.time) else LastNoted(before, sym)
      case _ => LastNoted(before, sym)
  }

  lemma {:induction false} PressTimesAreNoted(es: seq<Event>, sym: Keysym)
    ensures var d := Run(es);
      LastNoted(es, sym) == if sym in d.lastPress then Some(d.lastPress[sym]) else None
  {
    if es != [] {
      PressTimesAreNoted(es[..|es| - 1], sym);
      GrabbedByRequests(es[..|es| - 1], sym);
    }
  }

  /** A blocked press of the key has not been released. */
  ghost predicate HeldBlocked(es: seq<Event>, sym: Keysym) {
    exists i: nat :: BlockedPressHeld(es, i, sym)
  }

  /** The client has asked for all keys, this key as a modifier, everything while one of its modifiers is held, or this keystroke. */
  ghost predicate AsksFor(es: seq<Event>, c: ClientId, sym: Keysym, mods: ModMask) {
    || Grabbing(es, c)
    || sym in KeyGrabs(es, c).0
    || (exists m | m in KeyGrabs(es, c).0 :: HeldBlocked(es, m))
    || (sym, mods) in KeyGrabs(es, c).1
  }

  lemma AskingIsGrabbing(es: seq<Event>, c: ClientId, k: Key)
    ensures var d := Run(es);
      && (c in d.clients && d.clients[c].ShouldGrab(d.suppressed, k.mods, k.sym) <==> AsksFor(es, c, k.sym, k.mods))
      && (c in Watchers(d, k) <==> Watching(es, c) || AsksFor(es, c, k.sym, k.mods))
  {
    ClientsFollowRequests(es, c);
    forall m | m in KeyGrabs(es, c).0 ensures m in Run(es).suppressed <==> HeldBlocked(es, m) {
      SuppressedIffBlockedPressHeld(es, m);
    }
  }

  /**
   * Which presses are blocked, by the requests and keys before: those of keys held blocked already and those some
   * client asks for, except a second press of a grabbed modifier within the repeat delay.
   */
  lemma PressIsBlockedIff(es: seq<Event>, i: nat)
    requires i < |es| && es[i].Press?
    ensures var before, k := es[..i], es[i].key;
      BlockedAt(es, i) <==>
        && !(ModifierGrabbed(before, k.sym) && k.time <= LastNoted(before, k.sym).GetOr(0) + k.repeatDelay)
        && (HeldBlocked(before, k.sym) || exists c :: AsksFor(before, c, k.sym, k.mods))
  {
    var before, k := es[..i], es[i].key;
    GrabbedByRequests(before, k.sym);
    PressTimesAreNoted(before, k.sym);
    SuppressedIffBlockedPressHeld(before, k.sym);
    forall c ensures var d := Run(before);
      c in d.clients && d.clients[c].ShouldGrab(d.suppressed, k.mods, k.sym) <==> AsksFor(before, c, k.sym, k.mods)
    {
      AskingIsGrabbing(before, c, k);
    }
  }

  /** Of a key event exactly those clients are told that watch all keys or have asked for it. */
  lemma ToldIff(es: seq<Event>, c: ClientId, k: Key)
    ensures c in Watchers(Run(es), k) <==> Watching(es, c) || AsksFor(es, c, k.sym, k.mods)
  {
    AskingIsGrabbing(es, c, k);
  }

  /** The press at `i` and the release at `j` are of the same key, with nothing of that key in between. */
  ghost predicate Pair(es: seq<Event>, i: nat, j: nat) {
    && i < j < |es|
    && es[i].Press? && ReleaseOf(es[j], es[i].key.sym)
    && forall k | i < k < j :: !PressOf(es[k], es[i].key.sym) && !ReleaseOf(es[k], es[i].key.sym)
  }

  /** Events of other keys and requests do not change whether a key is suppressed. */
  lemma {:induction false} SuppressionLasts(es: seq<Event>, i: nat, j: nat)
    requires i < j < |es| && es[i].Press?
    requires forall k | i < k < j :: !PressOf(es[k], es[i].key.sym) && !ReleaseOf(es[k], es[i].key.sym)
    ensures es[i].key.sym in Run(es[..j]).suppressed <==> es[i].key.sym in Run(es[..i + 1]).suppressed
    decreases j
  {
    if j > i + 1 {
      SuppressionLasts(es, i, j - 1);
      assert es[..j][..j - 1] == es[..j - 1];
    }
  }

  /**
   * Exactly when a pair matches, for every interleaving: a release is blocked like its press unless, as could be
   * seen before the press, the key was suppressed already and the press passed as the second in quick succession.
   */
  lemma {:induction false} PairMatchesIff(es: seq<Event>, i: nat, j: nat)
    requires Pair(es, i, j)
    ensures (BlockedAt(es, j) <==> BlockedAt(es, i)) <==>
      !(es[i].key.sym in Run(es[..i]).suppressed && DoublePress(Run(es[..i]), es[i].key))
  {
    SuppressionLasts(es, i, j);
    assert es[..i + 1][..i] == es[..i];
    assert Run(es[..i + 1]) == AfterPress(Run(es[..i]), es[i].key);
  }

  /** The key is up before the event at `i`: its last event, if any, was a release. */
  ghost predicate UpBefore(es: seq<Event>, i: nat, sym: Keysym)
    requires i <= |es|
  {
    forall k | 0 <= k < i && PressOf(es[k], sym) :: exists l | k < l < i :: ReleaseOf(es[l], sym)
  }

  lemma HeldInPrefix(es: seq<Event>, i: nat, k: nat, sym: Keysym)
    requires i <= |es| && BlockedPressHeld(es[..i], k, sym)
    ensures k < i && PressOf(es[k], sym) && forall l | k < l < i :: !ReleaseOf(es[l], sym)
  {
    assert forall l | k < l < i :: es[..i][l] == es[l];
  }

  lemma UpIsNotSuppressed(es: seq<Event>, i: nat, sym: Keysym)
    requires i <= |es| && UpBefore(es, i, sym)
    ensures sym !in Run(es[..i]).suppressed
  {
    SuppressedIffBlockedPressHeld(es[..i], sym);
    forall k: nat ensures !BlockedPressHeld(es[..i], k, sym) {
      if BlockedPressHeld(es[..i], k, sym) {
        HeldInPrefix(es, i, k, sym);
        assert false;
      }
    }
  }

  /** When presses and releases of a key alternate, a release is blocked exactly when its press was. */
  lemma {:induction false} AlternatingPairsMatch(es: seq<Event>, i: nat, j: nat)
    requires Pair(es, i, j) && UpBefore(es, i, es[i].key.sym)
    ensures BlockedAt(es, j) <==> BlockedAt(es, i)
  {
    UpIsNotSuppressed(es, i, es[i].key.sym);
    PairMatchesIff(es, i, j);
  }

  /**
   * Without alternation a pair can be split: a modifier held on two keyboards is pressed twice in quick succession,
   * so its second press is handled as normal, but the release that follows is blocked.
   */
  lemma UnalternatedPairCanSplit()
    ensures exists es: seq<Event>, i: nat, j: nat :: Pair(es, i, j) && !BlockedAt(es, i) && BlockedAt(es, j)
  {
    var first, second := Key(1, 0, 1000, 200), Key(1, 0, 1100, 200);
    var e0 := SetKeyGrabs(0, {1}, []);
    var es := [e0, Press(first), Press(second), Release(second)];
    assert es[..1] == [e0] && es[..2] == [e0, Press(first)] && es[..3] == [e0, Press(first), Press(second)];
    assert [e0][..0] == [] && [e0, Press(first)][..1] == [e0];
    assert [e0, Press(first), Press(second)][..2] == [e0, Press(first)];
    var d := Run([e0]);
    assert d.grabbedMods == {1} && d.clients.Keys == {0} && d.suppressed == {} && d.lastPress == map[] by {
      assert d == Step(Run([]), e0);
      assert d.clients == map[0 := Client(false, false, {1}, [])];
      assert AllModifiers(d.clients) == {1} by {
        assert 1 in d.clients[0].modifiers;
      }
    }
    assert d.clients[0].ShouldGrab({}, 0, 1) by {
      assert 1 in d.clients[0].modifiers;
    }
    assert BlocksPress(d, first);
    assert Run(es[..2]) == AfterPress(d, first);
    assert DoublePress(Run(es[..2]), second);
    assert Run(es[..3]) == AfterPress(Run(es[..2]), second);
    assert Pair(es, 2, 3) && !BlockedAt(es, 2) && BlockedAt(es, 3);
  }

  /** The monitor's state; requests without a sender are refused. */
  class KeyboardMonitor {
    var data: Data

    constructor ()
      ensures data == INITIAL
    {
      data := INITIAL;
    }

    method Entry(c: ClientId) returns (client: Client)
      modifies this
      ensures client == old(data).Requests(c)
      ensures data == Change(old(data), c, client)
    {
      if c !in data.clients {
        data := data.(clients := data.clients[c := NO_REQUESTS]);
      }
      client := data.clients[c];
      assert data.clients == old(data).clients[c := client];
    }

    method Grab(sender: Option<ClientId>) returns (ok: bool)
      modifies this
      ensures ok <==> sender.Some?
      ensures data == if ok then Step(old(data), GrabKeyboard(sender.value)) else old(data)
    {
      if sender.None? {
        return false;
      }
      var client := Entry(sender.value);
      Overwrites(old(data).clients, sender.value, client, client.(grabbed := true));
      data := Change(data, sender.value, client.(grabbed := true));
      return true;
    }

    method Ungrab(sender: Option<ClientId>) returns (ok: bool)
      modifies this
      ensures ok <==> sender.Some?
      ensures data == if ok then Step(old(data), UngrabKeyboard(sender.value)) else old(data)
    {
      if sender.None? {
        return false;
      }
      if sender.value in data.clients {
        data := Change(data, sender.value, data.clients[sender.value].(grabbed := false));
      }
      return true;
    }

    method Watch(sender: Option<ClientId>) returns (ok: bool)
      modifies this
      ensures ok <==> sender.Some?
      ensures data == if ok then Step(old(data), WatchKeyboard(sender.value)) else old(data)
    {
      if sender.None? {
        return false;
      }
      var client := Entry(sender.value);
      Overwrites(old(data).clients, sender.value, client, client.(watched := true));
      data := Change(data, sender.value, client.(watched := true));
      return true;
    }

    method Unwatch(sender: Option<ClientId>) returns (ok: bool)
      modifies this
      ensures ok <==> sender.Some?
      ensures data == if ok then Step(old(data), UnwatchKeyboard(sender.value)) else old(data)
    {
      if sender.None? {
        return false;
      }
      if sender.value in data.clients {
        data := Change(data, sender.value, data.clients[sender.value].(watched := false));
      }
      return true;
    }

    method SetGrabs(sender: Option<ClientId>, modifiers: seq<Keysym>, keystrokes: seq<(Keysym, ModMask)>) returns (ok: bool)
      modifies this
      ensures ok <==> sender.Some?
      ensures data == if ok then Step(old(data), SetKeyGrabs(sender.value, AsSet(modifiers), keystrokes)) else old(data)
    {
      if sender.None? {
        return false;
      }
      var client := Entry(sender.value);
      var updated := client.(modifiers := AsSet(modifiers), keystrokes := keystrokes);
      Overwrites(old(data).clients, sender.value, client, updated);
      data := Change(data, sender.value, updated);
      RebuildGrabbedMods();
      return true;
    }

    /** A client has dropped off the bus. */
    method Disconnect(c: ClientId)
      modifies this
      ensures data == Step(old(data), Disconnected(c))
    {
      data := data.(clients := data.clients - {c});
      RebuildGrabbedMods();
    }

    method RebuildGrabbedMods()
      modifies this
      ensures data == Rebuilt(old(data))
    {
      var mods: set<Keysym> := {};
      var todo := data.clients.Keys;
      while todo != {}
        invariant todo <= data.clients.Keys && data == old(data)
        invariant mods == set c, m | c in data.clients.Keys - todo && m in data.clients[c].modifiers :: m
        decreases |todo|
      {
        var c :| c in todo;
        var more := mods + data.clients[c].modifiers;
        assert forall m | m in data.clients[c].modifiers :: c in data.clients.Keys - (todo - {c}) && m in data.clients[c].modifiers;
        mods := more;
        todo := todo - {c};
      }
      data := data.(grabbedMods := mods);
    }

    /** Decides about a key event, and which clients are told of it. */
    method ProcessKey(k: Key, released: bool) returns (verdict: Verdict, notified: set<ClientId>)
      modifies this
      ensures notified == Watchers(old(data), k)
      ensures data == Step(old(data), if released then Release(k) else Press(k))
      ensures verdict != Pass <==> if released then k.sym in old(data).suppressed else BlocksPress(old(data), k)
      ensures verdict != Pass ==> (verdict == ModifierFirstPress <==> k.sym in data.grabbedMods)
    {
      notified := Watchers(data, k);
      if k.sym in data.grabbedMods {
        if released {
          if k.sym !in data.suppressed {
            assert data.suppressed - {k.sym} == data.suppressed;
            return Pass, notified;
          }
        } else {
          var lastPress := if k.sym in data.lastPress then data.lastPress[k.sym] else 0;
          data := data.(lastPress := data.lastPress[k.sym := k.time]);
          if k.time <= lastPress + k.repeatDelay {
            return Pass, notified;
          }
        }
      }
      var block := false;
      if released {
        if k.sym in data.suppressed {
          data := data.(suppressed := data.suppressed - {k.sym});
          block := true;
        } else {
          assert data.suppressed - {k.sym} == data.suppressed;
        }
      } else if k.sym in data.suppressed {
        assert data.suppressed + {k.sym} == data.suppressed;
        block := true;
      } else {
        if Grabbed(data, k) {
          data := data.(suppressed := data.suppressed + {k.sym});
          block := true;
        }
      }
      verdict := if !block then Pass else if k.sym in data.grabbedMods then ModifierFirstPress else Block;
    }
  }

  lemma Overwrites(clients: map<ClientId, Client>, c: ClientId, first: Client, second: Client)
    ensures clients[c := first][c := second] == clients[c := second]
  {
  }
}
