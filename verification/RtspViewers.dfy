/** Viewer accounting of the RTSP server: client requests, closed connections and the
    bootstrap token of each media factory, one callback per step, any number of clients. */
module RtspViewers {
  import opened Counting
  import opened Sums
  import opened Options
  import opened StreamPaths

  const COUNTERS := STREAMS + H264_STREAMS

  // The counter of a stream: the H265 counters come first.
  function Slot(st: Stream): (k: nat)
    requires Exists(st)
    ensures k < COUNTERS
  {
    IdsDistinct(st, st);
    if st.h264 then STREAMS + H264Index(st) else StreamIndex(st)
  }

  lemma SlotsDistinct(a: Stream, b: Stream)
    requires Exists(a) && Exists(b)
    ensures Slot(a) == Slot(b) <==> a == b
  {
    IdsDistinct(a, b);
    IdsDistinct(b, a);
  }

  // Per client the active list; per counter the viewers, whether its factory is registered
  // and whether that factory's bootstrap token is set.
  datatype State = State(active: seq<seq<Stream>>, viewers: seq<int>, registered: seq<bool>, boot: seq<bool>)

  datatype Action =
    | Request(c: nat, uri: Maybe<string>)   // describe, setup or play
    | Halt(c: nat, uri: Maybe<string>)      // pause or teardown
    | Closed(c: nat)                        // closed, or the client object destroyed
    | Configure(st: Stream)
    | Unprepared(st: Stream)
    | Register(st: Stream)
    | Destroy(st: Stream)

  function Parsed(uri: Maybe<string>): (r: Maybe<Stream>)
    ensures r.Just? ==> Exists(r.value)
  {
    if uri.Just? then ParseActivePath(uri.value) else Nothing
  }

  ghost predicate Shape(s: State) {
    && |s.viewers| == |s.registered| == |s.boot| == COUNTERS
    && forall c, i :: 0 <= c < |s.active| && 0 <= i < |s.active[c]| ==> Exists(s.active[c][i])
  }

  // viewer_dec stops at zero; with floor false the same code without the test.
  function Dec(viewers: seq<int>, st: Stream, floor: bool): (r: seq<int>)
    requires Exists(st) && |viewers| == COUNTERS
    ensures |r| == COUNTERS
  {
    if floor && viewers[Slot(st)] <= 0 then viewers else viewers[Slot(st) := viewers[Slot(st)] - 1]
  }

  function DecAll(viewers: seq<int>, list: seq<Stream>, floor: bool): (r: seq<int>)
    requires |viewers| == COUNTERS && forall i :: 0 <= i < |list| ==> Exists(list[i])
    ensures |r| == COUNTERS
    decreases |list|
  {
    if list == [] then viewers else DecAll(Dec(viewers, list[0], floor), list[1..], floor)
  }

  function ReleaseBootstrap(s: State, st: Stream, floor: bool): State
    requires Shape(s) && Exists(st)
  {
    if s.boot[Slot(st)]
    then s.(boot := s.boot[Slot(st) := false], viewers := Dec(s.viewers, st, floor))
    else s
  }

  function Consume(s: State, st: Stream, floor: bool): State
    requires Shape(s) && Exists(st)
  {
    if s.registered[Slot(st)] then ReleaseBootstrap(s, st, floor) else s
  }

  function Started(s: State, c: nat, st: Stream): (r: State)
    requires Shape(s) && Exists(st) && c < |s.active|
    ensures Shape(r)
  {
    if st in s.active[c] then s
    else s.(active := s.active[c := s.active[c] + [st]], viewers := s.viewers[Slot(st) := s.viewers[Slot(st)] + 1])
  }

  function Without(list: seq<Stream>, st: Stream): seq<Stream> {
    if list == [] then [] else if list[0] == st then list[1..] else [list[0]] + Without(list[1..], st)
  }

  function ReleaseAll(s: State, c: nat, floor: bool): State
    requires Shape(s) && c < |s.active|
  {
    s.(active := s.active[c := []], viewers := DecAll(s.viewers, s.active[c], floor))
  }

  function Stopped(s: State, c: nat, st: Maybe<Stream>, floor: bool): State
    requires Shape(s) && c < |s.active| && (st.Just? ==> Exists(st.value))
  {
    if st.Nothing? then ReleaseAll(s, c, floor)
    else if st.value !in s.active[c] then s
    else s.(active := s.active[c := Without(s.active[c], st.value)], viewers := Dec(s.viewers, st.value, floor))
  }

  function Step(s: State, a: Action, floor: bool): State
    requires Shape(s)
  {
    match a
    case Request(c, uri) =>
      var st := Parsed(uri);
      if st.Just? && c < |s.active| then Consume(Started(s, c, st.value), st.value, floor) else s
    case Halt(c, uri) => if c < |s.active| then Stopped(s, c, Parsed(uri), floor) else s
    case Closed(c) => if c < |s.active| then ReleaseAll(s, c, floor) else s
    case Configure(st) =>
      if Exists(st) && s.registered[Slot(st)] && !s.boot[Slot(st)]
      then s.(boot := s.boot[Slot(st) := true], viewers := s.viewers[Slot(st) := s.viewers[Slot(st)] + 1])
      else s
    case Unprepared(st) => if Exists(st) then Consume(s, st, floor) else s
    case Register(st) => if Exists(st) then s.(registered := s.registered[Slot(st) := true]) else s
    case Destroy(st) =>
      if Exists(st) && s.registered[Slot(st)]
      then ReleaseBootstrap(s.(registered := s.registered[Slot(st) := false]), st, floor)
      else s
  }

  // ---------- Who watches ----------

  function Holding(active: seq<seq<Stream>>, st: Stream): (w: seq<int>)
    ensures |w| == |active| && NonNeg(w)
    ensures forall c :: 0 <= c < |active| ==> w[c] == if st in active[c] then 1 else 0
  {
    seq(|active|, c requires 0 <= c < |active| => if st in active[c] then 1 else 0)
  }

  // The number of clients whose active list holds the stream.
  function Clients(s: State, st: Stream): int {
    Sum(Holding(s.active, st))
  }

  function Token(s: State, st: Stream): int
    requires Shape(s) && Exists(st)
  {
    if s.boot[Slot(st)] then 1 else 0
  }

  ghost predicate Counted(s: State, st: Stream)
    requires Shape(s) && Exists(st)
  {
    && s.viewers[Slot(st)] == Clients(s, st) + Token(s, st)
    && (s.boot[Slot(st)] ==> s.registered[Slot(st)])
  }

  ghost predicate Inv(s: State) {
    && Shape(s)
    && (forall c :: 0 <= c < |s.active| ==> NoDup(s.active[c]))
    && (forall st :: Exists(st) ==> Counted(s, st))
  }

  lemma ClientsUpdate(s: State, c: nat, list: seq<Stream>, st: Stream)
    requires c < |s.active|
    ensures Clients(s.(active := s.active[c := list]), st) ==
            Clients(s, st) - (if st in s.active[c] then 1 else 0) + (if st in list then 1 else 0)
    ensures st in s.active[c] ==> 1 <= Clients(s, st)
  {
    var was, now := Holding(s.active, st), if st in list then 1 else 0;
    assert Holding(s.active[c := list], st) == was[c := now];
    SumUpdate(was, c, now);
    SumAtLeast(was, c);
  }

  lemma {:induction false} WithoutFacts(list: seq<Stream>, st: Stream)
    requires NoDup(list) && st in list
    ensures forall x :: x in Without(list, st) <==> x in list && x != st
    ensures NoDup(Without(list, st))
  {
    if list[0] != st {
      var rest := Without(list[1..], st);
      WithoutFacts(list[1..], st);
      assert Without(list, st) == [list[0]] + rest;
      assert list[0] !in list[1..];
      assert list[0] !in rest;
      forall x ensures x in Without(list, st) <==> x in list && x != st {
        assert x in list <==> x == list[0] || x in list[1..];
      }
    } else {
      assert list[0] !in list[1..];
      assert forall x :: x in list <==> x == list[0] || x in list[1..];
    }
  }

  /** Decrementing every stream of a duplicate-free list takes one from each of them, and the
      floor is not reached if each had a viewer. */
  lemma {:induction false} DecAllFacts(viewers: seq<int>, list: seq<Stream>, floor: bool, st: Stream)
    requires |viewers| == COUNTERS && NoDup(list) && Exists(st)
    requires forall i :: 0 <= i < |list| ==> Exists(list[i]) && 1 <= viewers[Slot(list[i])]
    ensures DecAll(viewers, list, floor)[Slot(st)] == viewers[Slot(st)] - if st in list then 1 else 0
    ensures DecAll(viewers, list, floor) == DecAll(viewers, list, false)
    decreases |list|
  {
    if list != [] {
      var after := Dec(viewers, list[0], floor);
      forall i | 0 <= i < |list[1..]| ensures 1 <= after[Slot(list[1..][i])] {
        assert list[1..][i] == list[i + 1] && list[0] != list[i + 1];
        SlotsDistinct(list[i + 1], list[0]);
      }
      DecAllFacts(after, list[1..], floor, st);
      SlotsDistinct(st, list[0]);
      assert st in list <==> st == list[0] || st in list[1..];
      assert list[0] !in list[1..];
    }
  }

  // ---------- The invariant ----------

  lemma ConsumeInv(s: State, st: Stream, floor: bool)
    requires Inv(s) && Exists(st)
    ensures Inv(Consume(s, st, floor)) && Consume(s, st, floor) == Consume(s, st, false)
    ensures Consume(s, st, floor).active == s.active
  {
    var s' := Consume(s, st, floor);
    assert Counted(s, st);
    SumNonNeg(Holding(s.active, st));
    forall x | Exists(x) ensures Counted(s', x) {
      assert Counted(s, x);
      SlotsDistinct(x, st);
    }
  }

  lemma StartInv(s: State, c: nat, st: Stream)
    requires Inv(s) && Exists(st) && c < |s.active|
    ensures Inv(Started(s, c, st))
  {
    var s', list := Started(s, c, st), s.active[c] + [st];
    if st !in s.active[c] {
      forall x | Exists(x) ensures Counted(s', x) {
        assert Counted(s, x);
        SlotsDistinct(x, st);
        ClientsUpdate(s, c, list, x);
      }
    }
  }

  lemma ReleaseAllInv(s: State, c: nat, floor: bool)
    requires Inv(s) && c < |s.active|
    ensures Inv(ReleaseAll(s, c, floor)) && ReleaseAll(s, c, floor) == ReleaseAll(s, c, false)
  {
    var s', list := ReleaseAll(s, c, floor), s.active[c];
    forall i | 0 <= i < |list| ensures 1 <= s.viewers[Slot(list[i])] {
      assert Counted(s, list[i]) && list[i] in s.active[c];
      ClientsUpdate(s, c, [], list[i]);
    }
    forall x | Exists(x) ensures Counted(s', x) {
      assert Counted(s, x);
      DecAllFacts(s.viewers, list, floor, x);
      ClientsUpdate(s, c, [], x);
    }
    DecAllFacts(s.viewers, list, floor, Stream(0, 0, false));
  }

  lemma StopInv(s: State, c: nat, st: Stream, floor: bool)
    requires Inv(s) && c < |s.active| && Exists(st) && st in s.active[c]
    ensures Inv(Stopped(s, c, Just(st), floor)) && Stopped(s, c, Just(st), floor) == Stopped(s, c, Just(st), false)
  {
    var s', list := Stopped(s, c, Just(st), floor), Without(s.active[c], st);
    WithoutFacts(s.active[c], st);
    assert Counted(s, st);
    ClientsUpdate(s, c, list, st);
    assert forall i :: 0 <= i < |list| ==> list[i] in s.active[c];
    forall x | Exists(x) ensures Counted(s', x) {
      assert Counted(s, x);
      SlotsDistinct(x, st);
      ClientsUpdate(s, c, list, x);
    }
  }

  lemma FactoryInv(s: State, a: Action, floor: bool)
    requires Inv(s) && (a.Configure? || a.Register? || a.Destroy?) && Exists(a.st)
    ensures Inv(Step(s, a, floor)) && Step(s, a, floor) == Step(s, a, false)
  {
    var s' := Step(s, a, floor);
    assert Counted(s, a.st);
    SumNonNeg(Holding(s.active, a.st));
    forall x | Exists(x) ensures Counted(s', x) {
      assert Counted(s, x);
      SlotsDistinct(x, a.st);
    }
  }

  /** Every callback keeps the viewer equation and the duplicate-free lists, and gives the same
      state as code whose decrement has no floor: the floor is never reached. */
  lemma StepInv(s: State, a: Action)
    requires Inv(s)
    ensures Inv(Step(s, a, true)) && Step(s, a, true) == Step(s, a, false)
    ensures |Step(s, a, true).active| == |s.active|
  {
    match a
    case Request(c, uri) =>
      var st := Parsed(uri);
      if st.Just? && c < |s.active| {
        StartInv(s, c, st.value);
        ConsumeInv(Started(s, c, st.value), st.value, true);
      }
    case Halt(c, uri) =>
      var st := Parsed(uri);
      if c < |s.active| {
        if st.Nothing? {
          ReleaseAllInv(s, c, true);
        } else if st.value in s.active[c] {
          StopInv(s, c, st.value, true);
        }
      }
    case Closed(c) =>
      if c < |s.active| {
        ReleaseAllInv(s, c, true);
      }
    case Unprepared(st) =>
      if Exists(st) {
        ConsumeInv(s, st, true);
      }
    case _ =>
      if Exists(a.st) {
        FactoryInv(s, a, true);
      }
  }

  function Init(clients: nat): State {
    State(seq(clients, _ => []), seq(COUNTERS, _ => 0), seq(COUNTERS, _ => false), seq(COUNTERS, _ => false))
  }

  lemma InitInv(clients: nat)
    ensures Inv(Init(clients))
  {
    var s := Init(clients);
    forall st | Exists(st) ensures Counted(s, st) {
      SumZero(Holding(s.active, st));
    }
  }

  ghost function Execute(clients: nat, actions: seq<Action>): (s: State)
    ensures Inv(s) && |s.active| == clients
    decreases |actions|
  {
    if actions == [] then
      InitInv(clients);
      Init(clients)
    else
      var before := Execute(clients, actions[..|actions| - 1]);
      StepInv(before, actions[|actions| - 1]);
      Step(before, actions[|actions| - 1], true)
  }

  /** In every run the viewers of a stream are the clients whose list holds it, plus one while
      its factory's token is set; no list holds a stream twice. */
  lemma ViewersAreClientsPlusToken(clients: nat, actions: seq<Action>, st: Stream)
    requires Exists(st)
    ensures var s := Execute(clients, actions);
            s.viewers[Slot(st)] == Clients(s, st) + Token(s, st)
    ensures forall c :: 0 <= c < clients ==> NoDup(Execute(clients, actions).active[c])
  {
    assert Counted(Execute(clients, actions), st);
  }

  /** want_push without recording: frames are encoded exactly while somebody watches. */
  lemma PushedIffWatched(clients: nat, actions: seq<Action>, st: Stream)
    requires Exists(st)
    ensures var s := Execute(clients, actions);
            0 < s.viewers[Slot(st)] <==> s.boot[Slot(st)] || exists c :: 0 <= c < clients && st in s.active[c]
  {
    var s := Execute(clients, actions);
    var w := Holding(s.active, st);
    assert Counted(s, st);
    SumNonNeg(w);
    if c :| 0 <= c < clients && st in s.active[c] {
      SumAtLeast(w, c);
    } else {
      SumZero(w);
    }
  }

  // ---------- When everybody has left ----------

  // The client was closed, or never asked for anything, and has not asked again.
  ghost predicate ClientGone(actions: seq<Action>, c: nat) {
    actions == [] ||
    var a := actions[|actions| - 1];
    a == Closed(c) || (!(a.Request? && a.c == c) && ClientGone(actions[..|actions| - 1], c))
  }

  // The factory's media was unprepared, or never configured, and not configured again.
  ghost predicate MediaGone(actions: seq<Action>, st: Stream) {
    actions == [] ||
    var a := actions[|actions| - 1];
    a == Unprepared(st) || (a != Configure(st) && MediaGone(actions[..|actions| - 1], st))
  }

  // A client's empty list stays empty until the client asks for something.
  lemma EmptyListStays(s: State, a: Action, c: nat)
    requires Inv(s) && c < |s.active| == |Step(s, a, true).active|
    requires a == Closed(c) || (s.active[c] == [] && !(a.Request? && a.c == c))
    ensures Step(s, a, true).active[c] == []
  {
    if a.Halt? {
      assert Parsed(a.uri).Just? && a.c == c ==> Parsed(a.uri).value !in s.active[c];
    }
  }

  lemma {:induction false} GoneClientHoldsNothing(clients: nat, actions: seq<Action>, c: nat)
    requires ClientGone(actions, c) && c < clients
    ensures Execute(clients, actions).active[c] == []
    decreases |actions|
  {
    if actions != [] {
      var a, before := actions[|actions| - 1], actions[..|actions| - 1];
      if a != Closed(c) {
        GoneClientHoldsNothing(clients, before, c);
      }
      StepInv(Execute(clients, before), a);
      EmptyListStays(Execute(clients, before), a, c);
    }
  }

  // A token stays clear until its factory's media is configured.
  lemma ClearTokenStays(s: State, a: Action, st: Stream)
    requires Inv(s) && Shape(Step(s, a, true)) && Exists(st)
    requires a == Unprepared(st) || (!s.boot[Slot(st)] && a != Configure(st))
    ensures !Step(s, a, true).boot[Slot(st)]
  {
    assert Counted(s, st);
    if (a.Configure? || a.Unprepared? || a.Destroy?) && Exists(a.st) {
      SlotsDistinct(a.st, st);
    }
  }

  lemma {:induction false} GoneMediaHasNoToken(clients: nat, actions: seq<Action>, st: Stream)
    requires MediaGone(actions, st) && Exists(st)
    ensures !Execute(clients, actions).boot[Slot(st)]
    decreases |actions|
  {
    if actions != [] {
      var a, before := actions[|actions| - 1], actions[..|actions| - 1];
      if a != Unprepared(st) {
        GoneMediaHasNoToken(clients, before, st);
      }
      StepInv(Execute(clients, before), a);
      ClearTokenStays(Execute(clients, before), a, st);
    }
  }

  /** Once all clients are closed and all media unprepared, in whatever order and after
      whatever run, no stream counts a viewer. */
  lemma NobodyLeftNothingCounted(clients: nat, actions: seq<Action>, st: Stream)
    requires Exists(st) && MediaGone(actions, st)
    requires forall c: nat :: c < clients ==> ClientGone(actions, c)
    ensures Execute(clients, actions).viewers[Slot(st)] == 0
  {
    var s := Execute(clients, actions);
    forall c: nat | c < clients ensures Holding(s.active, st)[c] == 0 {
      assert ClientGone(actions, c);
      GoneClientHoldsNothing(clients, actions, c);
    }
    SumZero(Holding(s.active, st));
    GoneMediaHasNoToken(clients, actions, st);
    assert Counted(s, st);
  }

  // ---------- The state is the history ----------

  predicate AsksFor(uri: Maybe<string>, st: Stream) {
    uri.Just? && ParseActivePath(uri.value) == Just(st)
  }

  predicate NoStream(uri: Maybe<string>) {
    uri.Nothing? || ParseActivePath(uri.value).Nothing?
  }

  // Client c asked for the stream, and since then neither halted it, nor halted without naming a
  // stream, nor was closed.
  ghost predicate Watching(actions: seq<Action>, c: nat, st: Stream) {
    actions != [] &&
    var a, before := actions[|actions| - 1], actions[..|actions| - 1];
    if a.Request? && a.c == c && AsksFor(a.uri, st) then true
    else if a == Closed(c) || (a.Halt? && a.c == c && (AsksFor(a.uri, st) || NoStream(a.uri))) then false
    else Watching(before, c, st)
  }

  // The stream's factory was registered and not destroyed since.
  ghost predicate Factory(actions: seq<Action>, st: Stream) {
    actions != [] &&
    var a, before := actions[|actions| - 1], actions[..|actions| - 1];
    a == Register(st) || (a != Destroy(st) && Factory(before, st))
  }

  // The media was configured while its factory was registered, and since then no client asked for
  // the stream, the media was not unprepared and the factory not destroyed.
  ghost predicate Bootstrapping(clients: nat, actions: seq<Action>, st: Stream) {
    actions != [] &&
    var a, before := actions[|actions| - 1], actions[..|actions| - 1];
    if a == Configure(st) then Factory(before, st)
    else if a == Unprepared(st) || a == Destroy(st) then false
    else if a.Request? && a.c < clients && AsksFor(a.uri, st) then false
    else Bootstrapping(clients, before, st)
  }

  lemma StepWatching(s: State, a: Action, c: nat, st: Stream)
    requires Inv(s) && c < |s.active| && Exists(st)
    ensures |Step(s, a, true).active| == |s.active|
    ensures st in Step(s, a, true).active[c] <==>
            if a.Request? && a.c == c && AsksFor(a.uri, st) then true
            else if a == Closed(c) || (a.Halt? && a.c == c && (AsksFor(a.uri, st) || NoStream(a.uri))) then false
            else st in s.active[c]
  {
    StepInv(s, a);
    if a.Halt? && a.c == c && Parsed(a.uri).Just? && Parsed(a.uri).value in s.active[c] {
      WithoutFacts(s.active[c], Parsed(a.uri).value);
    }
  }

  lemma StepFactory(s: State, a: Action, st: Stream)
    requires Inv(s) && Exists(st)
    ensures |Step(s, a, true).registered| == COUNTERS
    ensures Step(s, a, true).registered[Slot(st)] <==> a == Register(st) || (a != Destroy(st) && s.registered[Slot(st)])
  {
    StepInv(s, a);
    if (a.Register? || a.Destroy?) && Exists(a.st) {
      SlotsDistinct(a.st, st);
    }
  }

  lemma StepBootstrap(s: State, a: Action, st: Stream)
    requires Inv(s) && Exists(st)
    ensures |Step(s, a, true).boot| == COUNTERS
    ensures Step(s, a, true).boot[Slot(st)] <==>
            if a == Configure(st) then s.registered[Slot(st)]
            else if a == Unprepared(st) || a == Destroy(st) then false
            else if a.Request? && a.c < |s.active| && AsksFor(a.uri, st) then false
            else s.boot[Slot(st)]
  {
    StepInv(s, a);
    assert Counted(s, st);
    if (a.Configure? || a.Unprepared? || a.Destroy?) && Exists(a.st) {
      SlotsDistinct(a.st, st);
    }
    if a.Request? && Parsed(a.uri).Just? {
      SlotsDistinct(Parsed(a.uri).value, st);
    }
  }

  /** In every run the lists, the factories and the tokens are those of the history of callbacks;
      so the viewers of a stream are counted by what clients asked for and gave up alone. */
  lemma {:induction false} StateIsHistory(clients: nat, actions: seq<Action>, c: nat, st: Stream)
    requires Exists(st) && c < clients
    ensures var s := Execute(clients, actions);
      && (st in s.active[c] <==> Watching(actions, c, st))
      && (s.registered[Slot(st)] <==> Factory(actions, st))
      && (s.boot[Slot(st)] <==> Bootstrapping(clients, actions, st))
    decreases |actions|
  {
    if actions != [] {
      var before, a := actions[..|actions| - 1], actions[|actions| - 1];
      StateIsHistory(clients, before, c, st);
      StepWatching(Execute(clients, before), a, c, st);
      StepFactory(Execute(clients, before), a, st);
      StepBootstrap(Execute(clients, before), a, st);
    }
  }

  // ---------- In place ----------

  lemma {:induction false} WithoutAt(list: seq<Stream>, i: nat)
    requires i < |list| && list[i] !in list[..i]
    ensures Without(list, list[i]) == list[..i] + list[i + 1..]
    decreases i
  {
    if i > 0 {
      assert list[0] in list[..i];
      assert list[1..][..i - 1] == list[..i][1..];
      WithoutAt(list[1..], i - 1);
    }
  }

  method Find(list: seq<Stream>, st: Stream) returns (i: nat)
    requires Exists(st) && forall k :: 0 <= k < |list| ==> Exists(list[k])
    ensures i <= |list| && st !in list[..i]
    ensures i < |list| ==> list[i] == st
  {
    i := 0;
    while i < |list| && StreamId(list[i]) != StreamId(st)
      invariant i <= |list| && st !in list[..i]
    {
      i := i + 1;
    }
    if i < |list| {
      IdsDistinct(list[i], st);
    }
  }

  class RtspServer {
    const viewers: array<int>
    const viewersH264: array<int>
    var active: seq<seq<Stream>>
    var registered: seq<bool>
    var boot: seq<bool>

    ghost function View(): State
      reads this, viewers, viewersH264
    {
      State(active, viewers[..] + viewersH264[..], registered, boot)
    }

    ghost predicate Valid()
      reads this, viewers, viewersH264
    {
      viewers.Length == STREAMS && viewersH264.Length == H264_STREAMS && viewers != viewersH264 && Shape(View())
    }

    constructor (clients: nat)
      ensures Valid() && View() == Init(clients) && fresh(viewers) && fresh(viewersH264)
    {
      viewers := new int[STREAMS](_ => 0);
      viewersH264 := new int[H264_STREAMS](_ => 0);
      active := seq(clients, _ => []);
      registered := seq(COUNTERS, _ => false);
      boot := seq(COUNTERS, _ => false);
    }

    method ViewerInc(st: Stream)
      requires Valid() && Exists(st)
      modifies viewers, viewersH264
      ensures View().viewers == old(View().viewers)[Slot(st) := old(View().viewers)[Slot(st)] + 1]
    {
      IdsDistinct(st, st);
      if st.h264 {
        viewersH264[H264Index(st)] := viewersH264[H264Index(st)] + 1;
      } else {
        viewers[StreamIndex(st)] := viewers[StreamIndex(st)] + 1;
      }
    }

    method ViewerDec(st: Stream)
      requires Valid() && Exists(st)
      modifies viewers, viewersH264
      ensures View().viewers ==
              var v := old(View().viewers)[Slot(st)];
              old(View().viewers)[Slot(st) := if v > 0 then v - 1 else v]
      ensures View().viewers == Dec(old(View().viewers), st, true)
    {
      IdsDistinct(st, st);
      if st.h264 {
        if viewersH264[H264Index(st)] > 0 {
          viewersH264[H264Index(st)] := viewersH264[H264Index(st)] - 1;
        }
      } else if viewers[StreamIndex(st)] > 0 {
        viewers[StreamIndex(st)] := viewers[StreamIndex(st)] - 1;
      }
    }

    method WantPush(st: Stream, recording: bool) returns (want: bool)
      requires Valid() && Exists(st)
      ensures want == (View().viewers[Slot(st)] > 0 || (recording && !st.h264))
    {
      IdsDistinct(st, st);
      if st.h264 {
        return viewersH264[H264Index(st)] > 0;
      }
      return viewers[StreamIndex(st)] > 0 || recording;
    }

    method ReleaseFactoryBootstrap(st: Stream)
      requires Valid() && Exists(st)
      modifies this, viewers, viewersH264
      ensures Valid() && View() == ReleaseBootstrap(old(View()), st, true)
    {
      var was := boot[Slot(st)];
      boot := boot[Slot(st) := false];
      if !was {
        assert boot == old(boot);
        return;
      }
      ViewerDec(st);
    }

    method ConsumeBootstrap(st: Stream)
      requires Valid() && Exists(st)
      modifies this, viewers, viewersH264
      ensures Valid() && View() == Consume(old(View()), st, true)
    {
      if registered[Slot(st)] {
        ReleaseFactoryBootstrap(st);
      }
    }

    method ReleaseAllStreams(c: nat)
      requires Valid() && c < |active|
      modifies this, viewers, viewersH264
      ensures Valid() && View() == ReleaseAll(old(View()), c, true)
    {
      ghost var before := View().viewers;
      var list := active[c];
      var i := 0;
      while i < |list|
        invariant active == old(active) && registered == old(registered) && boot == old(boot)
        invariant i <= |list| && Valid() && list == active[c]
        invariant DecAll(before, list, true) == DecAll(View().viewers, list[i..], true)
      {
        ViewerDec(list[i]);
        assert list[i..][1..] == list[i + 1..];
        i := i + 1;
      }
      active := active[c := []];
    }

    method StartClientStream(c: nat, uri: Maybe<string>)
      requires Valid() && c < |active|
      modifies this, viewers, viewersH264
      ensures Valid() && View() == Step(old(View()), Request(c, uri), true)
    {
      var st := Parsed(uri);
      if st.Nothing? {
        return;
      }
      var at := Find(active[c], st.value);
      assert active[c][..|active[c]|] == active[c];
      if at == |active[c]| {
        ViewerInc(st.value);
        active := active[c := active[c] + [st.value]];
        assert View() == Started(old(View()), c, st.value);
      }
      ConsumeBootstrap(st.value);
    }

    method StopClientStream(c: nat, uri: Maybe<string>)
      requires Valid() && c < |active|
      modifies this, viewers, viewersH264
      ensures Valid() && View() == Step(old(View()), Halt(c, uri), true)
    {
      var st := Parsed(uri);
      if st.Nothing? {
        ReleaseAllStreams(c);
        return;
      }
      var at := Find(active[c], st.value);
      assert active[c][..|active[c]|] == active[c];
      if at == |active[c]| {
        return;
      }
      WithoutAt(active[c], at);
      active := active[c := active[c][..at] + active[c][at + 1..]];
      ViewerDec(st.value);
    }

    method MediaConfigure(st: Stream)
      requires Valid() && Exists(st) && registered[Slot(st)]
      modifies this, viewers, viewersH264
      ensures Valid() && View() == Step(old(View()), Configure(st), true)
    {
      var was := boot[Slot(st)];
      boot := boot[Slot(st) := true];
      if !was {
        ViewerInc(st);
      } else {
        assert boot == old(boot);
      }
    }

    method DestroyContext(st: Stream)
      requires Valid() && Exists(st) && registered[Slot(st)]
      modifies this, viewers, viewersH264
      ensures Valid() && View() == Step(old(View()), Destroy(st), true)
    {
      registered := registered[Slot(st) := false];
      ReleaseFactoryBootstrap(st);
    }
  }
}
