/** The autosave queue of one editor page, as a value and as the class the page uses. */
module Autosave {
  import opened Base

  datatype Status = Saved | Unsaved | Saving | Failed | Conflicted

  // The promise of the current flush: a save under way, or the drain over and its cleanup still to run.
  datatype Flight<T> = NoFlight | Sent(snapshot: T, version: int) | Settling

  datatype Client<T> = Client(latest: T, acknowledged: T, version: int, status: Status, dirty: bool, inFlight: bool,
                              timer: bool, flight: Flight<T>, enabled: bool, disposed: bool)

  // How a save ends for the client.
  datatype Answer = Accepted(version: int) | VersionConflict | OtherError

  function Opened<T>(value: T, version: int): Client<T> {
    Client(value, value, version, Saved, false, false, false, NoFlight, true, false)
  }

  function Updated<T(==)>(c: Client<T>, value: T): Client<T> {
    if c.disposed || value == c.latest then c
    else
      var dirty := value != c.acknowledged;
      var status := match c.status
        case Conflicted => Conflicted
        case Failed => Failed
        case _ => if c.inFlight then Saving else if dirty then Unsaved else Saved;
      c.(latest := value, dirty := dirty, status := status,
         timer := dirty && c.enabled && !status.Conflicted? && !status.Failed? && c.flight.NoFlight?)
  }

  // One turn of the drain loop: send, or leave the loop.
  function Drained<T>(c: Client<T>): Client<T> {
    if c.dirty && c.enabled && !c.disposed
    then c.(status := Saving, inFlight := true, flight := Sent(c.latest, c.version))
    else c.(flight := Settling)
  }

  function Flushed<T>(c: Client<T>): Client<T> {
    var quiet := c.(timer := false);
    if c.disposed || !c.enabled || c.status.Conflicted? || !c.flight.NoFlight? || !c.dirty then quiet
    else Drained(quiet)
  }

  function Delivered<T(==)>(c: Client<T>, a: Answer): Client<T>
    requires c.flight.Sent?
  {
    match a
    case Accepted(version) =>
      var dirty := c.latest != c.flight.snapshot;
      Drained(c.(acknowledged := c.flight.snapshot, version := version, dirty := dirty, inFlight := false,
                 status := if dirty then Unsaved else Saved))
    case VersionConflict => c.(status := Conflicted, inFlight := false, dirty := true, flight := Settling)
    case OtherError => c.(status := Failed, inFlight := false, dirty := true, flight := Settling)
  }

  // The cleanup after a drain; an edit may have arrived in between.
  function Settled<T>(c: Client<T>): Client<T>
    requires c.flight.Settling?
  {
    c.(flight := NoFlight, timer := c.timer || (c.dirty && c.status.Unsaved? && c.enabled && !c.disposed))
  }

  function Switched<T>(c: Client<T>, value: bool): Client<T> {
    c.(enabled := value, timer := c.timer && value)
  }

  function Reloaded<T>(c: Client<T>, value: T, version: int): Client<T>
    requires c.flight.NoFlight?
  {
    c.(latest := value, acknowledged := value, version := version, status := Saved, dirty := false,
       inFlight := false, timer := false)
  }

  function Conflict<T>(c: Client<T>): Client<T> {
    c.(status := Conflicted, timer := false)
  }

  // What the queue keeps whatever is called in whatever order.
  ghost predicate Sound<T>(c: Client<T>) {
    && (!c.dirty ==> c.latest == c.acknowledged)
    && (c.inFlight <==> c.flight.Sent?)
    && (c.flight.Sent? ==> c.flight.version == c.version)
    && (c.timer ==> c.flight.NoFlight? && c.enabled && !c.disposed && c.status.Unsaved?)
    && (c.status.Saved? ==> !c.dirty)
    && (c.status.Saving? ==> c.inFlight)
    && (c.status.Unsaved? ==> c.dirty && !c.inFlight)
  }

  predicate On<T>(c: Client<T>) {
    c.enabled && !c.disposed
  }

  // While the queue is on, an unsaved edit is on its way, about to be, or reported to the writer.
  predicate Attended<T>(c: Client<T>) {
    On(c) && c.dirty && c.flight.NoFlight? ==> c.timer || c.status.Failed? || c.status.Conflicted?
  }

  // Nothing will arm the timer of this edit but another edit.
  predicate Idling<T>(c: Client<T>) {
    c.status.Unsaved? && c.flight.NoFlight?
  }

  class AutosaveQueue<T(==)> {
    var latest: T
    var acknowledged: T
    var version: int
    var status: Status
    var dirty: bool
    var inFlight: bool
    var timer: bool
    var flight: Flight<T>
    var enabled: bool
    var disposed: bool

    ghost function State(): Client<T>
      reads this
    {
      Client(latest, acknowledged, version, status, dirty, inFlight, timer, flight, enabled, disposed)
    }

    constructor (initial: T, version: int)
      ensures State() == Opened(initial, version)
      ensures latest == acknowledged == initial && this.version == version && status.Saved? && enabled && !disposed && !timer
    {
      latest, acknowledged, this.version := initial, initial, version;
      status, dirty, inFlight, timer, flight, enabled, disposed := Saved, false, false, false, NoFlight, true, false;
    }

    method SetEnabled(value: bool)
      modifies this
      ensures State() == Switched(old(State()), value)
      ensures enabled == value && timer == (value && old(timer))
      ensures latest == old(latest) && acknowledged == old(acknowledged) && version == old(version) && status == old(status)
      ensures dirty == old(dirty) && flight == old(flight) && disposed == old(disposed)
    {
      enabled := value;
      if !value { timer := false; }
    }

    method Update(snapshot: T)
      modifies this
      ensures State() == Updated(old(State()), snapshot)
      ensures old(disposed) || snapshot == old(latest) ==> State() == old(State())
      ensures !old(disposed) ==> latest == snapshot
      ensures acknowledged == old(acknowledged) && version == old(version) && flight == old(flight)
      ensures enabled == old(enabled) && disposed == old(disposed)
      ensures !disposed && snapshot != old(latest) ==>
        && (dirty <==> snapshot != acknowledged)
        && (old(status).Failed? || old(status).Conflicted? ==> status == old(status) && !timer)
        && (!old(status).Failed? && !old(status).Conflicted? ==>
              status == if inFlight then Saving else if dirty then Unsaved else Saved)
        && (Sound(old(State())) ==> (timer <==> status.Unsaved? && enabled && flight.NoFlight?))
    {
      if disposed || snapshot == latest { return; }
      latest := snapshot;
      dirty := latest != acknowledged;
      if !status.Conflicted? && !status.Failed? {
        status := if inFlight then Saving else if dirty then Unsaved else Saved;
      }
      timer := false;
      if dirty && enabled && !status.Conflicted? && !status.Failed? && flight.NoFlight? {
        timer := true;
      }
    }

    // The loop head of drain: the request to send, if any.
    method Drain() returns (request: Option<(T, int)>)
      modifies this
      ensures State() == Drained(old(State()))
      ensures request.Some? <==> flight.Sent?
      ensures request.Some? ==> request.value == (latest, version)
    {
      if dirty && enabled && !disposed {
        status, inFlight := Saving, true;
        flight := Sent(latest, version);
        return Some((latest, version));
      }
      flight := Settling;
      return None;
    }

    method Flush() returns (request: Option<(T, int)>)
      modifies this
      ensures State() == Flushed(old(State()))
      ensures request.Some? <==> old(!disposed && enabled && !status.Conflicted? && flight.NoFlight? && dirty)
      ensures request.Some? ==> request.value == (latest, version) && status.Saving? && flight == Sent(latest, version)
      ensures request.None? ==> status == old(status) && flight == old(flight)
      ensures latest == old(latest) && acknowledged == old(acknowledged) && version == old(version) && dirty == old(dirty)
      ensures !timer
    {
      request := None;
      timer := false;
      if disposed || !enabled || status.Conflicted? || !flight.NoFlight? || !dirty { return; }
      request := Drain();
    }

    // The continuation of drain when the save call ends.
    method Deliver(a: Answer) returns (request: Option<(T, int)>)
      requires flight.Sent?
      modifies this
      ensures State() == Delivered(old(State()), a)
      ensures status.Conflicted? <==> a.VersionConflict?
      ensures status.Failed? <==> a.OtherError?
      ensures latest == old(latest) && enabled == old(enabled) && disposed == old(disposed)
      ensures !a.Accepted? ==>
        acknowledged == old(acknowledged) && version == old(version) && dirty && request.None? && flight.Settling?
      ensures a.Accepted? ==>
        && acknowledged == old(flight.snapshot) && version == a.version
        && (status.Saved? <==> latest == acknowledged) && (dirty <==> latest != acknowledged)
      ensures request.Some? <==> a.Accepted? && latest != old(flight.snapshot) && enabled && !disposed
      ensures request.Some? ==> request.value == (latest, version) && flight == Sent(latest, version)
      ensures request.None? ==> flight.Settling?
    {
      request := None;
      match a {
        case Accepted(v) =>
          acknowledged := flight.snapshot;
          dirty := latest != flight.snapshot;
          version := v;
          inFlight := false;
          status := if dirty then Unsaved else Saved;
          request := Drain();
        case VersionConflict =>
          status, inFlight, dirty, flight := Conflicted, false, true, Settling;
        case OtherError =>
          status, inFlight, dirty, flight := Failed, false, true, Settling;
      }
    }

    method Settle()
      requires flight.Settling?
      modifies this
      ensures State() == Settled(old(State()))
      ensures flight.NoFlight? && latest == old(latest) && version == old(version) && status == old(status)
      ensures Sound(old(State())) ==> (timer <==> status.Unsaved? && enabled && !disposed)
    {
      flight := NoFlight;
      if dirty && status.Unsaved? && enabled && !disposed { timer := true; }
    }

    method Reload(snapshot: T, version: int) returns (ok: bool)
      modifies this
      ensures ok <==> old(flight).NoFlight?
      ensures State() == if ok then Reloaded(old(State()), snapshot, version) else old(State())
      ensures ok ==>
        && latest == acknowledged == snapshot && this.version == version
        && status.Saved? && !dirty && !timer && enabled == old(enabled) && disposed == old(disposed)
    {
      if !flight.NoFlight? { return false; }
      timer := false;
      latest, acknowledged, this.version := snapshot, snapshot, version;
      status, dirty, inFlight := Saved, false, false;
      return true;
    }

    method ReportConflict()
      modifies this
      ensures State() == Conflict(old(State()))
      ensures status.Conflicted? && !timer && latest == old(latest) && acknowledged == old(acknowledged)
      ensures version == old(version) && dirty == old(dirty) && flight == old(flight)
    {
      timer := false;
      status := Conflicted;
    }

    method Activate()
      modifies this
      ensures State() == old(State()).(disposed := false)
    {
      disposed := false;
    }

    method Dispose()
      modifies this
      ensures State() == old(State()).(disposed := true, timer := false)
    {
      disposed, timer := true, false;
    }
  }
}

/** Any number of autosave clients against one versioned draft, with every delay and failure of the network. */
module AutosaveWorld {
  import opened Base
  import opened Autosave

  datatype Parcel<T> = Request(client: nat, snapshot: T, version: int) | Reply(client: nat, answer: Answer)

  // What becomes of a request: served, refused for another reason, lost before or after it took effect.
  datatype Fate = Served | Refused | LostBefore | LostAfter

  datatype Step<T> =
    | Open(version: int)
    | Edit(client: nat, value: T)
    | Flush(client: nat)
    | TimerFires(client: nat)
    | Serve(parcel: nat, fate: Fate)
    | Deliver(parcel: nat)
    | Settle(client: nat)
    | Reload(client: nat, version: int)
    | SetEnabled(client: nat, on: bool)
    | ReportConflict(client: nat)
    | Activate(client: nat)
    | Dispose(client: nat)
    | Restore(version: int, value: T)

  // history remembers the draft at every version; the server only holds the last.
  datatype World<T> = World(version: int, value: T, history: map<int, T>, clients: seq<Client<T>>, post: seq<Parcel<T>>)

  function Begin<T>(value: T): World<T> {
    World(1, value, map[1 := value], [], [])
  }

  function Put<T>(w: World<T>, i: nat, c: Client<T>): World<T>
    requires i < |w.clients|
  {
    w.(clients := w.clients[i := c])
  }

  // A client that starts a save posts a request.
  function Sending<T>(w: World<T>, i: nat, c: Client<T>): World<T>
    requires i < |w.clients|
  {
    var next := Put(w, i, c);
    if c.flight.Sent? then next.(post := w.post + [Request(i, c.flight.snapshot, c.flight.version)]) else next
  }

  function Without<T>(post: seq<Parcel<T>>, k: nat): seq<Parcel<T>>
    requires k < |post|
  {
    post[..k] + post[k + 1..]
  }

  // SaveDraft: one version up, and only from the expected version.
  function Write<T>(w: World<T>, version: int, value: T): World<T> {
    if version != w.version then w
    else w.(version := version + 1, value := value, history := w.history[version + 1 := value])
  }

  function ServeRequest<T>(w: World<T>, k: nat, fate: Fate): World<T>
    requires k < |w.post| && w.post[k].Request?
  {
    var r := w.post[k];
    var applied := if fate.Served? || fate.LostAfter? then Write(w, r.version, r.snapshot) else w;
    var answer := if !fate.Served? then OtherError
                  else if r.version == w.version then Accepted(r.version + 1) else VersionConflict;
    applied.(post := w.post[k := Reply(r.client, answer)])
  }

  // A flush posts a request only when it starts a flight.
  function FlushOf<T>(w: World<T>, i: nat): World<T>
    requires i < |w.clients|
  {
    var next := Flushed(w.clients[i]);
    if w.clients[i].flight.NoFlight? then Sending(w, i, next) else Put(w, i, next)
  }

  predicate Enabled<T>(w: World<T>, s: Step<T>) {
    match s
    case Open(v) => v in w.history
    case Edit(i, _) => i < |w.clients|
    case Flush(i) => i < |w.clients|
    case TimerFires(i) => i < |w.clients| && w.clients[i].timer
    case Serve(k, _) => k < |w.post| && w.post[k].Request?
    case Deliver(k) => k < |w.post| && w.post[k].Reply? && w.post[k].client < |w.clients| && w.clients[w.post[k].client].flight.Sent?
    case Settle(i) => i < |w.clients| && w.clients[i].flight.Settling?
    case Reload(i, v) => i < |w.clients| && w.clients[i].flight.NoFlight? && v in w.history
    case SetEnabled(i, _) => i < |w.clients|
    case ReportConflict(i) => i < |w.clients|
    case Activate(i) => i < |w.clients|
    case Dispose(i) => i < |w.clients|
    case Restore(_, _) => true
  }

  function Next<T(==)>(w: World<T>, s: Step<T>): World<T> {
    if !Enabled(w, s) then w
    else
      match s
      case Open(v) => w.(clients := w.clients + [Opened(w.history[v], v)])
      case Edit(i, value) => Put(w, i, Updated(w.clients[i], value))
      case Flush(i) => FlushOf(w, i)
      case TimerFires(i) => FlushOf(w, i)
      case Serve(k, fate) => ServeRequest(w, k, fate)
      case Deliver(k) =>
        var i := w.post[k].client;
        Sending(w.(post := Without(w.post, k)), i, Delivered(w.clients[i], w.post[k].answer))
      case Settle(i) => Put(w, i, Settled(w.clients[i]))
      case Reload(i, v) => Put(w, i, Reloaded(w.clients[i], w.history[v], v))
      case SetEnabled(i, on) => Put(w, i, Switched(w.clients[i], on))
      case ReportConflict(i) => Put(w, i, Conflict(w.clients[i]))
      case Activate(i) => Put(w, i, w.clients[i].(disposed := false))
      case Dispose(i) => Put(w, i, w.clients[i].(disposed := true, timer := false))
      case Restore(v, value) => Write(w, v, value)
  }

  function Run<T(==)>(w: World<T>, steps: seq<Step<T>>): World<T>
    decreases |steps|
  {
    if steps == [] then w else Next(Run(w, steps[..|steps| - 1]), steps[|steps| - 1])
  }

  // ----- the invariant -----

  // A client knows the value its version stands for.
  ghost predicate Knows<T(!new)>(w: World<T>, c: Client<T>) {
    c.version in w.history && w.history[c.version] == c.acknowledged
  }

  // A parcel belongs to the save its client has under way.
  ghost predicate Belongs<T(!new)>(w: World<T>, p: Parcel<T>) {
    && p.client < |w.clients| && w.clients[p.client].flight.Sent?
    && (p.Request? ==> w.clients[p.client].flight == Sent(p.snapshot, p.version))
    && (p.Reply? && p.answer.Accepted? ==>
          p.answer.version in w.history && w.history[p.answer.version] == w.clients[p.client].flight.snapshot)
  }

  ghost predicate OneEach<T(!new)>(post: seq<Parcel<T>>) {
    forall j, k | 0 <= j < k < |post| :: post[j].client != post[k].client
  }

  ghost predicate Inv<T(!new)>(w: World<T>) {
    && w.version in w.history && w.history[w.version] == w.value
    && (forall v | v in w.history :: v <= w.version)
    && (forall i | 0 <= i < |w.clients| :: Sound(w.clients[i]) && Knows(w, w.clients[i]))
    && (forall k | 0 <= k < |w.post| :: Belongs(w, w.post[k]))
    && OneEach(w.post)
  }

  lemma BeginInv<T(!new)>(value: T)
    ensures Inv(Begin(value))
  {
  }

  // ----- each kind of step -----

  // A change of one client that neither starts nor ends a save.
  lemma PutInv<T(!new)>(w: World<T>, i: nat, c: Client<T>)
    requires Inv(w) && i < |w.clients| && Sound(c) && Knows(w, c)
    requires w.clients[i].flight.Sent? || c.flight.Sent? ==> c.flight == w.clients[i].flight
    ensures Inv(Put(w, i, c))
  {
    hide Sound;
    var next := Put(w, i, c);
    forall k | 0 <= k < |next.post|
      ensures Belongs(next, next.post[k])
    {
      assert Belongs(w, w.post[k]);
    }
  }

  lemma SendInv<T(!new)>(w: World<T>, i: nat, c: Client<T>)
    requires Inv(w) && i < |w.clients| && Sound(c) && Knows(w, c)
    requires !w.clients[i].flight.Sent?
    ensures Inv(Sending(w, i, c))
  {
    hide Sound;
    var next := Sending(w, i, c);
    forall k | 0 <= k < |next.post|
      ensures Belongs(next, next.post[k]) && (k < |w.post| ==> next.post[k].client != i)
    {
      if k < |w.post| { assert Belongs(w, w.post[k]); }
    }
  }

  // A new version of the draft.
  lemma WriteInv<T(!new)>(w: World<T>, version: int, value: T)
    requires Inv(w)
    ensures Inv(Write(w, version, value))
  {
    hide Sound;
    var next := Write(w, version, value);
    forall i | 0 <= i < |next.clients|
      ensures Sound(next.clients[i]) && Knows(next, next.clients[i])
    {
      assert Sound(w.clients[i]) && Knows(w, w.clients[i]);
    }
    forall k | 0 <= k < |next.post|
      ensures Belongs(next, next.post[k])
    {
      assert Belongs(w, w.post[k]);
    }
  }

  lemma ServeInv<T(!new)>(w: World<T>, k: nat, fate: Fate)
    requires Inv(w) && k < |w.post| && w.post[k].Request?
    ensures Inv(ServeRequest(w, k, fate))
  {
    hide Sound;
    var r := w.post[k];
    var applied := if fate.Served? || fate.LostAfter? then Write(w, r.version, r.snapshot) else w;
    WriteInv(w, r.version, r.snapshot);
    var next := ServeRequest(w, k, fate);
    assert Belongs(w, r);
    forall j | 0 <= j < |next.post|
      ensures Belongs(next, next.post[j])
    {
      assert Belongs(applied, applied.post[j]);
    }
  }

  lemma DeliverInv<T(!new)>(w: World<T>, k: nat)
    requires Inv(w) && Enabled(w, Step<T>.Deliver(k))
    ensures Inv(Next(w, Step<T>.Deliver(k)))
  {
    var i, post := w.post[k].client, Without(w.post, k);
    assert Belongs(w, w.post[k]);
    var c := Delivered(w.clients[i], w.post[k].answer);
    assert Sound(c) && Knows(w, c) by { assert Sound(w.clients[i]) && Knows(w, w.clients[i]); }
    hide Sound, Delivered;
    forall j | 0 <= j < |post|
      ensures post[j].client != i && Belongs(w, post[j])
    {
      var was := if j < k then j else j + 1;
      assert post[j] == w.post[was];
    }
    var next := Sending(w.(post := post), i, c);
    forall j | 0 <= j < |next.post|
      ensures Belongs(next, next.post[j])
    {
    }
  }

  lemma StepInv<T(!new)>(w: World<T>, s: Step<T>)
    requires Inv(w)
    ensures Inv(Next(w, s))
  {
    if Enabled(w, s) {
      match s
      case Open(v) => OpenInv(w, v);
      case Serve(k, fate) => ServeInv(w, k, fate);
      case Deliver(k) => DeliverInv(w, k);
      case Restore(v, value) => WriteInv(w, v, value);
      case _ => ClientInv(w, s);
    }
  }

  lemma OpenInv<T(!new)>(w: World<T>, v: int)
    requires Inv(w) && v in w.history
    ensures Inv(Next(w, Step<T>.Open(v)))
  {
    var next := Next(w, Step<T>.Open(v));
    forall k | 0 <= k < |next.post|
      ensures Belongs(next, next.post[k])
    {
      assert Belongs(w, w.post[k]);
    }
  }

  lemma ClientInv<T(!new)>(w: World<T>, s: Step<T>)
    requires Inv(w) && Enabled(w, s) && !s.Open? && !s.Serve? && !s.Deliver? && !s.Restore?
    ensures Inv(Next(w, s))
  {
    hide Inv;
    var i := s.client;
    ClientOf(w, i);
    if (s.Flush? || s.TimerFires?) && w.clients[i].flight.NoFlight? {
      SendInv(w, i, Flushed(w.clients[i]));
    } else {
      PutInv(w, i, Next(w, s).clients[i]);
    }
  }

  lemma ClientOf<T(!new)>(w: World<T>, i: nat)
    requires Inv(w) && i < |w.clients|
    ensures Sound(w.clients[i]) && Knows(w, w.clients[i])
  {
  }

  lemma {:induction false} RunInv<T(!new)>(value: T, steps: seq<Step<T>>)
    ensures Inv(Run(Begin(value), steps))
    decreases |steps|
  {
    hide Inv, Next;
    if steps == [] {
      BeginInv(value);
    } else {
      RunInv(value, steps[..|steps| - 1]);
      StepInv(Run(Begin(value), steps[..|steps| - 1]), steps[|steps| - 1]);
    }
  }

  // ----- theorems over every run -----

  /**
   * No lost update: whatever the network did, a client at the server's version has the server's value as its
   * last acknowledged one; so a save only ever overwrites what its writer had seen.
   */
  lemma NoLostUpdate<T(!new)>(value: T, steps: seq<Step<T>>, k: nat, fate: Fate)
    requires var w := Run(Begin(value), steps); k < |w.post| && w.post[k].Request?
    ensures var w, next := Run(Begin(value), steps), Next(Run(Begin(value), steps), Serve(k, fate));
      var i := w.post[k].client;
      && i < |w.clients| && w.clients[i].flight == Sent(w.post[k].snapshot, w.post[k].version)
      && (next.version != w.version ==>
            && w.value == w.clients[i].acknowledged && w.version == w.clients[i].version
            && next.version == w.version + 1 && next.value == w.post[k].snapshot)
      && (next.version == w.version ==> next.value == w.value)
  {
    RunInv(value, steps);
    var w := Run(Begin(value), steps);
    assert Belongs(w, w.post[k]);
    ClientOf(w, w.post[k].client);
  }

  lemma SameVersionSameValue<T(!new)>(value: T, steps: seq<Step<T>>, i: nat)
    requires i < |Run(Begin(value), steps).clients|
    ensures var w := Run(Begin(value), steps);
      && w.clients[i].version <= w.version
      && (w.clients[i].version == w.version ==> w.value == w.clients[i].acknowledged)
  {
    RunInv(value, steps);
    ClientOf(Run(Begin(value), steps), i);
  }

  /** At most one save of a client is outstanding, and a queue that is not dirty holds its acknowledged value. */
  lemma QueueIsSafe<T(!new)>(value: T, steps: seq<Step<T>>, i: nat)
    requires i < |Run(Begin(value), steps).clients|
    ensures var w := Run(Begin(value), steps);
      && (forall j, k | 0 <= j < |w.post| && 0 <= k < |w.post| && w.post[j].client == i && w.post[k].client == i :: j == k)
      && (!w.clients[i].dirty ==> w.clients[i].latest == w.clients[i].acknowledged)
  {
    RunInv(value, steps);
    var w := Run(Begin(value), steps);
    ClientOf(w, i);
  }

  // A step that turns the queue of client i back on, by either call, while an edit idles in it.
  predicate Strands<T>(w: World<T>, s: Step<T>, i: nat) {
    && i < |w.clients| && Idling(w.clients[i])
    && ((s.SetEnabled? && s.client == i && s.on && !w.clients[i].enabled && !w.clients[i].disposed)
        || (s.Activate? && s.client == i && w.clients[i].disposed && w.clients[i].enabled))
  }

  /** Exactly when one step strands an edit: every other call, answer and failure keeps an attended queue attended. */
  lemma StepStrands<T(!new)>(w: World<T>, s: Step<T>, i: nat)
    requires Inv(w) && i < |w.clients| && Attended(w.clients[i])
    ensures i < |Next(w, s).clients| && (Attended(Next(w, s).clients[i]) <==> !Strands(w, s, i))
  {
    ClientOf(w, i);
    hide Inv;
    if s.Deliver? && Enabled(w, s) {
      DeliverAttends(w, s.parcel, i);
    }
  }

  lemma DeliverAttends<T(!new)>(w: World<T>, k: nat, i: nat)
    requires Enabled(w, Step<T>.Deliver(k)) && i < |w.clients| && Attended(w.clients[i])
    ensures Attended(Next(w, Step<T>.Deliver(k)).clients[i])
  {
  }

  lemma OpenAttends<T(!new)>(w: World<T>, s: Step<T>, i: nat)
    requires |w.clients| <= i < |Next(w, s).clients|
    ensures Attended(Next(w, s).clients[i])
  {
  }

  // A moment of a run at which the queue of client i is on and holds an edit that nothing will save.
  predicate StrandedAt<T(==)>(value: T, steps: seq<Step<T>>, i: nat, n: nat)
    requires n <= |steps|
  {
    var w := Run(Begin(value), steps[..n]);
    i < |w.clients| && !Attended(w.clients[i])
  }

  predicate TurnedOnIdle<T(==)>(value: T, steps: seq<Step<T>>, i: nat, k: nat)
    requires k < |steps|
  {
    Strands(Run(Begin(value), steps[..k]), steps[k], i)
  }

  /**
   * No edit is stranded: over every run, with any answers, failures and outside conflicts, a queue that is on never
   * holds an unsaved edit without timer, flight or visible error, unless it was turned back on while the edit idled.
   */
  lemma {:induction false} NoEditStranded<T(!new)>(value: T, steps: seq<Step<T>>, i: nat, n: nat)
    requires n <= |steps| && forall k | 0 <= k < n :: !TurnedOnIdle(value, steps, i, k)
    ensures !StrandedAt(value, steps, i, n)
    decreases n
  {
    hide Next, Inv, Attended, Strands;
    if n > 0 {
      var w := Run(Begin(value), steps[..n - 1]);
      assert steps[..n][..n - 1] == steps[..n - 1];
      NoEditStranded(value, steps, i, n - 1);
      RunInv(value, steps[..n - 1]);
      assert !TurnedOnIdle(value, steps, i, n - 1);
      if i < |w.clients| {
        StepStrands(w, steps[n - 1], i);
      } else if i < |Next(w, steps[n - 1]).clients| {
        OpenAttends(w, steps[n - 1], i);
      }
    }
  }

  /** Over whole runs the condition is exact: an edit is stranded at some moment iff the queue was turned on over it. */
  lemma StrandedIffTurnedOnIdle<T(!new)>(value: T, steps: seq<Step<T>>, i: nat)
    ensures (exists n :: 0 <= n <= |steps| && StrandedAt(value, steps, i, n))
            <==> (exists k :: 0 <= k < |steps| && TurnedOnIdle(value, steps, i, k))
  {
    hide Next, Inv, Attended, Strands;
    if n :| 0 <= n <= |steps| && StrandedAt(value, steps, i, n) {
      if forall k | 0 <= k < n :: !TurnedOnIdle(value, steps, i, k) { NoEditStranded(value, steps, i, n); }
    }
    if k :| 0 <= k < |steps| && TurnedOnIdle(value, steps, i, k) {
      assert StrandedAt(value, steps, i, k) || StrandedAt(value, steps, i, k + 1) by { TurningStrands(value, steps, i, k); }
    }
  }

  lemma TurningStrands<T(!new)>(value: T, steps: seq<Step<T>>, i: nat, k: nat)
    requires k < |steps| && TurnedOnIdle(value, steps, i, k)
    ensures StrandedAt(value, steps, i, k) || StrandedAt(value, steps, i, k + 1)
  {
    hide Next, Inv, Attended;
    var w := Run(Begin(value), steps[..k]);
    assert steps[..k + 1][..k] == steps[..k];
    RunInv(value, steps[..k]);
    if Attended(w.clients[i]) { StepStrands(w, steps[k], i); }
  }

  // Opening, typing, and losing and regaining the right to edit before the timer fires.
  function OffAndOn<T>(b: T): seq<Step<T>> {
    [Step<T>.Open(1), Edit(0, b), Step<T>.SetEnabled(0, false), Step<T>.SetEnabled(0, true)]
  }

  /** Such runs exist: after this one the edit has no timer, no flight and no error. */
  lemma SwitchingStrands<T(!new)>(a: T, b: T)
    requires a != b
    ensures var w := Run(Begin(a), OffAndOn(b));
      && |w.clients| == 1 && !Attended(w.clients[0]) && w.clients[0].latest == b && w.clients[0].status.Unsaved?
      && w.post == [] && w.value == a
  {
    var steps := OffAndOn(b);
    var w1 := Run(Begin(a), steps[..1]);
    assert Run(Begin(a), steps[..1][..0]) == Begin(a);
    assert w1.clients == [Opened(a, 1)];
    var w2 := Run(Begin(a), steps[..2]);
    assert steps[..2][..1] == steps[..1];
    assert w2.clients == [Updated(Opened(a, 1), b)];
    var w3 := Run(Begin(a), steps[..3]);
    assert steps[..3][..2] == steps[..2];
    assert w3.clients == [Switched(w2.clients[0], false)];
    assert steps[..3] == steps[..|steps| - 1];
  }

  // A flush, its save, the answer and the cleanup.
  function SaveNow<T>(w: World<T>, i: nat): seq<Step<T>> {
    [Step<T>.Flush(i), Serve(|w.post|, Served), Step<T>.Deliver(|w.post|), Step<T>.Settle(i)]
  }

  ghost predicate Idle<T(!new)>(w: World<T>, i: nat) {
    && i < |w.clients| && w.clients[i].flight.NoFlight? && w.clients[i].enabled && !w.clients[i].disposed
    && !w.clients[i].status.Conflicted? && w.clients[i].version == w.version
  }

  /** When nothing interferes, a flush of an up-to-date client stores its latest edit and leaves the queue clean. */
  lemma FlushSaves<T(!new)>(w: World<T>, i: nat)
    requires Inv(w) && Idle(w, i) && w.clients[i].dirty
    ensures var t := Next(Next(Next(Next(w, SaveNow(w, i)[0]), SaveNow(w, i)[1]), SaveNow(w, i)[2]), SaveNow(w, i)[3]);
      && t.value == w.clients[i].latest && t.version == w.version + 1 && t.clients[i].version == t.version
      && t.clients[i].latest == t.clients[i].acknowledged == t.value
      && t.clients[i].status.Saved? && !t.clients[i].dirty && t.clients[i].flight.NoFlight? && t.post == w.post
  {
    hide Inv;
    var c, n := w.clients[i], |w.post|;
    var w1 := Next(w, Step<T>.Flush(i));
    assert w1.post == w.post + [Request(i, c.latest, c.version)] && w1.clients[i].flight == Sent(c.latest, c.version);
    var w2 := Next(w1, Serve(n, Served));
    assert w2.post == w.post + [Reply(i, Accepted(c.version + 1))];
    assert w2.value == c.latest && w2.version == w.version + 1 && w2.clients == w1.clients;
    var w3 := Next(w2, Step<T>.Deliver(n));
    assert Without(w2.post, n) == w.post;
    assert w3.clients[i].flight.Settling? && w3.post == w.post && w3.clients[i].acknowledged == c.latest;
    assert |w3.clients| == |w.clients|;
  }

  // ----- after a save that did not go through -----

  // The request k meets its fate and its client learns of the answer.
  function Told<T(==)>(w: World<T>, k: nat, fate: Fate): World<T> {
    Next(Next(w, Serve(k, fate)), Step<T>.Deliver(k))
  }

  /**
   * A save refused for another reason than its version, or lost on either way, leaves the edit and what the client
   * had acknowledged; after the cleanup the next flush sends the latest value again.
   */
  lemma FailureIsRetried<T(!new)>(w: World<T>, k: nat, fate: Fate)
    requires Inv(w) && k < |w.post| && w.post[k].Request? && fate != Served
    requires On(w.clients[w.post[k].client])
    ensures var i, told := w.post[k].client, Told(w, k, fate);
      var c, t := w.clients[i], Next(Next(told, Step<T>.Settle(i)), Step<T>.Flush(i));
      && i < |told.clients| && told.clients[i].status.Failed? && told.clients[i].dirty && !told.clients[i].timer
      && told.clients[i].latest == c.latest && told.clients[i].acknowledged == c.acknowledged
      && (t.version, t.value) == (if fate.LostAfter? && w.post[k].version == w.version
                                  then (w.version + 1, w.post[k].snapshot) else (w.version, w.value))
      && t.post == Without(w.post, k) + [Request(i, c.latest, c.version)] && t.clients[i].latest == c.latest
  {
    SenderOf(w, k);
    var i, served := w.post[k].client, Next(w, Serve(k, fate));
    ClientOf(w, i);
    hide Inv, Belongs;
    assert served.post == w.post[k := Reply(i, OtherError)] && served.clients == w.clients;
    assert Without(served.post, k) == Without(w.post, k);
  }

  /** A save from a stale version changes nothing and shows as a conflict; the edit is kept. */
  lemma StaleSaveConflicts<T(!new)>(w: World<T>, k: nat)
    requires Inv(w) && k < |w.post| && w.post[k].Request? && w.post[k].version != w.version
    ensures var i, told := w.post[k].client, Told(w, k, Served);
      && i < |told.clients| && told.clients[i].status.Conflicted? && told.clients[i].flight.Settling?
      && told.clients[i].latest == w.clients[i].latest && told.clients[i].acknowledged == w.clients[i].acknowledged
      && told.value == w.value && told.version == w.version && told.post == Without(w.post, k)
  {
    var i, served := w.post[k].client, Next(w, Serve(k, Served));
    assert Belongs(w, w.post[k]);
    assert served.post == w.post[k := Reply(i, VersionConflict)] && served.clients == w.clients;
    assert Without(served.post, k) == Without(w.post, k);
  }

  // Conflicted, with no save under way.
  predicate Blocked<T>(w: World<T>, i: nat) {
    i < |w.clients| && w.clients[i].status.Conflicted? && !w.clients[i].flight.Sent?
  }

  ghost predicate Reloads<T(!new)>(steps: seq<Step<T>>, i: nat) {
    exists k, v :: 0 <= k < |steps| && steps[k] == Step<T>.Reload(i, v)
  }

  /** After a conflict nothing of the client is in the post, whatever is edited, flushed or reported, until it reloads. */
  lemma {:induction false} ConflictBlocks<T(!new)>(w: World<T>, i: nat, steps: seq<Step<T>>)
    requires Inv(w) && Blocked(w, i) && !Reloads(steps, i)
    ensures var t := Run(w, steps);
      && Inv(t) && Blocked(t, i) && t.clients[i].acknowledged == w.clients[i].acknowledged
      && t.clients[i].version == w.clients[i].version && forall k | 0 <= k < |t.post| :: t.post[k].client != i
    decreases |steps|
  {
    hide Next;
    if steps == [] {
      assert forall k | 0 <= k < |w.post| :: Belongs(w, w.post[k]);
    } else {
      var n := |steps| - 1;
      assert !Reloads(steps[..n], i) by {
        if k, v :| 0 <= k < n && steps[..n][k] == Step<T>.Reload(i, v) { assert steps[k] == Step<T>.Reload(i, v); }
      }
      ConflictBlocks(w, i, steps[..n]);
      var t := Run(w, steps[..n]);
      StepInv(t, steps[n]);
      BlockedStep(t, i, steps[n]);
      var next := Next(t, steps[n]);
      assert forall k | 0 <= k < |next.post| :: Belongs(next, next.post[k]);
    }
  }

  lemma BlockedStep<T(!new)>(w: World<T>, i: nat, s: Step<T>)
    requires Inv(w) && Blocked(w, i) && (s.Reload? ==> s.client != i)
    ensures var t := Next(w, s);
      && Blocked(t, i) && t.clients[i].acknowledged == w.clients[i].acknowledged && t.clients[i].version == w.clients[i].version
  {
    hide Inv;
  }

  /**
   * A save that took effect but whose answer was lost is sent again from the version it no longer has: the server
   * holds the value, and the client ends in a conflict.
   */
  lemma LostReplyConflicts<T(!new)>(w: World<T>, k: nat)
    requires Inv(w) && k < |w.post| && w.post[k].Request? && w.post[k].version == w.version
    requires On(w.clients[w.post[k].client])
    ensures var i, n := w.post[k].client, |w.post| - 1;
      var retried := Next(Next(Told(w, k, LostAfter), Step<T>.Settle(i)), Step<T>.Flush(i));
      var t := Told(retried, n, Served);
      && i < |t.clients| && t.clients[i].status.Conflicted? && t.clients[i].latest == w.clients[i].latest
      && t.value == w.post[k].snapshot && t.version == w.version + 1
  {
    hide Next, Inv;
    assert Belongs(w, w.post[k]) by { SenderOf(w, k); }
    var i, n := w.post[k].client, |w.post| - 1;
    ClientOf(w, i);
    FailureIsRetried(w, k, LostAfter);
    FourSteps(w, k, i);
    var retried := Next(Next(Told(w, k, LostAfter), Step<T>.Settle(i)), Step<T>.Flush(i));
    assert retried.post[n] == Request(i, w.clients[i].latest, w.clients[i].version);
    StaleSaveConflicts(retried, n);
  }

  lemma SenderOf<T(!new)>(w: World<T>, k: nat)
    requires Inv(w) && k < |w.post|
    ensures Belongs(w, w.post[k])
  {
  }

  lemma FourSteps<T(!new)>(w: World<T>, k: nat, i: nat)
    requires Inv(w)
    ensures Inv(Next(Next(Told(w, k, LostAfter), Step<T>.Settle(i)), Step<T>.Flush(i)))
  {
    hide Inv, Next;
    StepInv(w, Serve(k, LostAfter));
    StepInv(Next(w, Serve(k, LostAfter)), Step<T>.Deliver(k));
    StepInv(Told(w, k, LostAfter), Step<T>.Settle(i));
    StepInv(Next(Told(w, k, LostAfter), Step<T>.Settle(i)), Step<T>.Flush(i));
  }
}
