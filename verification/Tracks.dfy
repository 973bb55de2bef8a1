/** Track reconciliation (internal/caltopo/adapter.go) against a remote map whose calls can each fail
    before or after they take effect, while anyone may delete tracks.

    `Publish` is a sequence of calls; the machine takes one call per step, so that deletions can happen
    between any two of them. */
module Tracks {
  import opened Wrappers
  import opened Model
  import opened Database

  // ------------------------------------------------------------------ identifiers

  /** `strings.TrimPrefix(sourceID, "!")`. */
  function TrimBang(s: string): string {
    if s != "" && s[0] == '!' then s[1..] else s
  }

  function DeviceID(group: string, sourceID: string): string {
    group + "-" + TrimBang(sourceID)
  }

  function FullDeviceID(deviceID: string): string {
    "FLEET:" + deviceID
  }

  /** The device a node's track carries on the remote. */
  function DeviceOf(group: string, sourceID: string): string {
    FullDeviceID(DeviceID(group, sourceID))
  }

  /** A node's device is named after the group and the eight digits of the node. */
  lemma DeviceIsNamed(group: string, node: uint32)
    ensures DeviceID(group, NodeID(node)) == group + "-" + Hex(node, 8)
    ensures DeviceOf(group, NodeID(node)) == "FLEET:" + (group + "-" + Hex(node, 8))
  {
    assert NodeID(node)[1..] == Hex(node, 8);
  }

  lemma DevicesDiffer(group: string, m: uint32, n: uint32)
    ensures DeviceID(group, NodeID(m)) == DeviceID(group, NodeID(n)) <==> m == n
    ensures DeviceOf(group, NodeID(m)) == DeviceOf(group, NodeID(n)) <==> m == n
  {
    var a, b := NodeID(m), NodeID(n);
    NodeIDInjective(m, n);
    assert DeviceID(group, a)[|group| + 1..] == a[1..] && DeviceID(group, b)[|group| + 1..] == b[1..];
    assert a == [a[0]] + a[1..] && b == [b[0]] + b[1..];
    assert DeviceOf(group, a)[6..] == DeviceID(group, a) && DeviceOf(group, b)[6..] == DeviceID(group, b);
    hide NodeID;
  }

  // ------------------------------------------------------------------ the machine

  datatype Feature = Feature(id: string, deviceID: string)

  /** What an update of a track shows. */
  datatype Point = Point(latitude: int, longitude: int, altitude: Option<int>)

  /** The live tracks of the map in listing order, every track id ever handed out with its device, and the
      last update of each track. */
  datatype Remote = Remote(live: seq<Feature>, issued: map<string, string>, updates: map<string, Point>)

  datatype Outcome = Ok | NotFound | FailBefore | FailAfter

  /** Where `Publish` stands; `again` marks the second round after the remote did not know the track. */
  datatype Pc =
    | Idle
    | Opening
    | LookingUp
    | Listing(again: bool)
    | Adding(again: bool)
    | Saving(again: bool, trackID: string)
    | Updating(again: bool, trackID: string)

  datatype World = World(
    remote: Remote,
    open: bool,          // the client has the configured map open
    db: Tables,
    pc: Pc,
    sourceID: string,
    point: Point,        // what Publish is to show
    published: bool,     // how the last Publish ended
    violated: bool)      // SaveTrack hit a UNIQUE constraint

  datatype Action =
    | Begin(node: uint32, point: Point)
    | Call(outcome: Outcome, newID: string)
    | Delete(trackID: string)

  function FindTrack(live: seq<Feature>, deviceID: string): (id: Option<string>)
    ensures id.None? ==> forall i | 0 <= i < |live| :: live[i].deviceID != deviceID
    ensures id.Some? ==> Feature(id.value, deviceID) in live
  {
    if live == [] then None
    else if live[0].deviceID == deviceID then Some(live[0].id)
    else FindTrack(live[1..], deviceID)
  }

  function Without(live: seq<Feature>, trackID: string): seq<Feature> {
    if live == [] then []
    else if live[0].id == trackID then Without(live[1..], trackID)
    else [live[0]] + Without(live[1..], trackID)
  }

  function Fail(w: World): World {
    w.(pc := Idle, published := false)
  }

  /** The remote never hands out an id twice, deleted tracks included. */
  function AddTrack(r: Remote, id: string, deviceID: string): (r': Remote)
    ensures r'.updates == r.updates
  {
    r.(live := r.live + [Feature(id, deviceID)], issued := r.issued[id := deviceID])
  }

  function UpdateTrack(r: Remote, id: string, point: Point): Remote {
    r.(updates := r.updates[id := point])
  }

  function Call1(group: string, w: World, outcome: Outcome, newID: string): World {
    match w.pc
    case Idle => w
    case Opening =>
      if w.open then w.(pc := LookingUp)
      else if outcome.Ok? then w.(open := true, pc := LookingUp)
      else Fail(w.(open := outcome.FailAfter?))
    case LookingUp =>
      if !outcome.Ok? then Fail(w)
      else
        var known := TrackID(w.db, w.sourceID);
        w.(pc := if known.Some? then Updating(false, known.value) else Listing(false))
    case Listing(again) =>
      if !outcome.Ok? then Fail(w)
      else
        var found := FindTrack(w.remote.live, DeviceOf(group, w.sourceID));
        w.(pc := if found.Some? then Saving(again, found.value) else Adding(again))
    case Adding(again) =>
      if !(outcome.Ok? || outcome.FailAfter?) || newID in w.remote.issued then Fail(w)
      else
        var w' := w.(remote := AddTrack(w.remote, newID, DeviceOf(group, w.sourceID)));
        if outcome.Ok? then w'.(pc := Saving(again, newID)) else Fail(w')
    case Saving(again, trackID) =>
      if !(outcome.Ok? || outcome.FailAfter?) then Fail(w)
      else
        var saved := SaveTrack(w.db, w.sourceID, DeviceID(group, w.sourceID), trackID);
        if saved.None? then Fail(w).(violated := true)
        else if outcome.Ok? then w.(db := saved.value, pc := Updating(again, trackID))
        else Fail(w.(db := saved.value))
    case Updating(again, trackID) =>
      var shown := w.(remote := UpdateTrack(w.remote, trackID, w.point));
      if outcome.Ok? then shown.(pc := Idle, published := true)
      else if outcome.FailAfter? then Fail(shown)
      else if outcome.NotFound? && !again then w.(pc := Listing(true))
      else Fail(w)
  }

  function Step(group: string, w: World, action: Action): World {
    match action
    case Begin(node, point) => if w.pc.Idle? then w.(pc := Opening, sourceID := NodeID(node), point := point) else w
    case Call(outcome, newID) => Call1(group, w, outcome, newID)
    case Delete(trackID) => w.(remote := w.remote.(live := Without(w.remote.live, trackID)))
  }

  function Run(group: string, w: World, actions: seq<Action>): World
    decreases |actions|
  {
    if actions == [] then w else Run(group, Step(group, w, actions[0]), actions[1..])
  }

  // ------------------------------------------------------------------ the invariant

  /** At most one live track per device, each with the id it was created under. */
  predicate UniqueTracks(r: Remote) {
    && (forall i, j | 0 <= i < j < |r.live| :: r.live[i].deviceID != r.live[j].deviceID && r.live[i].id != r.live[j].id)
    && (forall t | t in r.live :: t.id in r.issued && r.issued[t.id] == t.deviceID)
  }

  /** The track was created for this source. */
  predicate CreatedFor(r: Remote, group: string, trackID: string, sourceID: string) {
    trackID in r.issued && r.issued[trackID] == DeviceOf(group, sourceID)
  }

  ghost predicate IsSource(s: string) {
    exists node: uint32 :: s == NodeID(node)
  }

  /** Every stored mapping belongs to a node and names a track created for that node. */
  ghost predicate MappingsOK(group: string, r: Remote, tracks: map<string, TrackRow>) {
    forall s | s in tracks ::
      IsSource(s) && tracks[s].deviceID == DeviceID(group, s) && CreatedFor(r, group, tracks[s].trackID, s)
  }

  ghost predicate PcOK(group: string, w: World) {
    match w.pc
    case Idle => true
    case Opening => IsSource(w.sourceID)
    case LookingUp => IsSource(w.sourceID)
    case Listing(_) => IsSource(w.sourceID)
    case Adding(_) =>
      IsSource(w.sourceID) && forall t | t in w.remote.live :: t.deviceID != DeviceOf(group, w.sourceID)
    case Saving(_, trackID) => IsSource(w.sourceID) && CreatedFor(w.remote, group, trackID, w.sourceID)
    case Updating(_, trackID) =>
      IsSource(w.sourceID) && CreatedFor(w.remote, group, trackID, w.sourceID)
      && w.sourceID in w.db.tracks && w.db.tracks[w.sourceID].trackID == trackID
  }

  ghost predicate TracksOK(group: string, w: World) {
    UniqueTracks(w.remote) && MappingsOK(group, w.remote, w.db.tracks) && PcOK(group, w) && !w.violated
  }

  lemma SourcesDiffer(group: string, s: string, t: string)
    requires IsSource(s) && IsSource(t) && s != t
    ensures DeviceID(group, s) != DeviceID(group, t) && DeviceOf(group, s) != DeviceOf(group, t)
  {
    var m: uint32 :| s == NodeID(m);
    var n: uint32 :| t == NodeID(n);
    DevicesDiffer(group, m, n);
    hide NodeID, DeviceID, DeviceOf;
  }

  lemma {:induction false} WithoutSubset(live: seq<Feature>, trackID: string)
    ensures forall t | t in Without(live, trackID) :: t in live && t.id != trackID
    ensures forall t | t in live && t.id != trackID :: t in Without(live, trackID)
  {
    if live != [] {
      WithoutSubset(live[1..], trackID);
    }
  }

  lemma {:induction false} WithoutUnique(live: seq<Feature>, issued: map<string, string>, updates: map<string, Point>,
                                         trackID: string)
    requires UniqueTracks(Remote(live, issued, updates))
    ensures UniqueTracks(Remote(Without(live, trackID), issued, updates))
  {
    if live != [] {
      var tail := live[1..];
      assert UniqueTracks(Remote(tail, issued, updates)) by {
        assert forall t | t in tail :: t in live;
      }
      WithoutUnique(tail, issued, updates, trackID);
      WithoutSubset(tail, trackID);
      if live[0].id != trackID {
        var rest := Without(tail, trackID);
        forall j | 0 <= j < |rest| ensures live[0].deviceID != rest[j].deviceID && live[0].id != rest[j].id {
          assert rest[j] in tail;
        }
      }
    }
  }

  /** Saving never meets another source's device or track. */
  lemma NoConflict(group: string, w: World, trackID: string)
    requires MappingsOK(group, w.remote, w.db.tracks) && IsSource(w.sourceID)
    requires CreatedFor(w.remote, group, trackID, w.sourceID)
    ensures !TrackConflict(w.db, w.sourceID, DeviceID(group, w.sourceID), trackID)
  {
    forall s | s in w.db.tracks && s != w.sourceID
      ensures w.db.tracks[s].deviceID != DeviceID(group, w.sourceID) && w.db.tracks[s].trackID != trackID
    {
      SourcesDiffer(group, s, w.sourceID);
    }
    hide DeviceID, DeviceOf, IsSource;
  }

  /** A track is added only for a device that no live track carries. */
  lemma AddKeeps(group: string, w: World, newID: string)
    requires TracksOK(group, w) && w.pc.Adding? && newID !in w.remote.issued
    ensures var r := AddTrack(w.remote, newID, DeviceOf(group, w.sourceID));
            UniqueTracks(r) && MappingsOK(group, r, w.db.tracks) && CreatedFor(r, group, newID, w.sourceID)
  {
    hide IsSource, DeviceID, DeviceOf;
    var r := AddTrack(w.remote, newID, DeviceOf(group, w.sourceID));
    forall i | 0 <= i < |w.remote.live| ensures r.live[i].id != newID {
      assert w.remote.live[i] in w.remote.live;
    }
  }

  lemma AddingKeeps(group: string, w: World, outcome: Outcome, newID: string)
    requires TracksOK(group, w) && w.pc.Adding?
    ensures TracksOK(group, Call1(group, w, outcome, newID))
  {
    hide IsSource, DeviceID, DeviceOf, FindTrack, AddTrack, UniqueTracks, MappingsOK, SaveTrack;
    if newID !in w.remote.issued {
      AddKeeps(group, w, newID);
    }
  }

  lemma SavingKeeps(group: string, w: World, outcome: Outcome, newID: string)
    requires TracksOK(group, w) && w.pc.Saving?
    ensures TracksOK(group, Call1(group, w, outcome, newID))
  {
    hide IsSource, DeviceID, DeviceOf, FindTrack, AddTrack, UniqueTracks;
    NoConflict(group, w, w.pc.trackID);
  }

  lemma UpdatingKeeps(group: string, w: World, outcome: Outcome, newID: string)
    requires TracksOK(group, w) && w.pc.Updating?
    ensures TracksOK(group, Call1(group, w, outcome, newID))
  {
    hide IsSource, DeviceID, DeviceOf, FindTrack, AddTrack, SaveTrack;
  }

  lemma CallKeeps(group: string, w: World, outcome: Outcome, newID: string)
    requires TracksOK(group, w)
    ensures TracksOK(group, Call1(group, w, outcome, newID))
  {
    hide TracksOK, Call1;
    match w.pc
    case Adding(_) => AddingKeeps(group, w, outcome, newID);
    case Saving(_, _) => SavingKeeps(group, w, outcome, newID);
    case Updating(_, _) => UpdatingKeeps(group, w, outcome, newID);
    case _ => LookingKeeps(group, w, outcome, newID);
  }

  lemma LookingKeeps(group: string, w: World, outcome: Outcome, newID: string)
    requires TracksOK(group, w) && !w.pc.Adding? && !w.pc.Saving? && !w.pc.Updating?
    ensures TracksOK(group, Call1(group, w, outcome, newID))
  {
    hide IsSource, DeviceID, DeviceOf, FindTrack, AddTrack, SaveTrack;
  }

  lemma DeleteKeeps(group: string, w: World, trackID: string)
    requires TracksOK(group, w)
    ensures TracksOK(group, Step(group, w, Delete(trackID)))
  {
    WithoutUnique(w.remote.live, w.remote.issued, w.remote.updates, trackID);
    WithoutSubset(w.remote.live, trackID);
    hide IsSource, DeviceID, DeviceOf, UniqueTracks;
  }

  lemma StepKeeps(group: string, w: World, action: Action)
    requires TracksOK(group, w)
    ensures TracksOK(group, Step(group, w, action))
  {
    match action
    case Begin(node, _) => hide NodeID, UniqueTracks; assert IsSource(NodeID(node)); hide IsSource, DeviceID, DeviceOf;
    case Call(outcome, newID) => CallKeeps(group, w, outcome, newID);
    case Delete(trackID) => DeleteKeeps(group, w, trackID);
  }

  /** Across any Publish calls, deletions and failures, the remote keeps at most one track per device,
      each stored mapping names a track created for its own source, and SaveTrack never violates a UNIQUE
      column. */
  lemma {:induction false} TrackUniqueness(group: string, w: World, actions: seq<Action>)
    requires TracksOK(group, w)
    ensures TracksOK(group, Run(group, w, actions))
    decreases |actions|
  {
    hide TracksOK, Step;
    if actions != [] {
      StepKeeps(group, w, actions[0]);
      TrackUniqueness(group, Step(group, w, actions[0]), actions[1..]);
    }
  }

  /** The theorem starts anywhere: no mappings yet, and a map whose tracks the bridge created, at most one
      for each device. */
  lemma FreshStart(group: string, w: World)
    requires UniqueTracks(w.remote) && w.db.tracks == map[] && w.pc.Idle? && !w.violated
    ensures TracksOK(group, w)
  {
  }

  /** So it holds of every run on an empty map with an empty database. */
  lemma UniqueFromScratch(group: string, w: World, actions: seq<Action>)
    requires w.remote.live == [] && w.db == EMPTY && w.pc.Idle? && !w.violated
    ensures TracksOK(group, Run(group, w, actions))
  {
    FreshStart(group, w);
    TrackUniqueness(group, w, actions);
  }
}
