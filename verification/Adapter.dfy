/** `Adapter.Publish` and its helpers (internal/caltopo/adapter.go), proved against the machine of `Tracks`. */
module Adapters {
  import opened Wrappers
  import opened Model
  import Text
  import Database
  import opened Stores
  import opened Tracks

  /** The surroundings of one remote or store call: tracks deleted just before it, how it ends, and the
      id the remote would give a new track. */
  datatype Weather = Weather(deleted: seq<string>, outcome: Outcome, newID: string)

  function Deletions(remote: Remote, deleted: seq<string>): (r: Remote)
    ensures r.issued == remote.issued && r.updates == remote.updates
    decreases |deleted|
  {
    if deleted == [] then remote
    else Deletions(remote.(live := Without(remote.live, deleted[0])), deleted[1..])
  }

  /** One call of the machine under given surroundings. */
  function Advance(group: string, w: World, weather: Weather): World {
    Call1(group, w.(remote := Deletions(w.remote, weather.deleted)), weather.outcome, weather.newID)
  }

  /** `Publish` makes calls until it returns. */
  function Finish(group: string, w: World, weather: seq<Weather>): World
    decreases |weather|
  {
    if w.pc.Idle? || weather == [] then w else Finish(group, Advance(group, w, weather[0]), weather[1..])
  }

  const MAX_CALLS := 10

  // ------------------------------------------------------------------ Publish is a run of the machine

  function DeleteActions(deleted: seq<string>): seq<Action> {
    seq(|deleted|, i requires 0 <= i < |deleted| => Delete(deleted[i]))
  }

  function Actions(group: string, w: World, weather: seq<Weather>): seq<Action>
    decreases |weather|
  {
    if w.pc.Idle? || weather == [] then []
    else
      DeleteActions(weather[0].deleted) + [Call(weather[0].outcome, weather[0].newID)]
      + Actions(group, Advance(group, w, weather[0]), weather[1..])
  }

  lemma {:induction false} RunAppend(group: string, w: World, a: seq<Action>, b: seq<Action>)
    ensures Run(group, w, a + b) == Run(group, Run(group, w, a), b)
    decreases |a|
  {
    hide Step;
    if a == [] {
      assert a + b == b;
    } else {
      assert (a + b)[1..] == a[1..] + b;
      RunAppend(group, Step(group, w, a[0]), a[1..], b);
    }
  }

  lemma {:induction false} RunDeletions(group: string, w: World, deleted: seq<string>)
    ensures Run(group, w, DeleteActions(deleted)) == w.(remote := Deletions(w.remote, deleted))
    decreases |deleted|
  {
    if deleted != [] {
      assert DeleteActions(deleted)[1..] == DeleteActions(deleted[1..]);
      RunDeletions(group, Step(group, w, Delete(deleted[0])), deleted[1..]);
    }
  }

  /** Every theorem about runs of the machine speaks of `Publish`. */
  lemma {:induction false} FinishIsRun(group: string, w: World, weather: seq<Weather>)
    ensures Finish(group, w, weather) == Run(group, w, Actions(group, w, weather))
    decreases |weather|
  {
    hide Call1;
    if !w.pc.Idle? && weather != [] {
      var deletes, call := DeleteActions(weather[0].deleted), [Call(weather[0].outcome, weather[0].newID)];
      var w1 := w.(remote := Deletions(w.remote, weather[0].deleted));
      var w2 := Advance(group, w, weather[0]);
      var rest := Actions(group, w2, weather[1..]);
      calc {
        Run(group, w, deletes + call + rest);
        { RunAppend(group, w, deletes + call, rest); RunAppend(group, w, deletes, call); }
        Run(group, Run(group, Run(group, w, deletes), call), rest);
        { RunDeletions(group, w, weather[0].deleted); assert Run(group, w1, call) == w2; }
        Run(group, w2, rest);
        { FinishIsRun(group, w2, weather[1..]); }
        Finish(group, w2, weather[1..]);
      }
    }
  }

  // ------------------------------------------------------------------ the remote service

  datatype RemoteError = RemoteFailure | TrackNotFound

  class Client {
    var state: Remote
    var mapID: string    // the open map, or "" for none

    constructor (state: Remote)
      ensures this.state == state && mapID == ""
    {
      this.state, mapID := state, "";
    }

    method OpenMap(id: string, weather: Weather) returns (err: Option<RemoteError>)
      modifies this
      ensures state == Deletions(old(state), weather.deleted)
      ensures mapID == if weather.outcome.Ok? || weather.outcome.FailAfter? then id else old(mapID)
      ensures err == if weather.outcome.Ok? then None else Some(RemoteFailure)
    {
      state := Deletions(state, weather.deleted);
      if weather.outcome.Ok? || weather.outcome.FailAfter? {
        mapID := id;
      }
      return if weather.outcome.Ok? then None else Some(RemoteFailure);
    }

    method GetFeatures(weather: Weather) returns (r: Result<seq<Feature>, RemoteError>)
      modifies `state
      ensures state == Deletions(old(state), weather.deleted)
      ensures r == if weather.outcome.Ok? then Success(state.live) else Failure(RemoteFailure)
    {
      state := Deletions(state, weather.deleted);
      return if weather.outcome.Ok? then Success(state.live) else Failure(RemoteFailure);
    }

    method AddLiveTrack(deviceID: string, weather: Weather) returns (r: Result<string, RemoteError>)
      modifies `state
      ensures var before := Deletions(old(state), weather.deleted);
              var added := (weather.outcome.Ok? || weather.outcome.FailAfter?) && weather.newID !in before.issued;
              && state == (if added then AddTrack(before, weather.newID, FullDeviceID(deviceID)) else before)
              && r == (if added && weather.outcome.Ok? then Success(weather.newID) else Failure(RemoteFailure))
    {
      state := Deletions(state, weather.deleted);
      if !(weather.outcome.Ok? || weather.outcome.FailAfter?) || weather.newID in state.issued {
        return Failure(RemoteFailure);
      }
      state := AddTrack(state, weather.newID, FullDeviceID(deviceID));
      return if weather.outcome.Ok? then Success(weather.newID) else Failure(RemoteFailure);
    }

    /** The track shows the point if the call takes effect; no other track's last update changes. */
    method UpdateLiveTrack(trackID: string, point: Point, weather: Weather) returns (err: Option<RemoteError>)
      modifies `state
      ensures state == var before := Deletions(old(state), weather.deleted);
                       if weather.outcome.Ok? || weather.outcome.FailAfter?
                       then before.(updates := before.updates[trackID := point]) else before
      ensures err == match weather.outcome
                     case Ok => None
                     case NotFound => Some(TrackNotFound)
                     case _ => Some(RemoteFailure)
    {
      state := Deletions(state, weather.deleted);
      if weather.outcome.Ok? || weather.outcome.FailAfter? {
        state := state.(updates := state.updates[trackID := point]);
      }
      match weather.outcome
      case Ok => return None;
      case NotFound => return Some(TrackNotFound);
      case _ => return Some(RemoteFailure);
    }
  }

  // ------------------------------------------------------------------ the adapter

  class Adapter {
    const group: string
    const mapID: string
    const client: Client
    const store: Store

    constructor (group: string, mapID: string, client: Client, store: Store)
      ensures this.group == group && this.mapID == mapID && this.client == client && this.store == store
    {
      this.group, this.mapID, this.client, this.store := group, mapID, client, store;
    }

    /** The machine's world around the adapter's objects. */
    ghost function At(pc: Pc, sourceID: string, point: Point, published: bool, violated: bool): World
      reads client, store
    {
      World(client.state, client.mapID == mapID, store.db, pc, sourceID, point, published, violated)
    }

    /** A store call: the surroundings apply, then the database answers. `FailAfter` saves and still fails. */
    method SaveTrack(sourceID: string, deviceID: string, trackID: string, weather: Weather)
      returns (saved: bool, conflict: bool)
      modifies client`state, store
      ensures client.state == Deletions(old(client.state), weather.deleted)
      ensures var tried := weather.outcome.Ok? || weather.outcome.FailAfter?;
              var r := Database.SaveTrack(old(store.db), sourceID, deviceID, trackID);
              && conflict == (tried && r.None?)
              && saved == (weather.outcome.Ok? && r.Some?)
              && store.db == if tried && r.Some? then r.value else old(store.db)
    {
      client.state := Deletions(client.state, weather.deleted);
      saved, conflict := false, false;
      if weather.outcome.Ok? || weather.outcome.FailAfter? {
        var err := store.SaveTrack(sourceID, deviceID, trackID, false);
        conflict := err.Some?;
        saved := err.None? && weather.outcome.Ok?;
      }
    }

    /** `ensureOpen`: on success the configured map is open. A map that is open already is not opened again,
        and then nothing can fail. */
    method EnsureOpen(weather: Weather) returns (ok: bool)
      modifies client
      ensures client.state == Deletions(old(client.state), weather.deleted)
      ensures ok <==> old(client.mapID) == mapID || weather.outcome.Ok?
      ensures ok ==> client.mapID == mapID
      ensures old(client.mapID) == mapID ==> client.mapID == old(client.mapID)
      ensures client.mapID == mapID || client.mapID == old(client.mapID)
      ensures !ok ==> (client.mapID == mapID <==> weather.outcome.FailAfter?)
    {
      if client.mapID == mapID {
        client.state := Deletions(client.state, weather.deleted);
        return true;
      }
      var err := client.OpenMap(mapID, weather);
      return err.None?;
    }

    method TrackID(sourceID: string, weather: Weather) returns (r: Result<Option<string>, StoreError>)
      modifies client`state
      ensures client.state == Deletions(old(client.state), weather.deleted)
      ensures r == if weather.outcome.Ok? then Success(Database.TrackID(store.db, sourceID)) else Failure(IoError)
    {
      client.state := Deletions(client.state, weather.deleted);
      r := store.TrackID(sourceID, !weather.outcome.Ok?);
    }

    /** `reconcileOrCreate`: adopt the device's track if the map has one, otherwise create it. `rest` is
        what remains of the surroundings. */
    method ReconcileOrCreate(sourceID: string, ws: seq<Weather>, ghost w: World)
      returns (r: Option<string>, rest: seq<Weather>)
      requires |ws| >= 2 && w.pc.Listing? && w == At(w.pc, sourceID, w.point, w.published, w.violated)
      modifies client`state
      ensures |rest| >= |ws| - 2 && client.state.updates == old(client.state.updates)
      ensures Finish(group, w, ws) == Finish(group, At(if r.Some? then Saving(w.pc.again, r.value) else Idle, sourceID,
                                                       w.point, r.Some? && w.published, w.violated), rest)
    {
      hide Finish, Deletions, DeviceID, FullDeviceID, Database.TrackID, Database.SaveTrack, AddTrack, UpdateTrack;
      var deviceID := DeviceID(group, sourceID);
      FinishNext(group, w, ws);
      var features := client.GetFeatures(ws[0]);
      ghost var w1 := Advance(group, w, ws[0]);
      rest := ws[1..];
      if features.Failure? {
        return None, rest;
      }
      var found := FindTrack(features.value, FullDeviceID(deviceID));
      if found.Some? {
        return found, rest;
      }
      FinishNext(group, w1, rest);
      var created := client.AddLiveTrack(deviceID, rest[0]);
      rest := rest[1..];
      if created.Failure? {
        return None, rest;
      }
      return Some(created.value), rest;
    }

    /** `createAndSaveTrack`. */
    method CreateAndSaveTrack(sourceID: string, ws: seq<Weather>, ghost w: World)
      returns (r: Option<string>, rest: seq<Weather>, conflict: bool)
      requires |ws| >= 3 && w.pc.Listing? && w == At(w.pc, sourceID, w.point, w.published, w.violated)
      modifies client`state, store
      ensures |rest| >= |ws| - 3 && client.state.updates == old(client.state.updates)
      ensures r.Some? ==> sourceID in store.db.tracks && store.db.tracks[sourceID].trackID == r.value
      ensures Finish(group, w, ws) == Finish(group, At(if r.Some? then Updating(w.pc.again, r.value) else Idle, sourceID,
                                                       w.point, r.Some? && w.published, conflict || w.violated), rest)
    {
      hide FindTrack, Deletions, FullDeviceID;
      r, rest := ReconcileOrCreate(sourceID, ws, w);
      if r.None? {
        return None, rest, false;
      }
      ghost var w1 := At(Saving(w.pc.again, r.value), sourceID, w.point, w.published, w.violated);
      FinishNext(group, w1, rest);
      var saved;
      saved, conflict := SaveTrack(sourceID, DeviceID(group, sourceID), r.value, rest[0]);
      rest := rest[1..];
      if !saved {
        return None, rest, conflict;
      }
    }

    /** The middle of `Publish`: the stored track, or one reconciled and saved. */
    method StoredOrCreated(sourceID: string, ws: seq<Weather>, ghost w: World)
      returns (r: Option<string>, rest: seq<Weather>, conflict: bool)
      requires |ws| >= 4 && w == At(LookingUp, sourceID, w.point, false, w.violated)
      modifies client`state, store
      ensures |rest| >= |ws| - 4 && client.state.updates == old(client.state.updates)
      ensures r.Some? ==> sourceID in store.db.tracks && store.db.tracks[sourceID].trackID == r.value
      ensures Finish(group, w, ws) == Finish(group, At(if r.Some? then Updating(false, r.value) else Idle, sourceID,
                                                       w.point, false, conflict || w.violated), rest)
    {
      hide Finish, FindTrack, Deletions, FullDeviceID, DeviceID, AddTrack, UpdateTrack, Database.SaveTrack, DeviceOf;
      FinishNext(group, w, ws);
      var known := TrackID(sourceID, ws[0]);
      rest := ws[1..];
      if known.Failure? {
        return None, rest, false;
      }
      if known.value.Some? {
        return known.value, rest, false;
      }
      r, rest, conflict := CreateAndSaveTrack(sourceID, rest, At(Listing(false), sourceID, w.point, false, w.violated));
    }

    /** The end of `Publish`: update the track, and recreate it once if the map does not know it. */
    method UpdateOrRecreate(sourceID: string, trackID: string, point: Point, ws: seq<Weather>, ghost w: World,
                            before: bool)
      returns (published: bool, conflict: bool)
      requires |ws| >= 5 && w == At(Updating(false, trackID), sourceID, point, false, w.violated)
      requires sourceID in store.db.tracks && store.db.tracks[sourceID].trackID == trackID
      requires before ==> w.violated
      modifies client`state, store
      ensures Finish(group, w, ws) == At(Idle, sourceID, point, published, conflict || w.violated)
      ensures before ==> conflict
      ensures OnlyOwnTrackShows(old(client.state.updates), sourceID, point, published)
    {
      hide Finish, FindTrack, Deletions, FullDeviceID, NodeID, DeviceID;
      FinishNext(group, w, ws);
      var err := client.UpdateLiveTrack(trackID, point, ws[0]);
      var rest := ws[1..];
      conflict := before;
      if err != Some(TrackNotFound) {
        FinishIdle(group, At(Idle, sourceID, point, err.None?, w.violated), rest);
        return err.None?, conflict;
      }
      ghost var w1 := At(Listing(true), sourceID, point, false, w.violated);
      var newID, again;
      newID, rest, again := CreateAndSaveTrack(sourceID, rest, w1);
      conflict := again || before;
      if newID.None? {
        FinishIdle(group, At(Idle, sourceID, point, false, conflict || w.violated), rest);
        return false, conflict;
      }
      FinishNext(group, At(Updating(true, newID.value), sourceID, point, false, conflict || w.violated), rest);
      err := client.UpdateLiveTrack(newID.value, point, rest[0]);
      FinishIdle(group, At(Idle, sourceID, point, err.None?, conflict || w.violated), rest[1..]);
      return err.None?, conflict;
    }

    /** No track but the one stored for the source was updated, and that one shows the point if publishing
        succeeded. */
    ghost predicate OnlyOwnTrackShows(before: map<string, Point>, sourceID: string, point: Point, published: bool)
      reads client, store
    {
      var shown := sourceID in store.db.tracks && client.state.updates == before[store.db.tracks[sourceID].trackID := point];
      shown || (!published && client.state.updates == before)
    }

    /** `Publish` ends idle, in the world the machine reaches. If it succeeds, the track stored for the node
        was last updated to this position; no other track's last update changes in any case. */
    method Publish(position: Position, ws: seq<Weather>, ghost violated: bool) returns (published: bool, conflict: bool)
      requires |ws| >= MAX_CALLS
      modifies client, store
      ensures var sourceID := NodeID(position.sourceNode);
              var point := Point(position.latitude, position.longitude, position.altitude);
              && At(Idle, sourceID, point, published, conflict || violated)
                 == Finish(group, Step(group, old(At(Idle, sourceID, point, false, violated)),
                                       Begin(position.sourceNode, point)), ws)
              && OnlyOwnTrackShows(old(client.state.updates), sourceID, point, published)
              && (published ==> sourceID in store.db.tracks
                                && store.db.tracks[sourceID].trackID in client.state.updates
                                && client.state.updates[store.db.tracks[sourceID].trackID] == point)
    {
      hide Finish, FindTrack, Deletions, FullDeviceID, NodeID, DeviceID, AddTrack, UpdateTrack, Database.SaveTrack, DeviceOf;
      var sourceID := position.SourceID();
      var point := Point(position.latitude, position.longitude, position.altitude);
      ghost var w := At(Opening, sourceID, point, false, violated);
      FinishNext(group, w, ws);
      var open := EnsureOpen(ws[0]);
      var rest := ws[1..];
      if !open {
        FinishIdle(group, At(Idle, sourceID, point, false, violated), rest);
        return false, false;
      }
      var trackID;
      trackID, rest, conflict := StoredOrCreated(sourceID, rest, At(LookingUp, sourceID, point, false, violated));
      if trackID.None? {
        FinishIdle(group, At(Idle, sourceID, point, false, conflict || violated), rest);
        return false, conflict;
      }
      published, conflict := UpdateOrRecreate(sourceID, trackID.value, point, rest,
                                              At(Updating(false, trackID.value), sourceID, point, false, conflict || violated),
                                              conflict);
    }
  }

  lemma FinishIdle(group: string, w: World, ws: seq<Weather>)
    requires w.pc.Idle?
    ensures Finish(group, w, ws) == w
  {
  }

  lemma FinishNext(group: string, w: World, ws: seq<Weather>)
    requires !w.pc.Idle? && ws != []
    ensures Finish(group, w, ws) == Finish(group, Advance(group, w, ws[0]), ws[1..])
  {
  }

  // ------------------------------------------------------------------ an honest remote recovers

  predicate IsLive(r: Remote, trackID: string) {
    exists t :: t in r.live && t.id == trackID
  }

  /** Nothing fails and nobody deletes; only a track that is not live is reported as not found. */
  predicate Honest(w: World, weather: Weather) {
    && weather.deleted == []
    && weather.newID !in w.remote.issued
    && weather.outcome == if w.pc.Updating? && !IsLive(w.remote, w.pc.trackID) then NotFound else Ok
  }

  predicate HonestRun(group: string, w: World, ws: seq<Weather>)
    decreases |ws|
  {
    w.pc.Idle? || ws == [] || (Honest(w, ws[0]) && HonestRun(group, Advance(group, w, ws[0]), ws[1..]))
  }

  /** The call succeeded, the stored mapping names a live track of the node's device, and that track shows
      the point. */
  predicate Settled(group: string, w: World) {
    && w.pc.Idle? && w.published
    && w.sourceID in w.db.tracks
    && Feature(w.db.tracks[w.sourceID].trackID, DeviceOf(group, w.sourceID)) in w.remote.live
    && w.db.tracks[w.sourceID].trackID in w.remote.updates
    && w.remote.updates[w.db.tracks[w.sourceID].trackID] == w.point
  }

  lemma AdvanceKeeps(group: string, w: World, ws: seq<Weather>)
    requires TracksOK(group, w) && !w.pc.Idle? && ws != [] && HonestRun(group, w, ws)
    ensures Advance(group, w, ws[0]) == Call1(group, w, ws[0].outcome, ws[0].newID)
    ensures TracksOK(group, Advance(group, w, ws[0])) && HonestRun(group, Advance(group, w, ws[0]), ws[1..])
    ensures Finish(group, w, ws) == Finish(group, Advance(group, w, ws[0]), ws[1..])
  {
    assert w.(remote := Deletions(w.remote, [])) == w;
    CallKeeps(group, w, ws[0].outcome, ws[0].newID);
    hide Call1, TracksOK;
  }

  lemma UpdateSettles(group: string, w: World, ws: seq<Weather>)
    requires TracksOK(group, w) && w.pc.Updating? && IsLive(w.remote, w.pc.trackID)
    requires |ws| >= 1 && HonestRun(group, w, ws)
    ensures Settled(group, Finish(group, w, ws))
  {
    AdvanceKeeps(group, w, ws);
    hide DeviceOf;
    var t :| t in w.remote.live && t.id == w.pc.trackID;
    assert t == Feature(w.pc.trackID, DeviceOf(group, w.sourceID));
    FinishIdle(group, Advance(group, w, ws[0]), ws[1..]);
  }

  lemma SaveSettles(group: string, w: World, ws: seq<Weather>)
    requires TracksOK(group, w) && w.pc.Saving? && IsLive(w.remote, w.pc.trackID)
    requires |ws| >= 2 && HonestRun(group, w, ws)
    ensures Settled(group, Finish(group, w, ws))
  {
    AdvanceKeeps(group, w, ws);
    NoConflict(group, w, w.pc.trackID);
    hide TracksOK, HonestRun, Finish, DeviceOf, DeviceID, Settled;
    UpdateSettles(group, Advance(group, w, ws[0]), ws[1..]);
  }

  lemma ListSettles(group: string, w: World, ws: seq<Weather>)
    requires TracksOK(group, w) && w.pc.Listing?
    requires |ws| >= 4 && HonestRun(group, w, ws)
    ensures Settled(group, Finish(group, w, ws))
  {
    AdvanceKeeps(group, w, ws);
    var w1 := Advance(group, w, ws[0]);
    if w1.pc.Saving? {
      assert Feature(w1.pc.trackID, DeviceOf(group, w.sourceID)) in w1.remote.live;
      SaveSettles(group, w1, ws[1..]);
    } else {
      AdvanceKeeps(group, w1, ws[1..]);
      var w2 := Advance(group, w1, ws[1]);
      assert Honest(w1, ws[1]);
      hide TracksOK, HonestRun, Finish, DeviceOf, DeviceID, Settled, FindTrack;
      assert w2.remote.live[|w1.remote.live|] == Feature(ws[1].newID, DeviceOf(group, w1.sourceID));
      assert w2.pc.Saving? && w2.pc.trackID == ws[1].newID;
      SaveSettles(group, w2, ws[1..][1..]);
    }
  }

  lemma AdvanceKeepsPoint(group: string, w: World, weather: Weather)
    ensures Advance(group, w, weather).point == w.point && Advance(group, w, weather).sourceID == w.sourceID
  {
    hide FindTrack, DeviceID, DeviceOf, Database.SaveTrack, Database.TrackID, Deletions, AddTrack, UpdateTrack;
  }

  lemma {:induction false} FinishKeepsPoint(group: string, w: World, ws: seq<Weather>)
    ensures Finish(group, w, ws).point == w.point && Finish(group, w, ws).sourceID == w.sourceID
    decreases |ws|
  {
    hide Advance;
    if !w.pc.Idle? && ws != [] {
      AdvanceKeepsPoint(group, w, ws[0]);
      FinishKeepsPoint(group, Advance(group, w, ws[0]), ws[1..]);
    }
  }

  lemma LookupSettles(group: string, w: World, ws: seq<Weather>)
    requires TracksOK(group, w) && w.pc.LookingUp?
    requires |ws| >= 6 && HonestRun(group, w, ws)
    ensures Settled(group, Finish(group, w, ws))
  {
    AdvanceKeeps(group, w, ws);
    assert Honest(w, ws[0]);
    var w1, rest := Advance(group, w, ws[0]), ws[1..];
    hide DeviceOf, DeviceID, Settled, FindTrack, HonestRun, Finish, TracksOK;
    if w1.pc.Listing? {
      ListSettles(group, w1, rest);
    } else {
      UpdatingSettles(group, w1, rest);
    }
  }

  /** A stored mapping whose track is gone is replaced on the way. */
  lemma UpdatingSettles(group: string, w: World, ws: seq<Weather>)
    requires TracksOK(group, w) && w.pc.Updating? && !w.pc.again
    requires |ws| >= 5 && HonestRun(group, w, ws)
    ensures Settled(group, Finish(group, w, ws))
  {
    if IsLive(w.remote, w.pc.trackID) {
      UpdateSettles(group, w, ws);
    } else {
      AdvanceKeeps(group, w, ws);
      assert Honest(w, ws[0]);
      ListSettles(group, Advance(group, w, ws[0]), ws[1..]);
    }
    hide DeviceOf, DeviceID, Settled, FindTrack;
  }

  /** Whatever earlier failures and deletions left behind, one undisturbed Publish succeeds and leaves the
      node mapped to a live track of its own device that shows the position. */
  lemma PublishRecovers(group: string, w: World, ws: seq<Weather>)
    requires TracksOK(group, w) && w.pc.Opening?
    requires |ws| >= MAX_CALLS && HonestRun(group, w, ws)
    ensures Settled(group, Finish(group, w, ws)) && Finish(group, w, ws).point == w.point
  {
    AdvanceKeeps(group, w, ws);
    FinishKeepsPoint(group, w, ws);
    assert Honest(w, ws[0]);
    hide DeviceOf, DeviceID, Settled, FindTrack, HonestRun, Finish, TracksOK;
    LookupSettles(group, Advance(group, w, ws[0]), ws[1..]);
  }
}
