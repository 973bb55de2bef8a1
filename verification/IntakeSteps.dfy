/** Intake and delivery meet in the store: what `Handle` does to it is a run of the outbox machine, so
    every theorem about runs holds with real messages arriving. */
module IntakeSteps {
  import opened Wrappers
  import opened Model
  import opened Decoder
  import opened Database
  import PF = PositionFilter
  import StoreRuns
  import Outbox
  import DrainLoop
  import opened Ingest

  function RenameSteps(s: Settings, node: uint32, user: Option<User>): seq<Outbox.Step> {
    if s.hasNodes && user.Some? then [Outbox.Rename(node, user.value.shortName, user.value.longName)] else []
  }

  /** The outbox machine's steps for one handled message: at most a rename, then at most an arrival. */
  function StepsOf(s: Settings, db: Tables, message: Message, t: Moment): seq<Outbox.Step> {
    match message
    case NodeInfo(num, user) => RenameSteps(s, num, user)
    case PacketMessage(packet) =>
      RenameSteps(s, packet.from, CarriedUser(s, packet)) + [ArriveStep(Archival(s, Remembered(s, db, message), packet, t))]
    case _ => []
  }

  function ArriveStep(op: StoreRuns.Op): Outbox.Step
    requires op.ArchiveOp?
  {
    Outbox.Arrive(op.packet, op.position, op.enqueue, op.now)
  }

  /** Handling a message is a run of intake steps, from any world of the machine. */
  lemma HandledIsRun(cfg: PF.FilterConfig, w: Outbox.World, s: Settings, message: Message, t: Moment)
    ensures var steps := StepsOf(s, w.db, message, t);
            && (forall step | step in steps :: DrainLoop.IsIntake(step))
            && Outbox.Run(cfg, w, steps) == w.(db := Handled(s, w.db, message, t))
  {
    hide Database.UpsertNode, Database.Archive, Decode, CarriedUser, Backfilled;
    var db1 := Remembered(s, w.db, message);
    match message
    case NodeInfo(num, user) => RenameRuns(cfg, w, s, num, user);
    case PacketMessage(packet) =>
      var arrive := ArriveStep(Archival(s, db1, packet, t));
      var renames := RenameSteps(s, packet.from, CarriedUser(s, packet));
      RenameRuns(cfg, w, s, packet.from, CarriedUser(s, packet));
      DrainLoop.RunAppend(cfg, w, renames, [arrive]);
      OneStep(cfg, w.(db := db1), arrive);
    case _ =>
  }

  lemma RenameRuns(cfg: PF.FilterConfig, w: Outbox.World, s: Settings, node: uint32, user: Option<User>)
    ensures Outbox.Run(cfg, w, RenameSteps(s, node, user)) == w.(db := RememberNode(s, w.db, node, user))
  {
    hide Database.UpsertNode;
    if s.hasNodes && user.Some? {
      OneStep(cfg, w, Outbox.Rename(node, user.value.shortName, user.value.longName));
    }
  }

  lemma OneStep(cfg: PF.FilterConfig, w: Outbox.World, step: Outbox.Step)
    ensures Outbox.Run(cfg, w, [step]) == Outbox.Next(cfg, w, step)
  {
    hide Outbox.Next;
    assert [step][1..] == [];
    assert Outbox.Run(cfg, Outbox.Next(cfg, w, step), []) == Outbox.Next(cfg, w, step);
  }

}
