/** The state machine of `EnvironmentManager` on values: one function per
    operation, and the runs they generate. */
module ManagerModel {
  import opened Prelude
  import opened SnapshotTree
  import opened Deciders
  import opened Benchmark
  import opened Decimal

  datatype Image = Image(name: string)

  type Cost = c: real | 0.0 <= c witness 0.0

  /** What one command does to the environment: the state it leaves, whether the
      backend raised, the return code, the output and the time it took. */
  datatype Outcome<+S> =
    Outcome(after: S, raised: bool, rc: int, out: string, err: string, elapsed: Cost)

  /** The fixed part of a manager: how the environment reacts to commands, the
      snapshot policy and the image name prefix. */
  datatype World<!S> = World(run: (S, Command) -> Outcome<S>, decider: Decider, prefix: string)

  /** The manager's fields plus the environment they steer: the image store and
      the state of the live environment. */
  datatype State<+S> = State(
    graph: Graph,
    last: Option<Id>,
    current: Option<Id>,
    log: seq<Command>,
    cum: real,
    stats: Ledger,
    snapshots: map<Id, Image>,
    store: map<Image, S>,
    live: S,
    cleanedUp: bool)

  // ---------- commands ----------

  /** The state after running commands one by one. */
  function RunAll<S>(w: World<S>, s: S, cmds: seq<Command>): S {
    if cmds == [] then s else w.run(RunAll(w, s, cmds[..|cmds| - 1]), cmds[|cmds| - 1]).after
  }

  /** The time a command adds to the cumulative counter: nothing if it raises. */
  function Charge<S>(o: Outcome<S>): (c: real)
    ensures 0.0 <= c <= o.elapsed
  {
    if o.raised then 0.0 else o.elapsed
  }

  /** The counted time of running commands one by one. */
  function CostOf<S>(w: World<S>, s: S, cmds: seq<Command>): (c: real)
    ensures 0.0 <= c
  {
    if cmds == [] then 0.0
    else
      var n := |cmds| - 1;
      CostOf(w, s, cmds[..n]) + Charge(w.run(RunAll(w, s, cmds[..n]), cmds[n]))
  }

  /** The triple `exec_command` returns. */
  datatype Reply = Reply(rc: int, out: string, err: string)

  function ReplyOf<S>(o: Outcome<S>): Reply {
    if o.raised then Reply(-1, "", o.err) else Reply(o.rc, o.out, o.err)
  }

  /** Python's truth test on an optional id: the empty string counts as absent. */
  function Truthy(x: Option<Id>): Option<Id> {
    if x.Some? && x.value.text == "" then None else x
  }

  function Exec<S>(w: World<S>, s: State<S>, cmd: Command): State<S> {
    var o := w.run(s.live, cmd);
    s.(live := o.after,
       cum := s.cum + Charge(o),
       stats := Add(s.stats, EXEC, Truthy(s.current), o.elapsed),
       log := s.log + [cmd])
  }

  function ExecAll<S>(w: World<S>, s: State<S>, cmds: seq<Command>): State<S> {
    if cmds == [] then s else Exec(w, ExecAll(w, s, cmds[..|cmds| - 1]), cmds[|cmds| - 1])
  }

  lemma ExecAllOne<S>(w: World<S>, s: State<S>, cmds: seq<Command>, cmd: Command)
    ensures ExecAll(w, s, cmds + [cmd]) == Exec(w, ExecAll(w, s, cmds), cmd)
  {
    assert (cmds + [cmd])[..|cmds|] == cmds;
  }

  // ---------- snapshot ----------

  /** The chance a snapshot depends on: the random policy's coin, the clock in
      milliseconds, and the backend's new id and time, or its failure. */
  datatype Luck = Luck(coin: bool, ms: nat, commit: Option<(Id, Cost)>)

  function ImageName<S>(w: World<S>, id: Id): Image {
    Image(w.prefix + ":" + id.text)
  }

  predicate TakesPhysical<S>(w: World<S>, s: State<S>, luck: Luck) {
    Decide(w.decider, s.cum, luck.coin)
  }

  /** The id `snapshot` returns. */
  function NewId<S>(w: World<S>, s: State<S>, luck: Luck): Option<Id> {
    if !TakesPhysical(w, s, luck) then Some(Id(VirtualId(luck.ms)))
    else if luck.commit.Some? then Some(luck.commit.value.0)
    else None
  }

  function NewNode<S>(w: World<S>, s: State<S>, luck: Luck): Node
    requires NewId(w, s, luck).Some?
  {
    var id := NewId(w, s, luck).value;
    if TakesPhysical(w, s, luck) then Node(id, Truthy(s.last), [], false, [])
    else Node(id, Truthy(s.last), [], true, s.log)
  }

  function Snapshot<S>(w: World<S>, s: State<S>, luck: Luck): State<S> {
    var id := NewId(w, s, luck);
    if id.None? then s
    else
      var t := s.(graph := Attach(s.graph, NewNode(w, s, luck)), log := [], last := id, cleanedUp := false);
      if TakesPhysical(w, s, luck) then
        t.(stats := Add(s.stats, SNAPSHOT, id, luck.commit.value.1),
           cum := 0.0,
           snapshots := s.snapshots[id.value := ImageName(w, id.value)],
           store := s.store[ImageName(w, id.value) := s.live])
      else t
  }

  // ---------- restore and create ----------

  /** The chance of starting an environment: success and its time, or the state
      a failed start leaves behind. */
  datatype Launch<+S> = Launch(ok: bool, elapsed: Cost, left: S)

  /** The registry knows the id, so the backend is asked. */
  predicate Launchable<S>(s: State<S>, id: Id) {
    id in s.snapshots && s.snapshots[id].name != ""
  }

  predicate Launches<S>(s: State<S>, id: Id, launch: Launch<S>) {
    Launchable(s, id) && launch.ok && s.snapshots[id] in s.store
  }

  function LiveAfter<S>(s: State<S>, id: Id, launch: Launch<S>): S {
    if Launches(s, id, launch) then s.store[s.snapshots[id]]
    else if Launchable(s, id) then launch.left
    else s.live
  }

  function CreateEnv<S>(s: State<S>, id: Id, launch: Launch<S>): State<S> {
    var t := s.(live := LiveAfter(s, id, launch));
    if Launches(s, id, launch) then
      t.(stats := Add(s.stats, CONTAINER, Some(id), launch.elapsed), current := Some(id), cleanedUp := false)
    else t
  }

  /** `restore` returns true. */
  predicate Restores<S>(s: State<S>, id: Id, launch: Launch<S>)
    requires Ranked(s.graph)
  {
    id in s.graph.nodes && Anchor(s.graph, id).Some? && Launches(s, Anchor(s.graph, id).value, launch)
  }

  function Restore<S>(w: World<S>, s: State<S>, id: Id, launch: Launch<S>): State<S>
    requires Ranked(s.graph)
  {
    if id !in s.graph.nodes || Anchor(s.graph, id).None? then s
    else
      var top := Anchor(s.graph, id).value;
      var t := s.(live := LiveAfter(s, top, launch));
      if Launches(s, top, launch) then
        var u := t.(stats := Add(s.stats, RESTORE, Some(top), launch.elapsed));
        ExecAll(w, u, Replay(s.graph, id)).(current := Some(id), last := Some(id), log := [])
      else t
  }

  // ---------- cleanup ----------

  function Cleanup<S>(s: State<S>, liveGone: S): State<S> {
    s.(snapshots := map[], store := s.store - s.snapshots.Values, live := liveGone, cleanedUp := true)
  }

  // ---------- runs ----------

  /** The operations of the interactive shell, each with its chance. */
  datatype Op<+S> =
    | DoSnapshot(luck: Luck)
    | DoRestore(id: Id, launch: Launch<S>)
    | DoStep(luck: Luck, launch: Launch<S>)
    | DoCmd(cmd: Command)

  function Next<S>(w: World<S>, s: State<S>, op: Op<S>): State<S>
    requires Ranked(s.graph)
  {
    match op
    case DoSnapshot(luck) => Snapshot(w, s, luck)
    case DoRestore(id, launch) => Restore(w, s, id, launch)
    case DoStep(luck, launch) =>
      var t := Snapshot(w, s, luck);
      var id := NewId(w, s, luck);
      if id.Some? then CreateEnv(t, id.value, launch) else t
    case DoCmd(cmd) => Exec(w, s, cmd)
  }

  /** The id of the root snapshot. */
  const BASE := Id("base")

  /** A manager attached to a running container: one physical root named "base". */
  function Attached<S>(w: World<S>, tag: Id, images: map<Image, S>, live: S): State<S> {
    State(Graph(map[BASE := Node(BASE, None, [], false, [])], [BASE]), Some(BASE), Some(BASE), [], 0.0, Ledger(0, []),
          map[BASE := ImageName(w, tag)], images, live, false)
  }
}
