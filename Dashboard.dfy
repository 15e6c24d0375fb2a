/** The farm monitoring dashboard: two sensor nodes polled from ThingSpeak
    channels, the time of the last node-2 reading, and the two progress
    flags that decide between the loading screen, the "updating" banner and
    the plain dashboard.

    One refresh cycle (`fetchData`) is modelled as four steps, one per
    stretch of code between two `await`s: start (raise a flag), node 1,
    node 2, and the `finally` block.  The network is abstracted into the
    `Response` each fetch produced. */
module Dashboard {
  import opened Wrappers

  /** One ThingSpeak feed entry: four sensor fields, each possibly null,
      and the time the entry was created. */
  datatype Feed = Feed(
    field1: Option<string>,
    field2: Option<string>,
    field3: Option<string>,
    field4: Option<string>,
    createdAt: string)

  /** What fetching one channel and parsing its JSON produced: an exception
      (network failure, a body that is not JSON, a `null` body), or a parsed
      object whose `feeds` property may be missing. */
  datatype Response = Threw | Parsed(feeds: Option<seq<Feed>>)

  /** The component's five state cells. */
  datatype Snapshot = Snapshot(
    node1: Option<Feed>,
    node2: Option<Feed>,
    lastUpdated: string,
    loading: bool,
    updating: bool)

  /** The state at mount: no readings, no time, the loading flag raised. */
  const Initial := Snapshot(None, None, "", true, false)

  // ----- One refresh cycle, step by step ------------------------------------

  /** `json.feeds && json.feeds.length > 0 ? json.feeds[0] : nothing`: the
      feed a parsed response delivers, if any. */
  function Delivered(r: Response): (f: Option<Feed>)
    ensures f.Some? <==> r.Parsed? && r.feeds.Some? && |r.feeds.value| > 0
    ensures f.Some? ==> f.value == r.feeds.value[0]
  {
    if r.Parsed? && r.feeds.Some? && |r.feeds.value| > 0 then Some(r.feeds.value[0]) else None
  }

  /** Start of `fetchData`: raise `loading` when both nodes, as the function
      sees them, are null, and `updating` otherwise. */
  function Begin(s: Snapshot, seen1: Option<Feed>, seen2: Option<Feed>): (t: Snapshot)
    ensures t.node1 == s.node1 && t.node2 == s.node2 && t.lastUpdated == s.lastUpdated
    ensures seen1.None? && seen2.None? ==> t.loading && t.updating == s.updating
    ensures seen1.Some? || seen2.Some? ==> t.updating && t.loading == s.loading
  {
    if seen1.None? && seen2.None? then s.(loading := true) else s.(updating := true)
  }

  /** Node 1's parsed response: a delivered feed replaces the stored
      reading as a whole; otherwise the reading is kept. */
  function ApplyNode1(s: Snapshot, r: Response): (t: Snapshot)
    ensures t.node1 == if Delivered(r).Some? then Delivered(r) else s.node1
    ensures t.node2 == s.node2 && t.lastUpdated == s.lastUpdated
    ensures t.loading == s.loading && t.updating == s.updating
  {
    match Delivered(r)
    case Some(f) => s.(node1 := Some(f))
    case None => s
  }

  /** Node 2's parsed response: a delivered feed replaces the stored
      reading and sets `lastUpdated` to its formatted creation time;
      otherwise both are kept. */
  function ApplyNode2(s: Snapshot, r: Response, formatTime: string -> string): (t: Snapshot)
    ensures t.node2 == if Delivered(r).Some? then Delivered(r) else s.node2
    ensures t.lastUpdated == if Delivered(r).Some? then formatTime(Delivered(r).value.createdAt) else s.lastUpdated
    ensures t.node1 == s.node1 && t.loading == s.loading && t.updating == s.updating
  {
    match Delivered(r)
    case Some(f) => s.(node2 := Some(f), lastUpdated := formatTime(f.createdAt))
    case None => s
  }

  /** The `finally` block: both flags lowered. */
  function Finish(s: Snapshot): (t: Snapshot)
    ensures !t.loading && !t.updating
    ensures t.node1 == s.node1 && t.node2 == s.node2 && t.lastUpdated == s.lastUpdated
  {
    s.(loading := false, updating := false)
  }

  /** The two responses of one cycle. */
  datatype Round = Round(r1: Response, r2: Response)

  /** A whole `fetchData` call.  The two fetches sit in one `try`: a throw
      for node 1 skips node 2; a throw for node 2 keeps what node 1 did.
      Field by field: node 1 follows its own response; node 2 and the time
      follow node 2's response only when node 1's fetch did not throw; both
      flags end lowered whatever happened. */
  function Cycle(s: Snapshot, seen1: Option<Feed>, seen2: Option<Feed>, round: Round, formatTime: string -> string): (t: Snapshot)
    ensures !t.loading && !t.updating
    ensures t.node1 == if Delivered(round.r1).Some? then Delivered(round.r1) else s.node1
    ensures t.node2 == if round.r1.Parsed? && Delivered(round.r2).Some? then Delivered(round.r2) else s.node2
    ensures t.lastUpdated ==
      if round.r1.Parsed? && Delivered(round.r2).Some?
      then formatTime(Delivered(round.r2).value.createdAt) else s.lastUpdated
  {
    var started := Begin(s, seen1, seen2);
    if round.r1.Threw? then Finish(started)
    else
      var after1 := ApplyNode1(started, round.r1);
      if round.r2.Threw? then Finish(after1)
      else Finish(ApplyNode2(after1, round.r2, formatTime))
  }

  /** A throw for node 1 leaves every reading and the time as they were. */
  lemma Node1ThrowSkipsEverything(s: Snapshot, seen1: Option<Feed>, seen2: Option<Feed>, round: Round, formatTime: string -> string)
    requires round.r1.Threw?
    ensures var t := Cycle(s, seen1, seen2, round, formatTime);
      t.node1 == s.node1 && t.node2 == s.node2 && t.lastUpdated == s.lastUpdated
  {
  }

  /** A throw for node 2 keeps the node 1 update already applied. */
  lemma Node2ThrowKeepsNode1(s: Snapshot, seen1: Option<Feed>, seen2: Option<Feed>, round: Round, formatTime: string -> string)
    requires round.r1.Parsed? && round.r2.Threw?
    ensures var t := Cycle(s, seen1, seen2, round, formatTime);
      && t.node1 == (if Delivered(round.r1).Some? then Delivered(round.r1) else s.node1)
      && t.node2 == s.node2 && t.lastUpdated == s.lastUpdated
  {
  }

  // ----- Rendering ------------------------------------------------------------

  /** `loading && !node1 && !node2`: the page shows the loading screen
      instead of the dashboard. */
  predicate ShowLoadingScreen(s: Snapshot)
  {
    s.loading && s.node1.None? && s.node2.None?
  }

  /** Some node holds a reading. */
  predicate HasData(s: Snapshot)
  {
    s.node1.Some? || s.node2.Some?
  }

  /** `value ?? "--"`: only a null or absent value is replaced; an empty
      string is shown as it is. */
  function Display(value: Option<string>): (text: string)
    ensures value.None? ==> text == "--"
    ensures value.Some? ==> text == value.value
  {
    match value
    case None => "--"
    case Some(v) => v
  }

  /** The `node?.fieldN` a row of the node card receives. */
  function FieldOf(node: Option<Feed>, n: nat): Option<string>
    requires 1 <= n <= 4
  {
    match node
    case None => None
    case Some(f) =>
      if n == 1 then f.field1 else if n == 2 then f.field2 else if n == 3 then f.field3 else f.field4
  }

  /** The four values a node card shows (temperature, pH level, water
      level, light), each with the `"--"` fallback. */
  function NodeReadings(node: Option<Feed>): (shown: seq<string>)
    ensures |shown| == 4
    ensures node.None? ==> shown == ["--", "--", "--", "--"]
    ensures forall i :: 0 <= i < 4 ==> shown[i] == Display(FieldOf(node, i + 1))
  {
    [Display(FieldOf(node, 1)), Display(FieldOf(node, 2)), Display(FieldOf(node, 3)), Display(FieldOf(node, 4))]
  }

  const WaitingForData := "Waiting for data..."

  /** `lastUpdated || "Waiting for data..."`: the empty string is falsy and
      replaced. */
  function LastUpdatedText(lastUpdated: string): (text: string)
    ensures lastUpdated == "" ==> text == WaitingForData
    ensures lastUpdated != "" ==> text == lastUpdated
  {
    if lastUpdated == "" then WaitingForData else lastUpdated
  }

  /** The two fallbacks differ on the empty string: a sensor value `""` is
      shown empty, a time `""` is replaced. */
  lemma FallbacksDifferOnEmpty()
    ensures Display(Some("")) == ""
    ensures LastUpdatedText("") == WaitingForData
  {
  }

  /** The loading screen is shown exactly while `loading` is raised and no
      node has a reading; once a node has one, the dashboard is shown even
      while a refresh is under way. */
  lemma LoadingScreenIffNoData(s: Snapshot)
    ensures ShowLoadingScreen(s) <==> s.loading && !HasData(s)
    ensures HasData(s) ==> !ShowLoadingScreen(s)
  {
  }

  // ----- Polling ----------------------------------------------------------------

  /** Polling as written: the interval calls the `fetchData` captured at
      mount, whose `node1`/`node2` are the mount-time nulls, so every cycle
      takes the `loading` branch. */
  function Run(s: Snapshot, rounds: seq<Round>, formatTime: string -> string): Snapshot
    decreases |rounds|
  {
    if rounds == [] then s
    else Run(Cycle(s, None, None, rounds[0], formatTime), rounds[1..], formatTime)
  }

  /** One more round at the end is one more cycle after the others. */
  lemma {:induction false} RunSnoc(s: Snapshot, rounds: seq<Round>, last: Round, formatTime: string -> string)
    ensures Run(s, rounds + [last], formatTime) == Cycle(Run(s, rounds, formatTime), None, None, last, formatTime)
    decreases |rounds|
  {
    if rounds != [] {
      assert (rounds + [last])[1..] == rounds[1..] + [last];
      RunSnoc(Cycle(s, None, None, rounds[0], formatTime), rounds[1..], last, formatTime);
    }
  }

  /** The node-1 feed of the most recent round that delivered one. */
  function LatestNode1(rounds: seq<Round>): Option<Feed>
  {
    if rounds == [] then None
    else if Delivered(rounds[|rounds| - 1].r1).Some? then Delivered(rounds[|rounds| - 1].r1)
    else LatestNode1(rounds[..|rounds| - 1])
  }

  /** The node-2 feed of the most recent round that delivered one while its
      node-1 fetch did not throw. */
  function LatestNode2(rounds: seq<Round>): Option<Feed>
  {
    if rounds == [] then None
    else
      var last := rounds[|rounds| - 1];
      if last.r1.Parsed? && Delivered(last.r2).Some? then Delivered(last.r2)
      else LatestNode2(rounds[..|rounds| - 1])
  }

  /** After any number of cycles each node shows the most recent feed its
      channel delivered, or its earlier reading if none did; readings are
      never cleared. */
  lemma {:induction false} RunShowsLatestFeeds(s: Snapshot, rounds: seq<Round>, formatTime: string -> string)
    ensures var t := Run(s, rounds, formatTime);
      && t.node1 == (if LatestNode1(rounds).Some? then LatestNode1(rounds) else s.node1)
      && t.node2 == (if LatestNode2(rounds).Some? then LatestNode2(rounds) else s.node2)
    decreases |rounds|
  {
    if rounds != [] {
      var init, last := rounds[..|rounds| - 1], rounds[|rounds| - 1];
      assert rounds == init + [last];
      RunSnoc(s, init, last, formatTime);
      RunShowsLatestFeeds(s, init, formatTime);
    }
  }

  /** `lastUpdated` is the formatted creation time of the stored node-2
      reading, and empty while there is none. */
  predicate TimeMatchesNode2(s: Snapshot, formatTime: string -> string)
  {
    match s.node2
    case None => s.lastUpdated == ""
    case Some(f) => s.lastUpdated == formatTime(f.createdAt)
  }

  /** Polling from mount keeps the time tied to node 2: node 1's responses
      never change it. */
  lemma {:induction false} RunKeepsTimeWithNode2(s: Snapshot, rounds: seq<Round>, formatTime: string -> string)
    requires TimeMatchesNode2(s, formatTime)
    ensures TimeMatchesNode2(Run(s, rounds, formatTime), formatTime)
    decreases |rounds|
  {
    if rounds != [] {
      var next := Cycle(s, None, None, rounds[0], formatTime);
      RunKeepsTimeWithNode2(next, rounds[1..], formatTime);
    }
  }

  /** Polling from mount: every cycle starts on the `loading` branch, so
      the "updating" banner never appears, and the loading screen comes
      back at the start of a cycle exactly when no node has a reading yet. */
  lemma {:induction false} StaleClosureStart(s: Snapshot, rounds: seq<Round>, formatTime: string -> string)
    requires !s.updating
    ensures var t := Run(s, rounds, formatTime);
      && !t.updating
      && var started := Begin(t, None, None);
         !started.updating && (ShowLoadingScreen(started) <==> !HasData(t))
    decreases |rounds|
  {
    if rounds != [] {
      StaleClosureStart(Cycle(s, None, None, rounds[0], formatTime), rounds[1..], formatTime);
    }
  }

  /** Once some round has delivered a node-1 or node-2 feed, the loading
      screen is never shown again, at any later cycle start or end. */
  lemma NoLoadingScreenAfterData(s: Snapshot, rounds: seq<Round>, formatTime: string -> string)
    requires LatestNode1(rounds).Some? || LatestNode2(rounds).Some? || HasData(s)
    ensures HasData(Run(s, rounds, formatTime))
    ensures !ShowLoadingScreen(Run(s, rounds, formatTime))
    ensures !ShowLoadingScreen(Begin(Run(s, rounds, formatTime), None, None))
  {
    RunShowsLatestFeeds(s, rounds, formatTime);
  }

  // ----- The component ------------------------------------------------------------

  /** The dashboard component's state cells and its refresh cycle. */
  class DashboardState {
    var node1: Option<Feed>
    var node2: Option<Feed>
    var lastUpdated: string
    var loading: bool
    var updating: bool

    /** The cells as one value. */
    function Snap(): Snapshot
      reads this
    {
      Snapshot(node1, node2, lastUpdated, loading, updating)
    }

    constructor ()
      ensures Snap() == Initial
    {
      node1, node2, lastUpdated, loading, updating := None, None, "", true, false;
    }

    /** `if (!node1 && !node2) setLoading(true) else setUpdating(true)`,
        with the nodes as `fetchData` sees them. */
    method StartCycle(seen1: Option<Feed>, seen2: Option<Feed>)
      modifies this
      ensures Snap() == Begin(old(Snap()), seen1, seen2)
    {
      if seen1.None? && seen2.None? {
        loading := true;
      } else {
        updating := true;
      }
    }

    /** After `res1.json()`: store `feeds[0]` when there is one. */
    method ReceiveNode1(r: Response)
      requires r.Parsed?
      modifies this
      ensures Snap() == ApplyNode1(old(Snap()), r)
    {
      if r.feeds.Some? && |r.feeds.value| > 0 {
        node1 := Some(r.feeds.value[0]);
      }
    }

    /** After `res2.json()`: store `feeds[0]` and its formatted time when
        there is one. */
    method ReceiveNode2(r: Response, formatTime: string -> string)
      requires r.Parsed?
      modifies this
      ensures Snap() == ApplyNode2(old(Snap()), r, formatTime)
    {
      if r.feeds.Some? && |r.feeds.value| > 0 {
        var feed := r.feeds.value[0];
        node2 := Some(feed);
        lastUpdated := formatTime(feed.createdAt);
      }
    }

    /** The `finally` block. */
    method EndCycle()
      modifies this
      ensures Snap() == Finish(old(Snap()))
    {
      loading := false;
      updating := false;
    }

    /** `fetchData`: the `try` runs the start step and the two nodes in
        order, leaving at the first throw; `finally` lowers both flags. */
    method FetchData(seen1: Option<Feed>, seen2: Option<Feed>, round: Round, formatTime: string -> string)
      modifies this
      ensures Snap() == Cycle(old(Snap()), seen1, seen2, round, formatTime)
      ensures !loading && !updating
    {
      StartCycle(seen1, seen2);
      if round.r1.Parsed? {
        ReceiveNode1(round.r1);
        if round.r2.Parsed? {
          ReceiveNode2(round.r2, formatTime);
        }
      }
      EndCycle();
    }
  }
}
