/** The save protocol of the in-memory provider under interleavings: changes of the map, the
    periodic save, start and stop (inmemoryprovider.go with lifecycle/lifecycle.go).
    `Image` is the content of the job map. */
module SaveProtocol {

  /** Who saves: the loop, at a tick or for the last time, or a stop that found no loop. */
  datatype Owner = Tick | Final | ByStop(caller: nat)

  /** How far the save under way is; it holds the mutex of the saves. */
  datatype Saver =
    | Free
    | Entered(owner: Owner)
    | Loaded(owner: Owner, g: nat)              // the generation was read
    | Copied(owner: Owner, g: nat, at: nat)     // the map was copied
    | Written(owner: Owner, g: nat)             // the file was replaced

  datatype Loop = NotRun | Selecting | Saving | Ending(ok: bool) | Over(ok: bool)

  /** A call of Stop: what it read of the loop, how many changes there were then, and what it answers:
      `ok` is true when it returns no error. A Stop that found a loop always answers without an error;
      the error of the last save of the loop goes to the caller of Run (`ok` of the loop). */
  datatype StopCall =
    | Called(began: bool, at: nat)
    | Waiting(began: bool, at: nat)             // the channel is closed
    | Returned(began: bool, at: nat, ok: bool)

  /** `history` holds every content the map ever had, the last one being the present one; the file
      holds one of them. `firstStop` is how many changes there were when Stop was first called. */
  datatype System<Image> = System(
    history: seq<Image>,
    fileAt: nat,
    generation: nat,
    savedGeneration: nat,
    inFlight: nat,             // changes of the map not yet counted by the generation
    saver: Saver,
    started: bool,
    stopped: bool,
    stopClosed: bool,
    doneClosed: bool,
    begun: nat,                // how often Begin returned true
    loop: Loop,
    firstStop: nat,
    stops: map<nat, StopCall>)

  function Present<Image>(s: System<Image>): Image
    requires s.history != []
  {
    s.history[|s.history| - 1]
  }

  function File<Image>(s: System<Image>): Image
    requires s.fileAt < |s.history|
  {
    s.history[s.fileAt]
  }

  datatype Move<Image> =
    | Change(image: Image)     // the map changes
    | Count                    // a change is counted
    | Announce                 // an event that changes nothing is counted
    | Begin
    | SyncTick                 // the loop saves if the generation moved
    | Leave                    // the loop sees the stop and saves for the last time
    | LoadGeneration
    | CopyMap
    | Write
    | FailWrite(replaced: bool)
    | FinishSave
    | End
    | CallStop(caller: nat)
    | CloseStop(caller: nat)
    | SaveInStop(caller: nat)
    | ReturnFromStop(caller: nat)

  ghost predicate CanMove<Image>(s: System<Image>, m: Move<Image>) {
    match m
    case Change(_) => true
    case Count => s.inFlight > 0
    case Announce => true
    case Begin => true
    case SyncTick => s.loop == Selecting && s.saver == Free
    case Leave => s.loop == Selecting && s.saver == Free && s.stopClosed
    case LoadGeneration => s.saver.Entered?
    case CopyMap => s.saver.Loaded?
    case Write => s.saver.Copied?
    case FailWrite(_) => s.saver.Copied?
    case FinishSave => s.saver.Written?
    case End => s.loop.Ending?
    case CallStop(c) => c !in s.stops
    case CloseStop(c) => c in s.stops && s.stops[c].Called?
    case SaveInStop(c) => c in s.stops && s.stops[c].Waiting? && !s.stops[c].began && s.saver == Free
    case ReturnFromStop(c) => c in s.stops && s.stops[c].Waiting? && s.stops[c].began && s.doneClosed
  }

  /** The save is over: its owner goes on. */
  function Released<Image>(s: System<Image>, ok: bool): System<Image>
    requires !s.saver.Free?
  {
    var s1 := s.(saver := Free);
    match s.saver.owner
    case Tick => s1.(loop := Selecting)
    case Final => s1.(loop := Ending(ok))
    case ByStop(c) => if c in s.stops then s1.(stops := s.stops[c := Returned(false, s.stops[c].at, ok)]) else s1
  }

  ghost function After<Image>(s: System<Image>, m: Move<Image>): System<Image>
    requires CanMove(s, m)
  {
    match m
    case Change(image) => s.(history := s.history + [image], inFlight := s.inFlight + 1)
    case Count => s.(inFlight := s.inFlight - 1, generation := s.generation + 1)
    case Announce => s.(generation := s.generation + 1)
    case Begin => if s.started || s.stopped then s else s.(started := true, begun := s.begun + 1, loop := Selecting)
    case SyncTick => if s.generation == s.savedGeneration then s else s.(saver := Entered(Tick), loop := Saving)
    case Leave => s.(saver := Entered(Final), loop := Saving)
    case LoadGeneration => s.(saver := Loaded(s.saver.owner, s.generation))
    case CopyMap => if s.history == [] then s else s.(saver := Copied(s.saver.owner, s.saver.g, |s.history| - 1))
    case Write => s.(saver := Written(s.saver.owner, s.saver.g), fileAt := s.saver.at)
    case FailWrite(replaced) => Released(s.(fileAt := if replaced then s.saver.at else s.fileAt), false)
    case FinishSave => Released(s.(savedGeneration := s.saver.g), true)
    case End => s.(loop := Over(s.loop.ok), doneClosed := true)
    case CallStop(c) => s.(stopped := true,
                           firstStop := if s.stopped || s.history == [] then s.firstStop else |s.history| - 1,
                           stops := s.stops[c := Called(s.started, if s.history == [] then 0 else |s.history| - 1)])
    case CloseStop(c) => s.(stopClosed := true, stops := s.stops[c := Waiting(s.stops[c].began, s.stops[c].at)])
    case SaveInStop(c) => s.(saver := Entered(ByStop(c)))
    case ReturnFromStop(c) => s.(stops := s.stops[c := Returned(true, s.stops[c].at, true)])
  }

  /** The provider when its jobs were loaded: the map is what the file holds. */
  ghost predicate JustLoaded<Image>(s: System<Image>) {
    && |s.history| == 1 && s.fileAt == 0 && s.generation == s.savedGeneration && s.inFlight == 0 && s.saver == Free
    && !s.started && !s.stopped && !s.stopClosed && !s.doneClosed && s.begun == 0 && s.loop == NotRun
    && s.firstStop == 0 && s.stops == map[]
  }

  /** The i-th move leads from the i-th state to the next. */
  ghost predicate MoveAt<Image>(ss: seq<System<Image>>, ms: seq<Move<Image>>, i: nat)
    requires i < |ms| && |ss| == |ms| + 1
  {
    CanMove(ss[i], ms[i]) && ss[i + 1] == After(ss[i], ms[i])
  }

  ghost predicate IsRun<Image>(ss: seq<System<Image>>, ms: seq<Move<Image>>) {
    && |ss| == |ms| + 1 && JustLoaded(ss[0])
    && forall i :: 0 <= i < |ms| ==> MoveAt(ss, ms, i)
  }

  // ---------- the invariants ----------

  /** Nothing changed since the generation `g` was read. */
  predicate Quiet<Image>(s: System<Image>, g: nat) {
    s.generation == g && s.inFlight == 0
  }

  /** The generations tell whether the file is up to date. */
  ghost predicate Tracked<Image>(s: System<Image>) {
    var last := |s.history| - 1;
    && 0 <= s.fileAt <= last && s.savedGeneration <= s.generation
    && (Quiet(s, s.savedGeneration) ==> s.fileAt == last)
    && match s.saver
       case Free => true
       case Entered(_) => true
       case Loaded(_, g) => s.savedGeneration <= g <= s.generation
       case Copied(_, g, at) =>
         s.savedGeneration <= g <= s.generation && s.fileAt <= at <= last && (Quiet(s, g) ==> at == last)
       case Written(_, g) => s.savedGeneration <= g <= s.generation && (Quiet(s, g) ==> s.fileAt == last)
  }

  /** The moves of the save under way. */
  predicate SaverMove<Image>(m: Move<Image>) {
    m.LoadGeneration? || m.CopyMap? || m.Write? || m.FailWrite? || m.FinishSave?
  }

  /** The moves that end it. */
  predicate EndsSave<Image>(m: Move<Image>) {
    m.FailWrite? || m.FinishSave?
  }

  lemma {:induction false} SaverKeepsTracked<Image>(s: System<Image>, m: Move<Image>, s': System<Image>)
    requires Tracked(s) && CanMove(s, m) && s' == After(s, m) && SaverMove(m) && !EndsSave(m)
    ensures Tracked(s') && s.fileAt <= s'.fileAt && |s.history| == |s'.history|
  {
    hide Released;
  }

  lemma {:induction false} EndKeepsTracked<Image>(s: System<Image>, m: Move<Image>, s': System<Image>)
    requires Tracked(s) && CanMove(s, m) && s' == After(s, m) && EndsSave(m)
    ensures Tracked(s') && s.fileAt <= s'.fileAt && |s.history| == |s'.history|
  {
    var t := if m.FinishSave? then s.(savedGeneration := s.saver.g)
             else s.(fileAt := if m.replaced then s.saver.at else s.fileAt);
    assert s' == Released(t, m.FinishSave?);
    hide After;
    ReleasedKeepsTracked(s, t, m.FinishSave?, s');
  }

  lemma ReleasedKeepsTracked<Image>(s: System<Image>, t: System<Image>, ok: bool, s': System<Image>)
    requires Tracked(s)
    requires if ok then s.saver.Written? && t == s.(savedGeneration := s.saver.g)
             else s.saver.Copied? && (t == s || t == s.(fileAt := s.saver.at))
    requires s' == Released(t, ok)
    ensures Tracked(s') && s.fileAt <= s'.fileAt && |s.history| == |s'.history|
  {
    ReleasedFrame(t, ok);
    hide Released;
  }

  lemma ReleasedFrame<Image>(s: System<Image>, ok: bool)
    requires !s.saver.Free?
    ensures var t := Released(s, ok);
            && t.history == s.history && t.fileAt == s.fileAt && t.generation == s.generation
            && t.savedGeneration == s.savedGeneration && t.inFlight == s.inFlight && t.saver == Free
  {
  }

  lemma {:induction false} OtherKeepsTracked<Image>(s: System<Image>, m: Move<Image>, s': System<Image>)
    requires Tracked(s) && CanMove(s, m) && s' == After(s, m) && !SaverMove(m)
    ensures Tracked(s') && s.fileAt <= s'.fileAt && |s.history| <= |s'.history|
  {
    hide Released;
  }

  lemma {:induction false} MoveKeepsTracked<Image>(s: System<Image>, m: Move<Image>, s': System<Image>)
    requires Tracked(s) && CanMove(s, m) && s' == After(s, m)
    ensures Tracked(s') && s.fileAt <= s'.fileAt && |s.history| <= |s'.history|
  {
    hide Tracked, CanMove, After;
    if EndsSave(m) {
      EndKeepsTracked(s, m, s');
    } else if SaverMove(m) {
      SaverKeepsTracked(s, m, s');
    } else {
      OtherKeepsTracked(s, m, s');
    }
  }

  /** One loop at most; it is over before those who stop it return. */
  ghost predicate Ordered<Image>(s: System<Image>) {
    && s.begun == (if s.started then 1 else 0) && (s.started <==> s.loop != NotRun)
    && (s.doneClosed <==> s.loop.Over?) && (s.stopClosed ==> s.stopped)
    && (s.loop == Saving <==> !s.saver.Free? && !s.saver.owner.ByStop?)
    && (s.loop.Ending? || s.loop.Over? ==> s.stopClosed)
    && (!s.saver.Free? && s.saver.owner.Final? ==> s.stopClosed)
    && (!s.saver.Free? && s.saver.owner.ByStop? ==> StopSaves(s, s.saver.owner.caller))
    && forall c :: c in s.stops ==> s.stopped && s.stops[c].began == s.started
  }

  ghost predicate StopSaves<Image>(s: System<Image>, c: nat) {
    c in s.stops && s.stops[c].Waiting? && !s.stops[c].began
  }

  lemma {:induction false} SaverKeepsOrdered<Image>(s: System<Image>, m: Move<Image>, s': System<Image>)
    requires Ordered(s) && CanMove(s, m) && s' == After(s, m) && SaverMove(m) && !EndsSave(m)
    ensures Ordered(s')
  {
    hide Released;
  }

  lemma {:induction false} EndKeepsOrdered<Image>(s: System<Image>, m: Move<Image>, s': System<Image>)
    requires Ordered(s) && CanMove(s, m) && s' == After(s, m) && EndsSave(m)
    ensures Ordered(s')
  {
  }

  lemma {:induction false} OtherKeepsOrdered<Image>(s: System<Image>, m: Move<Image>, s': System<Image>)
    requires Ordered(s) && CanMove(s, m) && s' == After(s, m) && !SaverMove(m)
    ensures Ordered(s')
  {
    hide Released;
  }

  lemma {:induction false} MoveKeepsOrdered<Image>(s: System<Image>, m: Move<Image>, s': System<Image>)
    requires Ordered(s) && CanMove(s, m) && s' == After(s, m)
    ensures Ordered(s')
  {
    hide Ordered, CanMove, After;
    if EndsSave(m) {
      EndKeepsOrdered(s, m, s');
    } else if SaverMove(m) {
      SaverKeepsOrdered(s, m, s');
    } else {
      OtherKeepsOrdered(s, m, s');
    }
  }

  /** The last save of the loop, and the save of a stop, hold every change made before the stop. */
  ghost predicate Reflects<Image>(s: System<Image>) {
    && s.firstStop < |s.history| && (forall c :: c in s.stops ==> s.firstStop <= s.stops[c].at < |s.history|)
    && (s.loop.Ending? || s.loop.Over? ==> s.loop.ok ==> s.firstStop <= s.fileAt)
    && (forall c :: c in s.stops && s.stops[c].Returned? ==>
          if s.stops[c].began then s.stops[c].ok && s.loop.Over? else s.stops[c].ok ==> s.stops[c].at <= s.fileAt)
    && match s.saver
       case Copied(Final, _, at) => s.firstStop <= at
       case Copied(ByStop(c), _, at) => c in s.stops ==> s.stops[c].at <= at
       case Written(Final, _) => s.firstStop <= s.fileAt
       case Written(ByStop(c), _) => c in s.stops ==> s.stops[c].at <= s.fileAt
       case _ => true
  }

  lemma {:induction false} SaverKeepsReflects<Image>(s: System<Image>, m: Move<Image>, s': System<Image>)
    requires Tracked(s) && Ordered(s) && Reflects(s) && CanMove(s, m) && s' == After(s, m) && SaverMove(m)
    ensures Reflects(s')
  {
  }

  lemma {:induction false} OtherKeepsReflects<Image>(s: System<Image>, m: Move<Image>, s': System<Image>)
    requires Tracked(s) && Ordered(s) && Reflects(s) && CanMove(s, m) && s' == After(s, m) && !SaverMove(m)
    ensures Reflects(s')
  {
    hide Released;
  }

  ghost predicate Inv<Image>(s: System<Image>) {
    Tracked(s) && Ordered(s) && Reflects(s)
  }

  lemma {:induction false} MoveKeepsInv<Image>(s: System<Image>, m: Move<Image>, s': System<Image>)
    requires Inv(s) && CanMove(s, m) && s' == After(s, m)
    ensures Inv(s')
  {
    hide Tracked, Ordered, Reflects, CanMove, After;
    MoveKeepsTracked(s, m, s');
    MoveKeepsOrdered(s, m, s');
    if SaverMove(m) {
      SaverKeepsReflects(s, m, s');
    } else {
      OtherKeepsReflects(s, m, s');
    }
  }

  lemma {:induction false} RunsKeepInv<Image>(ss: seq<System<Image>>, ms: seq<Move<Image>>, i: nat)
    requires IsRun(ss, ms) && i < |ss|
    ensures Inv(ss[i])
  {
    if i > 0 {
      hide Inv, CanMove, After, JustLoaded;
      RunsKeepInv(ss, ms, i - 1);
      assert MoveAt(ss, ms, i - 1);
      MoveKeepsInv(ss[i - 1], ms[i - 1], ss[i]);
    }
  }

  // ---------- the guarantees ----------

  /** In every state: the file holds the map, or the next tick will save (the generation moved), or a
      change is about to be counted. */
  lemma {:induction false} NoChangeIsForgotten<Image>(ss: seq<System<Image>>, ms: seq<Move<Image>>, i: nat)
    requires IsRun(ss, ms) && i < |ss|
    ensures ss[i].history != [] && ss[i].fileAt < |ss[i].history|
    ensures File(ss[i]) == Present(ss[i]) || ss[i].generation != ss[i].savedGeneration || ss[i].inFlight > 0
  {
    RunsKeepInv(ss, ms, i);
    hide IsRun;
  }

  /** Begin returns true at most once, so that at most one loop ever runs. */
  lemma {:induction false} OneLoopAtMost<Image>(ss: seq<System<Image>>, ms: seq<Move<Image>>, i: nat)
    requires IsRun(ss, ms) && i < |ss|
    ensures ss[i].begun <= 1
    ensures ss[i].stopped && i + 1 < |ss| ==> ss[i + 1].begun == ss[i].begun
    ensures i < |ms| && ms[i].End? ==> !ss[i].doneClosed
  {
    RunsKeepInv(ss, ms, i);
    assert i < |ms| ==> MoveAt(ss, ms, i);
    hide IsRun, Tracked, Reflects;
  }

  /** What a returned Stop says of the file. With no loop, no error means that every change made before
      the call is in the file. With a loop there is never an error, and only when the last save of the
      loop succeeded the file is known to hold every change made before the first Stop. */
  lemma {:induction false} StopSavesTheChanges<Image>(ss: seq<System<Image>>, ms: seq<Move<Image>>, i: nat, c: nat)
    requires IsRun(ss, ms) && i < |ss| && c in ss[i].stops && ss[i].stops[c].Returned?
    ensures ss[i].fileAt < |ss[i].history| && File(ss[i]) == ss[i].history[ss[i].fileAt]
    ensures !ss[i].stops[c].began && ss[i].stops[c].ok ==> ss[i].stops[c].at <= ss[i].fileAt
    ensures ss[i].stops[c].began ==>
              ss[i].stops[c].ok && ss[i].loop.Over? && (ss[i].loop.ok ==> ss[i].firstStop <= ss[i].fileAt)
  {
    RunsKeepInv(ss, ms, i);
    hide IsRun, Ordered;
  }

  // ---------- exactly when the file holds what was changed before a Stop ----------

  /** The write replaces the file, whether or not it reports an error. */
  predicate Replaces<Image>(m: Move<Image>) {
    m.Write? || (m.FailWrite? && m.replaced)
  }

  /** The last copy of the map among the first `i` moves. */
  ghost function LatestCopy<Image>(ms: seq<Move<Image>>, i: nat): nat
    requires i <= |ms|
  {
    if i == 0 then 0 else if ms[i - 1].CopyMap? then i - 1 else LatestCopy(ms, i - 1)
  }

  /** The copy of the map that the file holds after the first `i` moves: that of the last save which
      replaced the file, or the loaded one. */
  ghost function FileCopy<Image>(ms: seq<Move<Image>>, i: nat): nat
    requires i <= |ms|
  {
    if i == 0 then 0 else if Replaces(ms[i - 1]) then LatestCopy(ms, i - 1) else FileCopy(ms, i - 1)
  }

  /** The map does not change from the copy `j` on until the move `k`. */
  ghost predicate NoChange<Image>(ms: seq<Move<Image>>, j: nat, k: nat) {
    forall x :: j <= x < k && x < |ms| ==> !ms[x].Change?
  }

  lemma {:induction false} HistoryGrows<Image>(ss: seq<System<Image>>, ms: seq<Move<Image>>, j: nat, k: nat)
    requires IsRun(ss, ms) && j <= k < |ss|
    ensures |ss[j].history| <= |ss[k].history|
    ensures |ss[j].history| == |ss[k].history| <==> NoChange(ms, j, k)
    decreases k
  {
    if j < k {
      HistoryGrows(ss, ms, j, k - 1);
      assert MoveAt(ss, ms, k - 1);
      hide IsRun, CanMove, After;
      NoChangeButLast(ms, j, k);
      hide NoChange;
      HistoryMoves(ss[k - 1], ms[k - 1], ss[k]);
    }
  }

  lemma NoChangeButLast<Image>(ms: seq<Move<Image>>, j: nat, k: nat)
    requires j < k <= |ms|
    ensures NoChange(ms, j, k) <==> NoChange(ms, j, k - 1) && !ms[k - 1].Change?
  {
  }

  /** What the map was stays known. */
  lemma {:induction false} HistoryIsKept<Image>(ss: seq<System<Image>>, ms: seq<Move<Image>>, j: nat, k: nat)
    requires IsRun(ss, ms) && j <= k < |ss|
    ensures ss[j].history <= ss[k].history
    decreases k
  {
    if j < k {
      HistoryIsKept(ss, ms, j, k - 1);
      assert MoveAt(ss, ms, k - 1);
      hide IsRun;
      HistoryMoves(ss[k - 1], ms[k - 1], ss[k]);
      hide CanMove, After;
      PrefixOfPrefix(ss[j].history, ss[k - 1].history, ss[k].history);
    }
  }

  lemma PrefixOfPrefix<T>(a: seq<T>, b: seq<T>, c: seq<T>)
    requires a <= b && b <= c
    ensures a <= c
  {
  }

  /** A move changes the history only when it changes the map. */
  lemma HistoryMoves<Image>(s: System<Image>, m: Move<Image>, s': System<Image>)
    requires CanMove(s, m) && s' == After(s, m)
    ensures s'.history == if m.Change? then s.history + [m.image] else s.history
  {
    if EndsSave(m) {
      HistoryAtEnd(s, m, s');
    } else {
      hide Released;
    }
  }

  lemma HistoryAtEnd<Image>(s: System<Image>, m: Move<Image>, s': System<Image>)
    requires CanMove(s, m) && s' == After(s, m) && EndsSave(m)
    ensures s'.history == s.history
  {
    var t := if m.FinishSave? then s.(savedGeneration := s.saver.g)
             else s.(fileAt := if m.replaced then s.saver.at else s.fileAt);
    assert s' == Released(t, m.FinishSave?);
    ReleasedFrame(t, m.FinishSave?);
    hide After, Released;
  }

  /** The file holds what the map was at the copy. */
  lemma {:induction false} FileIsCopyOf<Image>(ss: seq<System<Image>>, ms: seq<Move<Image>>, i: nat)
    requires IsRun(ss, ms) && i < |ss|
    ensures FileCopy(ms, i) <= i && ss[FileCopy(ms, i)].history != [] && ss[i].fileAt < |ss[i].history|
    ensures File(ss[i]) == Present(ss[FileCopy(ms, i)])
  {
    FileIsCopy(ss, ms, i);
    RunsKeepInv(ss, ms, FileCopy(ms, i));
    HistoryIsKept(ss, ms, FileCopy(ms, i), i);
    hide IsRun, Ordered, Reflects;
  }

  /** Nothing changed: the map is what it was. */
  lemma {:induction false} PresentStays<Image>(ss: seq<System<Image>>, ms: seq<Move<Image>>, j: nat, k: nat)
    requires IsRun(ss, ms) && j <= k < |ss| && NoChange(ms, j, k)
    ensures ss[j].history != [] && ss[k].history == ss[j].history
  {
    RunsKeepInv(ss, ms, j);
    HistoryGrows(ss, ms, j, k);
    HistoryIsKept(ss, ms, j, k);
    hide IsRun, Ordered, Reflects;
  }

  /** When the last save of the loop succeeded and the map did not change since Stop was first called, the
      file is the map. */
  lemma {:induction false} NothingIsMissing<Image>(ss: seq<System<Image>>, ms: seq<Move<Image>>, i: nat)
    requires IsRun(ss, ms) && i < |ss|
    requires ss[i].loop == Over(true) && ss[i].firstStop == |ss[i].history| - 1
    ensures ss[i].fileAt < |ss[i].history| && ss[i].history != [] && File(ss[i]) == Present(ss[i])
  {
    RunsKeepInv(ss, ms, i);
    hide IsRun, Ordered;
  }

  /** What a move does to the copy under way and to the file. */
  ghost predicate CopyMoved<Image>(s: System<Image>, m: Move<Image>, s': System<Image>) {
    && (s'.saver.Copied? ==>
          if m.CopyMap? then s'.saver.at == |s.history| - 1 else s.saver.Copied? && s'.saver.at == s.saver.at)
    && (if Replaces(m) then s.saver.Copied? && s'.fileAt == s.saver.at else s'.fileAt == s.fileAt)
  }

  lemma CopyAfterEnd<Image>(s: System<Image>, m: Move<Image>, s': System<Image>)
    requires CanMove(s, m) && s' == After(s, m) && EndsSave(m)
    ensures CopyMoved(s, m, s')
  {
    var t := if m.FinishSave? then s.(savedGeneration := s.saver.g)
             else s.(fileAt := if m.replaced then s.saver.at else s.fileAt);
    assert s' == Released(t, m.FinishSave?);
    ReleasedFrame(t, m.FinishSave?);
    hide After, Released;
  }

  lemma CopyAfterSave<Image>(s: System<Image>, m: Move<Image>, s': System<Image>)
    requires CanMove(s, m) && s' == After(s, m) && SaverMove(m) && !EndsSave(m) && s.history != []
    ensures CopyMoved(s, m, s')
  {
    hide Released;
  }

  lemma CopyAfterOther<Image>(s: System<Image>, m: Move<Image>, s': System<Image>)
    requires CanMove(s, m) && s' == After(s, m) && !SaverMove(m)
    ensures CopyMoved(s, m, s')
  {
    hide Released;
  }

  lemma CopyAfter<Image>(s: System<Image>, m: Move<Image>, s': System<Image>)
    requires CanMove(s, m) && s' == After(s, m) && s.history != []
    ensures CopyMoved(s, m, s')
  {
    hide CanMove, After, CopyMoved;
    if EndsSave(m) {
      CopyAfterEnd(s, m, s');
    } else if SaverMove(m) {
      CopyAfterSave(s, m, s');
    } else {
      CopyAfterOther(s, m, s');
    }
  }

  lemma {:induction false} FileIsCopy<Image>(ss: seq<System<Image>>, ms: seq<Move<Image>>, i: nat)
    requires IsRun(ss, ms) && i < |ss|
    ensures LatestCopy(ms, i) <= i && FileCopy(ms, i) <= i
    ensures ss[i].saver.Copied? ==> ss[i].saver.at == |ss[LatestCopy(ms, i)].history| - 1
    ensures ss[i].fileAt == |ss[FileCopy(ms, i)].history| - 1
  {
    if i > 0 {
      FileIsCopy(ss, ms, i - 1);
      RunsKeepInv(ss, ms, i - 1);
      assert MoveAt(ss, ms, i - 1);
      hide IsRun, Ordered, Reflects;
      CopyAfter(ss[i - 1], ms[i - 1], ss[i]);
      hide CanMove, After;
    }
  }

  lemma ReleasedKeepsCall<Image>(s: System<Image>, ok: bool, c: nat)
    requires !s.saver.Free? && c in s.stops
    ensures c in Released(s, ok).stops && Released(s, ok).stops[c].at == s.stops[c].at
  {
  }

  lemma CallKeptAtEnd<Image>(s: System<Image>, m: Move<Image>, s': System<Image>, c: nat)
    requires CanMove(s, m) && s' == After(s, m) && EndsSave(m) && c in s.stops
    ensures c in s'.stops && s'.stops[c].at == s.stops[c].at
  {
    var t := if m.FinishSave? then s.(savedGeneration := s.saver.g)
             else s.(fileAt := if m.replaced then s.saver.at else s.fileAt);
    assert s' == Released(t, m.FinishSave?);
    ReleasedKeepsCall(t, m.FinishSave?, c);
    hide After, Released;
  }

  lemma CallKept<Image>(s: System<Image>, m: Move<Image>, s': System<Image>, c: nat)
    requires CanMove(s, m) && s' == After(s, m) && c in s.stops
    ensures c in s'.stops && s'.stops[c].at == s.stops[c].at
  {
    hide Released;
    if EndsSave(m) {
      hide CanMove, After;
      CallKeptAtEnd(s, m, s', c);
    }
  }

  lemma {:induction false} StopIsKnown<Image>(
    ss: seq<System<Image>>, ms: seq<Move<Image>>, k: nat, i: nat, c: nat)
    requires IsRun(ss, ms) && k < i < |ss| && ms[k] == CallStop(c)
    ensures c in ss[i].stops && ss[i].stops[c].at == |ss[k].history| - 1
    decreases i
  {
    assert MoveAt(ss, ms, i - 1);
    if i == k + 1 {
      RunsKeepInv(ss, ms, k);
      hide IsRun;
    } else {
      StopIsKnown(ss, ms, k, i - 1, c);
      hide IsRun;
      CallKept(ss[i - 1], ms[i - 1], ss[i], c);
    }
  }

  /** For every Stop of every run, whether it found a loop or not and whatever was written or failed: the
      file holds every change made before the call if and only if the map did not change between the
      copy that the file holds and the call. */
  lemma {:induction false} StopReflectsExactly<Image>(
    ss: seq<System<Image>>, ms: seq<Move<Image>>, k: nat, i: nat, c: nat)
    requires IsRun(ss, ms) && k < i < |ss| && ms[k] == CallStop(c)
    ensures c in ss[i].stops && (ss[i].stops[c].at <= ss[i].fileAt <==> NoChange(ms, FileCopy(ms, i), k))
  {
    StopIsKnown(ss, ms, k, i, c);
    FileIsCopy(ss, ms, i);
    var j := FileCopy(ms, i);
    if j <= k {
      HistoryGrows(ss, ms, j, k);
    } else {
      HistoryGrows(ss, ms, k, j);
    }
    hide IsRun;
  }

  /** The last save of the loop has come to its end, or to its write. */
  ghost predicate Finished<Image>(s: System<Image>) {
    s.loop.Ending? || s.loop.Over? || (s.saver.Written? && s.saver.owner == Final)
  }

  lemma FinishedStays<Image>(s: System<Image>, m: Move<Image>, s': System<Image>)
    requires Ordered(s) && Finished(s) && CanMove(s, m) && s' == After(s, m)
    ensures Finished(s') && !m.Write? && !m.FailWrite?
  {
  }

  lemma WriteFinishes<Image>(s: System<Image>, m: Move<Image>, s': System<Image>)
    requires s.saver.Copied? && s.saver.owner == Final && (m.Write? || m.FailWrite?)
    requires CanMove(s, m) && s' == After(s, m)
    ensures Finished(s')
  {
  }

  lemma {:induction false} LoopIsFinished<Image>(ss: seq<System<Image>>, ms: seq<Move<Image>>, w: nat, i: nat)
    requires IsRun(ss, ms) && w < i < |ss| && (ms[w].Write? || ms[w].FailWrite?)
    requires ss[w].saver.Copied? && ss[w].saver.owner == Final
    ensures Finished(ss[i])
    decreases i
  {
    RunsKeepInv(ss, ms, i - 1);
    assert MoveAt(ss, ms, i - 1);
    hide CanMove, After, Tracked, Ordered, Reflects, Finished;
    if i == w + 1 {
      hide IsRun;
      WriteFinishes(ss[w], ms[w], ss[i]);
    } else {
      LoopIsFinished(ss, ms, w, i - 1);
      hide IsRun;
      FinishedStays(ss[i - 1], ms[i - 1], ss[i]);
    }
  }

  /** After the last write of the loop there is no other. */
  lemma {:induction false} NoOtherWrite<Image>(ss: seq<System<Image>>, ms: seq<Move<Image>>, w: nat, x: nat)
    requires IsRun(ss, ms) && w < x < |ms| && (ms[w].Write? || ms[w].FailWrite?)
    requires ss[w].saver.Copied? && ss[w].saver.owner == Final
    ensures !Replaces(ms[x])
  {
    RunsKeepInv(ss, ms, x);
    assert MoveAt(ss, ms, x);
    LoopIsFinished(ss, ms, w, x);
    hide IsRun, CanMove, After, Tracked, Ordered, Reflects, Finished;
    FinishedStays(ss[x], ms[x], ss[x + 1]);
  }

  lemma {:induction false} FileCopyStays<Image>(ms: seq<Move<Image>>, w: nat, i: nat)
    requires w < i <= |ms| && forall x :: w < x < i ==> !Replaces(ms[x])
    ensures FileCopy(ms, i) == FileCopy(ms, w + 1)
    decreases i
  {
    if i > w + 1 {
      FileCopyStays(ms, w, i - 1);
      hide Replaces, LatestCopy;
    }
  }

  /** The last write of the loop decides which copy the file holds for good. */
  lemma {:induction false} LastWriteDecides<Image>(ss: seq<System<Image>>, ms: seq<Move<Image>>, w: nat, i: nat)
    requires IsRun(ss, ms) && w < i < |ss| && (ms[w].Write? || ms[w].FailWrite?)
    requires ss[w].saver.Copied? && ss[w].saver.owner == Final
    ensures Finished(ss[i])
    ensures FileCopy(ms, i) == if Replaces(ms[w]) then LatestCopy(ms, w) else FileCopy(ms, w)
  {
    assert |ss| == |ms| + 1;
    LoopIsFinished(ss, ms, w, i);
    forall x | w < x < i ensures !Replaces(ms[x]) {
      NoOtherWrite(ss, ms, w, x);
    }
    hide IsRun, Finished, Replaces, LatestCopy;
    FileCopyStays(ms, w, i);
  }

  /** A Stop of a provider whose loop saved for the last time at the write `w`: when that write replaced
      the file, the changes before the call are in the file if and only if none came between its copy of
      the map and the call; when it did not, if and only if none came between the copy of an earlier save
      and the call. */
  lemma {:induction false} StopWithLoopReflectsExactly<Image>(
    ss: seq<System<Image>>, ms: seq<Move<Image>>, w: nat, k: nat, i: nat, c: nat)
    requires IsRun(ss, ms) && w < i < |ss| && (ms[w].Write? || ms[w].FailWrite?)
    requires ss[w].saver.Copied? && ss[w].saver.owner == Final
    requires k < i && ms[k] == CallStop(c)
    ensures c in ss[i].stops
    ensures ss[i].stops[c].at <= ss[i].fileAt <==>
              NoChange(ms, if Replaces(ms[w]) then LatestCopy(ms, w) else FileCopy(ms, w), k)
  {
    LastWriteDecides(ss, ms, w, i);
    StopReflectsExactly(ss, ms, k, i, c);
    hide IsRun;
  }

  /** A Stop called when the loop is over: what the caller can see before the call decides, whether the
      file is up to date. */
  lemma {:induction false} LateStopReflectsExactly<Image>(
    ss: seq<System<Image>>, ms: seq<Move<Image>>, k: nat, i: nat, c: nat)
    requires IsRun(ss, ms) && k < i < |ss| && ms[k] == CallStop(c) && ss[k].loop.Over?
    ensures c in ss[i].stops
    ensures ss[i].stops[c].at <= ss[i].fileAt <==> ss[k].fileAt == |ss[k].history| - 1
  {
    StopIsKnown(ss, ms, k, i, c);
    RunsKeepInv(ss, ms, k);
    NothingIsSavedAfterTheLoop(ss, ms, k, i);
    hide IsRun, Ordered, Reflects;
  }

  /** Once the loop is over nothing is saved any more: a change made after its last copy of the map is
      not in the file, whatever Stop is called later. */
  lemma {:induction false} NothingIsSavedAfterTheLoop<Image>(ss: seq<System<Image>>, ms: seq<Move<Image>>, i: nat, j: nat)
    requires IsRun(ss, ms) && i <= j < |ss| && ss[i].loop.Over?
    ensures ss[j].loop.Over? && ss[j].fileAt == ss[i].fileAt
    decreases j
  {
    if i < j {
      NothingIsSavedAfterTheLoop(ss, ms, i, j - 1);
      RunsKeepInv(ss, ms, j - 1);
      assert MoveAt(ss, ms, j - 1);
      hide IsRun, Tracked, Reflects;
      OverStaysOver(ss[j - 1], ms[j - 1], ss[j]);
    }
  }

  lemma OverStaysOver<Image>(s: System<Image>, m: Move<Image>, s': System<Image>)
    requires Ordered(s) && s.loop.Over? && CanMove(s, m) && s' == After(s, m)
    ensures s'.loop.Over? && s'.fileAt == s.fileAt
  {
  }

  /** A stop that waits is never stuck: it may return, or save, or the loop or the save goes on. */
  lemma {:induction false} StopIsNeverStuck<Image>(ss: seq<System<Image>>, ms: seq<Move<Image>>, i: nat, c: nat)
    requires IsRun(ss, ms) && i < |ss| && c in ss[i].stops && ss[i].stops[c].Waiting? && ss[i].stopClosed
    ensures CanMove(ss[i], ReturnFromStop(c)) || CanMove(ss[i], SaveInStop(c))
         || CanMove(ss[i], Leave) || CanMove(ss[i], End)
         || CanMove(ss[i], LoadGeneration) || CanMove(ss[i], CopyMap) || CanMove(ss[i], Write)
         || CanMove(ss[i], FinishSave)
  {
    RunsKeepInv(ss, ms, i);
    hide IsRun, Tracked, Reflects;
  }

  // ---------- two runs in which a Stop misses a change ----------

  /** The moves lead from one state to the other. */
  ghost predicate Leads<Image>(s: System<Image>, ms: seq<Move<Image>>, s': System<Image>)
    decreases |ms|
  {
    if ms == [] then s' == s else CanMove(s, ms[0]) && Leads(After(s, ms[0]), ms[1..], s')
  }

  lemma {:induction false} LeadsOn<Image>(
    s: System<Image>, a: seq<Move<Image>>, s1: System<Image>, b: seq<Move<Image>>, s2: System<Image>)
    requires Leads(s, a, s1) && Leads(s1, b, s2)
    ensures Leads(s, a + b, s2)
    decreases |a|
  {
    if a == [] {
      assert a + b == b;
    } else {
      LeadsOn(After(s, a[0]), a[1..], s1, b, s2);
      assert (a + b)[0] == a[0] && (a + b)[1..] == a[1..] + b;
    }
  }

  lemma LeadsOne<Image>(s: System<Image>, m: Move<Image>, s': System<Image>)
    requires CanMove(s, m) && s' == After(s, m)
    ensures Leads(s, [m], s')
  {
    assert [m][1..] == [];
  }

  /** A provider whose only loop saved for the last time and is over: Stop returned. */
  ghost function LoopOver<Image>(a: Image): System<Image> {
    System([a], 0, 0, 0, 0, Free, true, true, true, true, 1, Over(true), 0, map[0 := Returned(true, 0, true)])
  }

  ghost function Loaded0<Image>(a: Image): System<Image> {
    System([a], 0, 0, 0, 0, Free, false, false, false, false, 0, NotRun, 0, map[])
  }

  lemma FirstStopReturns<Image>(a: Image) returns (ms: seq<Move<Image>>)
    ensures JustLoaded(Loaded0(a)) && Leads(Loaded0(a), ms, LoopOver(a))
  {
    var s0 := Loaded0(a);
    var s1 := s0.(started := true, begun := 1, loop := Selecting);
    var s2 := s1.(stopped := true, stops := map[0 := Called(true, 0)]);
    var s3 := s2.(stopClosed := true, stops := map[0 := Waiting(true, 0)]);
    var s4 := s3.(saver := Entered(Final), loop := Saving);
    LeadsOne(s0, Begin, s1);
    LeadsOne(s1, CallStop(0), s2);
    LeadsOne(s2, CloseStop(0), s3);
    LeadsOne(s3, Leave, s4);
    var rest := FinalSaveReturns(a, s4);
    hide Leads, CanMove, After;
    LeadsOn(s3, [Leave], s4, rest, LoopOver(a));
    LeadsOn(s2, [CloseStop(0)], s3, [Leave] + rest, LoopOver(a));
    LeadsOn(s1, [CallStop(0)], s2, [CloseStop(0)] + ([Leave] + rest), LoopOver(a));
    LeadsOn(s0, [Begin], s1, [CallStop(0)] + ([CloseStop(0)] + ([Leave] + rest)), LoopOver(a));
    ms := [Begin] + ([CallStop(0)] + ([CloseStop(0)] + ([Leave] + rest)));
  }

  lemma FinalSaveReturns<Image>(a: Image, s4: System<Image>) returns (ms: seq<Move<Image>>)
    requires s4 == System([a], 0, 0, 0, 0, Entered(Final), true, true, true, false, 1, Saving, 0,
                          map[0 := Waiting(true, 0)])
    ensures Leads(s4, ms, LoopOver(a))
  {
    var s5 := s4.(saver := Saver.Loaded(Final, 0));
    var s6 := s4.(saver := Copied(Final, 0, 0));
    var s7 := s4.(saver := Written(Final, 0));
    var s8 := s4.(saver := Free, loop := Ending(true));
    var s9 := s8.(loop := Over(true), doneClosed := true);
    LeadsOne(s4, LoadGeneration, s5);
    LeadsOne(s5, CopyMap, s6);
    LeadsOne(s6, Write, s7);
    LeadsOne(s7, FinishSave, s8);
    LeadsOne(s8, End, s9);
    LeadsOne(s9, ReturnFromStop(0), LoopOver(a));
    hide Leads, CanMove, After;
    LeadsOn(s8, [End], s9, [ReturnFromStop(0)], LoopOver(a));
    LeadsOn(s7, [FinishSave], s8, [End] + [ReturnFromStop(0)], LoopOver(a));
    LeadsOn(s6, [Write], s7, [FinishSave] + ([End] + [ReturnFromStop(0)]), LoopOver(a));
    LeadsOn(s5, [CopyMap], s6, [Write] + ([FinishSave] + ([End] + [ReturnFromStop(0)])), LoopOver(a));
    ms := [CopyMap] + ([Write] + ([FinishSave] + ([End] + [ReturnFromStop(0)])));
    LeadsOn(s4, [LoadGeneration], s5, ms, LoopOver(a));
    ms := [LoadGeneration] + ms;
  }

  /** A concrete run: after the loop is over the map changes, and a second Stop returns without an error
      although the file does not hold the change. */
  lemma SecondStopMissesAChange<Image>(a: Image, b: Image) returns (ms: seq<Move<Image>>, s: System<Image>)
    ensures JustLoaded(Loaded0(a)) && Leads(Loaded0(a), ms, s)
    ensures 1 in s.stops && s.stops[1] == Returned(true, 1, true)
    ensures s.history == [a, b] && s.fileAt == 0 && s.inFlight == 0 && File(s) == a && Present(s) == b
  {
    var first := FirstStopReturns(a);
    var s0 := LoopOver(a);
    var s1 := s0.(history := [a, b], inFlight := 1);
    var s2 := s1.(inFlight := 0, generation := 1);
    var s3 := s2.(stops := s0.stops[1 := Called(true, 1)]);
    var s4 := s2.(stops := s0.stops[1 := Waiting(true, 1)]);
    var s5 := s2.(stops := s0.stops[1 := Returned(true, 1, true)]);
    assert [a] + [b] == [a, b];
    LeadsOne(s0, Change(b), s1);
    LeadsOne(s1, Count, s2);
    LeadsOne(s2, CallStop(1), s3);
    LeadsOne(s3, CloseStop(1), s4);
    LeadsOne(s4, ReturnFromStop(1), s5);
    hide Leads, CanMove, After;
    LeadsOn(s3, [CloseStop(1)], s4, [ReturnFromStop(1)], s5);
    LeadsOn(s2, [CallStop(1)], s3, [CloseStop(1)] + [ReturnFromStop(1)], s5);
    LeadsOn(s1, [Count], s2, [CallStop(1)] + ([CloseStop(1)] + [ReturnFromStop(1)]), s5);
    var last := [Count] + ([CallStop(1)] + ([CloseStop(1)] + [ReturnFromStop(1)]));
    LeadsOn(s0, [Change(b)], s1, last, s5);
    LeadsOn(Loaded0(a), first, s0, [Change(b)] + last, s5);
    ms, s := first + ([Change(b)] + last), s5;
  }

  /** A concrete run: the map changes, the first Stop is called, the last write of the loop fails; Stop
      returns without an error and the file does not hold the change. */
  lemma FirstStopMissesAChange<Image>(a: Image, b: Image) returns (ms: seq<Move<Image>>, s: System<Image>)
    ensures JustLoaded(Loaded0(a)) && Leads(Loaded0(a), ms, s)
    ensures 0 in s.stops && s.stops[0] == Returned(true, 1, true) && s.firstStop == 1
    ensures s.history == [a, b] && s.fileAt == 0 && s.inFlight == 0 && File(s) == a && Present(s) == b
  {
    var s0 := Loaded0(a);
    var s1 := s0.(started := true, begun := 1, loop := Selecting);
    var s2 := s1.(history := [a, b], inFlight := 1);
    var s3 := s2.(inFlight := 0, generation := 1);
    var s4 := s3.(stopped := true, firstStop := 1, stops := map[0 := Called(true, 1)]);
    var s5 := s4.(stopClosed := true, stops := map[0 := Waiting(true, 1)]);
    var s6 := s5.(saver := Entered(Final), loop := Saving);
    assert [a] + [b] == [a, b];
    LeadsOne(s0, Begin, s1);
    LeadsOne(s1, Change(b), s2);
    LeadsOne(s2, Count, s3);
    LeadsOne(s3, CallStop(0), s4);
    LeadsOne(s4, CloseStop(0), s5);
    LeadsOne(s5, Leave, s6);
    var rest;
    rest, s := LastWriteFails(a, b, s6);
    hide Leads, CanMove, After;
    ms := [Leave] + rest;
    LeadsOn(s5, [Leave], s6, rest, s);
    LeadsOn(s4, [CloseStop(0)], s5, ms, s);
    LeadsOn(s3, [CallStop(0)], s4, [CloseStop(0)] + ms, s);
    ms := [CallStop(0)] + ([CloseStop(0)] + ms);
    LeadsOn(s2, [Count], s3, ms, s);
    LeadsOn(s1, [Change(b)], s2, [Count] + ms, s);
    LeadsOn(s0, [Begin], s1, [Change(b)] + ([Count] + ms), s);
    ms := [Begin] + ([Change(b)] + ([Count] + ms));
  }

  lemma LastWriteFails<Image>(a: Image, b: Image, s6: System<Image>)
    returns (ms: seq<Move<Image>>, s: System<Image>)
    requires s6 == System([a, b], 0, 1, 0, 0, Entered(Final), true, true, true, false, 1, Saving, 1,
                          map[0 := Waiting(true, 1)])
    ensures Leads(s6, ms, s)
    ensures s == s6.(saver := Free, loop := Over(false), doneClosed := true,
                     stops := map[0 := Returned(true, 1, true)])
  {
    var s7 := s6.(saver := Saver.Loaded(Final, 1));
    var s8 := s6.(saver := Copied(Final, 1, 1));
    var s9 := s6.(saver := Free, loop := Ending(false));
    var s10 := s9.(loop := Over(false), doneClosed := true);
    s := s10.(stops := map[0 := Returned(true, 1, true)]);
    LeadsOne(s6, LoadGeneration, s7);
    LeadsOne(s7, CopyMap, s8);
    LeadsOne(s8, FailWrite(false), s9);
    LeadsOne(s9, End, s10);
    LeadsOne(s10, ReturnFromStop(0), s);
    hide Leads, CanMove, After;
    ms := [End] + [ReturnFromStop(0)];
    LeadsOn(s9, [End], s10, [ReturnFromStop(0)], s);
    LeadsOn(s8, [FailWrite(false)], s9, ms, s);
    LeadsOn(s7, [CopyMap], s8, [FailWrite(false)] + ms, s);
    LeadsOn(s6, [LoadGeneration], s7, [CopyMap] + ([FailWrite(false)] + ms), s);
    ms := [LoadGeneration] + ([CopyMap] + ([FailWrite(false)] + ms));
  }
}
