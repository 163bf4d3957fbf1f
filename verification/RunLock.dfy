/**
 * The run lock (src/tokenshare/experiments/cli.py:475-565): the object as it behaves undisturbed, and all
 * interleavings of several processes over one lock file.
 */
module RunLock {
  import opened Basics

  // ---------------------------------------------------------------- one process at a time

  datatype Content = Absent | Malformed | Owner(pid: int, token: string)

  /** The owner as the lock reads it: a token must not be empty. */
  function ReadOwner(c: Content): Option<Content> {
    if c.Owner? && |c.token| > 0 then Some(c) else None
  }

  /** Nobody holds the lock: there is no file, or its readable owner is no longer running. */
  predicate Free(c: Content, running: set<int>) {
    c.Absent? || (ReadOwner(c).Some? && c.pid !in running)
  }

  class LockFile {
    var content: Content

    constructor ()
      ensures content == Absent
    {
      content := Absent;
    }
  }

  class Lock {
    const pid: int
    const token: string
    var held: bool

    constructor (pid: int, token: string)
      ensures this.pid == pid && this.token == token && !held
    {
      this.pid, this.token, this.held := pid, token, false;
    }

    /** `_remove_stale_owner`: re-reads the file before removing it. */
    method RemoveStale(file: LockFile, stale: string, running: set<int>) returns (removed: bool)
      modifies file
      ensures removed <==>
        (ReadOwner(old(file.content)).Some? && old(file.content).token == stale && old(file.content).pid !in running)
      ensures file.content == if removed then Absent else old(file.content)
    {
      var current := ReadOwner(file.content);
      if current.None? || current.value.token != stale { return false; }
      if current.value.pid in running { return false; }
      file.content := Absent;
      removed := true;
    }

    /** Takes the lock exactly when it is free, reclaiming a stale file on the way; otherwise changes nothing. */
    method Enter(file: LockFile, running: set<int>) returns (r: Result<()>)
      modifies this, file
      ensures r.Ok? <==> Free(old(file.content), running)
      ensures r.Ok? ==> held && file.content == Owner(pid, token)
      ensures r.Err? ==> held == old(held) && file.content == old(file.content)
    {
      while true
        invariant held == old(held)
        invariant file.content == old(file.content) || (file.content.Absent? && Free(old(file.content), running))
        decreases !file.content.Absent?
      {
        if file.content.Absent? {
          file.content := Owner(pid, token);
          held := true;
          return Ok(());
        }
        var owner := ReadOwner(file.content);
        if owner.None? || owner.value.pid in running { return Err(LockHeld); }
        var removed := RemoveStale(file, owner.value.token, running);
        if !removed { continue; }
      }
    }

    /** Removes the file only while it still carries this lock's token. */
    method Exit(file: LockFile)
      modifies this, file
      ensures !held
      ensures file.content ==
        if old(held) && old(file.content).Owner? && old(file.content).token == token then Absent else old(file.content)
    {
      if held && file.content.Owner? && file.content.token == token {
        file.content := Absent;
      }
      held := false;
    }
  }

  // ---------------------------------------------------------------- all interleavings

  /** The lock file: created but not yet written by a process, or written with its pid and token. */
  datatype Shared = NoFile | Blank(creator: nat) | Written(owner: nat)

  /** Where a process stands; `Dead` is reached by a crash or a normal end. */
  datatype Place =
    | Trying | Created | Holding | Observed(stale: nat) | Rechecked(stale: nat) | Leaving | Finished | Dead

  datatype World = World(file: Shared, places: seq<Place>)

  datatype Action =
    | Create(p: nat) | WriteOwner(p: nat) | Observe(p: nat) | Recheck(p: nat) | Unlink(p: nat)
    | ReadOwn(p: nat) | Remove(p: nat) | GiveUp(p: nat) | Crash(p: nat)

  predicate IsDead(w: World, p: nat) {
    p < |w.places| && w.places[p].Dead?
  }

  function Put(w: World, p: nat, place: Place): World
    requires p < |w.places|
  {
    w.(places := w.places[p := place])
  }

  predicate Enabled(w: World, a: Action) {
    && a.p < |w.places|
    && match a
       case Create(p) => w.places[p].Trying? && w.file.NoFile?
       case WriteOwner(p) => w.places[p].Created?
       case Observe(p) => w.places[p].Trying? && w.file.Written? && IsDead(w, w.file.owner)
       case Recheck(p) => w.places[p].Observed?
       case Unlink(p) => w.places[p].Rechecked?
       case ReadOwn(p) => w.places[p].Holding?
       case Remove(p) => w.places[p].Leaving?
       case GiveUp(p) => w.places[p].Trying? && !w.file.NoFile?
       case Crash(p) => !w.places[p].Dead?
  }

  /** One file or process operation of the lock. */
  function Do(w: World, a: Action): World
    requires Enabled(w, a)
  {
    match a
    case Create(p) => Put(w, p, Created).(file := Blank(p))
    case WriteOwner(p) => Put(w, p, Holding).(file := if w.file == Blank(p) then Written(p) else w.file)
    case Observe(p) => Put(w, p, Observed(w.file.owner))
    case Recheck(p) =>
      var q := w.places[p].stale;
      Put(w, p, if w.file == Written(q) && IsDead(w, q) then Rechecked(q) else Trying)
    case Unlink(p) => Put(w, p, Trying).(file := NoFile)
    case ReadOwn(p) => Put(w, p, if w.file == Written(p) then Leaving else Finished)
    case Remove(p) => Put(w, p, Finished).(file := NoFile)
    case GiveUp(p) => Put(w, p, Finished)
    case Crash(p) => Put(w, p, Dead)
  }

  function Start(n: nat): World {
    World(NoFile, seq(n, i => Trying))
  }

  /** `actions` runs from `w` to `last`. */
  predicate Runs(w: World, actions: seq<Action>, last: World)
    decreases actions
  {
    if actions == [] then last == w
    else Enabled(w, actions[0]) && Runs(Do(w, actions[0]), actions[1..], last)
  }

  predicate Exclusive(w: World) {
    forall p, q :: 0 <= p < |w.places| && 0 <= q < |w.places| && w.places[p].Holding? && w.places[q].Holding? ==> p == q
  }

  /** A live process between creating and removing the file still has its own file in place. */
  predicate Owns(w: World) {
    forall p :: 0 <= p < |w.places| ==>
      && (w.places[p].Created? ==> w.file == Blank(p))
      && (w.places[p].Holding? || w.places[p].Leaving? ==> w.file == Written(p))
  }

  /** Owners seen as stale are dead. */
  predicate StaleAreDead(w: World) {
    forall p :: 0 <= p < |w.places| && (w.places[p].Observed? || w.places[p].Rechecked?) ==>
      IsDead(w, w.places[p].stale)
  }

  lemma {:induction false} OwnersExclude(w: World)
    requires Owns(w)
    ensures Exclusive(w)
  {
  }

  /** The file a reclaimer removes is still the stale one it rechecked, or already gone. */
  predicate CleanUnlink(w: World, a: Action) {
    a.Unlink? && Enabled(w, a) ==> w.file.NoFile? || w.file == Written(w.places[a.p].stale)
  }

  predicate LiveOwner(w: World, r: nat) {
    r < |w.places| && (w.places[r].Created? || w.places[r].Holding? || w.places[r].Leaving?)
  }

  /** An unlink keeps every live owner's file in place exactly when no live process owns the file it removes. */
  lemma {:induction false} UnlinkKeepsOwners(w: World, p: nat)
    requires Owns(w) && Enabled(w, Unlink(p))
    ensures Owns(Do(w, Unlink(p))) <==> forall r: nat :: !LiveOwner(w, r)
  {
    var next := Do(w, Unlink(p));
    if r: nat :| LiveOwner(w, r) {
      assert next.places[r] == w.places[r];
      assert next.file.NoFile?;
    } else {
      forall r | 0 <= r < |next.places|
        ensures !next.places[r].Created? && !next.places[r].Holding? && !next.places[r].Leaving? {
        assert !LiveOwner(w, r);
      }
    }
  }

  lemma {:induction false} StaleStayDead(w: World, a: Action)
    requires StaleAreDead(w) && Enabled(w, a)
    ensures StaleAreDead(Do(w, a))
  {
    var next := Do(w, a);
    forall p | 0 <= p < |next.places| && (next.places[p].Observed? || next.places[p].Rechecked?)
      ensures IsDead(next, next.places[p].stale)
    {
      if p != a.p { assert next.places[p] == w.places[p]; }
    }
  }

  /** A clean unlink removes a file whose owner is dead. */
  lemma {:induction false} CleanUnlinkKeepsOwners(w: World, p: nat)
    requires Owns(w) && StaleAreDead(w) && Enabled(w, Unlink(p)) && CleanUnlink(w, Unlink(p))
    ensures Owns(Do(w, Unlink(p)))
  {
    UnlinkKeepsOwners(w, p);
  }

  lemma {:induction false} OtherActionsKeepOwners(w: World, a: Action)
    requires Owns(w) && Enabled(w, a) && !a.Unlink?
    ensures Owns(Do(w, a))
  {
    var next := Do(w, a);
    forall p | 0 <= p < |next.places|
      ensures next.places[p].Created? ==> next.file == Blank(p)
      ensures next.places[p].Holding? || next.places[p].Leaving? ==> next.file == Written(p)
    {
      if p != a.p { assert next.places[p] == w.places[p]; }
    }
  }

  /** Every unlink of the run is clean. */
  predicate CleanRun(w: World, actions: seq<Action>)
    decreases actions
  {
    actions == []
    || (CleanUnlink(w, actions[0]) && (Enabled(w, actions[0]) ==> CleanRun(Do(w, actions[0]), actions[1..])))
  }

  lemma {:induction false} CleanRunKeepsOwners(w: World, actions: seq<Action>, last: World)
    requires Owns(w) && StaleAreDead(w) && Runs(w, actions, last) && CleanRun(w, actions)
    ensures Owns(last)
    decreases actions
  {
    if actions != [] {
      StaleStayDead(w, actions[0]);
      if actions[0].Unlink? {
        CleanUnlinkKeepsOwners(w, actions[0].p);
      } else {
        OtherActionsKeepOwners(w, actions[0]);
      }
      CleanRunKeepsOwners(Do(w, actions[0]), actions[1..], last);
    }
  }

  // ---------------------------------------------------------------- one reclaimer at a time

  /** No process stands between its recheck and its unlink. */
  predicate NoReclaimer(w: World) {
    forall p :: 0 <= p < |w.places| ==> !w.places[p].Rechecked?
  }

  /** Nobody enters the window between recheck and unlink while another process is in it. */
  predicate OneReclaimer(w: World, actions: seq<Action>)
    decreases actions
  {
    actions == []
    || ((actions[0].Recheck? ==> NoReclaimer(w))
        && (Enabled(w, actions[0]) ==> OneReclaimer(Do(w, actions[0]), actions[1..])))
  }

  /** Inside the window the stale file is still in place. */
  predicate WindowIsQuiet(w: World) {
    forall p, q :: 0 <= p < |w.places| && 0 <= q < |w.places| && w.places[p].Rechecked? ==>
      w.file == Written(w.places[p].stale) && (w.places[q].Rechecked? ==> p == q)
  }

  lemma {:induction false} WindowStaysQuiet(w: World, a: Action)
    requires Owns(w) && StaleAreDead(w) && WindowIsQuiet(w) && Enabled(w, a) && (a.Recheck? ==> NoReclaimer(w))
    ensures WindowIsQuiet(Do(w, a))
  {
    var next := Do(w, a);
    forall p, q | 0 <= p < |next.places| && 0 <= q < |next.places| && next.places[p].Rechecked?
      ensures next.file == Written(next.places[p].stale) && (next.places[q].Rechecked? ==> p == q)
    {
      assert p != a.p ==> next.places[p] == w.places[p];
      assert q != a.p ==> next.places[q] == w.places[q];
      if p != a.p { assert w.file == Written(w.places[p].stale) && (w.places[q].Rechecked? ==> p == q); }
    }
  }

  lemma {:induction false} OneReclaimerIsClean(w: World, actions: seq<Action>, last: World)
    requires Owns(w) && StaleAreDead(w) && WindowIsQuiet(w) && Runs(w, actions, last) && OneReclaimer(w, actions)
    ensures CleanRun(w, actions)
    decreases actions
  {
    if actions != [] {
      var a := actions[0];
      StaleStayDead(w, a);
      WindowStaysQuiet(w, a);
      if a.Unlink? {
        CleanUnlinkKeepsOwners(w, a.p);
      } else {
        OtherActionsKeepOwners(w, a);
      }
      OneReclaimerIsClean(Do(w, a), actions[1..], last);
    }
  }

  /**
   * Mutual exclusion. Over every interleaving of creation, writing, crashes, takeovers and releases in
   * which at most one process at a time is between its recheck and its unlink, two live processes never
   * both hold the lock; the same holds whenever every unlink removes the stale file it rechecked.
   */
  lemma {:induction false} MutualExclusion(n: nat, actions: seq<Action>, last: World)
    requires Runs(Start(n), actions, last)
    requires OneReclaimer(Start(n), actions) || CleanRun(Start(n), actions)
    ensures Exclusive(last)
  {
    if OneReclaimer(Start(n), actions) { OneReclaimerIsClean(Start(n), actions, last); }
    CleanRunKeepsOwners(Start(n), actions, last);
    OwnersExclude(last);
  }

  lemma {:induction false} RunsThrough(worlds: seq<World>, actions: seq<Action>)
    requires |worlds| == |actions| + 1
    requires forall k :: 0 <= k < |actions| ==>
      Enabled(worlds[k], actions[k]) && worlds[k + 1] == Do(worlds[k], actions[k])
    ensures Runs(worlds[0], actions, worlds[|actions|])
    decreases actions
  {
    if actions != [] { RunsThrough(worlds[1..], actions[1..]); }
  }

  lemma {:induction false} RunsJoin(w: World, first: seq<Action>, middle: World, second: seq<Action>, last: World)
    requires Runs(w, first, middle) && Runs(middle, second, last)
    ensures Runs(w, first + second, last)
    decreases first
  {
    if first == [] {
      assert first + second == second;
    } else {
      assert (first + second)[1..] == first[1..] + second;
      RunsJoin(Do(w, first[0]), first[1..], middle, second, last);
    }
  }

  function Scene(file: Shared, a: Place, b: Place, c: Place): World {
    World(file, [a, b, c])
  }

  /** Process 0 dies holding the lock; 1 and 2 see its file. */
  const STALE_SEEN: seq<Action> := [Create(0), WriteOwner(0), Crash(0), Observe(1), Observe(2)]

  /** Both recheck the file before either removes it; 1 takes the lock over. */
  const FIRST_TAKEOVER: seq<Action> := [Recheck(1), Recheck(2), Unlink(1), Create(1), WriteOwner(1)]

  /** 2 removes the file of 1 and takes the lock as well. */
  const SECOND_TAKEOVER: seq<Action> := [Unlink(2), Create(2), WriteOwner(2)]

  lemma {:induction false} StaleIsSeen()
    ensures Runs(Start(3), STALE_SEEN, Scene(Written(0), Dead, Observed(0), Observed(0)))
  {
    var start := Scene(NoFile, Trying, Trying, Trying);
    assert Start(3).places == start.places;
    RunsThrough([start, Scene(Blank(0), Created, Trying, Trying), Scene(Written(0), Holding, Trying, Trying),
                 Scene(Written(0), Dead, Trying, Trying), Scene(Written(0), Dead, Observed(0), Trying),
                 Scene(Written(0), Dead, Observed(0), Observed(0))], STALE_SEEN);
  }

  lemma {:induction false} FirstTakesOver()
    ensures Runs(Scene(Written(0), Dead, Observed(0), Observed(0)), FIRST_TAKEOVER,
                 Scene(Written(1), Dead, Holding, Rechecked(0)))
  {
    RunsThrough([Scene(Written(0), Dead, Observed(0), Observed(0)), Scene(Written(0), Dead, Rechecked(0), Observed(0)),
                 Scene(Written(0), Dead, Rechecked(0), Rechecked(0)), Scene(NoFile, Dead, Trying, Rechecked(0)),
                 Scene(Blank(1), Dead, Created, Rechecked(0)), Scene(Written(1), Dead, Holding, Rechecked(0))],
                   FIRST_TAKEOVER);
  }

  lemma {:induction false} SecondTakesOver()
    ensures Runs(Scene(Written(1), Dead, Holding, Rechecked(0)), SECOND_TAKEOVER,
                 Scene(Written(2), Dead, Holding, Holding))
  {
    RunsThrough([Scene(Written(1), Dead, Holding, Rechecked(0)), Scene(NoFile, Dead, Holding, Trying),
                 Scene(Blank(2), Dead, Holding, Created), Scene(Written(2), Dead, Holding, Holding)], SECOND_TAKEOVER);
  }

  /** Without the hypothesis exclusion fails: two reclaimers in the window end up holding the lock together. */
  lemma {:induction false} TwoHolders() returns (last: World)
    ensures Runs(Start(3), STALE_SEEN + FIRST_TAKEOVER + SECOND_TAKEOVER, last) && !Exclusive(last)
  {
    StaleIsSeen();
    FirstTakesOver();
    SecondTakesOver();
    last := Scene(Written(2), Dead, Holding, Holding);
    RunsJoin(Start(3), STALE_SEEN, Scene(Written(0), Dead, Observed(0), Observed(0)), FIRST_TAKEOVER,
             Scene(Written(1), Dead, Holding, Rechecked(0)));
    RunsJoin(Start(3), STALE_SEEN + FIRST_TAKEOVER, Scene(Written(1), Dead, Holding, Rechecked(0)), SECOND_TAKEOVER,
             last);
    assert last.places[1].Holding? && last.places[2].Holding?;
  }
}
