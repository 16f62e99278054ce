/**
 * The per-object lifecycle of TouchTableTracker: NASENT -> BORN -> ALIVE -> DEAD, driven by the
 * setup/update/kill/terminate calls the rect tracker makes. The clock is an argument `now`.
 */
module TrackerLifecycle {
  import opened Geometry

  /** The four lifecycle states, in the order the enum declares them. */
  datatype LifeState = Nasent | Born | Alive | Dead

  /** Position in the declaration order, which is also the forward order of every transition. */
  function Rank(s: LifeState): nat {
    match s
    case Nasent => 0
    case Born => 1
    case Alive => 2
    case Dead => 3
  }

  /** Most trail points kept; the oldest is evicted first. */
  const TrailCapacity: nat := 50
  /** How long an ALIVE tracker may go unmatched before it dies. */
  const DefaultDyingTime: real := 0.5
  /** How long a new tracker stays NASENT before it is BORN. */
  const DefaultNasentTime: real := 0.2
  /** The fraction towards the new centre that the smoothed position moves per update. */
  const Smoothing: real := 0.5

  /** Everything a tracker holds that its methods read or write. startedDying == 0 means "not dying". */
  datatype TrackerView = TrackerView(
    state: LifeState,
    startedDying: real,
    startedNasent: real,
    dyingTime: real,
    nasentTime: real,
    cur: Vec2,
    smooth: Vec2,
    trail: seq<Vec2>,
    dead: bool)

  /** Append a point to the trail, dropping vertex 0 once the trail is over capacity. */
  function PushTrail(trail: seq<Vec2>, p: Vec2): seq<Vec2> {
    var t := trail + [p];
    if |t| > TrailCapacity then t[1..] else t
  }

  function SetupSpec(v: TrackerView, r: Rect, now: real): TrackerView {
    var c := Centre(r);
    v.(startedNasent := now, cur := c, smooth := c, state := Nasent, trail := [])
  }

  /** The ALIVE branch of update: clear the dying timer, take the new centre, smooth it and extend the trail. */
  function AliveRefresh(v: TrackerView, r: Rect): TrackerView {
    var c := Centre(r);
    var s := Interpolate(v.smooth, c, Smoothing);
    v.(startedDying := 0.0, cur := c, smooth := s, trail := PushTrail(v.trail, s))
  }

  function UpdateSpec(v: TrackerView, r: Rect, now: real): TrackerView {
    var v1 := if v.state == Born then v.(state := Alive) else v;
    if v1.state == Alive then AliveRefresh(v1, r)
    else if v1.state == Nasent then
      if now - v1.startedNasent > v1.nasentTime then v1.(state := Born) else v1
    else v1
  }

  function KillSpec(v: TrackerView, now: real): TrackerView {
    if v.state == Alive then
      if v.startedDying == 0.0 then v.(startedDying := now)
      else if now - v.startedDying > v.dyingTime then v.(state := Dead)
      else v
    else v.(state := Dead)
  }

  function TerminateSpec(v: TrackerView): TrackerView {
    v.(dead := true, state := Dead, trail := [])
  }

  /** One call the rect tracker may make on a tracker; the order of calls is arbitrary input. */
  datatype Call =
    | SetupCall(rect: Rect, now: real)
    | UpdateCall(rect: Rect, now: real)
    | KillCall(now: real)
    | TerminateCall

  function Step(v: TrackerView, c: Call): TrackerView {
    match c
    case SetupCall(r, now) => SetupSpec(v, r, now)
    case UpdateCall(r, now) => UpdateSpec(v, r, now)
    case KillCall(now) => KillSpec(v, now)
    case TerminateCall => TerminateSpec(v)
  }

  /** The tracker after the calls, applied first to last. */
  function Run(v: TrackerView, calls: seq<Call>): TrackerView
    decreases |calls|
  {
    if calls == [] then v else Run(Step(v, calls[0]), calls[1..])
  }

  predicate NoSetup(calls: seq<Call>) {
    forall i :: 0 <= i < |calls| ==> !calls[i].SetupCall?
  }

  /** TouchTableTracker. Its colour, label and drawing are not modelled. */
  class Tracker {
    var state: LifeState
    var startedDying: real
    var startedNasent: real
    var dyingTime: real
    var nasentTime: real
    var cur: Vec2
    var smooth: Vec2
    var trail: seq<Vec2>
    /** The `dead` flag of the follower base class. */
    var dead: bool

    function View(): TrackerView
      reads this
    {
      TrackerView(state, startedDying, startedNasent, dyingTime, nasentTime, cur, smooth, trail, dead)
    }

    ghost predicate Valid()
      reads this
    {
      |trail| <= TrailCapacity
    }

    /** The constructor sets the timers and thresholds; it leaves `state` (and the base class's `dead`) unassigned. */
    constructor ()
      ensures Valid()
      ensures startedDying == 0.0 && startedNasent == 0.0
      ensures dyingTime == DefaultDyingTime && nasentTime == DefaultNasentTime
      ensures cur == Vec2(0.0, 0.0) && smooth == Vec2(0.0, 0.0) && trail == []
    {
      startedDying := 0.0;
      startedNasent := 0.0;
      dyingTime := DefaultDyingTime;
      nasentTime := DefaultNasentTime;
      cur := Vec2(0.0, 0.0);
      smooth := Vec2(0.0, 0.0);
      trail := [];
    }

    method Setup(track: Rect, now: real)
      modifies this
      ensures Valid()
      ensures View() == SetupSpec(old(View()), track, now)
    {
      startedNasent := now;
      cur := Centre(track);
      smooth := cur;
      state := Nasent;
      trail := [];
    }

    method Update(track: Rect, now: real)
      requires Valid()
      modifies this
      ensures Valid()
      ensures View() == UpdateSpec(old(View()), track, now)
    {
      if state == Born {
        state := Alive;
      }
      if state == Alive {
        startedDying := 0.0;
        cur := Centre(track);
        smooth := Interpolate(smooth, cur, Smoothing);
        trail := trail + [smooth];
        if |trail| > TrailCapacity {
          trail := trail[1..];
        }
      } else if state == Nasent {
        var curTime := now;
        if curTime - startedNasent > nasentTime {
          state := Born;
        }
      }
    }

    method Kill(now: real)
      requires Valid()
      modifies this
      ensures Valid()
      ensures View() == KillSpec(old(View()), now)
    {
      var curTime := now;
      if state == Alive {
        if startedDying == 0.0 {
          startedDying := curTime;
        } else if curTime - startedDying > dyingTime {
          state := Dead;
        }
      } else {
        state := Dead;
      }
    }

    method Terminate()
      modifies this
      ensures Valid()
      ensures View() == TerminateSpec(old(View()))
    {
      dead := true;
      state := Dead;
      trail := [];
    }
  }

  // ---------------------------------------------------------------------------------------------
  // Properties of single calls

  /** setup starts a NASENT tracker at the box centre with an empty trail, timed from `now`. */
  lemma SetupStartsNasent(v: TrackerView, r: Rect, now: real)
    ensures var u := SetupSpec(v, r, now);
      && u.state == Nasent
      && u.cur == Centre(r) && u.smooth == Centre(r)
      && u.trail == []
      && u.startedNasent == now
      && u.startedDying == v.startedDying && u.dyingTime == v.dyingTime && u.nasentTime == v.nasentTime
  {
  }

  /** An update on a NASENT tracker changes only the state, to BORN exactly when the settle time has strictly passed. */
  lemma NasentUpdateOnlyAges(v: TrackerView, r: Rect, now: real)
    requires v.state == Nasent
    ensures var u := UpdateSpec(v, r, now);
      && (u.state == Born <==> now - v.startedNasent > v.nasentTime)
      && (u.state == Nasent <==> now - v.startedNasent <= v.nasentTime)
      && u.(state := Nasent) == v
  {
  }

  /**
   * An update on a BORN or ALIVE tracker leaves it ALIVE, clears the dying timer, takes the box centre,
   * moves the smoothed position to the midpoint of the old one and the centre, and appends it to the trail.
   */
  lemma MatchedUpdateRefreshes(v: TrackerView, r: Rect, now: real)
    requires v.state == Born || v.state == Alive
    ensures var u := UpdateSpec(v, r, now); var c := Centre(r);
      && u.state == Alive
      && u.startedDying == 0.0
      && u.cur == c
      && u.smooth == Vec2((v.smooth.x + c.x) / 2.0, (v.smooth.y + c.y) / 2.0)
      && u.trail == PushTrail(v.trail, u.smooth)
      && u.startedNasent == v.startedNasent && u.dyingTime == v.dyingTime && u.nasentTime == v.nasentTime
      && u.dead == v.dead
  {
  }

  /** The trail keeps at most 50 points: below capacity it grows by one, at capacity vertex 0 is evicted. */
  lemma PushTrailEvictsOldest(trail: seq<Vec2>, p: Vec2)
    requires |trail| <= TrailCapacity
    ensures |PushTrail(trail, p)| <= TrailCapacity
    ensures |trail| < TrailCapacity ==> PushTrail(trail, p) == trail + [p]
    ensures |trail| == TrailCapacity ==> PushTrail(trail, p) == trail[1..] + [p]
  {
  }

  /** The four cases of kill. */
  lemma KillCases(v: TrackerView, now: real)
    ensures v.state != Alive ==> KillSpec(v, now) == v.(state := Dead)
    ensures v.state == Alive && v.startedDying == 0.0 ==> KillSpec(v, now) == v.(startedDying := now)
    ensures v.state == Alive && v.startedDying != 0.0 && now - v.startedDying > v.dyingTime ==>
      KillSpec(v, now) == v.(state := Dead)
    ensures v.state == Alive && v.startedDying != 0.0 && now - v.startedDying <= v.dyingTime ==>
      KillSpec(v, now) == v
  {
  }

  /** terminate, from any state, gives DEAD with the dead flag set and an empty trail. */
  lemma TerminateEnds(v: TrackerView)
    ensures TerminateSpec(v).state == Dead && TerminateSpec(v).dead && TerminateSpec(v).trail == []
  {
  }

  /** update, kill and terminate never move a tracker backwards, and none of them leaves DEAD. */
  lemma StepForward(v: TrackerView, c: Call)
    requires !c.SetupCall?
    ensures Rank(v.state) <= Rank(Step(v, c).state)
    ensures v.state == Dead ==> Step(v, c).state == Dead
  {
  }

  /** Every call keeps the trail within capacity. */
  lemma StepKeepsTrailBound(v: TrackerView, c: Call)
    requires |v.trail| <= TrailCapacity
    ensures |Step(v, c).trail| <= TrailCapacity
  {
  }

  // ---------------------------------------------------------------------------------------------
  // Properties of arbitrary call sequences

  lemma {:induction false} RunKeepsTrailBound(v: TrackerView, calls: seq<Call>)
    requires |v.trail| <= TrailCapacity
    ensures |Run(v, calls).trail| <= TrailCapacity
    decreases |calls|
  {
    if calls != [] {
      StepKeepsTrailBound(v, calls[0]);
      RunKeepsTrailBound(Step(v, calls[0]), calls[1..]);
    }
  }

  /** Without a fresh setup, a tracker only moves forward in NASENT < BORN < ALIVE < DEAD, and DEAD absorbs. */
  lemma {:induction false} RunForward(v: TrackerView, calls: seq<Call>)
    requires NoSetup(calls)
    ensures Rank(v.state) <= Rank(Run(v, calls).state)
    ensures v.state == Dead ==> Run(v, calls).state == Dead
    decreases |calls|
  {
    if calls != [] {
      StepForward(v, calls[0]);
      assert NoSetup(calls[1..]) by {
        forall i | 0 <= i < |calls[1..]| ensures !calls[1..][i].SetupCall? {
          assert calls[1..][i] == calls[i + 1];
        }
      }
      RunForward(Step(v, calls[0]), calls[1..]);
    }
  }

  /** Without setup, the NASENT timestamp never changes. */
  lemma {:induction false} RunKeepsNasentStamp(v: TrackerView, calls: seq<Call>)
    requires NoSetup(calls)
    ensures Run(v, calls).startedNasent == v.startedNasent
    ensures Run(v, calls).nasentTime == v.nasentTime && Run(v, calls).dyingTime == v.dyingTime
    decreases |calls|
  {
    if calls != [] {
      assert NoSetup(calls[1..]) by {
        forall i | 0 <= i < |calls[1..]| ensures !calls[1..][i].SetupCall? {
          assert calls[1..][i] == calls[i + 1];
        }
      }
      RunKeepsNasentStamp(Step(v, calls[0]), calls[1..]);
    }
  }

  /**
   * A NASENT tracker gets past NASENT into BORN or ALIVE only through an update made strictly more than
   * the settle time after setup; a kill sends it to DEAD instead.
   */
  lemma {:induction false} LeavesNasentOnlyByAging(v: TrackerView, calls: seq<Call>)
    requires v.state == Nasent
    requires NoSetup(calls)
    requires Run(v, calls).state == Born || Run(v, calls).state == Alive
    ensures exists i :: 0 <= i < |calls| && calls[i].UpdateCall? && calls[i].now - v.startedNasent > v.nasentTime
    decreases |calls|
  {
    assert calls != [];
    var c := calls[0];
    var u := Step(v, c);
    assert NoSetup(calls[1..]) by {
      forall i | 0 <= i < |calls[1..]| ensures !calls[1..][i].SetupCall? {
        assert calls[1..][i] == calls[i + 1];
      }
    }
    if c.UpdateCall? && c.now - v.startedNasent > v.nasentTime {
      assert calls[0].UpdateCall?;
    } else {
      if u.state == Dead {
        RunForward(u, calls[1..]);
        assert false;
      }
      assert u == v;
      LeavesNasentOnlyByAging(u, calls[1..]);
      var i :| 0 <= i < |calls[1..]| && calls[1..][i].UpdateCall? && calls[1..][i].now - u.startedNasent > u.nasentTime;
      assert calls[i + 1] == calls[1..][i];
    }
  }

  /** Call i is a kill made, while the dying timer ran, strictly more than the fade time after it started. */
  predicate FadeKill(v: TrackerView, calls: seq<Call>, i: nat)
    requires i < |calls|
  {
    var u := Run(v, calls[..i]);
    calls[i].KillCall? && u.state == Alive && u.startedDying != 0.0 && calls[i].now - u.startedDying > u.dyingTime
  }

  /**
   * An ALIVE tracker that reaches DEAD through updates and kills does so at a kill made strictly more than
   * the fade time after the dying timer was started, while that timer was running.
   */
  lemma {:induction false} DiesOnlyAfterFade(v: TrackerView, calls: seq<Call>)
    requires v.state == Alive
    requires forall i :: 0 <= i < |calls| ==> calls[i].UpdateCall? || calls[i].KillCall?
    requires Run(v, calls).state == Dead
    ensures exists i :: 0 <= i < |calls| && FadeKill(v, calls, i)
    decreases |calls|
  {
    assert calls != [];
    var u := Step(v, calls[0]);
    assert Run(v, calls[..0]) == v;
    if u.state == Dead {
      assert FadeKill(v, calls, 0);
    } else {
      assert u.state == Alive;
      var rest := calls[1..];
      assert forall i :: 0 <= i < |rest| ==> rest[i].UpdateCall? || rest[i].KillCall? by {
        forall i | 0 <= i < |rest| ensures rest[i].UpdateCall? || rest[i].KillCall? {
          assert rest[i] == calls[i + 1];
        }
      }
      DiesOnlyAfterFade(u, rest);
      var i :| 0 <= i < |rest| && FadeKill(u, rest, i);
      assert calls[..i + 1][0] == calls[0];
      assert calls[..i + 1][1..] == rest[..i];
      assert Run(v, calls[..i + 1]) == Run(u, rest[..i]);
      assert calls[i + 1] == rest[i];
      assert FadeKill(v, calls, i + 1);
    }
  }

  // ---------------------------------------------------------------------------------------------
  // Scenarios

  /**
   * A box seen at setup, again before the settle time (still NASENT), again after it (BORN), and once
   * more (ALIVE, at the box centre).
   */
  lemma ScenarioSettleThenAlive(v: TrackerView, r: Rect, t0: real)
    requires v.nasentTime == DefaultNasentTime
    ensures var s := SetupSpec(v, r, t0);
      var a := UpdateSpec(s, r, t0 + 0.1);
      var b := UpdateSpec(a, r, t0 + 0.3);
      var c := UpdateSpec(b, r, t0 + 0.35);
      a.state == Nasent && b.state == Born && c.state == Alive && c.cur == Centre(r) && c.smooth == Centre(r)
  {
  }

  /** An ALIVE tracker unmatched over 0.6 s (first kill at a non-zero time) is DEAD. */
  lemma ScenarioFadeOut(v: TrackerView, t: real)
    requires v.state == Alive && v.startedDying == 0.0 && v.dyingTime == DefaultDyingTime
    requires t != 0.0
    ensures KillSpec(KillSpec(v, t), t + 0.6).state == Dead
    ensures KillSpec(v, t).state == Alive && KillSpec(KillSpec(v, t), t + 0.5).state == Alive
  {
  }
}
