/**
 * The start/stop control of the 3-D view (`start_anim` / `stop_anim` in
 * `_plot3D`) as a pure state machine over the slider's connected callbacks,
 * matplotlib's next callback id, `self.cid` and `self.anim`.
 *
 * The slider and the animation timer do not both drive the plot only while
 * Start and Stop alternate: every `stop_anim` connects one more slider
 * callback, and `start_anim` disconnects only the most recent one.
 */
module AnimationControl {
  import opened Wrappers

  /** A constructed `FuncAnimation`, by whether its timer is running. */
  datatype Animation = Animation(running: bool)

  /**
   * `observers`: the ids of the slider's connected `update` callbacks, oldest
   * first; `nextCid`: the id matplotlib hands out next; `cid`: `self.cid`;
   * `anim`: `self.anim` (None until the first Start).
   */
  datatype Control = Control(observers: seq<nat>, nextCid: nat, cid: Option<nat>, anim: Option<Animation>)

  /** Every id in use was handed out already. */
  predicate Fresh(c: Control)
  {
    && (forall o :: o in c.observers ==> o < c.nextCid)
    && (c.cid.Some? ==> c.cid.value < c.nextCid)
  }

  predicate SliderBound(c: Control)
  {
    c.observers != []
  }

  predicate Animating(c: Control)
  {
    c.anim == Some(Animation(true))
  }

  /** At most one of the slider and the animation timer can change the plot. */
  predicate Exclusive(c: Control)
  {
    !(SliderBound(c) && Animating(c))
  }

  /** Slider-driven: exactly the callback `self.cid` names is connected, and no animation runs. */
  predicate Idle(c: Control)
  {
    c.cid.Some? && c.observers == [c.cid.value] && !Animating(c)
  }

  /** Timer-driven: the animation runs and no slider callback is connected. */
  predicate Running(c: Control)
  {
    c.cid.Some? && c.observers == [] && Animating(c)
  }

  /** `sparam.disconnect(cid)`: removes the callback with that id, if connected. */
  function Disconnect(observers: seq<nat>, cid: Option<nat>): (r: seq<nat>)
    ensures forall o :: o in r <==> o in observers && cid != Some(o)
  {
    if observers == [] then []
    else
      var rest := Disconnect(observers[1..], cid);
      if cid == Some(observers[0]) then rest else [observers[0]] + rest
  }

  lemma {:induction false} DisconnectLatest(observers: seq<nat>, id: nat)
    requires id !in observers
    ensures Disconnect(observers + [id], Some(id)) == observers
  {
    if observers == [] {
      assert Disconnect([id], Some(id)) == Disconnect([], Some(id));
    } else {
      DisconnectLatest(observers[1..], id);
      assert (observers + [id])[1..] == observers[1..] + [id];
    }
  }

  /** `self.cid = sparam.on_changed(update)`: connects a new callback and remembers its id. */
  function Connect(c: Control): Control
  {
    c.(observers := c.observers + [c.nextCid], nextCid := c.nextCid + 1, cid := Some(c.nextCid))
  }

  /** `start_anim`: disconnects `self.cid`; constructs the animation if there is none, else restarts it. */
  function StartAnim(c: Control): Control
  {
    c.(observers := Disconnect(c.observers, c.cid), anim := Some(Animation(true)))
  }

  /** `stop_anim`: connects the slider again, and stops the animation if there is one. */
  function StopAnim(c: Control): Control
  {
    Connect(c).(anim := if c.anim.Some? then Some(Animation(false)) else None)
  }

  lemma FreshPreserved(c: Control)
    requires Fresh(c)
    ensures Fresh(StartAnim(c)) && Fresh(StopAnim(c))
  {
  }

  /** Start from the slider-driven state runs the animation with no slider callback left. */
  lemma StartFromIdle(c: Control)
    requires Idle(c)
    ensures Running(StartAnim(c)) && Exclusive(StartAnim(c))
  {
    assert Disconnect(c.observers, c.cid) == [];
  }

  /** Stop from the timer-driven state stops the animation and connects exactly one callback. */
  lemma StopFromRunning(c: Control)
    requires Running(c)
    ensures Idle(StopAnim(c)) && Exclusive(StopAnim(c))
    ensures StopAnim(c).anim == Some(Animation(false))
  {
  }

  /** Stop followed by Start leaves the slider's callbacks as they were, and the animation running. */
  lemma StopThenStart(c: Control)
    requires Fresh(c)
    ensures StartAnim(StopAnim(c)).observers == c.observers
    ensures Animating(StartAnim(StopAnim(c)))
  {
    DisconnectLatest(c.observers, c.nextCid);
  }

  /**
   * Pressing Stop while the slider drives the plot, then Start, runs the
   * animation while the original slider callback is still connected.
   */
  lemma RepeatedStopBreaksExclusivity(c: Control)
    requires Fresh(c) && Idle(c)
    ensures SliderBound(StartAnim(StopAnim(c))) && Animating(StartAnim(StopAnim(c)))
    ensures !Exclusive(StartAnim(StopAnim(c)))
  {
    StopThenStart(c);
  }

  /** The two buttons of the 3-D view. */
  datatype Button = StartButton | StopButton

  function Press(c: Control, b: Button): Control
  {
    match b
    case StartButton => StartAnim(c)
    case StopButton => StopAnim(c)
  }

  /** The state after pressing `bs` in order. */
  function Presses(c: Control, bs: seq<Button>): Control
    decreases |bs|
  {
    if bs == [] then c else Presses(Press(c, bs[0]), bs[1..])
  }

  /** Every press of Stop comes right after a press of Start. */
  predicate StopsFollowStarts(bs: seq<Button>)
  {
    forall k :: 0 <= k < |bs| && bs[k] == StopButton ==> 0 < k && bs[k - 1] == StartButton
  }

  lemma {:induction false} PressesSettled(c: Control, bs: seq<Button>)
    requires Fresh(c) && (Idle(c) || Running(c))
    requires bs != [] && bs[0] == StopButton ==> Running(c)
    requires forall k :: 1 <= k < |bs| && bs[k] == StopButton ==> bs[k - 1] == StartButton
    ensures var d := Presses(c, bs); Fresh(d) && (Idle(d) || Running(d))
    decreases |bs|
  {
    if bs != [] {
      var c1 := Press(c, bs[0]);
      FreshPreserved(c);
      if bs[0] == StartButton {
        if Idle(c) {
          StartFromIdle(c);
        } else {
          assert Disconnect(c.observers, c.cid) == [];
        }
        assert Running(c1);
      } else {
        StopFromRunning(c);
      }
      var rest := bs[1..];
      if rest != [] && rest[0] == StopButton {
        assert bs[1] == StopButton;
      }
      forall k | 1 <= k < |rest| && rest[k] == StopButton
        ensures rest[k - 1] == StartButton
      {
        assert bs[k + 1] == StopButton;
      }
      PressesSettled(c1, rest);
    }
  }

  /**
   * Starting slider-driven, as long as Stop is only ever pressed right after
   * Start, the slider and the animation never both drive the plot.
   */
  lemma AlternatingPressesExclusive(c: Control, bs: seq<Button>)
    requires Fresh(c) && Idle(c)
    requires StopsFollowStarts(bs)
    ensures Exclusive(Presses(c, bs))
  {
    PressesSettled(c, bs);
  }
}
