/**
 * The bongo-cat widget: an animation state machine fed by the typing speed
 * (words per minute) and the caps-lock bit of the keyboard's indicator
 * profile, and the registry of widget instances it fans every update out to.
 *
 * The state and the registry are globals of the program, so the model keeps
 * them in one object. The widget's image frames are opaque identifiers and
 * the calls into the animated-image primitive become commands in a log.
 */
module BongoCat {
  import opened Bytes

  /** The caps-lock bit of the indicator profile. */
  const LedClck: bv8 := 0x02

  /**
   * The animation duration in milliseconds passed to `lv_animimg_set_duration`:
   * the time of one pass through the whole frame table, not of one frame.
   */
  const SpeedIdle: nat := 1000
  const SpeedSlow: nat := 400
  const SpeedMid: nat := 300
  const SpeedFast: nat := 200
  const SpeedSmash: nat := 600

  datatype AnimState = None | Idle | Slow | Mid | Fast | Smash

  /** The image assets, as identifiers. */
  datatype Frame =
    | CatIdle1 | CatIdle2 | CatIdle3 | CatIdle4
    | CatRight | CatLeft
    | CatSmash1 | CatSmash2 | CatSmash3 | CatSmash4

  const IdleImgs: seq<Frame> := [CatIdle1, CatIdle2, CatIdle3, CatIdle4]
  const TapImgs: seq<Frame> := [CatRight, CatLeft]
  const SmashImgs: seq<Frame> :=
    [CatSmash2, CatSmash2, CatSmash2, CatSmash2, CatSmash3,
     CatSmash4, CatSmash4, CatSmash1, CatSmash1, CatSmash1]

  /** The handle of a widget's animated-image object. */
  type WidgetId = nat

  /** A call into the animated-image primitive. */
  datatype Command =
    | SetSrc(obj: WidgetId, frames: seq<Frame>)
    | SetDuration(obj: WidgetId, ms: nat)
    | SetRepeatInfinite(obj: WidgetId)
    | Start(obj: WidgetId)

  /** Whether the indicator profile has caps lock on: bit 1 of the mask. */
  predicate CapsLock(profile: bv8)
    ensures CapsLock(profile) <==> (profile >> 1) & 1 == 1
  {
    profile & LedClck != 0
  }

  /** The state `set_animation` aims for, in its priority order. */
  function Target(profile: bv8, wpm: Byte): (s: AnimState)
    ensures s != None
  {
    if CapsLock(profile) then Smash
    else if wpm < 5 then Idle
    else if wpm < 40 then Slow
    else if wpm < 70 then Mid
    else Fast
  }

  /** The frame table of each state. */
  function Frames(s: AnimState): (r: seq<Frame>)
    requires s != None
    ensures r != []
    ensures r == TapImgs <==> s == Slow || s == Mid || s == Fast
  {
    match s
    case Idle => IdleImgs
    case Slow => TapImgs
    case Mid => TapImgs
    case Fast => TapImgs
    case Smash => SmashImgs
  }

  /** The animation duration each state passes to `lv_animimg_set_duration`. */
  function Duration(s: AnimState): (r: nat)
    requires s != None
    ensures SpeedFast <= r <= SpeedIdle
  {
    match s
    case Idle => SpeedIdle
    case Slow => SpeedSlow
    case Mid => SpeedMid
    case Fast => SpeedFast
    case Smash => SpeedSmash
  }

  /** The command group that switches widget `obj` to state `s`. */
  function Group(obj: WidgetId, s: AnimState): (r: seq<Command>)
    requires s != None
    ensures |r| == 4 && r[0].SetSrc? && r[3].Start?
    ensures forall k :: 0 <= k < |r| ==> r[k].obj == obj
  {
    [SetSrc(obj, Frames(s)), SetDuration(obj, Duration(s)), SetRepeatInfinite(obj), Start(obj)]
  }

  /** One call of `set_animation` on `obj` as a value: the new shared state and the commands issued. */
  function Animate(current: AnimState, obj: WidgetId, target: AnimState): (r: (AnimState, seq<Command>))
    requires target != None
    ensures r.0 == target
    ensures |r.1| == 0 || |r.1| == 4
    ensures forall k :: 0 <= k < |r.1| ==> r.1[k].obj == obj
  {
    if current == target then (current, []) else (target, Group(obj, target))
  }

  /** `set_animation` applied to every widget of `ws` in list order, all sharing one state. */
  function FanOut(current: AnimState, ws: seq<WidgetId>, target: AnimState): (r: (AnimState, seq<Command>))
    requires target != None
    ensures r.0 == if ws == [] then current else target
    ensures forall k :: 0 <= k < |r.1| ==> r.1[k].obj in ws
    decreases |ws|
  {
    if ws == [] then (current, [])
    else
      var (c, cmds) := FanOut(current, ws[..|ws| - 1], target);
      var (c', more) := Animate(c, ws[|ws| - 1], target);
      (c', cmds + more)
  }

  // ---------------------------------------------------------------------
  // The decision table

  /** Caps lock dominates; otherwise the speed bands decide; the result is never `None`. */
  lemma TargetTable(profile: bv8, wpm: Byte)
    ensures Target(profile, wpm) == Smash <==> profile & 0x02 != 0
    ensures Target(profile, wpm) == Idle <==> profile & 0x02 == 0 && wpm < 5
    ensures Target(profile, wpm) == Slow <==> profile & 0x02 == 0 && 5 <= wpm < 40
    ensures Target(profile, wpm) == Mid <==> profile & 0x02 == 0 && 40 <= wpm < 70
    ensures Target(profile, wpm) == Fast <==> profile & 0x02 == 0 && 70 <= wpm
  {
  }

  /** The exact band edges, and caps lock at the extremes of the speed range. */
  lemma Thresholds()
    ensures Target(0, 4) == Idle && Target(0, 5) == Slow
    ensures Target(0, 39) == Slow && Target(0, 40) == Mid
    ensures Target(0, 69) == Mid && Target(0, 70) == Fast
    ensures Target(0x02, 0) == Smash && Target(0x02, 255) == Smash
  {
  }

  /** Only the caps-lock bit of the profile matters. */
  lemma OnlyCapsBitMatters(p1: bv8, p2: bv8, wpm: Byte)
    requires p1 & LedClck == p2 & LedClck
    ensures Target(p1, wpm) == Target(p2, wpm)
  {
  }

  /** Without caps lock, faster typing never gives a longer animation duration. */
  lemma FasterNeverSlower(profile: bv8, w1: Byte, w2: Byte)
    requires !CapsLock(profile) && w1 <= w2
    ensures Duration(Target(profile, w1)) >= Duration(Target(profile, w2))
  {
  }

  /** The frames and the animation duration each state plays. */
  lemma GroupTable(obj: WidgetId)
    ensures Group(obj, Idle) == [SetSrc(obj, IdleImgs), SetDuration(obj, 1000), SetRepeatInfinite(obj), Start(obj)]
    ensures Group(obj, Slow) == [SetSrc(obj, TapImgs), SetDuration(obj, 400), SetRepeatInfinite(obj), Start(obj)]
    ensures Group(obj, Mid) == [SetSrc(obj, TapImgs), SetDuration(obj, 300), SetRepeatInfinite(obj), Start(obj)]
    ensures Group(obj, Fast) == [SetSrc(obj, TapImgs), SetDuration(obj, 200), SetRepeatInfinite(obj), Start(obj)]
    ensures Group(obj, Smash) == [SetSrc(obj, SmashImgs), SetDuration(obj, 600), SetRepeatInfinite(obj), Start(obj)]
    ensures |IdleImgs| == 4 && |TapImgs| == 2 && |SmashImgs| == 10
  {
  }

  // ---------------------------------------------------------------------
  // The shared state

  /** Re-animating toward the state already current issues nothing and changes nothing. */
  lemma AnimateIdempotent(current: AnimState, o1: WidgetId, o2: WidgetId, target: AnimState)
    requires target != None
    ensures Animate(current, o1, target).0 == target
    ensures Animate(current, o1, target).1 == [] <==> current == target
    ensures Animate(Animate(current, o1, target).0, o2, target) == (target, [])
  {
  }

  /** Once the shared state is the target, the remaining widgets receive nothing. */
  lemma {:induction false} FanOutSettled(ws: seq<WidgetId>, target: AnimState)
    requires target != None
    ensures FanOut(target, ws, target) == (target, [])
    decreases |ws|
  {
    if ws != [] {
      FanOutSettled(ws[..|ws| - 1], target);
      assert Animate(target, ws[|ws| - 1], target) == (target, []);
      var nothing: seq<Command> := [];
      assert nothing + nothing == nothing;
    }
  }

  /**
   * Since the state is shared, an update reaches only the first widget in
   * list order: it receives one command group if the target differs from
   * the shared state, and nobody receives anything otherwise.
   */
  lemma {:induction false} FanOutFirstOnly(current: AnimState, ws: seq<WidgetId>, target: AnimState)
    requires target != None
    ensures FanOut(current, ws, target).0 == if ws == [] then current else target
    ensures FanOut(current, ws, target).1 ==
      if ws == [] || current == target then [] else Group(ws[0], target)
    decreases |ws|
  {
    if ws != [] {
      var init := ws[..|ws| - 1];
      if init == [] {
        assert FanOut(current, init, target) == (current, []);
      } else {
        FanOutFirstOnly(current, init, target);
        assert init[0] == ws[0];
        assert FanOut(current, init, target).0 == target;
      }
    }
  }

  /**
   * A second identical update after any update is silent, even with no
   * widget registered; with a widget, the state stays the target.
   */
  lemma RepeatedUpdateSilent(current: AnimState, ws: seq<WidgetId>, target: AnimState)
    requires target != None
    ensures FanOut(FanOut(current, ws, target).0, ws, target).1 == []
    ensures ws != [] ==> FanOut(FanOut(current, ws, target).0, ws, target) == (target, [])
  {
  }

  /**
   * Two distinct widgets from the initial state: only the first is told to
   * play, the second receives no command at all.
   */
  lemma SecondWidgetStarved(a: WidgetId, b: WidgetId, target: AnimState)
    requires a != b && target != None
    ensures FanOut(None, [a, b], target).1 == Group(a, target)
    ensures forall k :: 0 <= k < |FanOut(None, [a, b], target).1| ==> FanOut(None, [a, b], target).1[k].obj != b
  {
    FanOutFirstOnly(None, [a, b], target);
  }

  /** The globals of the widget: `current_anim_state`, the `widgets` list, and the commands issued so far. */
  class Widgets {
    var current: AnimState
    var widgets: seq<WidgetId>
    ghost var log: seq<Command>

    /** The zero-initialised globals: no state yet, no widget, no command. */
    constructor ()
      ensures current == None && widgets == [] && log == []
    {
      current := None;
      widgets := [];
      log := [];
    }

    /** The four calls that start a looping animation on `obj`. */
    method Play(obj: WidgetId, frames: seq<Frame>, ms: nat)
      modifies this`log
      ensures log == old(log) + [SetSrc(obj, frames), SetDuration(obj, ms), SetRepeatInfinite(obj), Start(obj)]
    {
      log := log + [SetSrc(obj, frames)];
      log := log + [SetDuration(obj, ms)];
      log := log + [SetRepeatInfinite(obj)];
      log := log + [Start(obj)];
    }

    /** `set_animation`: switch `obj` to the target state unless it is the shared current state. */
    method SetAnimation(obj: WidgetId, profile: bv8, wpm: Byte)
      modifies this`current, this`log
      ensures current == Target(profile, wpm) && current != None
      ensures log == old(log) + if old(current) == current then [] else Group(obj, current)
      ensures (current, log[|old(log)|..]) == Animate(old(current), obj, Target(profile, wpm))
    {
      var caps := profile & LedClck != 0;
      if caps {
        if current != Smash {
          Play(obj, SmashImgs, SpeedSmash);
          current := Smash;
        }
      } else if wpm < 5 {
        if current != Idle {
          Play(obj, IdleImgs, SpeedIdle);
          current := Idle;
        }
      } else if wpm < 40 {
        if current != Slow {
          Play(obj, TapImgs, SpeedSlow);
          current := Slow;
        }
      } else if wpm < 70 {
        if current != Mid {
          Play(obj, TapImgs, SpeedMid);
          current := Mid;
        }
      } else {
        if current != Fast {
          Play(obj, TapImgs, SpeedFast);
          current := Fast;
        }
      }
      assert log[|old(log)|..] == if old(current) == current then [] else Group(obj, current);
    }

    /** `bongo_cat_wpm_status_update_cb`: `set_animation` on every registered widget in list order. */
    method UpdateCb(profile: bv8, wpm: Byte)
      modifies this`current, this`log
      ensures widgets == old(widgets)
      ensures current == if widgets == [] then old(current) else Target(profile, wpm)
      ensures log == old(log) +
        if widgets == [] || old(current) == Target(profile, wpm) then [] else Group(widgets[0], Target(profile, wpm))
      ensures (current, log[|old(log)|..]) == FanOut(old(current), widgets, Target(profile, wpm))
    {
      ghost var target := Target(profile, wpm);
      var i := 0;
      assert widgets[..0] == [] && log[|old(log)|..] == [];
      while i < |widgets|
        invariant 0 <= i <= |widgets|
        invariant |old(log)| <= |log| && log[..|old(log)|] == old(log)
        invariant (current, log[|old(log)|..]) == FanOut(old(current), widgets[..i], target)
      {
        ghost var before := log;
        SetAnimation(widgets[i], profile, wpm);
        assert widgets[..i + 1][..i] == widgets[..i];
        assert log[|old(log)|..] == before[|old(log)|..] + log[|before|..];
        i := i + 1;
      }
      assert widgets[..i] == widgets;
      FanOutFirstOnly(old(current), widgets, target);
      assert log == log[..|old(log)|] + log[|old(log)|..];
    }

    /** The registry append of `zmk_widget_bongo_cat_init`: at the end, with no de-duplication. */
    method Register(obj: WidgetId)
      modifies this`widgets
      ensures widgets == old(widgets) + [obj]
    {
      widgets := widgets + [obj];
    }
  }

  /** Two widgets registered, then one caps-lock update: only the first is switched to smash. */
  method TwoWidgetsOneUpdate(a: WidgetId, b: WidgetId) returns (w: Widgets)
    ensures w.widgets == [a, b] && w.current == Smash
    ensures w.log == Group(a, Smash)
  {
    w := new Widgets();
    w.Register(a);
    w.Register(b);
    w.UpdateCb(0x02, 0);
    w.UpdateCb(0x02, 120);
  }
}
