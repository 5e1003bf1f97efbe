/**
 * Playback scheduling with barge-in: the `onmessage` and `onended` handlers
 * of components/LiveConsultant.tsx. A cursor (`nextStartTimeRef`) on the
 * output clock says where the next segment starts; the live sources
 * (`sourcesRef`) are kept so that an `interrupted` message can stop them all.
 *
 * `State` and the functions over it are the specification; `LivePlayback`
 * is the component's mutable state, and its handlers are proved against
 * those functions. Calls to `source.start(when)` and `source.stop()` are
 * recorded as effects.
 */
module Playback {
  import opened Platform
  import BinaryString
  import Inbound

  /** The rate and channel count the handler passes to `decodeAudioData`. */
  const OutputSampleRate: nat := 24000
  const OutputChannels: nat := 1

  /** An AudioBufferSourceNode, named by the order of its creation. */
  type Source = nat

  /** A call made on a source: `start(when)` of a buffer lasting `duration` seconds, or `stop()`. */
  datatype Effect = Start(source: Source, when: real, duration: real) | Stop(source: Source)

  /**
   * The cursor, the live sources in insertion order (a JavaScript Set keeps it),
   * the number of sources created so far and every call made on a source.
   */
  datatype State = State(cursor: real, active: seq<Source>, created: nat, effects: seq<Effect>)

  const Initial: State := State(0.0, [], 0, [])

  /** The part of a server message the handler reads: the first part's inline audio, and the interruption flag. */
  datatype Message = Message(audioData: Option<string>, interrupted: bool)

  /** How the (asynchronous) handler ends: normally, or by an exception nobody catches. */
  datatype Outcome = Handled | Threw(error: Error)

  // ---------------------------------------------------------------------------
  // The steps of the handler

  /** Line 96: the cursor is moved up to the current time if it has fallen behind. */
  function CatchUp(s: State, now: real): (t: State)
    ensures t.cursor >= s.cursor && t.cursor >= now && (t.cursor == s.cursor || t.cursor == now)
    ensures t.active == s.active && t.created == s.created && t.effects == s.effects
  {
    s.(cursor := Max(s.cursor, now))
  }

  /** Lines 98-104: a new source starts at the cursor, the cursor moves past it, and the source joins the set. */
  function Play(s: State, duration: real): State
  {
    State(s.cursor + duration, s.active + [s.created], s.created + 1, s.effects + [Start(s.created, s.cursor, duration)])
  }

  /** Scheduling a segment of the given duration that arrives at time now. */
  function Schedule(s: State, now: real, duration: real): (t: State)
    ensures |t.effects| == |s.effects| + 1 && t.effects[..|s.effects|] == s.effects
    ensures var e := t.effects[|s.effects|];
      e.Start? && e.source == s.created && e.duration == duration
      && e.when >= now && e.when >= s.cursor && (e.when == now || e.when == s.cursor)
      && t.cursor == e.when + duration
    ensures t.active == s.active + [s.created] && t.created == s.created + 1
  {
    Play(CatchUp(s, now), duration)
  }

  /** `Set.delete`: the sequence without h, the others in their order. */
  function Remove(hs: seq<Source>, h: Source): (r: seq<Source>)
    ensures forall x :: x in r <==> x in hs && x != h
    ensures Ascending(hs) ==> Ascending(r)
    decreases |hs|
  {
    if hs == [] then []
    else if hs[0] == h then Remove(hs[1..], h)
    else
      assert Ascending(hs) ==> Ascending([hs[0]] + Remove(hs[1..], h)) by {
        if Ascending(hs) { AscendingCons(hs, Remove(hs[1..], h)); }
      }
      [hs[0]] + Remove(hs[1..], h)
  }

  /** The head of an ascending sequence can go before what is left of its tail after a deletion. */
  lemma AscendingCons(hs: seq<Source>, rest: seq<Source>)
    requires hs != [] && Ascending(hs)
    requires Ascending(hs[1..]) ==> Ascending(rest)
    requires forall x :: x in rest ==> x in hs[1..]
    ensures Ascending([hs[0]] + rest)
  {
    assert Ascending(hs[1..]) by {
      forall i, j | 0 <= i < j < |hs[1..]| ensures hs[1..][i] < hs[1..][j] {
        assert hs[1..][i] == hs[i + 1] && hs[1..][j] == hs[j + 1];
      }
    }
    var r := [hs[0]] + rest;
    forall i, j | 0 <= i < j < |r| ensures r[i] < r[j] {
      if i == 0 {
        assert r[j] == rest[j - 1] && rest[j - 1] in hs[1..];
        var k :| 0 <= k < |hs[1..]| && hs[1..][k] == r[j];
        assert r[j] == hs[k + 1];
      } else {
        assert r[i] == rest[i - 1] && r[j] == rest[j - 1];
      }
    }
  }

  /** Line 104: a source that has ended leaves the set; nothing else changes. */
  function Ended(s: State, h: Source): (t: State)
    ensures h !in t.active && forall x :: x != h ==> (x in t.active <==> x in s.active)
    ensures t.cursor == s.cursor && t.created == s.created && t.effects == s.effects
  {
    s.(active := Remove(s.active, h))
  }

  function StopEach(hs: seq<Source>): (r: seq<Effect>)
    ensures |r| == |hs|
  {
    seq(|hs|, i requires 0 <= i < |hs| => Stop(hs[i]))
  }

  /** Lines 107-109: every live source is stopped, in insertion order, the set is cleared and the cursor goes back to 0. */
  function Interrupt(s: State): (t: State)
    ensures t.active == [] && t.cursor == 0.0 && t.created == s.created
    ensures |t.effects| == |s.effects| + |s.active| && t.effects[..|s.effects|] == s.effects
    ensures forall i :: 0 <= i < |s.active| ==> t.effects[|s.effects| + i] == Stop(s.active[i])
  {
    State(0.0, [], s.created, s.effects + StopEach(s.active))
  }

  /** Line 97: the payload decoded as base64 and then as one channel of 16-bit PCM at 24 kHz. */
  function SegmentOf(audioData: string): (r: Result<Inbound.Segment>)
    ensures r.Ok? ==> r.value.sampleRate == OutputSampleRate && r.value.Duration() > 0.0
  {
    match BinaryString.Decoded(audioData)
    case Err(e) => Err(e)
    case Ok(bytes) => Inbound.DecodeAudio(bytes, OutputSampleRate, OutputChannels)
  }

  /** Predicate of line 94: the audio part is present and not the empty string. */
  predicate HasAudio(m: Message)
  {
    m.audioData.Some? && m.audioData.value != ""
  }

  /**
   * One run of `onmessage` at output time now. The audio part comes first;
   * a payload that fails to decode throws after the cursor has been caught
   * up, and the rest of the handler, the interruption included, is skipped.
   */
  function Receive(s: State, m: Message, now: real): (r: (State, Outcome))
    ensures r.1.Threw? <==> HasAudio(m) && SegmentOf(m.audioData.value).Err?
    ensures r.1.Threw? ==> r.1.error == SegmentOf(m.audioData.value).error && r.0.active == s.active
    ensures r.1.Handled? && m.interrupted ==> r.0.active == [] && r.0.cursor == 0.0
    ensures r.0.created == if HasAudio(m) && SegmentOf(m.audioData.value).Ok? then s.created + 1 else s.created
    ensures |r.0.effects| >= |s.effects| && r.0.effects[..|s.effects|] == s.effects
    ensures !HasAudio(m) && !m.interrupted ==> r == (s, Handled)
    ensures !HasAudio(m) && m.interrupted ==>
      r == (State(0.0, [], s.created, s.effects + StopEach(s.active)), Handled)
  {
    if HasAudio(m) then
      var caught := CatchUp(s, now);
      match SegmentOf(m.audioData.value)
      case Err(e) => (caught, Threw(e))
      case Ok(g) =>
        var played := Play(caught, g.Duration());
        (if m.interrupted then Interrupt(played) else played, Handled)
    else
      (if m.interrupted then Interrupt(s) else s, Handled)
  }

  /** What the component sees: a message at some output time, or a source's `ended` event. */
  datatype Event = Arrived(message: Message, now: real) | SourceEnded(source: Source)

  function Step(s: State, e: Event): State
  {
    match e
    case Arrived(m, now) => Receive(s, m, now).0
    case SourceEnded(h) => Ended(s, h)
  }

  function Run(s: State, es: seq<Event>): State
    decreases |es|
  {
    if es == [] then s else Run(Step(s, es[0]), es[1..])
  }

  // ---------------------------------------------------------------------------
  // The invariant

  predicate Distinct(hs: seq<Source>)
  {
    forall i, j :: 0 <= i < j < |hs| ==> hs[i] != hs[j]
  }

  /** Sources are numbered in creation order, so a set in ascending order is in insertion order. */
  predicate Ascending(hs: seq<Source>)
  {
    forall i, j :: 0 <= i < j < |hs| ==> hs[i] < hs[j]
  }

  predicate WasStarted(effects: seq<Effect>, h: Source)
  {
    exists k :: 0 <= k < |effects| && effects[k].Start? && effects[k].source == h
  }

  predicate WasStopped(effects: seq<Effect>, h: Source)
  {
    exists k :: 0 <= k < |effects| && effects[k] == Stop(h)
  }

  /**
   * Every live source appears once in the set, in insertion order, has been
   * started and not stopped; every recorded call names a source already created.
   */
  predicate Valid(s: State)
  {
    && Distinct(s.active)
    && Ascending(s.active)
    && (forall i :: 0 <= i < |s.active| ==>
          s.active[i] < s.created && WasStarted(s.effects, s.active[i]) && !WasStopped(s.effects, s.active[i]))
    && (forall k :: 0 <= k < |s.effects| ==> s.effects[k].source < s.created)
  }

  lemma {:induction false} RemoveKeepsDistinct(hs: seq<Source>, h: Source)
    requires Distinct(hs)
    ensures Distinct(Remove(hs, h))
    ensures |Remove(hs, h)| == if h in hs then |hs| - 1 else |hs|
    decreases |hs|
  {
    if hs != [] {
      RemoveKeepsDistinct(hs[1..], h);
      assert hs[0] !in hs[1..];
    }
  }

  lemma PlayKeepsValid(s: State, duration: real)
    requires Valid(s)
    ensures Valid(Play(s, duration))
  {
    var t := Play(s, duration);
    assert t.effects[|s.effects|].Start? && t.effects[|s.effects|].source == s.created;
    forall i | 0 <= i < |t.active|
      ensures WasStarted(t.effects, t.active[i]) && !WasStopped(t.effects, t.active[i])
    {
      var h := t.active[i];
      if i < |s.active| {
        var k :| 0 <= k < |s.effects| && s.effects[k].Start? && s.effects[k].source == h;
        assert t.effects[k] == s.effects[k];
      }
      forall j | 0 <= j < |t.effects| ensures t.effects[j] != Stop(h) {
        if j < |s.effects| {
          assert t.effects[j] == s.effects[j];
          assert i == |s.active| ==> s.effects[j].source < h;
        }
      }
    }
  }

  lemma EndedKeepsValid(s: State, h: Source)
    requires Valid(s)
    ensures Valid(Ended(s, h))
  {
    RemoveKeepsDistinct(s.active, h);
    var t := Ended(s, h);
    forall i | 0 <= i < |t.active|
      ensures t.active[i] < t.created && WasStarted(t.effects, t.active[i]) && !WasStopped(t.effects, t.active[i])
    {
      assert t.active[i] in s.active;
    }
  }

  lemma InterruptKeepsValid(s: State)
    requires Valid(s)
    ensures Valid(Interrupt(s))
  {
    var t := Interrupt(s);
    forall k | 0 <= k < |t.effects| ensures t.effects[k].source < t.created {
      if k >= |s.effects| {
        assert t.effects[k] == Stop(s.active[k - |s.effects|]);
      }
    }
  }

  lemma ReceiveKeepsValid(s: State, m: Message, now: real)
    requires Valid(s)
    ensures Valid(Receive(s, m, now).0)
  {
    if HasAudio(m) {
      match SegmentOf(m.audioData.value)
      case Err(_) =>
      case Ok(g) =>
        PlayKeepsValid(CatchUp(s, now), g.Duration());
        if m.interrupted { InterruptKeepsValid(Play(CatchUp(s, now), g.Duration())); }
    } else if m.interrupted {
      InterruptKeepsValid(s);
    }
  }

  /** Every sequence of messages and `ended` events keeps the invariant. */
  lemma {:induction false} RunKeepsValid(s: State, es: seq<Event>)
    requires Valid(s)
    ensures Valid(Run(s, es))
    decreases |es|
  {
    if es != [] {
      match es[0] {
        case Arrived(m, now) => ReceiveKeepsValid(s, m, now);
        case SourceEnded(h) => EndedKeepsValid(s, h);
      }
      RunKeepsValid(Step(s, es[0]), es[1..]);
    }
  }

  // ---------------------------------------------------------------------------
  // Properties

  /** `onended` removes that one source: the cursor, the calls made and every other source stay. */
  lemma EndedRemovesOnly(s: State, h: Source)
    requires Valid(s)
    ensures var t := Ended(s, h);
      h !in t.active && t.cursor == s.cursor && t.effects == s.effects && t.created == s.created
      && (forall x :: x != h ==> (x in t.active <==> x in s.active))
      && |t.active| == if h in s.active then |s.active| - 1 else |s.active|
  {
    RemoveKeepsDistinct(s.active, h);
  }

  /** A message that carries both a decodable segment and the interruption flag stops its own segment too. */
  lemma InterruptStopsSameMessage(s: State, m: Message, now: real)
    requires HasAudio(m) && m.interrupted && SegmentOf(m.audioData.value).Ok?
    ensures var (t, outcome) := Receive(s, m, now);
      outcome == Handled && t.active == [] && t.cursor == 0.0
      && t.effects == s.effects + [Start(s.created, Max(s.cursor, now), SegmentOf(m.audioData.value).value.Duration())]
                               + StopEach(s.active + [s.created])
  {
  }

  /** A message whose audio fails to decode ends the handler early: only the cursor moves, even if it was flagged interrupted. */
  lemma UndecodableAudioLeavesSources(s: State, m: Message, now: real)
    requires HasAudio(m) && SegmentOf(m.audioData.value).Err?
    ensures Receive(s, m, now) == (s.(cursor := Max(s.cursor, now)), Threw(SegmentOf(m.audioData.value).error))
  {
  }

  /** After an interruption the next segment starts at the current time (the output clock is never negative). */
  lemma ResumeAfterInterrupt(s: State, now: real, duration: real)
    requires now >= 0.0
    ensures var t := Schedule(Interrupt(s), now, duration);
      t.effects[|Interrupt(s).effects|].when == now && t.cursor == now + duration
  {
  }

  /** A segment that arrives with audio and no interruption is exactly a scheduling step. */
  lemma ReceiveSchedules(s: State, m: Message, now: real)
    requires HasAudio(m) && !m.interrupted && SegmentOf(m.audioData.value).Ok?
    ensures Receive(s, m, now) == (Schedule(s, now, SegmentOf(m.audioData.value).value.Duration()), Handled)
  {
  }

  predicate NoInterruption(es: seq<Event>)
  {
    forall i :: 0 <= i < |es| ==> !(es[i].Arrived? && es[i].message.interrupted)
  }

  /** Without an interruption the cursor never moves back, whatever messages and `ended` events arrive. */
  lemma {:induction false} CursorNeverDecreases(s: State, es: seq<Event>)
    requires NoInterruption(es)
    ensures Run(s, es).cursor >= s.cursor
    decreases |es|
  {
    if es != [] {
      var t := Step(s, es[0]);
      assert t.cursor >= s.cursor by {
        match es[0]
        case Arrived(m, now) =>
          if HasAudio(m) && SegmentOf(m.audioData.value).Ok? {
            assert t == Schedule(s, now, SegmentOf(m.audioData.value).value.Duration());
          }
        case SourceEnded(h) =>
      }
      assert NoInterruption(es[1..]) by {
        forall i | 0 <= i < |es| - 1 ensures !(es[1..][i].Arrived? && es[1..][i].message.interrupted) {
          assert es[1..][i] == es[i + 1];
        }
      }
      CursorNeverDecreases(t, es[1..]);
    }
  }

  /** A step only adds sources and calls: the count of sources and the call log only grow. */
  predicate Grows(s: State, t: State)
  {
    s.created <= t.created && |s.effects| <= |t.effects| && t.effects[..|s.effects|] == s.effects
  }

  lemma {:induction false} RunGrows(s: State, es: seq<Event>)
    ensures Grows(s, Run(s, es))
    decreases |es|
  {
    if es != [] {
      var t := Step(s, es[0]);
      RunGrows(t, es[1..]);
      var u := Run(t, es[1..]);
      assert u.effects[..|s.effects|] == u.effects[..|t.effects|][..|s.effects|];
    }
  }

  /**
   * One event leaves a source h that was live, or not yet created, in the
   * set, still uncreated, or stopped; unless it is h's own `ended` event.
   */
  lemma StepAccounts(s: State, e: Event, h: Source)
    requires h in s.active || s.created <= h
    ensures var t := Step(s, e);
      Grows(s, t) && (h in t.active || t.created <= h || e == SourceEnded(h) || Stop(h) in t.effects)
  {
    match e
    case SourceEnded(x) =>
      if x != h && h in s.active { assert h in Remove(s.active, x); }
    case Arrived(m, now) => ReceiveAccounts(s, m, now, h);
  }

  lemma ReceiveAccounts(s: State, m: Message, now: real, h: Source)
    requires h in s.active || s.created <= h
    ensures var t := Receive(s, m, now).0;
      Grows(s, t) && (h in t.active || t.created <= h || Stop(h) in t.effects)
  {
    if HasAudio(m) {
      match SegmentOf(m.audioData.value)
      case Err(_) =>
      case Ok(g) =>
        var played := Play(CatchUp(s, now), g.Duration());
        assert h in played.active || played.created <= h;
        if m.interrupted { InterruptStops(played, h); }
    } else if m.interrupted {
      InterruptStops(s, h);
    }
  }

  lemma InterruptStops(s: State, h: Source)
    ensures h in s.active ==> Stop(h) in Interrupt(s).effects
  {
    if h in s.active {
      var i :| 0 <= i < |s.active| && s.active[i] == h;
      assert Interrupt(s).effects[|s.effects| + i] == Stop(h);
    }
  }

  /**
   * A source that was live, or is scheduled later, and exists at the end of
   * a run is still in the set, or its `ended` event arrived, or it was
   * stopped: no scheduled source is forgotten while it may still play.
   */
  lemma {:induction false} NoSourceForgotten(s: State, es: seq<Event>, h: Source)
    requires h in s.active || s.created <= h
    requires h < Run(s, es).created
    ensures h in Run(s, es).active || SourceEnded(h) in es || Stop(h) in Run(s, es).effects
    decreases |es|
  {
    if es != [] {
      var t := Step(s, es[0]);
      var rest := es[1..];
      assert es == [es[0]] + rest;
      StepAccounts(s, es[0], h);
      RunGrows(t, rest);
      if es[0] == SourceEnded(h) {
      } else if Stop(h) in t.effects {
        var k :| 0 <= k < |t.effects| && t.effects[k] == Stop(h);
        assert Run(t, rest).effects[k] == Stop(h);
      } else {
        NoSourceForgotten(t, rest, h);
      }
    }
  }

  // ---------------------------------------------------------------------------
  // Gapless scheduling

  /** A segment reaching the scheduler: the output time it arrives at, and its duration. */
  datatype Arrival = Arrival(now: real, duration: real)

  /** The start times the scheduler gives a series of segments, with no interruption between them. */
  function StartTimes(s: State, arrivals: seq<Arrival>): (r: seq<real>)
    ensures |r| == |arrivals|
    decreases |arrivals|
  {
    if arrivals == [] then []
    else [Max(s.cursor, arrivals[0].now)] + StartTimes(Schedule(s, arrivals[0].now, arrivals[0].duration), arrivals[1..])
  }

  /** Each segment starts when the one before it ends, or at its arrival if that is later. */
  lemma {:induction false} StartsChain(s: State, arrivals: seq<Arrival>)
    ensures forall k :: 0 < k < |arrivals| ==>
      StartTimes(s, arrivals)[k] == Max(StartTimes(s, arrivals)[k - 1] + arrivals[k - 1].duration, arrivals[k].now)
    decreases |arrivals|
  {
    if |arrivals| > 1 {
      var t := Schedule(s, arrivals[0].now, arrivals[0].duration);
      StartsChain(t, arrivals[1..]);
      var st := StartTimes(s, arrivals);
      assert st[1..] == StartTimes(t, arrivals[1..]);
      assert t.cursor == st[0] + arrivals[0].duration;
      forall k | 1 < k < |arrivals|
        ensures st[k] == Max(st[k - 1] + arrivals[k - 1].duration, arrivals[k].now)
      {
        assert st[k] == st[1..][k - 1] && arrivals[k] == arrivals[1..][k - 1];
      }
    }
  }

  function TotalDuration(arrivals: seq<Arrival>): real
    decreases |arrivals|
  {
    if arrivals == [] then 0.0 else TotalDuration(arrivals[..|arrivals| - 1]) + arrivals[|arrivals| - 1].duration
  }

  /** Segments that arrive before the previous one ends play back to back: each starts at the first's start plus the durations before it. */
  lemma BackToBack(s: State, arrivals: seq<Arrival>)
    requires forall k :: 0 < k < |arrivals| ==>
      arrivals[k].now <= StartTimes(s, arrivals)[k - 1] + arrivals[k - 1].duration
    ensures forall k :: 0 <= k < |arrivals| ==>
      StartTimes(s, arrivals)[k] == StartTimes(s, arrivals)[0] + TotalDuration(arrivals[..k])
  {
    var st := StartTimes(s, arrivals);
    StartsChain(s, arrivals);
    forall k | 0 <= k < |arrivals| ensures st[k] == st[0] + TotalDuration(arrivals[..k]) {
      BackToBackUpTo(s, arrivals, k);
    }
  }

  lemma {:induction false} BackToBackUpTo(s: State, arrivals: seq<Arrival>, k: nat)
    requires k < |arrivals|
    requires forall j :: 0 < j < |arrivals| ==>
      StartTimes(s, arrivals)[j] == StartTimes(s, arrivals)[j - 1] + arrivals[j - 1].duration
    ensures StartTimes(s, arrivals)[k] == StartTimes(s, arrivals)[0] + TotalDuration(arrivals[..k])
    decreases k
  {
    if k == 0 {
      assert arrivals[..0] == [];
    } else {
      BackToBackUpTo(s, arrivals, k - 1);
      assert arrivals[..k][..k - 1] == arrivals[..k - 1];
    }
  }

  /** Segments of 0.5 s and 0.3 s, the second arriving before the first ends: the second starts 0.5 s after the first. */
  lemma TwoSegmentsBackToBack(s: State, t1: real, t2: real)
    requires t2 <= Max(s.cursor, t1) + 0.5
    ensures var st := StartTimes(s, [Arrival(t1, 0.5), Arrival(t2, 0.3)]);
      st[0] == Max(s.cursor, t1) && st[1] == st[0] + 0.5
  {
    StartsChain(s, [Arrival(t1, 0.5), Arrival(t2, 0.3)]);
  }

  // ---------------------------------------------------------------------------
  // The component

  /** The scheduling state the component keeps in refs, and the handlers that change it. */
  class LivePlayback {
    var nextStartTime: real       // nextStartTimeRef.current
    var sources: seq<Source>      // sourcesRef.current, in insertion order
    var created: nat              // sources created by createBufferSource so far
    var effects: seq<Effect>      // start/stop calls made on sources

    function Snapshot(): State
      reads this
    {
      State(nextStartTime, sources, created, effects)
    }

    constructor ()
      ensures Snapshot() == Initial
    {
      nextStartTime := 0.0;
      sources := [];
      created := 0;
      effects := [];
    }

    /** `onmessage`. */
    method OnMessage(message: Message, now: real) returns (outcome: Outcome)
      requires Valid(Snapshot())
      modifies this
      ensures Valid(Snapshot())
      ensures (Snapshot(), outcome) == Receive(old(Snapshot()), message, now)
    {
      ReceiveKeepsValid(Snapshot(), message, now);
      if HasAudio(message) {
        nextStartTime := Max(nextStartTime, now);
        var bytes := BinaryString.Decode(message.audioData.value);
        if bytes.Err? {
          return Threw(bytes.error);
        }
        var buffer := Inbound.DecodeAudioData(bytes.value, OutputSampleRate, OutputChannels);
        if buffer.Err? {
          return Threw(buffer.error);
        }
        var source := created;
        created := created + 1;
        effects := effects + [Start(source, nextStartTime, buffer.value.Duration())];
        nextStartTime := nextStartTime + buffer.value.Duration();
        sources := sources + [source];
      }
      if message.interrupted {
        StopAll();
      }
      return Handled;
    }

    /** `source.onended`. */
    method OnEnded(source: Source)
      requires Valid(Snapshot())
      modifies this
      ensures Valid(Snapshot())
      ensures Snapshot() == Ended(old(Snapshot()), source)
    {
      EndedKeepsValid(Snapshot(), source);
      sources := Remove(sources, source);
    }

    /** The interruption branch: stop each source, clear the set, reset the cursor. */
    method StopAll()
      modifies this
      ensures Snapshot() == Interrupt(old(Snapshot()))
    {
      var i := 0;
      while i < |sources|
        invariant 0 <= i <= |sources|
        invariant sources == old(sources) && created == old(created)
        invariant effects == old(effects) + StopEach(sources[..i])
      {
        effects := effects + [Stop(sources[i])];
        i := i + 1;
        assert StopEach(sources[..i]) == StopEach(sources[..i - 1]) + [Stop(sources[i - 1])];
      }
      assert sources[..i] == sources;
      sources := [];
      nextStartTime := 0.0;
    }
  }
}
