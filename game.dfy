/** The game loop (`UosGame`): a stack of game states, stack transitions
    requested through a single pending-intent slot and applied once per
    frame, and the default-filling of the game settings. */
module Game {
  import opened Hooks

  // ---------------------------------------------------------------------------
  // Settings

  /** A settings value: a string, an integer, or anything else (a class
      object such as the first state's class). */
  datatype Value = Text(text: string) | Number(number: int) | Other(id: nat)

  /** The keys `validate` fills in, and their defaults. */
  const Defaults: map<string, Value> := map[
    "root_path" := Text("."),
    "window_title" := Text("UbiEngine"),
    "window_width" := Number(1280),
    "window_height" := Number(720)
  ]

  /** The settings after `validate` has put its defaults: every default key
      is present, keys that were present keep their values, absent default
      keys get their default, and no other key is added. */
  function WithDefaults(m: map<string, Value>): (r: map<string, Value>)
    ensures r.Keys == m.Keys + Defaults.Keys
    ensures forall k :: k in m ==> r[k] == m[k]
    ensures forall k :: k in Defaults && k !in m ==> r[k] == Defaults[k]
  {
    map k | k in m.Keys + Defaults.Keys :: if k in m then m[k] else Defaults[k]
  }

  /** Putting one default by hand first does not change the outcome. */
  lemma WithDefaultsStep(m: map<string, Value>, k: string)
    requires k in Defaults
    ensures WithDefaults(if k in m then m else m[k := Defaults[k]]) == WithDefaults(m)
  {
  }

  /** Once every default key is present there is nothing left to fill. */
  lemma WithDefaultsComplete(m: map<string, Value>)
    requires "root_path" in m && "window_title" in m
    requires "window_width" in m && "window_height" in m
    ensures WithDefaults(m) == m
  {
    assert Defaults.Keys == {"root_path", "window_title", "window_width", "window_height"};
  }

  /** Filling the defaults twice changes nothing more. */
  lemma WithDefaultsIdempotent(m: map<string, Value>)
    ensures WithDefaults(WithDefaults(m)) == WithDefaults(m)
  {
  }

  /** What `validate` returns: the settings, or the error it raises. */
  datatype Validation = Validated(settings: map<string, Value>) | Rejected(message: string)

  /** `validate` as written: fill the defaults, then raise "First game state
      not defined!" if `root_path` is absent. */
  function ValidateSettings(m: map<string, Value>): (r: Validation)
    ensures r.Validated? ==> r.settings == WithDefaults(m)
    ensures r.Rejected? ==> r.message == "First game state not defined!"
  {
    var d := WithDefaults(m);
    if "root_path" !in d then Rejected("First game state not defined!") else Validated(d)
  }

  /** The error of `validate` can never be raised: the key it tests has just
      been given a default. In particular settings without a first state
      pass validation. */
  lemma ValidateNeverRejects(m: map<string, Value>)
    ensures ValidateSettings(m) == Validated(WithDefaults(m))
    ensures "first_state" !in m ==> ValidateSettings(m).Validated?
  {
    assert "root_path" in Defaults;
  }

  /** `validate` with the final test on `first_state`, the key whose absence
      the message reports. */
  function ValidateFirstState(m: map<string, Value>): (r: Validation)
    ensures r.Rejected? <==> "first_state" !in m
    ensures r.Validated? ==> r.settings == WithDefaults(m)
  {
    var d := WithDefaults(m);
    if "first_state" !in d then Rejected("First game state not defined!") else Validated(d)
  }

  /** `UosGame.Settings`: the string-keyed settings map. */
  class Settings {
    var entries: map<string, Value>

    constructor (initial: map<string, Value>)
      ensures entries == initial
    {
      entries := initial;
    }

    /** `validate()`: put each missing default in place, then test. */
    method Validate() returns (ok: bool)
      modifies this
      ensures entries == WithDefaults(old(entries))
      ensures ok <==> ValidateSettings(old(entries)).Validated?
    {
      assert Defaults["root_path"] == Text(".") && Defaults["window_title"] == Text("UbiEngine");
      assert Defaults["window_width"] == Number(1280) && Defaults["window_height"] == Number(720);
      if "root_path" !in entries {
        entries := entries["root_path" := Text(".")];
      }
      WithDefaultsStep(old(entries), "root_path");
      ghost var e1 := entries;
      if "window_title" !in entries {
        entries := entries["window_title" := Text("UbiEngine")];
      }
      WithDefaultsStep(e1, "window_title");
      ghost var e2 := entries;
      if "window_width" !in entries {
        entries := entries["window_width" := Number(1280)];
      }
      WithDefaultsStep(e2, "window_width");
      ghost var e3 := entries;
      if "window_height" !in entries {
        entries := entries["window_height" := Number(720)];
      }
      WithDefaultsStep(e3, "window_height");
      WithDefaultsComplete(entries);
      ok := "root_path" in entries;
    }
  }

  // ---------------------------------------------------------------------------
  // Pending stack transitions

  /** `ChangeOption`. */
  datatype ChangeOption = NA | CHANGE | PUSH | POP

  /** The slot: `change_option`, `state_change`, `pop_args`; `None` is null. */
  datatype Pending = Pending(option: ChangeOption, stateChange: Option<StateId>, popArgs: Option<Args>)

  /** The slot after a commit, and initially. */
  const Idle: Pending := Pending(NA, None, None)

  /** A slot that `change`, `push` and `pop` can produce: CHANGE and PUSH
      carry a state, POP carries its arguments. */
  predicate WellFormed(p: Pending)
  {
    && (p.option == CHANGE || p.option == PUSH ==> p.stateChange.Some?)
    && (p.option == POP ==> p.popArgs.Some?)
  }

  /** A call of `change(state)`, `push(state)` or `pop(args)`. */
  datatype Request = ChangeTo(state: StateId) | PushState(state: StateId) | PopState(args: Args)

  /** The slot after one request: only the option and the request's own
      field are written, the other field keeps its old value. */
  function Record(p: Pending, r: Request): (p': Pending)
    ensures WellFormed(p')
    ensures r.ChangeTo? ==> p'.option == CHANGE && p'.stateChange == Some(r.state) && p'.popArgs == p.popArgs
    ensures r.PushState? ==> p'.option == PUSH && p'.stateChange == Some(r.state) && p'.popArgs == p.popArgs
    ensures r.PopState? ==> p'.option == POP && p'.popArgs == Some(r.args) && p'.stateChange == p.stateChange
  {
    match r
    case ChangeTo(s) => Pending(CHANGE, Some(s), p.popArgs)
    case PushState(s) => Pending(PUSH, Some(s), p.popArgs)
    case PopState(a) => Pending(POP, p.stateChange, Some(a))
  }

  /** The slot after the requests `rs`, made in order. */
  function RecordAll(p: Pending, rs: seq<Request>): (p': Pending)
    requires WellFormed(p)
    ensures WellFormed(p')
    ensures rs == [] ==> p' == p
  {
    if rs == [] then p else Record(RecordAll(p, rs[..|rs| - 1]), rs[|rs| - 1])
  }

  /** What a commit does: the new stack and the hooks it calls, or the
      `NoSuchElementException` of `removeLast` on an empty stack. */
  datatype Outcome = Committed(stack: seq<StateId>, events: seq<Event>) | NoSuchElement

  function Top(stack: seq<StateId>): StateId
    requires stack != []
  {
    stack[|stack| - 1]
  }

  /** `checkStateChange()` on the stack `stack` with the slot `p`. */
  function Commit(stack: seq<StateId>, p: Pending): (r: Outcome)
    requires WellFormed(p)
    ensures r.NoSuchElement? <==> stack == [] && (p.option == CHANGE || p.option == POP)
  {
    match p.option
    case NA => Committed(stack, [])
    case CHANGE =>
      if stack == [] then NoSuchElement
      else Committed(stack[..|stack| - 1] + [p.stateChange.value], [StateClose(Top(stack))])
    case PUSH => Committed(stack + [p.stateChange.value], [])
    case POP =>
      if stack == [] then NoSuchElement
      else
        var rest := stack[..|stack| - 1];
        Committed(rest, [StateClose(Top(stack))]
                        + (if rest == [] then [] else [StateWakeup(Top(rest), p.popArgs.value)]))
  }

  /** Nothing pending: the stack is left alone and no hook is called. */
  lemma CommitIdle(stack: seq<StateId>)
    ensures Commit(stack, Idle) == Committed(stack, [])
  {
  }

  /** CHANGE replaces the top: the old top is closed, the length is kept,
      the entries below are unchanged and the new state gets no wakeup. */
  lemma CommitChange(stack: seq<StateId>, p: Pending, s: StateId)
    requires stack != []
    ensures var r := Commit(stack, Record(p, ChangeTo(s)));
            && r.Committed?
            && |r.stack| == |stack|
            && r.stack[..|stack| - 1] == stack[..|stack| - 1]
            && Top(r.stack) == s
            && r.events == [StateClose(Top(stack))]
  {
  }

  /** PUSH appends the new state and closes nothing; the old top stays,
      dormant, beneath it. */
  lemma CommitPush(stack: seq<StateId>, p: Pending, s: StateId)
    ensures var r := Commit(stack, Record(p, PushState(s)));
            && r.Committed?
            && r.stack == stack + [s]
            && r.events == []
  {
  }

  /** POP closes and removes the top, then wakes the new top, if any, with
      the arguments of the `pop` call. */
  lemma CommitPop(stack: seq<StateId>, p: Pending, a: Args)
    requires stack != []
    ensures var r := Commit(stack, Record(p, PopState(a)));
            && r.Committed?
            && r.stack == stack[..|stack| - 1]
            && |r.stack| == |stack| - 1
            && r.events[0] == StateClose(Top(stack))
            && (|stack| > 1 ==> r.events == [StateClose(Top(stack)), StateWakeup(Top(r.stack), a)])
            && (|stack| == 1 ==> r.events == [StateClose(Top(stack))])
  {
  }

  /** Only the last request before a commit matters: whatever was pending
      before it, and whatever was requested earlier, is overwritten. */
  lemma {:induction false} LastWriterWins(stack: seq<StateId>, p: Pending, rs: seq<Request>)
    requires WellFormed(p)
    requires rs != []
    ensures Commit(stack, RecordAll(p, rs)) == Commit(stack, Record(Idle, rs[|rs| - 1]))
  {
    var before := RecordAll(p, rs[..|rs| - 1]);
    assert RecordAll(p, rs) == Record(before, rs[|rs| - 1]);
    match rs[|rs| - 1]
    case ChangeTo(s) =>
    case PushState(s) =>
    case PopState(a) =>
  }

  /** A push followed, in a later frame, by a pop returns to the original
      stack: the pushed state is closed and the covered one is woken. */
  lemma PushThenPop(stack: seq<StateId>, s: StateId, a: Args)
    ensures var pushed := Commit(stack, Record(Idle, PushState(s)));
            && pushed.Committed?
            && Commit(pushed.stack, Record(Idle, PopState(a)))
               == Committed(stack, [StateClose(s)] + (if stack == [] then [] else [StateWakeup(Top(stack), a)]))
  {
    var pushed := stack + [s];
    assert pushed[..|pushed| - 1] == stack;
  }

  // ---------------------------------------------------------------------------
  // The frame loop

  /** `update()` of `UosGame`: every state on the stack, bottom to top. */
  function StateUpdates(stack: seq<StateId>): (es: seq<Event>)
    ensures |es| == |stack|
    ensures forall i :: 0 <= i < |stack| ==> es[i] == StateUpdate(stack[i])
  {
    seq(|stack|, i requires 0 <= i < |stack| => StateUpdate(stack[i]))
  }

  /** The state `render()` calls of `UosGame`, bottom to top. */
  function StateRenders(stack: seq<StateId>): (es: seq<Event>)
    ensures |es| == |stack|
    ensures forall i :: 0 <= i < |stack| ==> es[i] == StateRender(stack[i])
  {
    seq(|stack|, i requires 0 <= i < |stack| => StateRender(stack[i]))
  }

  /** The calls of one frame of `run()` up to its commit. */
  function Passes(stack: seq<StateId>): (es: seq<Event>)
    ensures |es| == 3 + 2 * |stack|
  {
    [TimerStart] + StateUpdates(stack) + StateRenders(stack) + [ScreenUpdate] + [TimerFinish]
  }

  /** The calls of one frame of `run()`, given the calls of its commit. */
  function FrameTrace(stack: seq<StateId>, committed: seq<Event>): (es: seq<Event>)
    ensures |es| == 3 + 2 * |stack| + |committed|
  {
    Passes(stack) + committed
  }

  /** The hooks a commit calls are only `close` and `wakeup`. */
  lemma CommitCallsOnlyStates(stack: seq<StateId>, p: Pending)
    requires WellFormed(p)
    ensures var r := Commit(stack, p);
            r.Committed? ==> forall e :: e in r.events ==> e.StateClose? || e.StateWakeup?
  {
  }

  /** In one frame: the timer brackets the passes, every update comes before
      every render, the screen is updated exactly once, after the last
      render, and the commit's calls come last. */
  lemma {:induction false} FrameOrder(stack: seq<StateId>, committed: seq<Event>)
    requires forall e :: e in committed ==> e.StateClose? || e.StateWakeup?
    ensures var t := FrameTrace(stack, committed);
            && t[0] == TimerStart
            && (forall i, j :: 0 <= i < |t| && 0 <= j < |t| && t[i].StateUpdate? && t[j].StateRender? ==> i < j)
            && multiset(t)[ScreenUpdate] == 1
            && t[1 + 2 * |stack|] == ScreenUpdate
            && t[2 + 2 * |stack|] == TimerFinish
            && t[3 + 2 * |stack|..] == committed
  {
    var ups := StateUpdates(stack);
    var rens := StateRenders(stack);
    var t := FrameTrace(stack, committed);
    assert t == [TimerStart] + ups + rens + [ScreenUpdate] + [TimerFinish] + committed;
    forall i | 1 + |stack| <= i < |t|
      ensures !t[i].StateUpdate?
    {
      if i < 1 + 2 * |stack| {
        assert t[i] == rens[i - 1 - |stack|];
      } else if i >= 3 + 2 * |stack| {
        assert t[i] == committed[i - 3 - 2 * |stack|];
        assert t[i] in committed;
      }
    }
    forall j | 0 <= j < 1 + |stack|
      ensures !t[j].StateRender?
    {
      if j >= 1 {
        assert t[j] == ups[j - 1];
      }
    }
    assert ScreenUpdate !in ups;
    assert ScreenUpdate !in rens;
    assert ScreenUpdate !in committed;
    assert multiset(t) == multiset([TimerStart]) + multiset(ups) + multiset(rens)
                          + multiset([ScreenUpdate]) + multiset([TimerFinish]) + multiset(committed);
  }

  /** `run()` for at most `|script|` frames, `script[f]` being the requests
      the hooks make during frame `f`: the stack it ends with and the number
      of frames it runs. It stops early exactly when the stack is empty. */
  function RunFrames(stack: seq<StateId>, p: Pending, script: seq<seq<Request>>): (r: (seq<StateId>, nat))
    requires WellFormed(p)
    ensures r.1 <= |script|
    ensures r.1 < |script| ==> r.0 == []
    ensures stack == [] ==> r == (stack, 0)
    decreases |script|
  {
    if stack == [] || script == [] then (stack, 0)
    else
      var c := Commit(stack, RecordAll(p, script[0]));
      var rest := RunFrames(c.stack, Idle, script[1..]);
      (rest.0, rest.1 + 1)
  }

  /** The calls `run()` makes over at most `|script|` frames: the trace of
      each frame, one after the other, until the stack is empty. */
  function RunTrace(stack: seq<StateId>, p: Pending, script: seq<seq<Request>>): seq<Event>
    requires WellFormed(p)
    decreases |script|
  {
    if stack == [] || script == [] then []
    else
      var c := Commit(stack, RecordAll(p, script[0]));
      FrameTrace(stack, c.events) + RunTrace(c.stack, Idle, script[1..])
  }

  /** The screen is updated exactly once per frame that `run()` runs. */
  lemma {:induction false} RunTraceScreenUpdates(stack: seq<StateId>, p: Pending, script: seq<seq<Request>>)
    requires WellFormed(p)
    ensures multiset(RunTrace(stack, p, script))[ScreenUpdate] == RunFrames(stack, p, script).1
    decreases |script|
  {
    if stack != [] && script != [] {
      var c := Commit(stack, RecordAll(p, script[0]));
      CommitCallsOnlyStates(stack, RecordAll(p, script[0]));
      FrameOrder(stack, c.events);
      RunTraceScreenUpdates(c.stack, Idle, script[1..]);
    }
  }

  /** One frame of `run()` on a non-empty stack. */
  lemma RunStep(stack: seq<StateId>, p: Pending, script: seq<seq<Request>>)
    requires WellFormed(p) && stack != [] && script != []
    ensures var c := Commit(stack, RecordAll(p, script[0]));
            var rest := RunFrames(c.stack, Idle, script[1..]);
            && c.Committed?
            && RunFrames(stack, p, script) == (rest.0, rest.1 + 1)
            && RunTrace(stack, p, script) == FrameTrace(stack, c.events) + RunTrace(c.stack, Idle, script[1..])
  {
  }

  /** A single-state stack whose frame requests a pop (last) ends the loop
      after exactly that one frame. */
  lemma PopEndsRun(s: StateId, requests: seq<Request>, later: seq<seq<Request>>)
    requires requests != [] && requests[|requests| - 1].PopState?
    ensures RunFrames([s], Idle, [requests] + later) == ([], 1)
  {
    var script := [requests] + later;
    assert script[0] == requests && script[1..] == later;
    LastWriterWins([s], Idle, requests);
    var c := Commit([s], RecordAll(Idle, requests));
    assert c.stack == [];
  }

  /** `UosGame`: the state stack and the pending-intent slot. */
  class UosGame {
    var states: seq<StateId>
    var stateChange: Option<StateId>
    var popArgs: Option<Args>
    var changeOption: ChangeOption

    ghost function Slot(): Pending
      reads this
    {
      Pending(changeOption, stateChange, popArgs)
    }

    ghost predicate Valid()
      reads this
    {
      WellFormed(Slot())
    }

    /** The game after `init`: the first state alone on the stack. */
    constructor (first: StateId)
      ensures Valid() && states == [first] && Slot() == Idle
    {
      states := [first];
      stateChange := None;
      popArgs := None;
      changeOption := NA;
    }

    /** `change(state)`: only the slot is written. */
    method Change(state: StateId)
      requires Valid()
      modifies this`stateChange, this`changeOption
      ensures Valid() && Slot() == Record(old(Slot()), ChangeTo(state))
    {
      stateChange := Some(state);
      changeOption := CHANGE;
    }

    /** `push(state)`: only the slot is written. */
    method Push(state: StateId)
      requires Valid()
      modifies this`stateChange, this`changeOption
      ensures Valid() && Slot() == Record(old(Slot()), PushState(state))
    {
      stateChange := Some(state);
      changeOption := PUSH;
    }

    /** `pop(args)`: only the slot is written. */
    method Pop(args: Args)
      requires Valid()
      modifies this`popArgs, this`changeOption
      ensures Valid() && Slot() == Record(old(Slot()), PopState(args))
    {
      popArgs := Some(args);
      changeOption := POP;
    }

    /** `checkStateChange()`: apply the pending option to the stack, then
        clear the slot. On an empty stack CHANGE and POP fail in
        `removeLast` before anything has changed. */
    method CheckStateChange(log: Log) returns (ok: bool)
      requires Valid()
      modifies this, log
      ensures Valid()
      ensures var r := Commit(old(states), old(Slot()));
              if r.Committed?
              then ok && states == r.stack && Slot() == Idle && log.events == old(log.events) + r.events
              else !ok && states == old(states) && Slot() == old(Slot()) && log.events == old(log.events)
    {
      match changeOption {
        case NA =>
        case CHANGE =>
          if states == [] {
            return false;
          }
          var top := states[|states| - 1];
          states := states[..|states| - 1];
          log.events := log.events + [StateClose(top)];
          states := states + [stateChange.value];
        case PUSH =>
          states := states + [stateChange.value];
        case POP =>
          if states == [] {
            return false;
          }
          var top := states[|states| - 1];
          states := states[..|states| - 1];
          log.events := log.events + [StateClose(top)];
          if |states| > 0 {
            log.events := log.events + [StateWakeup(states[|states| - 1], popArgs.value)];
          }
      }
      stateChange := None;
      popArgs := None;
      changeOption := NA;
      ok := true;
    }

    /** `update()`: every state on the stack, bottom to top. */
    method Update(log: Log)
      modifies log
      ensures log.events == old(log.events) + StateUpdates(states)
    {
      for i := 0 to |states|
        invariant log.events == old(log.events) + StateUpdates(states[..i])
      {
        assert StateUpdates(states[..i + 1]) == StateUpdates(states[..i]) + [StateUpdate(states[i])];
        log.events := log.events + [StateUpdate(states[i])];
      }
      assert states[..|states|] == states;
    }

    /** `render()`: every state on the stack, bottom to top, then the
        screen update. */
    method Render(log: Log)
      modifies log
      ensures log.events == old(log.events) + StateRenders(states) + [ScreenUpdate]
    {
      for i := 0 to |states|
        invariant log.events == old(log.events) + StateRenders(states[..i])
      {
        assert StateRenders(states[..i + 1]) == StateRenders(states[..i]) + [StateRender(states[i])];
        log.events := log.events + [StateRender(states[i])];
      }
      assert states[..|states|] == states;
      log.events := log.events + [ScreenUpdate];
    }

    /** The `change`, `push` and `pop` calls the hooks make during one
        frame, in order. They only write the slot. */
    method RecordRequests(requests: seq<Request>)
      requires Valid()
      modifies this`stateChange, this`popArgs, this`changeOption
      ensures Valid() && Slot() == RecordAll(old(Slot()), requests)
    {
      for j := 0 to |requests|
        invariant Valid()
        invariant Slot() == RecordAll(old(Slot()), requests[..j])
      {
        assert requests[..j + 1][..j] == requests[..j];
        match requests[j]
        case ChangeTo(s) => Change(s);
        case PushState(s) => Push(s);
        case PopState(a) => Pop(a);
      }
      assert requests[..|requests|] == requests;
    }

    /** One iteration of the loop of `run()`. `requests` are the `change`,
        `push` and `pop` calls the hooks make during the two passes; they
        only write the slot, so they are recorded once the passes are done. */
    method Frame(requests: seq<Request>, log: Log) returns (ok: bool)
      requires Valid() && states != []
      modifies this, log
      ensures Valid() && Slot() == Idle
      ensures var r := Commit(old(states), RecordAll(old(Slot()), requests));
              && ok && r.Committed? && states == r.stack
              && log.events == old(log.events) + FrameTrace(old(states), r.events)
    {
      log.events := log.events + [TimerStart];
      ghost var l1 := log.events;
      Update(log);
      ghost var l2 := log.events;
      Render(log);
      ghost var l3 := log.events;
      RecordRequests(requests);
      log.events := log.events + [TimerFinish];
      ghost var passes := log.events;
      assert passes == l3 + [TimerFinish];
      assert l3 == l2 + StateRenders(states) + [ScreenUpdate];
      assert l2 == l1 + StateUpdates(states);
      assert passes == old(log.events) + Passes(states);
      ok := CheckStateChange(log);
      AppendAssoc(old(log.events), Passes(old(states)), log.events[|passes|..]);
    }

    /** `run()`, for at most `|script|` frames: frame `f` runs with the
        requests `script[f]`; the loop stops as soon as the stack is empty. */
    method Run(script: seq<seq<Request>>, log: Log) returns (frames: nat)
      requires Valid()
      modifies this, log
      ensures Valid()
      ensures (states, frames) == RunFrames(old(states), old(Slot()), script)
      ensures log.events == old(log.events) + RunTrace(old(states), old(Slot()), script)
      ensures frames > 0 ==> Slot() == Idle
      ensures frames == 0 ==> Slot() == old(Slot())
    {
      ghost var stack0, slot0, events0 := old(states), old(Slot()), old(log.events);
      frames := 0;
      while |states| > 0 && frames < |script|
        decreases |script| - frames
        invariant Valid() && frames <= |script|
        invariant var total := RunFrames(stack0, slot0, script);
                  var rest := RunFrames(states, Slot(), script[frames..]);
                  total.0 == rest.0 && total.1 == frames + rest.1
        invariant events0 + RunTrace(stack0, slot0, script)
                  == log.events + RunTrace(states, Slot(), script[frames..])
        invariant Slot() == if frames == 0 then slot0 else Idle
      {
        var requests := script[frames];
        ghost var stack, before := states, log.events;
        ghost var c := Commit(states, RecordAll(Slot(), requests));
        RunStep(states, Slot(), script[frames..]);
        assert script[frames..][0] == requests;
        assert script[frames..][1..] == script[frames + 1..];
        var ok := Frame(requests, log);
        AppendAssoc(before, FrameTrace(stack, c.events), RunTrace(c.stack, Idle, script[frames + 1..]));
        frames := frames + 1;
      }
    }
  }
}
