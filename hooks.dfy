/**
 * The hook pipeline: events, actions, and `HookManager`, which offers an event
 * to every registered hook in registration order, chaining payload
 * modifications and stopping at the first block or error.
 */
module Hooks {
  import opened Wrappers
  import opened Json

  datatype HookEventType =
    | SessionStart
    | SessionEnd
    | PreToolUse
    | PostToolUse
    | UserPromptSubmit
    | Stop
    | SubagentStop

  /** `timestamp` is an opaque instant: no part of the core interprets it. */
  datatype HookEvent = HookEvent(event_type: HookEventType, session_id: string, payload: Value, timestamp: int)

  datatype HookAction = Continue | Block(reason: string) | Modify(payload: Value)

  /** An `anyhow::Error`, represented by its message. */
  type Error = string

  /** `PAIHook::on_event`: what a hook answers for an event. */
  type Hook = HookEvent -> Result<HookAction, Error>

  /** The event handed to the next hook: the original one until a hook has modified the payload. */
  function Handed(e: HookEvent, payload: Value, modified: bool): (h: HookEvent)
    ensures h.event_type == e.event_type && h.session_id == e.session_id && h.timestamp == e.timestamp
    ensures !modified ==> h == e
    ensures modified ==> h.payload == payload
  {
    if modified then e.(payload := payload) else e
  }

  /** Outcome of offering `e` to `hooks`, with working payload `payload` (already modified or not). */
  function Run(hooks: seq<Hook>, e: HookEvent, payload: Value, modified: bool): Result<HookAction, Error>
    decreases |hooks|
  {
    if hooks == [] then Ok(if modified then Modify(payload) else Continue)
    else
      match hooks[0](Handed(e, payload, modified))
      case Err(x) => Err(x)
      case Ok(Continue) => Run(hooks[1..], e, payload, modified)
      case Ok(Block(reason)) => Ok(Block(reason))
      case Ok(Modify(v)) => Run(hooks[1..], e, v, true)
  }

  /** What `HookManager::trigger` returns for `e` when `hooks` are registered. */
  function Dispatch(hooks: seq<Hook>, e: HookEvent): Result<HookAction, Error> {
    Run(hooks, e, e.payload, false)
  }

  /** One invocation of a hook: the event it received and what it answered. */
  datatype Call = Call(input: HookEvent, output: Result<HookAction, Error>)

  /** The pipeline goes on after this answer. */
  predicate Passes(out: Result<HookAction, Error>) {
    out.Ok? && !out.value.Block?
  }

  predicate IsModify(out: Result<HookAction, Error>) {
    out.Ok? && out.value.Modify?
  }

  /** The invocations a run performs, in order; `hooks[j]` is the hook of the j-th one. */
  function Calls(hooks: seq<Hook>, e: HookEvent, payload: Value, modified: bool): (cs: seq<Call>)
    ensures |cs| <= |hooks|
    ensures forall j | 0 <= j < |cs| :: cs[j].output == hooks[j](cs[j].input)
    decreases |hooks|
  {
    if hooks == [] then []
    else
      var input := Handed(e, payload, modified);
      var out := hooks[0](input);
      var rest :=
        match out
        case Ok(Continue) => Calls(hooks[1..], e, payload, modified)
        case Ok(Modify(v)) => Calls(hooks[1..], e, v, true)
        case _ => [];
      CallsCons(hooks, Call(input, out), rest);
      [Call(input, out)] + rest
  }

  lemma CallsCons(hooks: seq<Hook>, c: Call, rest: seq<Call>)
    requires hooks != [] && c.output == hooks[0](c.input) && |rest| <= |hooks| - 1
    requires forall j | 0 <= j < |rest| :: rest[j].output == hooks[1..][j](rest[j].input)
    ensures forall j | 0 <= j < |rest| + 1 :: ([c] + rest)[j].output == hooks[j](([c] + rest)[j].input)
  {
    forall j | 0 <= j < |rest| + 1
      ensures ([c] + rest)[j].output == hooks[j](([c] + rest)[j].input)
    {
      if j > 0 {
        assert ([c] + rest)[j] == rest[j - 1] && hooks[1..][j - 1] == hooks[j];
      }
    }
  }

  /** The invocations `trigger` performs for `e`. */
  function Trace(hooks: seq<Hook>, e: HookEvent): seq<Call> {
    Calls(hooks, e, e.payload, false)
  }

  /** Working payload and flag after the answers in `cs`, from `(payload, modified)`. */
  function Carry(cs: seq<Call>, payload: Value, modified: bool): (Value, bool)
    decreases |cs|
  {
    if cs == [] then (payload, modified)
    else if IsModify(cs[0].output) then Carry(cs[1..], cs[0].output.value.payload, true)
    else Carry(cs[1..], payload, modified)
  }

  /** The result of a run that went through every hook. */
  function Finish(st: (Value, bool)): Result<HookAction, Error> {
    Ok(if st.1 then Modify(st.0) else Continue)
  }

  /** Without any `Modify` among the answers, the working state is left as it was. */
  lemma {:induction false} CarryWithoutModify(cs: seq<Call>, payload: Value, modified: bool)
    requires forall j | 0 <= j < |cs| :: !IsModify(cs[j].output)
    ensures Carry(cs, payload, modified) == (payload, modified)
    decreases |cs|
  {
    if cs != [] {
      assert forall j | 0 <= j < |cs| - 1 :: cs[1..][j] == cs[j + 1];
      CarryWithoutModify(cs[1..], payload, modified);
    }
  }

  /** The working payload is the payload of the latest `Modify`. */
  lemma {:induction false} CarryLatest(cs: seq<Call>, payload: Value, modified: bool, k: nat)
    requires k < |cs| && IsModify(cs[k].output)
    requires forall j | k < j < |cs| :: !IsModify(cs[j].output)
    ensures Carry(cs, payload, modified) == (cs[k].output.value.payload, true)
    decreases |cs|
  {
    assert forall j | 0 <= j < |cs| - 1 :: cs[1..][j] == cs[j + 1];
    if k == 0 {
      CarryWithoutModify(cs[1..], cs[0].output.value.payload, true);
    } else {
      var p1 := if IsModify(cs[0].output) then cs[0].output.value.payload else payload;
      CarryLatest(cs[1..], p1, modified || IsModify(cs[0].output), k - 1);
    }
  }

  lemma CarryPrepend(c: Call, cs: seq<Call>, payload: Value, modified: bool)
    ensures Carry([c] + cs, payload, modified) ==
      if IsModify(c.output) then Carry(cs, c.output.value.payload, true) else Carry(cs, payload, modified)
  {
    assert ([c] + cs)[1..] == cs;
  }

  /** Working state after the first answer of a run that goes on. */
  function Next(out: Result<HookAction, Error>, payload: Value, modified: bool): (Value, bool) {
    if IsModify(out) then (out.value.payload, true) else (payload, modified)
  }

  lemma CallsUnfold(hooks: seq<Hook>, e: HookEvent, payload: Value, modified: bool)
    requires hooks != []
    ensures var cs := Calls(hooks, e, payload, modified);
      var out := hooks[0](Handed(e, payload, modified));
      var st := Next(out, payload, modified);
      cs[0] == Call(Handed(e, payload, modified), out) &&
      (Passes(out) ==> cs[1..] == Calls(hooks[1..], e, st.0, st.1) &&
                       Run(hooks, e, payload, modified) == Run(hooks[1..], e, st.0, st.1)) &&
      (!Passes(out) ==> |cs| == 1 && Run(hooks, e, payload, modified) == out)
  {
  }

  /** The i-th hook invoked receives the event with the working payload of the first i answers. */
  lemma {:induction false} CallInput(hooks: seq<Hook>, e: HookEvent, payload: Value, modified: bool, i: nat)
    requires !modified ==> payload == e.payload
    requires i < |Calls(hooks, e, payload, modified)|
    ensures var cs := Calls(hooks, e, payload, modified);
      var st := Carry(cs[..i], payload, modified);
      (st.1 || st.0 == e.payload) && cs[i].input == e.(payload := st.0)
    decreases |hooks|
  {
    var cs := Calls(hooks, e, payload, modified);
    CallsUnfold(hooks, e, payload, modified);
    if i == 0 {
      assert cs[..0] == [];
    } else {
      var st := Next(cs[0].output, payload, modified);
      var rest := Calls(hooks[1..], e, st.0, st.1);
      assert cs[1..] == rest;
      assert cs[..i] == [cs[0]] + rest[..i - 1];
      CarryPrepend(cs[0], rest[..i - 1], payload, modified);
      assert Carry(cs[..i], payload, modified) == Carry(rest[..i - 1], st.0, st.1);
      assert cs[i] == rest[i - 1];
      CallInput(hooks[1..], e, st.0, st.1, i - 1);
    }
  }

  /** Every invocation but the last one passed. */
  lemma {:induction false} CallsPass(hooks: seq<Hook>, e: HookEvent, payload: Value, modified: bool)
    ensures var cs := Calls(hooks, e, payload, modified);
      forall j | 0 <= j < |cs| - 1 :: Passes(cs[j].output)
    decreases |hooks|
  {
    if hooks != [] {
      var cs := Calls(hooks, e, payload, modified);
      CallsUnfold(hooks, e, payload, modified);
      var st := Next(cs[0].output, payload, modified);
      CallsPass(hooks[1..], e, st.0, st.1);
    }
  }

  /** The run returns the last answer if it stopped there, else the verdict of the working state. */
  lemma {:induction false} RunOutcome(hooks: seq<Hook>, e: HookEvent, payload: Value, modified: bool)
    ensures var cs := Calls(hooks, e, payload, modified);
      (|cs| > 0 && !Passes(cs[|cs| - 1].output) ==> Run(hooks, e, payload, modified) == cs[|cs| - 1].output) &&
      (|cs| == 0 || Passes(cs[|cs| - 1].output) ==>
        |cs| == |hooks| && Run(hooks, e, payload, modified) == Finish(Carry(cs, payload, modified)))
    decreases |hooks|
  {
    if hooks != [] {
      var cs := Calls(hooks, e, payload, modified);
      CallsUnfold(hooks, e, payload, modified);
      var st := Next(cs[0].output, payload, modified);
      if Passes(cs[0].output) {
        RunOutcome(hooks[1..], e, st.0, st.1);
        CarryPrepend(cs[0], cs[1..], payload, modified);
        assert [cs[0]] + cs[1..] == cs;
        if |cs| > 1 {
          assert cs[|cs| - 1] == cs[1..][|cs| - 2];
        }
      }
    }
  }

  // ------------------------------------------------------------ the promises of trigger

  /** With no hook registered, the event goes through untouched. */
  lemma DispatchEmpty(e: HookEvent)
    ensures Dispatch([], e) == Ok(Continue) && Trace([], e) == []
  {
  }

  /**
   * Each hook receives the original event, except that once some earlier hook has
   * returned `Modify`, the payload is the one of the latest such `Modify`.
   */
  lemma HookInputs(hooks: seq<Hook>, e: HookEvent, i: nat)
    requires i < |Trace(hooks, e)|
    ensures var cs := Trace(hooks, e);
      var input := cs[i].input;
      input.event_type == e.event_type && input.session_id == e.session_id && input.timestamp == e.timestamp &&
      ((forall j | 0 <= j < i :: !IsModify(cs[j].output)) ==> input == e) &&
      (forall k | 0 <= k < i && IsModify(cs[k].output) && (forall j | k < j < i :: !IsModify(cs[j].output)) ::
        input.payload == cs[k].output.value.payload)
  {
    var cs := Trace(hooks, e);
    CallInput(hooks, e, e.payload, false, i);
    assert forall j | 0 <= j < i :: cs[..i][j] == cs[j];
    if forall j | 0 <= j < i :: !IsModify(cs[j].output) {
      CarryWithoutModify(cs[..i], e.payload, false);
    }
    forall k | 0 <= k < i && IsModify(cs[k].output) && (forall j | k < j < i :: !IsModify(cs[j].output))
      ensures cs[i].input.payload == cs[k].output.value.payload
    {
      CarryLatest(cs[..i], e.payload, false, k);
    }
  }

  /**
   * A `Block` or an error ends the run: it is the answer of the last hook invoked,
   * every earlier hook passed, and hooks registered after it are never invoked.
   */
  lemma StopsAtBlockOrError(hooks: seq<Hook>, e: HookEvent, later: seq<Hook>)
    requires !Passes(Dispatch(hooks, e))
    ensures var cs := Trace(hooks, e);
      |cs| > 0 && cs[|cs| - 1].output == Dispatch(hooks, e) &&
      (forall j | 0 <= j < |cs| - 1 :: Passes(cs[j].output)) &&
      Dispatch(hooks + later, e) == Dispatch(hooks, e) &&
      Trace(hooks + later, e) == cs
  {
    CallsPass(hooks, e, e.payload, false);
    RunOutcome(hooks, e, e.payload, false);
    ExtendAfterStop(hooks, later, e, e.payload, false);
  }

  lemma {:induction false} ExtendAfterStop(hooks: seq<Hook>, later: seq<Hook>, e: HookEvent, payload: Value, modified: bool)
    requires !Passes(Run(hooks, e, payload, modified))
    ensures Run(hooks + later, e, payload, modified) == Run(hooks, e, payload, modified)
    ensures Calls(hooks + later, e, payload, modified) == Calls(hooks, e, payload, modified)
    decreases |hooks|
  {
    assert hooks != [];
    assert (hooks + later)[0] == hooks[0];
    assert (hooks + later)[1..] == hooks[1..] + later;
    var out := hooks[0](Handed(e, payload, modified));
    if out.Ok? && out.value.Continue? {
      ExtendAfterStop(hooks[1..], later, e, payload, modified);
    } else if out.Ok? && out.value.Modify? {
      ExtendAfterStop(hooks[1..], later, e, out.value.payload, true);
    }
  }

  /**
   * When no hook blocks or fails, every hook is invoked, and the result is
   * `Modify` of the latest modified payload if some hook modified it, else `Continue`.
   */
  lemma VerdictWithoutStop(hooks: seq<Hook>, e: HookEvent)
    requires Passes(Dispatch(hooks, e))
    ensures var cs := Trace(hooks, e);
      |cs| == |hooks| &&
      (forall j | 0 <= j < |cs| :: Passes(cs[j].output)) &&
      (Dispatch(hooks, e) == Ok(Continue) <==> forall j | 0 <= j < |cs| :: !IsModify(cs[j].output)) &&
      (forall k | 0 <= k < |cs| && IsModify(cs[k].output) && (forall j | k < j < |cs| :: !IsModify(cs[j].output)) ::
        Dispatch(hooks, e) == Ok(Modify(cs[k].output.value.payload)))
  {
    var cs := Trace(hooks, e);
    CallsPass(hooks, e, e.payload, false);
    RunOutcome(hooks, e, e.payload, false);
    FinishVerdict(cs, e.payload, Dispatch(hooks, e));
  }

  /** The result of a run through every hook, as the answers in `cs` decide it. */
  lemma FinishVerdict(cs: seq<Call>, payload: Value, r: Result<HookAction, Error>)
    requires r == Finish(Carry(cs, payload, false))
    ensures r == Ok(Continue) <==> forall j | 0 <= j < |cs| :: !IsModify(cs[j].output)
    ensures forall k | 0 <= k < |cs| && IsModify(cs[k].output) && (forall j | k < j < |cs| :: !IsModify(cs[j].output)) ::
      r == Ok(Modify(cs[k].output.value.payload))
  {
    if forall j | 0 <= j < |cs| :: !IsModify(cs[j].output) {
      CarryWithoutModify(cs, payload, false);
    } else {
      var k :| 0 <= k < |cs| && IsModify(cs[k].output);
      LastModify(cs, k);
      var m :| k <= m < |cs| && IsModify(cs[m].output) && forall j | m < j < |cs| :: !IsModify(cs[j].output);
      CarryLatest(cs, payload, false, m);
    }
    forall k | 0 <= k < |cs| && IsModify(cs[k].output) && (forall j | k < j < |cs| :: !IsModify(cs[j].output))
      ensures r == Ok(Modify(cs[k].output.value.payload))
    {
      CarryLatest(cs, payload, false, k);
    }
  }

  lemma {:induction false} LastModify(cs: seq<Call>, k: nat)
    requires k < |cs| && IsModify(cs[k].output)
    ensures exists m | k <= m < |cs| :: IsModify(cs[m].output) && forall j | m < j < |cs| :: !IsModify(cs[j].output)
    decreases |cs| - k
  {
    if exists j | k < j < |cs| :: IsModify(cs[j].output) {
      var j :| k < j < |cs| && IsModify(cs[j].output);
      LastModify(cs, j);
    }
  }

  // ------------------------------------------------------------ the manager

  class HookManager {
    var hooks: seq<Hook>

    /** `HookManager::new`: no hook registered. */
    constructor ()
      ensures hooks == []
    {
      hooks := [];
    }

    /** Registration appends: hooks run in the order they were registered. */
    method Register(hook: Hook)
      modifies this
      ensures hooks == old(hooks) + [hook]
    {
      hooks := hooks + [hook];
    }

    method Trigger(e: HookEvent) returns (r: Result<HookAction, Error>)
      ensures r == Dispatch(hooks, e)
    {
      var current := e.payload;
      var modified := false;
      var i := 0;
      while i < |hooks|
        invariant 0 <= i <= |hooks|
        invariant !modified ==> current == e.payload
        invariant Run(hooks[i..], e, current, modified) == Dispatch(hooks, e)
      {
        assert hooks[i..][1..] == hooks[i + 1..];
        var action;
        if modified {
          action := hooks[i](e.(payload := current));
        } else {
          action := hooks[i](e);
        }
        match action {
          case Err(x) =>
            return Err(x);
          case Ok(Continue) =>
          case Ok(Block(reason)) =>
            return Ok(Block(reason));
          case Ok(Modify(v)) =>
            current := v;
            modified := true;
        }
        i := i + 1;
      }
      if modified {
        r := Ok(Modify(current));
      } else {
        r := Ok(Continue);
      }
    }
  }

  // ------------------------------------------------------------ sample hooks

  /** `LoggerHook`: logs the event type (not modelled) and lets the event through. */
  function LoggerHook(e: HookEvent): (r: Result<HookAction, Error>)
    ensures r == Ok(Continue)
  {
    Ok(Continue)
  }

  /** Hooks that always pass without modifying can be dropped from a pipeline. */
  lemma {:induction false} LoggersAreTransparent(hooks: seq<Hook>, e: HookEvent, payload: Value, modified: bool)
    requires forall j | 0 <= j < |hooks| :: hooks[j] == LoggerHook
    ensures Run(hooks, e, payload, modified) == Finish((payload, modified))
    decreases |hooks|
  {
    if hooks != [] {
      LoggersAreTransparent(hooks[1..], e, payload, modified);
    }
  }

  /** A hook that adds `delta` to the number under `key`, as the counter and pipeline tests do. */
  function AddTo(key: string, delta: nat, missingAsZero: bool, e: HookEvent): (r: Result<HookAction, Error>)
    ensures r.Ok? ==> r.value.Modify?
  {
    var current := AsU64(Get(e.payload, key));
    if current.None? && !missingAsZero then Err("called `Option::unwrap()` on a `None` value")
    else
      var next := current.GetOr(0) + delta;
      if next > U64_MAX then Err("attempt to add with overflow")
      else match Insert(e.payload, key, Number(next))
        case Some(p) => Ok(Modify(p))
        case None => Err("cannot index into this value")
  }

  /** `CounterHook`: `count := count.as_u64().unwrap_or(0) + 1`. */
  function CounterHook(e: HookEvent): Result<HookAction, Error> {
    AddTo("count", 1, true, e)
  }

  function Counters(n: nat): (hooks: seq<Hook>)
    ensures |hooks| == n
  {
    seq(n, _ => CounterHook)
  }

  /** `n` counter hooks raise the count by `n`, whatever else the payload holds. */
  lemma CountersAdd(n: nat, e: HookEvent, m: map<string, Value>, c: nat, modified: bool)
    requires n >= 1 && c + n <= U64_MAX
    requires !modified ==> e.payload == Object(m["count" := Number(c)])
    ensures Run(Counters(n), e, Object(m["count" := Number(c)]), modified) == Ok(Modify(Object(m["count" := Number(c + n)])))
  {
    CounterSteps(n, e, m, c, modified);
    RunSteps(Counters(n), CounterHook, e, (k: nat) => WithCount(m, k), c, modified);
  }

  /** The payload `m` with its count set to `k`. */
  function WithCount(m: map<string, Value>, k: nat): Value {
    Object(m["count" := Number(k)])
  }

  lemma CounterSteps(n: nat, e: HookEvent, m: map<string, Value>, c: nat, modified: bool)
    requires c + n <= U64_MAX
    requires !modified ==> e.payload == WithCount(m, c)
    ensures forall k | c <= k < c + n ::
      CounterHook(Handed(e, WithCount(m, k), modified || k > c)) == Ok(Modify(WithCount(m, k + 1)))
  {
    forall k | c <= k < c + n
      ensures CounterHook(Handed(e, WithCount(m, k), modified || k > c)) == Ok(Modify(WithCount(m, k + 1)))
    {
      CounterStep(e, m, k, modified || k > c);
    }
  }

  /**
   * Copies of a hook that moves the payload from `p(k)` to `p(k + 1)` take
   * it from `p(c)` to `p(c + |hooks|)`.
   */
  lemma {:induction false} RunSteps(hooks: seq<Hook>, h: Hook, e: HookEvent, p: nat -> Value, c: nat, modified: bool)
    requires |hooks| >= 1 && forall j | 0 <= j < |hooks| :: hooks[j] == h
    requires forall k | c <= k < c + |hooks| :: h(Handed(e, p(k), modified || k > c)) == Ok(Modify(p(k + 1)))
    ensures Run(hooks, e, p(c), modified) == Ok(Modify(p(c + |hooks|)))
    decreases |hooks|
  {
    assert h(Handed(e, p(c), modified)) == Ok(Modify(p(c + 1)));
    RunModifies(hooks, e, p(c), modified, p(c + 1));
    if |hooks| > 1 {
      RunSteps(hooks[1..], h, e, p, c + 1, true);
    }
  }

  /** A hook answering `Modify(v)` hands `v` on to the rest. */
  lemma RunModifies(hooks: seq<Hook>, e: HookEvent, payload: Value, modified: bool, v: Value)
    requires hooks != [] && hooks[0](Handed(e, payload, modified)) == Ok(Modify(v))
    ensures Run(hooks, e, payload, modified) == Run(hooks[1..], e, v, true)
  {
  }

  /** One counter hook raises the count by one. */
  lemma CounterStep(e: HookEvent, m: map<string, Value>, c: nat, modified: bool)
    requires c + 1 <= U64_MAX
    requires !modified ==> e.payload == Object(m["count" := Number(c)])
    ensures CounterHook(Handed(e, Object(m["count" := Number(c)]), modified)) ==
            Ok(Modify(Object(m["count" := Number(c + 1)])))
  {
    var p := Object(m["count" := Number(c)]);
    assert Handed(e, p, modified).payload == p;
    assert m["count" := Number(c)]["count" := Number(c + 1)] == m["count" := Number(c + 1)];
  }

  /** One hundred counter hooks applied to `{"count": 0}` give `{"count": 100}`. */
  lemma HundredCounters(e: HookEvent)
    requires e.payload == Object(map["count" := Number(0)])
    ensures Dispatch(Counters(100), e) == Ok(Modify(Object(map["count" := Number(100)])))
  {
    var empty: map<string, Value> := map[];
    var hooks := Counters(100);
    assert empty["count" := Number(0)] == map["count" := Number(0)];
    assert empty["count" := Number(100)] == map["count" := Number(100)];
    CountersAdd(|hooks|, e, empty, 0, false);
  }

  /** Adding 1 and then 10 to `{"val": 1}` gives `{"val": 12}`: the second hook sees the first one's payload. */
  lemma AddOneThenTen(e: HookEvent)
    requires e.payload == Object(map["val" := Number(1)])
    ensures Dispatch([e => AddTo("val", 1, false, e), e => AddTo("val", 10, false, e)], e)
      == Ok(Modify(Object(map["val" := Number(12)])))
  {
    var hooks: seq<Hook> := [e => AddTo("val", 1, false, e), e => AddTo("val", 10, false, e)];
    var p2 := Object(map["val" := Number(2)]);
    assert map["val" := Number(1)]["val" := Number(2)] == map["val" := Number(2)];
    assert map["val" := Number(2)]["val" := Number(12)] == map["val" := Number(12)];
    assert hooks[0](e) == Ok(Modify(p2));
    assert hooks[1..][0](e.(payload := p2)) == Ok(Modify(Object(map["val" := Number(12)])));
    assert hooks[1..][1..] == [];
  }

  /** A failing hook's error is what the whole dispatch returns. */
  lemma FailingHookAborts(e: HookEvent, later: seq<Hook>)
    ensures Dispatch([(_: HookEvent) => Err("Hook failed intentionally")] + later, e) == Err("Hook failed intentionally")
  {
    var failing: seq<Hook> := [(_: HookEvent) => Err("Hook failed intentionally")];
    StopsAtBlockOrError(failing, e, later);
  }
}
