/** Nested execution contexts: clone-and-override over context-variable tokens, as in PEP 567,
    refines a lookup of the innermost enclosing manager. */
module Contexts {
  import opened Core

  datatype ExecutionContext = ExecutionContext(
    mode: BufferMode,
    stream: StreamStrategy,
    transfer: TransferMode,
    payload: Option<nat>)

  datatype Manager =
    | BufferModeCtx(mode: BufferMode, payload: nat)
    | StreamStrategyCtx(stream: StreamStrategy)
    | TransferModeCtx(transfer: TransferMode)
    | ExecutionContextCtx(context: ExecutionContext)

  // -------------------------------------------------------------------- context variable

  /** What the variable holds: nothing yet, a capsule, or None after the loop was closed. */
  datatype Content = Unset | Capsule(context: ExecutionContext) | NoneObject

  datatype Token = Token(previous: Content, used: bool)

  datatype Variable = Variable(current: Content, tokens: seq<Token>)

  function Set(v: Variable, value: Content): (Variable, nat) {
    (Variable(value, v.tokens + [Token(v.current, false)]), |v.tokens|)
  }

  /** A token works once; without a token, or with a used one, reset fails. */
  function Reset(v: Variable, token: Option<nat>): Option<Variable> {
    if token.None? || token.value >= |v.tokens| || v.tokens[token.value].used then None
    else Some(Variable(v.tokens[token.value].previous, v.tokens[token.value := v.tokens[token.value].(used := true)]))
  }

  /** Whatever was set meanwhile, a token brings back what the variable showed before it, and leaves
      every other token as it is; it does so once. */
  lemma TokenWorksOnce(v: Variable, value: Content, later: Variable)
    requires Set(v, value).0.tokens <= later.tokens
    ensures var (v1, token) := Set(v, value);
            var back := Reset(later, Some(token));
            && v1.current == value && back.Some? && back.value.current == v.current
            && |back.value.tokens| == |later.tokens|
            && (forall k | 0 <= k < |later.tokens| && k != token :: back.value.tokens[k] == later.tokens[k])
            && Reset(back.value, Some(token)).None? && Reset(later, None).None?
  {
  }

  function Get(v: Variable): Option<ExecutionContext> {
    if v.current.Capsule? then Some(v.current.context) else None
  }

  // --------------------------------------------------------------------------- managers

  /** The clone with the manager's own dimensions replaced. */
  function Override(m: Manager, c: ExecutionContext): ExecutionContext {
    match m
    case BufferModeCtx(mode, payload) => c.(mode := mode, payload := Some(payload))
    case StreamStrategyCtx(stream) => c.(stream := stream)
    case TransferModeCtx(transfer) => c.(transfer := transfer)
    case ExecutionContextCtx(context) => context
  }

  /** The buffer mode whose set-up may fail; a failing buffer ring goes unnoticed. */
  predicate NeedsSetup(m: Manager) {
    match m
    case BufferModeCtx(mode, _) => mode.Fixed? || mode.Provided?
    case ExecutionContextCtx(context) => context.mode.Fixed? || context.mode.Provided?
    case _ => false
  }

  datatype Entered = Entered(variable: Variable, token: Option<nat>)

  /** __enter__: on a failing set-up the token is reset before the error is raised. */
  function EnterContext(v: Variable, m: Manager, setup: bool): Entered {
    if !m.ExecutionContextCtx? && Get(v).None? then Entered(v, None)
    else
      var context := if m.ExecutionContextCtx? then m.context else Override(m, v.current.context);
      var (v1, token) := Set(v, Capsule(context));
      if NeedsSetup(m) && !setup then
        var back := Reset(v1, Some(token));
        Entered(if back.Some? then back.value else v1, None)
      else Entered(v1, Some(token))
  }

  /** FIXED set-up reads the payload's iovec array, and on success drops it. */
  predicate UsesVector(m: Manager) {
    match m
    case BufferModeCtx(mode, _) => mode.Fixed?
    case ExecutionContextCtx(context) => context.mode.Fixed?
    case _ => false
  }

  /** What an enter leaves: variable and token, and whether the payload still has its array. */
  datatype Entering = Entering(entered: Entered, vector: bool)

  /** __enter__ on a manager object whose payload may have lost its array to an earlier enter. */
  function EnterObject(v: Variable, m: Manager, setup: bool, vector: bool): Outcome<Entering> {
    if !m.ExecutionContextCtx? && Get(v).None? then Fine(Entering(Entered(v, None), vector))
    else if UsesVector(m) && !vector then Crashed(BadAccess)
    else
      var e := EnterContext(v, m, setup);
      Fine(Entering(e, vector && !(UsesVector(m) && e.token.Some?)))
  }

  /** A failed enter leaves the variable showing what it showed. Where there is a context to clone
      or the manager brings its own, FIXED and PROVIDED fail exactly with their set-up, and
      everything else succeeds whatever its set-up does. */
  lemma FailedEnterRestores(v: Variable, m: Manager, setup: bool)
    ensures var e := EnterContext(v, m, setup);
            && (e.token.None? ==> e.variable.current == v.current)
            && (e.token.Some? ==> Reset(e.variable, e.token).Some?)
            && (v.current.Capsule? || m.ExecutionContextCtx? ==>
                  match m
                  case BufferModeCtx(Normal, _) => e.token.Some?
                  case BufferModeCtx(Fixed, _) => e.token.Some? <==> setup
                  case BufferModeCtx(Provided, _) => e.token.Some? <==> setup
                  case BufferModeCtx(BufRing, _) => e.token.Some?
                  case StreamStrategyCtx(_) => e.token.Some?
                  case TransferModeCtx(_) => e.token.Some?
                  case ExecutionContextCtx(ExecutionContext(Normal, _, _, _)) => e.token.Some?
                  case ExecutionContextCtx(ExecutionContext(Fixed, _, _, _)) => e.token.Some? <==> setup
                  case ExecutionContextCtx(ExecutionContext(Provided, _, _, _)) => e.token.Some? <==> setup
                  case ExecutionContextCtx(ExecutionContext(BufRing, _, _, _)) => e.token.Some?)
            && (!v.current.Capsule? && !m.ExecutionContextCtx? ==> e.token.None?)
  {
  }

  /** Entering a manager object, where a context is set: FIXED crashes exactly without its array,
      which it drops exactly when its set-up succeeds; no other manager crashes or touches it. */
  lemma EnterObjectByMode(v: Variable, m: Manager, setup: bool, vector: bool)
    requires v.current.Capsule?
    ensures var entering := EnterObject(v, m, setup, vector);
            match m
            case BufferModeCtx(Fixed, _) =>
              && (entering.Crashed? <==> !vector)
              && (vector ==> entering.value.vector == !setup && entering.value.entered.token.Some? == setup)
            case ExecutionContextCtx(ExecutionContext(Fixed, _, _, _)) =>
              && (entering.Crashed? <==> !vector)
              && (vector ==> entering.value.vector == !setup && entering.value.entered.token.Some? == setup)
            case BufferModeCtx(Provided, _) =>
              entering.Fine? && entering.value.vector == vector && entering.value.entered.token.Some? == setup
            case ExecutionContextCtx(ExecutionContext(Provided, _, _, _)) =>
              entering.Fine? && entering.value.vector == vector && entering.value.entered.token.Some? == setup
            case _ =>
              entering.Fine? && entering.value.vector == vector && entering.value.entered.token.Some?
  {
  }

  // --------------------------------------------------------------------------- programs

  /** Code that uses the managers: `with` blocks, observations of the context, exceptions that
      are raised and caught. Each `with` makes its own manager object. */
  datatype Program =
    | Skip
    | Observe
    | Raise
    | Then(first: Program, second: Program)
    | With(manager: Manager, setup: bool, body: Program)
    | Try(guarded: Program)

  datatype Result = Result(variable: Variable, raised: bool, seen: seq<Option<ExecutionContext>>)

  function Exec(p: Program, v: Variable): Result {
    match p
    case Skip => Result(v, false, [])
    case Observe => Result(v, false, [Get(v)])
    case Raise => Result(v, true, [])
    case Then(a, b) =>
      var r := Exec(a, v);
      if r.raised then r else
        var r2 := Exec(b, r.variable);
        Result(r2.variable, r2.raised, r.seen + r2.seen)
    case With(m, setup, body) =>
      var e := EnterContext(v, m, setup);
      if e.token.None? then Result(e.variable, true, []) else
        var r := Exec(body, e.variable);
        var back := Reset(r.variable, e.token);
        if back.None? then Result(r.variable, true, r.seen)
        else Result(back.value, r.raised, r.seen)
    case Try(q) =>
      var r := Exec(q, v);
      Result(r.variable, false, r.seen)
  }

  // --------------------------------------------------------------------------- reference

  datatype Dimension = ModeDim | StreamDim | TransferDim | PayloadDim

  datatype Setting =
    | ModeIs(mode: BufferMode) | StreamIs(stream: StreamStrategy)
    | TransferIs(transfer: TransferMode) | PayloadIs(payload: Option<nat>)

  function Read(c: ExecutionContext, d: Dimension): Setting {
    match d
    case ModeDim => ModeIs(c.mode)
    case StreamDim => StreamIs(c.stream)
    case TransferDim => TransferIs(c.transfer)
    case PayloadDim => PayloadIs(c.payload)
  }

  /** The value a manager gives to a dimension, if it sets it. */
  function Gives(m: Manager, d: Dimension): Option<Setting> {
    match m
    case BufferModeCtx(mode, payload) =>
      if d.ModeDim? then Some(ModeIs(mode)) else if d.PayloadDim? then Some(PayloadIs(Some(payload))) else None
    case StreamStrategyCtx(stream) => if d.StreamDim? then Some(StreamIs(stream)) else None
    case TransferModeCtx(transfer) => if d.TransferDim? then Some(TransferIs(transfer)) else None
    case ExecutionContextCtx(context) => Some(Read(context, d))
  }

  /** The managers whose `with` raises at once when their set-up fails. */
  predicate MayRefuse(m: Manager) {
    match m
    case BufferModeCtx(Fixed, _) => true
    case BufferModeCtx(Provided, _) => true
    case ExecutionContextCtx(ExecutionContext(Fixed, _, _, _)) => true
    case ExecutionContextCtx(ExecutionContext(Provided, _, _, _)) => true
    case _ => false
  }

  /** Where each observation of a program happens: the stack of enclosing managers, outermost
      first. No variable, no tokens. */
  function Places(p: Program, stack: seq<Manager>): (bool, seq<seq<Manager>>) {
    match p
    case Skip => (false, [])
    case Observe => (false, [stack])
    case Raise => (true, [])
    case Then(a, b) =>
      var r := Places(a, stack);
      if r.0 then r else
        var r2 := Places(b, stack);
        (r2.0, r.1 + r2.1)
    case With(m, setup, body) =>
      if MayRefuse(m) && !setup then (true, []) else Places(body, stack + [m])
    case Try(q) => (false, Places(q, stack).1)
  }

  /** Manager k gives dimension d the value s, and no manager further in sets it. */
  ghost predicate Decides(stack: seq<Manager>, k: nat, d: Dimension, s: Setting)
    requires k < |stack|
  {
    Gives(stack[k], d) == Some(s) && forall j | k < j < |stack| :: Gives(stack[j], d).None?
  }

  /** `s` is what the innermost manager of the stack that sets dimension d gives it, and what
      the base context says when none does. */
  ghost predicate InnermostGives(base: ExecutionContext, stack: seq<Manager>, d: Dimension, s: Setting) {
    || ((forall k | 0 <= k < |stack| :: Gives(stack[k], d).None?) && s == Read(base, d))
    || (exists k :: 0 <= k < |stack| && Decides(stack, k, d, s))
  }

  ghost predicate Effective(base: ExecutionContext, stack: seq<Manager>, c: ExecutionContext) {
    forall d :: InnermostGives(base, stack, d, Read(c, d))
  }

  /** Clone-and-override adds one manager to the stack. */
  lemma OverrideIsInnermost(base: ExecutionContext, stack: seq<Manager>, c: ExecutionContext, m: Manager)
    requires Effective(base, stack, c)
    ensures Effective(base, stack + [m], Override(m, c))
  {
    var taller := stack + [m];
    forall d
      ensures InnermostGives(base, taller, d, Read(Override(m, c), d))
    {
      if Gives(m, d).Some? {
        assert Decides(taller, |stack|, d, Read(Override(m, c), d));
      } else {
        assert Read(Override(m, c), d) == Read(c, d) && InnermostGives(base, stack, d, Read(c, d));
        if k :| 0 <= k < |stack| && Decides(stack, k, d, Read(c, d)) {
          assert Decides(taller, k, d, Read(c, d));
        }
      }
    }
  }

  ghost predicate SeenAt(base: ExecutionContext, seen: seq<Option<ExecutionContext>>, places: seq<seq<Manager>>) {
    && |seen| == |places|
    && forall k | 0 <= k < |seen| :: seen[k].Some? && Effective(base, places[k], seen[k].value)
  }

  /** For every program, whatever it nests, raises or fails to set up: at its end the variable
      shows the context it showed at the start, exceptions leave it where the reference says,
      and every observation saw, dimension by dimension, the innermost enclosing manager. */
  lemma {:induction false} ProgramsAreWellNested(p: Program, v: Variable, base: ExecutionContext, stack: seq<Manager>)
    requires v.current.Capsule? && Effective(base, stack, v.current.context)
    ensures var r := Exec(p, v);
            && r.variable.current == v.current && v.tokens <= r.variable.tokens
            && r.raised == Places(p, stack).0 && SeenAt(base, r.seen, Places(p, stack).1)
    decreases p
  {
    match p
    case Then(a, b) =>
      ProgramsAreWellNested(a, v, base, stack);
      ProgramsAreWellNested(b, Exec(a, v).variable, base, stack);
    case With(m, setup, body) =>
      FailedEnterRestores(v, m, setup);
      if !(MayRefuse(m) && !setup) {
        OverrideIsInnermost(base, stack, v.current.context, m);
        ProgramsAreWellNested(body, EnterContext(v, m, setup).variable, base, stack + [m]);
      }
    case Try(q) =>
      ProgramsAreWellNested(q, v, base, stack);
    case _ =>
  }

  const DEFAULT := ExecutionContext(Normal, Oneshot, NormalTransfer, None)

  /** From a loop just initialised: every program ends in the default context. */
  lemma ProgramsRestoreDefault(p: Program, v: Variable)
    requires v.current == Capsule(DEFAULT)
    ensures Exec(p, v).variable.current == Capsule(DEFAULT)
    ensures SeenAt(DEFAULT, Exec(p, v).seen, Places(p, []).1)
  {
    assert Effective(DEFAULT, [], DEFAULT);
    ProgramsAreWellNested(p, v, DEFAULT, []);
  }

  /** Restoring needs a manager object per `with`. One that is entered a second time, nested or
      after it was left, crashes if and only if its mode is FIXED. Otherwise, when nested, it keeps
      only the second token, so its second exit fails, and the context comes back only if the
      manager changes nothing in it. */
  lemma ReenteringLosesToken(v: Variable, m: Manager)
    requires v.current.Capsule?
    ensures var first := EnterObject(v, m, true, true);
            var fixed := (m.BufferModeCtx? && m.mode.Fixed?) || (m.ExecutionContextCtx? && m.context.mode.Fixed?);
            && first.Fine? && first.value.entered.token.Some?
            && (var outer, vector := first.value.entered, first.value.vector;
                var left := Reset(outer.variable, outer.token);
                var second := EnterObject(outer.variable, m, true, vector);
                && left.Some?
                && (second.Crashed? <==> fixed)
                && (EnterObject(left.value, m, true, vector).Crashed? <==> fixed)
                && (second.Fine? ==>
                      var inner := second.value.entered;
                      var back := Reset(inner.variable, inner.token);
                      && inner.token.Some? && back.Some? && Reset(back.value, None).None?
                      && (back.value.current == v.current <==> Override(m, v.current.context) == v.current.context)))
  {
  }

  // ------------------------------------------------------------------------- the objects

  class ContextVar {
    var current: Content
    var tokens: seq<Token>

    ghost function View(): Variable
      reads this
    {
      Variable(current, tokens)
    }

    /** ContextVar_init: the default context is set and its token dropped. */
    constructor ()
      ensures View() == Variable(Capsule(DEFAULT), [Token(Unset, false)])
    {
      current, tokens := Capsule(DEFAULT), [Token(Unset, false)];
    }

    method SetValue(value: Content) returns (token: nat)
      modifies this
      ensures (View(), token) == Set(old(View()), value)
    {
      token := |tokens|;
      tokens := tokens + [Token(current, false)];
      current := value;
    }

    method ResetTo(token: Option<nat>) returns (ok: bool)
      modifies this
      ensures ok == Reset(old(View()), token).Some?
      ensures View() == if ok then Reset(old(View()), token).value else old(View())
    {
      if token.None? || token.value >= |tokens| || tokens[token.value].used {
        return false;
      }
      current := tokens[token.value].previous;
      tokens := tokens[token.value := tokens[token.value].(used := true)];
      ok := true;
    }

    method GetContext() returns (context: Option<ExecutionContext>)
      ensures context == Get(View())
    {
      context := if current.Capsule? then Some(current.context) else None;
    }
  }

  /** A manager object: it remembers one token, and whether its payload still has the iovec array
      that FIXED set-up needs. */
  class ManagerObject {
    const manager: Manager
    var token: Option<nat>
    var vector: bool

    constructor (m: Manager)
      ensures manager == m && token.None? && vector
    {
      manager, token, vector := m, None, true;
    }

    method Enter(cv: ContextVar, setup: bool) returns (outcome: Outcome<bool>)
      modifies this`token, this`vector, cv
      ensures match EnterObject(old(cv.View()), manager, setup, old(vector))
              case Fine(e) =>
                && outcome == Fine(e.entered.token.Some?) && cv.View() == e.entered.variable
                && token == (if e.entered.token.Some? then e.entered.token else old(token))
                && vector == e.vector
              case Crashed(why) => outcome == Crashed(why)
    {
      var context;
      if manager.ExecutionContextCtx? {
        context := manager.context;
      } else {
        var found := cv.GetContext();
        if found.None? {
          return Fine(false);
        }
        context := Override(manager, found.value);
      }
      var t := cv.SetValue(Capsule(context));
      if UsesVector(manager) && !vector {
        return Crashed(BadAccess);
      }
      if NeedsSetup(manager) && !setup {
        var _ := cv.ResetTo(Some(t));
        return Fine(false);
      }
      if UsesVector(manager) {
        vector := false;
      }
      token := Some(t);
      outcome := Fine(true);
    }

    /** __exit__: the token is cleared whether or not the reset worked. */
    method Exit(cv: ContextVar) returns (ok: bool)
      modifies this`token, cv
      ensures var back := Reset(old(cv.View()), old(token));
              token.None? && ok == back.Some? && cv.View() == (if ok then back.value else old(cv.View()))
    {
      ok := cv.ResetTo(token);
      token := None;
    }
  }
}
