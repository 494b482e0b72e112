/** What every run of catalog syncs, disappearances and operator commands leaves of a collection target. */
module TargetIntentRuns {
  import opened Ordering
  import opened TargetIntent

  /** What happens to the target: its market appears in a catalog, is left out of one, or is commanded. */
  datatype Input = Appears(tradable: bool) | Absent | Ordered(command: Command)

  function Next(k: Key, c: Cell, i: Input): Cell {
    match i
    case Appears(tradable) => Observed(c, k.data, Krw(k.market), Some(tradable))
    case Absent => Observed(c, k.data, Krw(k.market), None)
    case Ordered(command) => Commanded(c, k.data, command)
  }

  /** The target after the first `n` inputs, from an empty store. */
  function After(k: Key, h: seq<Input>, n: nat): Cell
    requires n <= |h|
  {
    if n == 0 then Cell(None, None, None) else Next(k, After(k, h, n - 1), h[n - 1])
  }

  // ---------------------------------------------------------------- the history alone

  /** What the catalog last said; a market is gone only when it was trading before. */
  datatype Catalog = Unseen | Trading | Halted | Gone

  function CatalogAfter(h: seq<Input>, n: nat): Catalog
    requires n <= |h|
  {
    if n == 0 then Unseen else
      var c := CatalogAfter(h, n - 1);
      match h[n - 1]
      case Appears(tradable) => if tradable then Trading else Halted
      case Absent => if c == Trading then Gone else c
      case Ordered(_) => c
  }

  /** What the operators want of the target; `disabled` is the mark that keeps it out of later commands
      that bring no policy. */
  datatype Intent = Intent(want: Want, disabled: bool, config: Config)
  datatype Want = Collect | Pause | Exclude | Disable

  /** A command counts when it is valid, the target exists, and it does not activate a market that is not trading. */
  predicate Heeded(h: seq<Input>, n: nat)
    requires n < |h| && h[n].Ordered?
  {
    && Proper(h[n].command) && CatalogAfter(h, n) != Unseen
    && (h[n].command.state == Active ==> CatalogAfter(h, n) == Trading)
  }

  /** A command names who gives it and why. A policy begins in the past, selects something, has minutes for candles, a
      priority from 1 to 1000, and keeps data for good or for 1 to 36500 days. */
  predicate Proper(c: Command) {
    && c.actor != "" && c.reason != ""
    && match c.policy
       case None => true
       case Some(Policy(data, Config(start, unit, retention, priority, _))) =>
         && start < c.changedAt && (exists d :: d in data) && unit == Some("1m") && 0 < priority < 1001
         && (retention == None || 0 < retention.value < 36501)
  }

  function IntentAfter(data: DataType, h: seq<Input>, n: nat): Intent
    requires n <= |h|
  {
    if n == 0 then Untouched(data) else
      var i := IntentAfter(data, h, n - 1);
      if !h[n - 1].Ordered? || !Heeded(h, n - 1) then i else
        var c := h[n - 1].command;
        var selected := if c.policy.Some? then data in c.policy.value.data else !i.disabled;
        var config := if c.policy == None then i.config
                      else if data == SourceCandle then c.policy.value.config
                      else c.policy.value.config.(unit := i.config.unit);
        if !selected then Intent(Disable, true, config)
        else Intent(match c.state { case Active => Collect case Paused => Pause case Excluded => Exclude },
                    c.state == Excluded && c.reason == POLICY_DISABLED_REASON, config)
  }

  /** The intent while no command has been heeded. */
  function Untouched(data: DataType): Intent { Intent(Collect, false, DefaultConfig(data)) }

  function StatusOf(want: Want, c: Catalog): Status {
    match want
    case Exclude => Excluded
    case Pause => Paused
    case Disable => Paused
    case Collect => if c == Trading then Active else Paused
  }

  function ReasonOf(want: Want, c: Catalog): Option<Reason> {
    match want
    case Exclude => Some(OperatorExcluded)
    case Pause => Some(OperatorPaused)
    case Disable => Some(PolicyDisabled)
    case Collect => if c == Trading then None else if c == Halted then Some(MarketInactive) else Some(CatalogMissing)
  }

  // ---------------------------------------------------------------- intent decides

  /** The stored target is the one that intent and catalog call for. */
  predicate Reflects(data: DataType, krw: bool, cell: Cell, c: Catalog, i: Intent) {
    && cell.trading == (if c == Unseen then None else Some(c == Trading))
    && (if !krw || c == Unseen then cell.spec == None && cell.desire == None else
        && cell.spec.Some? && cell.desire.Some?
        && (var s := cell.spec.value;
           && s.status == StatusOf(i.want, c) && s.reason == ReasonOf(i.want, c)
           && s.config == i.config && (s.exclusion == Some(POLICY_DISABLED_REASON) <==> i.disabled)
           && (s.auto ==> i == Untouched(data) && s.exclusion == None)
           && cell.desire.value.subscribed == (i.want == Collect && c == Trading && i.config.continuous)))
  }

  lemma AppearsReflects(k: Key, cell: Cell, c: Catalog, i: Intent, tradable: bool)
    requires Reflects(k.data, Krw(k.market), cell, c, i)
    requires c == Unseen ==> i == Untouched(k.data)
    ensures Reflects(k.data, Krw(k.market), Next(k, cell, Appears(tradable)), if tradable then Trading else Halted, i)
  {}

  lemma AbsentReflects(k: Key, cell: Cell, c: Catalog, i: Intent)
    requires Reflects(k.data, Krw(k.market), cell, c, i)
    ensures Reflects(k.data, Krw(k.market), Next(k, cell, Absent), if c == Trading then Gone else c, i)
  {}

  lemma {:induction false} UnseenKeepsDefault(data: DataType, h: seq<Input>, n: nat)
    requires n <= |h| && CatalogAfter(h, n) == Unseen
    ensures IntentAfter(data, h, n) == Untouched(data)
  {
    if n > 0 { UnseenKeepsDefault(data, h, n - 1); }
  }

  /** Over every run, a target's status, its reason and its subscription are exactly what the operators'
      last heeded command and the market's last catalog state call for. */
  lemma {:induction false} IntentDecides(k: Key, h: seq<Input>, n: nat)
    requires n <= |h|
    ensures Reflects(k.data, Krw(k.market), After(k, h, n), CatalogAfter(h, n), IntentAfter(k.data, h, n))
  {
    if n > 0 {
      IntentDecides(k, h, n - 1);
      var cell, c, i := After(k, h, n - 1), CatalogAfter(h, n - 1), IntentAfter(k.data, h, n - 1);
      match h[n - 1] {
        case Appears(tradable) => {
          if c == Unseen { UnseenKeepsDefault(k.data, h, n - 1); }
          AppearsReflects(k, cell, c, i, tradable);
        }
        case Absent => { AbsentReflects(k, cell, c, i); }
        case Ordered(command) => {}
      }
    }
  }

  /** The catalog never overrides an operator: whatever catalogs follow, an excluded, paused or disabled
      target keeps its status and reason and is not subscribed. */
  lemma {:induction false} CatalogRespectsOperator(k: Key, h: seq<Input>, n: nat, j: nat)
    requires n <= j <= |h| && Krw(k.market) && CatalogAfter(h, n) != Unseen
    requires IntentAfter(k.data, h, n).want != Collect
    requires forall x :: n <= x < j ==> !h[x].Ordered?
    ensures After(k, h, n).spec.Some? && After(k, h, j).spec.Some? && After(k, h, j).desire.Some?
    ensures After(k, h, j).spec.value.status == After(k, h, n).spec.value.status != Active
    ensures After(k, h, j).spec.value.reason == After(k, h, n).spec.value.reason
    ensures !After(k, h, j).desire.value.subscribed
  {
    IntentDecides(k, h, n);
    IntentDecides(k, h, j);
    IntentKept(k.data, h, n, j);
  }

  lemma {:induction false} IntentKept(data: DataType, h: seq<Input>, n: nat, j: nat)
    requires n <= j <= |h| && forall x :: n <= x < j ==> !h[x].Ordered?
    ensures IntentAfter(data, h, j) == IntentAfter(data, h, n)
    ensures CatalogAfter(h, n) != Unseen ==> CatalogAfter(h, j) != Unseen
    decreases j
  {
    if n < j { IntentKept(data, h, n, j - 1); }
  }

  /** A target that only the catalog paused is active again, and subscribed if it is continuous, as soon as
      its market is listed as tradable. */
  lemma CatalogPauseEnds(k: Key, h: seq<Input>, n: nat)
    requires 0 < n <= |h| && Krw(k.market) && h[n - 1] == Appears(true)
    requires IntentAfter(k.data, h, n - 1).want == Collect
    ensures var c := After(k, h, n);
      && c.spec.Some? && c.spec.value.status == Active && c.spec.value.reason == None
      && c.desire.Some? && c.desire.value.subscribed == c.spec.value.config.continuous
  {
    IntentDecides(k, h, n);
  }

  // ---------------------------------------------------------------- generations

  /** From `a` to `b`, the generation moved on, or neither the desired state nor a selected policy changed. */
  predicate SameGeneration(a: Cell, b: Cell)
    requires a.desire.Some? && b.desire.Some? && a.spec.Some? && b.spec.Some?
  {
    || b.desire.value.generation > a.desire.value.generation
    || (&& b.desire.value == a.desire.value
        && (Selected(b.spec.value) ==> Selected(a.spec.value) && b.spec.value.config == a.spec.value.config))
  }

  lemma StepGeneration(k: Key, a: Cell, c: Catalog, i: Intent, x: Input)
    requires Krw(k.market) && c != Unseen && Reflects(k.data, true, a, c, i)
    ensures var b := Next(k, a, x); b.desire.Some? && b.spec.Some? && SameGeneration(a, b)
  {}

  /** Two sightings of a target under the same generation have the same desired state, and the same policy if
      it was selected at both: a gateway that has applied a generation has nothing more to apply. */
  lemma {:induction false} GenerationFixesDesire(k: Key, h: seq<Input>, n: nat, j: nat)
    requires n <= j <= |h| && Krw(k.market) && CatalogAfter(h, n) != Unseen
    ensures var a, b := After(k, h, n), After(k, h, j);
      && a.desire.Some? && b.desire.Some? && a.spec.Some? && b.spec.Some?
      && b.desire.value.generation >= a.desire.value.generation
      && (b.desire.value.generation == a.desire.value.generation ==>
          && b.desire.value.subscribed == a.desire.value.subscribed
          && (Selected(a.spec.value) && Selected(b.spec.value) ==> b.spec.value.config == a.spec.value.config))
      && SameGeneration(a, b)
    decreases j
  {
    IntentDecides(k, h, n);
    if n < j {
      GenerationFixesDesire(k, h, n, j - 1);
      IntentDecides(k, h, j - 1);
      SeenStays(h, n, j - 1);
      StepGeneration(k, After(k, h, j - 1), CatalogAfter(h, j - 1), IntentAfter(k.data, h, j - 1), h[j - 1]);
    }
  }

  lemma {:induction false} SeenStays(h: seq<Input>, n: nat, j: nat)
    requires n <= j <= |h| && CatalogAfter(h, n) != Unseen
    ensures CatalogAfter(h, j) != Unseen
    decreases j
  {
    if n < j { SeenStays(h, n, j - 1); }
  }

  /** After `n` inputs the target should be subscribed: operators want it, its market trades, it is continuous. */
  predicate Wanted(data: DataType, h: seq<Input>, n: nat)
    requires n <= |h|
  {
    var i := IntentAfter(data, h, n);
    i.want == Collect && CatalogAfter(h, n) == Trading && i.config.continuous
  }

  /** Input `n` is a heeded command that changed the target's policy: it took the target into the market's policy or
      out of it, or left it there with another configuration. */
  predicate PolicyMoved(data: DataType, h: seq<Input>, n: nat)
    requires n < |h|
  {
    var was, now := IntentAfter(data, h, n), IntentAfter(data, h, n + 1);
    h[n].Ordered? && Heeded(h, n)
    && ((was.disabled <==> now.want != Disable) || (now.want != Disable && now.config != was.config))
  }

  /** How many of the first `n` inputs, since the market was first listed, changed what is wanted or the policy. */
  function Changes(data: DataType, h: seq<Input>, n: nat): nat
    requires n <= |h|
  {
    if n == 0 then 0 else
      var moved := Wanted(data, h, n) != Wanted(data, h, n - 1) || PolicyMoved(data, h, n - 1);
      Changes(data, h, n - 1) + if CatalogAfter(h, n - 1) != Unseen && moved then 1 else 0
  }

  lemma CatalogStep(k: Key, h: seq<Input>, n: nat)
    requires n < |h| && Krw(k.market) && CatalogAfter(h, n) != Unseen && !h[n].Ordered?
    ensures var a, b := After(k, h, n), After(k, h, n + 1);
      && a.desire.Some? && b.desire.Some?
      && b.desire.value.generation
         == a.desire.value.generation + if Wanted(k.data, h, n + 1) != Wanted(k.data, h, n) then 1 else 0
  {
    IntentDecides(k, h, n);
    IntentDecides(k, h, n + 1);
  }

  lemma CommandStep(k: Key, h: seq<Input>, n: nat)
    requires n < |h| && Krw(k.market) && CatalogAfter(h, n) != Unseen && h[n].Ordered?
    ensures var a, b := After(k, h, n), After(k, h, n + 1);
      && a.desire.Some? && b.desire.Some?
      && b.desire.value.generation == a.desire.value.generation
         + if Wanted(k.data, h, n + 1) != Wanted(k.data, h, n) || PolicyMoved(k.data, h, n) then 1 else 0
  {
    IntentDecides(k, h, n);
    IntentDecides(k, h, n + 1);
  }

  lemma {:induction false} UnseenCountsNothing(data: DataType, h: seq<Input>, n: nat)
    requires n <= |h| && CatalogAfter(h, n) == Unseen
    ensures Changes(data, h, n) == 0
  {
    if n > 0 { UnseenCountsNothing(data, h, n - 1); }
  }

  /** Over every run, the generation is one more than the number of inputs, since the market was first listed, that
      changed what is wanted of the target or its policy. Nothing else moves it: a catalog that repeats what is known,
      or a command that asks for what holds, leaves it as it is. */
  lemma {:induction false} GenerationCounts(k: Key, h: seq<Input>, n: nat)
    requires n <= |h| && Krw(k.market) && CatalogAfter(h, n) != Unseen
    ensures After(k, h, n).desire.Some?
    ensures After(k, h, n).desire.value.generation == 1 + Changes(k.data, h, n)
  {
    if CatalogAfter(h, n - 1) == Unseen {
      IntentDecides(k, h, n - 1);
      UnseenCountsNothing(k.data, h, n - 1);
    } else {
      GenerationCounts(k, h, n - 1);
      if h[n - 1].Ordered? { CommandStep(k, h, n - 1); } else { CatalogStep(k, h, n - 1); }
    }
  }

  /** Listing keeps the earlier start of a target that the catalog manages, and otherwise sets its configuration. */
  lemma ListedAuto(c: Cell, data: DataType, tradable: bool)
    requires c.spec.Some? && c.spec.value.auto
    ensures var after := Listed(c, data, true, tradable);
      && after.spec.Some? && after.spec.value.auto && after.spec.value.exclusion == c.spec.value.exclusion
      && after.spec.value.config.start <= c.spec.value.config.start
      && after.spec.value.config.start <= 1704067200
      && after.spec.value.config.start in {c.spec.value.config.start, 1704067200}
      && after.spec.value.config == Config(after.spec.value.config.start, c.spec.value.config.unit, None, 100, true)
  {}

  /** A target that no command has changed is collected continuously from the start of 2024 on, as minutes if it is
      candles, with priority 100 and for good. */
  lemma UntouchedTarget(k: Key, h: seq<Input>, n: nat)
    requires n <= |h| && Krw(k.market) && CatalogAfter(h, n) != Unseen
    requires forall j :: 0 <= j < n ==> !h[j].Ordered?
    ensures After(k, h, n).spec.Some?
    ensures After(k, h, n).spec.value.config
         == Config(1704067200, if k.data == SourceCandle then Some("1m") else None, None, 100, true)
  {
    IntentDecides(k, h, n);
    IntentKept(k.data, h, 0, n);
  }

  // ---------------------------------------------------------------- where intent is misread

  /** An exclusion whose free-text reason happens to be the internal mark is read back as "not selected": a
      plain command to collect then disables the target instead of collecting it. */
  lemma MarkedExclusionIsMisread(k: Key, actor: string, at: int)
    requires Krw(k.market) && actor != ""
    ensures var h := [Appears(true), Ordered(Command(Excluded, actor, POLICY_DISABLED_REASON, at, None)),
                      Ordered(Command(Active, actor, "resume", at, None))];
      After(k, h, 3).spec.Some? && After(k, h, 3).spec.value.status == Paused
  {
    var h := [Appears(true), Ordered(Command(Excluded, actor, POLICY_DISABLED_REASON, at, None)),
              Ordered(Command(Active, actor, "resume", at, None))];
    assert CatalogAfter(h, 1) == Trading;
    assert CatalogAfter(h, 2) == Trading;
    assert IntentAfter(k.data, h, 1) == Untouched(k.data);
    assert IntentAfter(k.data, h, 2) == Intent(Exclude, true, DefaultConfig(k.data));
    IntentDecides(k, h, 3);
  }

  /** A heeded plain command to collect is obeyed exactly when the target does not carry the mark. */
  lemma PlainResumeObeyedIff(k: Key, h: seq<Input>, n: nat)
    requires n < |h| && Krw(k.market) && h[n].Ordered? && Heeded(h, n)
    requires h[n].command.state == Active && h[n].command.policy == None
    ensures After(k, h, n).spec.Some? && After(k, h, n + 1).spec.Some?
    ensures After(k, h, n + 1).spec.value.status == Active <==> Selected(After(k, h, n).spec.value)
  {
    IntentDecides(k, h, n);
    IntentDecides(k, h, n + 1);
  }
}
