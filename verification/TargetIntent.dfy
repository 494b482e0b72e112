/** Collection targets of a market: what the catalog says, what operators ordered, and what is collected and
    subscribed as a result (`sync_market_catalog`, `_mark_missing_markets_inactive`,
    `set_market_target_state`). */
module TargetIntent {
  import opened Ordering

  datatype Market = Market(quote: string, base: string)
  datatype DataType = SourceCandle | TradeEvent | OrderbookSnapshot | TickerSnapshot
  datatype Key = Key(market: Market, data: DataType)

  datatype Status = Active | Paused | Excluded
  datatype Reason = CatalogMissing | MarketInactive | OperatorPaused | OperatorExcluded | PolicyDisabled

  datatype Config = Config(start: int, unit: Option<string>, retentionDays: Option<int>, priority: int,
                           continuous: bool)
  datatype Spec = Spec(auto: bool, status: Status, reason: Option<Reason>, exclusion: Option<string>, config: Config)
  datatype Desire = Desire(subscribed: bool, generation: nat)

  datatype Item = Item(market: Market, tradable: bool)
  datatype Policy = Policy(data: set<DataType>, config: Config)
  datatype Command = Command(state: Status, actor: string, reason: string, changedAt: int, policy: Option<Policy>)

  const DATA_TYPES := [SourceCandle, TradeEvent, OrderbookSnapshot, TickerSnapshot]
  const POLICY_DISABLED_REASON := "policy:data-type-disabled"
  const DEFAULT_START := 1704067200

  /** Only source candles have a candle unit. */
  function DefaultConfig(data: DataType): Config {
    Config(DEFAULT_START, if data == SourceCandle then Some("1m") else None, None, 100, true)
  }

  // ---------------------------------------------------------------- one target

  /** Everything stored about one data type of one market; `trading` is the market's current status. */
  datatype Cell = Cell(trading: Option<bool>, spec: Option<Spec>, desire: Option<Desire>)

  /** The generation moves on when the desired state changes, or when the caller says the policy did. */
  function Advanced(d: Option<Desire>, subscribed: bool, changed: bool): Desire {
    match d
    case None => Desire(subscribed, 1)
    case Some(d) => Desire(subscribed, d.generation + if d.subscribed != subscribed || changed then 1 else 0)
  }

  predicate Kept(s: Spec) { s.status == Excluded || s.reason in {Some(OperatorPaused), Some(PolicyDisabled)} }

  /** The specification after its market was listed. */
  function ListedSpec(spec: Option<Spec>, data: DataType, tradable: bool): Spec {
    var status, reason := if tradable then Active else Paused, if tradable then None else Some(MarketInactive);
    match spec
    case None => Spec(true, status, reason, None, DefaultConfig(data))
    case Some(s) =>
      if !s.auto then (if Kept(s) then s else s.(status := status, reason := reason))
      else
        var start := if s.config.start < DEFAULT_START then s.config.start else DEFAULT_START;
        var config := DefaultConfig(data).(start := start, unit := s.config.unit);
        if s.status == Excluded then s.(config := config) else s.(config := config, status := status, reason := reason)
  }

  function Listed(c: Cell, data: DataType, krw: bool, tradable: bool): Cell {
    if !krw then c.(trading := Some(tradable)) else
      var spec := ListedSpec(c.spec, data, tradable);
      var subscribed := spec.status == Active && tradable && spec.config.continuous;
      Cell(Some(tradable), Some(spec), Some(Advanced(c.desire, subscribed, false)))
  }

  function MissedSpec(s: Spec): Spec {
    if s.status == Excluded then s
    else s.(status := Paused, reason := if s.reason in {Some(OperatorPaused), Some(PolicyDisabled)} then s.reason
                                        else Some(CatalogMissing))
  }

  /** A market that was trading and is no longer in the catalog. */
  function Missed(c: Cell): Cell {
    if c.trading != Some(true) then c else
      Cell(Some(false), if c.spec.Some? then Some(MissedSpec(c.spec.value)) else None,
           if c.desire.Some? then Some(Advanced(c.desire, false, false)) else None)
  }

  predicate ValidPolicy(p: Policy, changedAt: int) {
    && p.config.start < changedAt && p.data != {} && p.config.unit == Some("1m") && 1 <= p.config.priority <= 1000
    && (p.config.retentionDays.Some? ==> 1 <= p.config.retentionDays.value <= 36500)
  }

  predicate ValidCommand(c: Command) {
    c.actor != "" && c.reason != "" && (c.policy.Some? ==> ValidPolicy(c.policy.value, c.changedAt))
  }

  /** The data type is one the market's policy collects. */
  predicate Selected(s: Spec) { s.exclusion != Some(POLICY_DISABLED_REASON) }

  predicate SelectedAfter(s: Spec, data: DataType, c: Command) {
    if c.policy.Some? then data in c.policy.value.data else Selected(s)
  }

  /** A policy sets the whole configuration, but a candle unit only where there is one. */
  function ConfigAfter(s: Spec, data: DataType, c: Command): Config {
    if c.policy == None then s.config
    else if data == SourceCandle then c.policy.value.config
    else c.policy.value.config.(unit := s.config.unit)
  }

  function CommandedSpec(s: Spec, data: DataType, c: Command): Spec {
    if !SelectedAfter(s, data, c)
    then Spec(false, Paused, Some(PolicyDisabled), Some(POLICY_DISABLED_REASON), ConfigAfter(s, data, c))
    else Spec(false, c.state,
              if c.state == Active then None else Some(if c.state == Paused then OperatorPaused else OperatorExcluded),
              if c.state == Excluded then Some(c.reason) else None, ConfigAfter(s, data, c))
  }

  predicate PolicyChanged(s: Spec, data: DataType, c: Command) {
    var after := SelectedAfter(s, data, c);
    Selected(s) != after || (after && s.config != ConfigAfter(s, data, c))
  }

  predicate Accepted(trading: Option<bool>, c: Command) {
    ValidCommand(c) && trading.Some? && (c.state == Active ==> trading == Some(true))
  }

  function Commanded(cell: Cell, data: DataType, c: Command): Cell {
    if cell.spec == None || !Accepted(cell.trading, c) then cell else
      var s := cell.spec.value;
      var subscribed := SelectedAfter(s, data, c) && c.state == Active && ConfigAfter(s, data, c).continuous;
      cell.(spec := Some(CommandedSpec(s, data, c)),
            desire := Some(Advanced(cell.desire, subscribed, PolicyChanged(s, data, c))))
  }

  // ---------------------------------------------------------------- the catalog

  predicate ValidCatalog(catalog: seq<Item>) {
    && catalog != []
    && (forall i, j :: 0 <= i < j < |catalog| ==> catalog[i].market != catalog[j].market)
    && (forall i :: 0 <= i < |catalog| ==> catalog[i].market.quote != "" && catalog[i].market.base != "")
  }

  predicate Krw(m: Market) { m.quote == "KRW" }

  /** What the first `n` items say of a market. */
  function Listing(catalog: seq<Item>, n: nat, m: Market): Option<bool>
    requires n <= |catalog|
  {
    if n == 0 then None
    else if catalog[n - 1].market == m then Some(catalog[n - 1].tradable)
    else Listing(catalog, n - 1, m)
  }

  /** The cell after a catalog of which it saw `listing`. */
  function Observed(c: Cell, data: DataType, krw: bool, listing: Option<bool>): Cell {
    if listing.Some? then Listed(c, data, krw, listing.value) else Missed(c)
  }

  /** The cell after the items of a catalog, before the missing markets are marked. */
  function Seen(c: Cell, data: DataType, krw: bool, listing: Option<bool>): Cell {
    if listing.Some? then Listed(c, data, krw, listing.value) else c
  }

  // ---------------------------------------------------------------- the store

  function MissedSpecs(specs: map<Key, Spec>, m: Market): (r: map<Key, Spec>)
    ensures forall k :: Lookup(r, k) == if k.market == m && k in specs then Some(MissedSpec(specs[k]))
                                        else Lookup(specs, k)
  {
    map k | k in specs :: if k.market == m then MissedSpec(specs[k]) else specs[k]
  }

  function MissedDesires(desires: map<Key, Desire>, m: Market): (r: map<Key, Desire>)
    ensures forall k :: Lookup(r, k) == if k.market == m && k in desires
                                        then Some(Advanced(Some(desires[k]), false, false)) else Lookup(desires, k)
  {
    map k | k in desires :: if k.market == m then Advanced(Some(desires[k]), false, false) else desires[k]
  }

  class TargetStore {
    var trading: map<Market, bool>
    var specs: map<Key, Spec>
    var desires: map<Key, Desire>

    constructor ()
      ensures forall k :: CellAt(k) == Cell(None, None, None)
    {
      trading, specs, desires := map[], map[], map[];
    }

    function CellAt(k: Key): Cell
      reads this
    {
      Cell(Lookup(trading, k.market), Lookup(specs, k), Lookup(desires, k))
    }

    method SyncTarget(k: Key, tradable: bool)
      requires Lookup(trading, k.market) == Some(tradable)
      modifies this
      ensures trading == old(trading)
      ensures CellAt(k) == Listed(old(CellAt(k)), k.data, true, tradable)
      ensures forall j :: j != k ==> CellAt(j) == old(CellAt(j))
    {
      var status, reason := if tradable then Active else Paused, if tradable then None else Some(MarketInactive);
      if k in specs && !specs[k].auto {
        if !Kept(specs[k]) { specs := specs[k := specs[k].(status := status, reason := reason)]; }
      } else if k in specs {
        var s := specs[k];
        var start := if s.config.start < DEFAULT_START then s.config.start else DEFAULT_START;
        s := s.(config := Config(start, s.config.unit, None, 100, true));
        if s.status != Excluded { s := s.(status := status, reason := reason); }
        specs := specs[k := s];
      } else {
        specs := specs[k := Spec(true, status, reason, None, DefaultConfig(k.data))];
      }
      var subscribed := specs[k].status == Active && tradable && specs[k].config.continuous;
      desires := desires[k := Advanced(Lookup(desires, k), subscribed, false)];
    }

    method SyncTargets(m: Market, tradable: bool)
      requires Lookup(trading, m) == Some(tradable)
      modifies this
      ensures forall k :: CellAt(k) == if k.market == m then Listed(old(CellAt(k)), k.data, true, tradable)
                                       else old(CellAt(k))
    {
      for n := 0 to |DATA_TYPES|
        invariant trading == old(trading)
        invariant forall k :: CellAt(k) == if k.market == m && k.data in DATA_TYPES[..n]
                                           then Listed(old(CellAt(k)), k.data, true, tradable)
                                           else old(CellAt(k))
      {
        SyncTarget(Key(m, DATA_TYPES[n]), tradable);
        assert DATA_TYPES[..n + 1] == DATA_TYPES[..n] + [DATA_TYPES[n]];
      }
      assert DATA_TYPES[..|DATA_TYPES|] == DATA_TYPES;
      AllTypes();
    }

    method SyncItem(item: Item)
      modifies this
      ensures forall k :: CellAt(k) == if k.market == item.market
                                       then Listed(old(CellAt(k)), k.data, Krw(item.market), item.tradable)
                                       else old(CellAt(k))
    {
      trading := trading[item.market := item.tradable];
      if Krw(item.market) { SyncTargets(item.market, item.tradable); }
    }

    method MissMarket(m: Market)
      requires Lookup(trading, m) == Some(true)
      modifies this
      ensures trading == old(trading)[m := false]
      ensures forall k :: CellAt(k) == if k.market == m then Missed(old(CellAt(k))) else old(CellAt(k))
    {
      trading := trading[m := false];
      specs := MissedSpecs(specs, m);
      desires := MissedDesires(desires, m);
    }

    /** Markets whose current status is trading and that were not observed are marked one by one. */
    method MarkMissing(observed: set<Market>)
      modifies this
      ensures forall k :: CellAt(k) == if k.market in observed then old(CellAt(k)) else Missed(old(CellAt(k)))
    {
      var gone := set m | m in trading && trading[m] && m !in observed;
      var rows := gone;
      while rows != {}
        invariant rows <= gone
        invariant forall m :: m in rows ==> Lookup(trading, m) == Some(true)
        invariant forall k :: CellAt(k) == if k.market in gone - rows then Missed(old(CellAt(k))) else old(CellAt(k))
        decreases rows
      {
        var m :| m in rows;
        MissMarket(m);
        rows := rows - {m};
      }
    }

    /** A catalog is taken in item by item; the markets it no longer lists are marked last. */
    method SyncMarketCatalog(catalog: seq<Item>) returns (ok: bool)
      modifies this
      ensures ok == ValidCatalog(catalog)
      ensures ok ==>
        forall k :: CellAt(k) == Observed(old(CellAt(k)), k.data, Krw(k.market), Listing(catalog, |catalog|, k.market))
      ensures !ok ==> forall k :: CellAt(k) == old(CellAt(k))
    {
      if !ValidCatalog(catalog) { return false; }
      var observed: set<Market> := {};
      for n := 0 to |catalog|
        invariant forall m :: m in observed <==> Listing(catalog, n, m).Some?
        invariant forall k :: CellAt(k) == Seen(old(CellAt(k)), k.data, Krw(k.market), Listing(catalog, n, k.market))
      {
        assert Listing(catalog, n, catalog[n].market) == None by { NotListed(catalog, n, catalog[n].market); }
        SyncItem(catalog[n]);
        observed := observed + {catalog[n].market};
      }
      MarkMissing(observed);
      ok := true;
    }

    method CommandTarget(k: Key, c: Command)
      requires k in specs && Accepted(Lookup(trading, k.market), c)
      modifies this
      ensures trading == old(trading) && specs.Keys == old(specs.Keys)
      ensures CellAt(k) == Commanded(old(CellAt(k)), k.data, c)
      ensures forall j :: j != k ==> CellAt(j) == old(CellAt(j))
    {
      var s := specs[k];
      var after := SelectedAfter(s, k.data, c);
      var config := ConfigAfter(s, k.data, c);
      var changed := Selected(s) != after || (after && s.config != config);
      var reason := if !after then Some(PolicyDisabled) else if c.state == Active then None
                    else if c.state == Paused then Some(OperatorPaused) else Some(OperatorExcluded);
      var exclusion := if !after then Some(POLICY_DISABLED_REASON)
                       else if c.state == Excluded then Some(c.reason) else None;
      specs := specs[k := Spec(false, if after then c.state else Paused, reason, exclusion, config)];
      desires := desires[k := Advanced(Lookup(desires, k), after && c.state == Active && config.continuous, changed)];
    }

    method SetMarketTargetState(m: Market, c: Command) returns (ok: bool)
      modifies this
      ensures forall k :: CellAt(k) == if k.market == m then Commanded(old(CellAt(k)), k.data, c) else old(CellAt(k))
      ensures ok <==> Accepted(Lookup(old(trading), m), c) && exists k :: k in old(specs) && k.market == m
    {
      if !Accepted(Lookup(trading, m), c) || !exists k :: k in specs && k.market == m { return false; }
      for n := 0 to |DATA_TYPES|
        invariant trading == old(trading) && specs.Keys == old(specs.Keys)
        invariant forall k: Key :: k.market != m ==> CellAt(k) == old(CellAt(k))
        invariant forall k: Key :: k.market == m ==>
          CellAt(k) == if k.data in DATA_TYPES[..n] then Commanded(old(CellAt(k)), k.data, c) else old(CellAt(k))
      {
        var k := Key(m, DATA_TYPES[n]);
        assert CellAt(k) == old(CellAt(k));
        if k in specs { CommandTarget(k, c); }
        assert DATA_TYPES[..n + 1] == DATA_TYPES[..n] + [DATA_TYPES[n]];
      }
      assert DATA_TYPES[..|DATA_TYPES|] == DATA_TYPES;
      AllTypes();
      ok := true;
    }
  }

  lemma AllTypes()
    ensures forall d: DataType :: d in DATA_TYPES
  {
    forall d: DataType ensures d in DATA_TYPES {
      match d {
        case SourceCandle => { assert DATA_TYPES[0] == d; }
        case TradeEvent => { assert DATA_TYPES[1] == d; }
        case OrderbookSnapshot => { assert DATA_TYPES[2] == d; }
        case TickerSnapshot => { assert DATA_TYPES[3] == d; }
      }
    }
  }

  lemma {:induction false} NotListed(catalog: seq<Item>, n: nat, m: Market)
    requires n <= |catalog| && forall i :: 0 <= i < n ==> catalog[i].market != m
    ensures Listing(catalog, n, m) == None
  {
    if n > 0 { NotListed(catalog, n - 1, m); }
  }
}
