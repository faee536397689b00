/**
 How many bytes a request reserves, in the program's 64-bit signed arithmetic: products and
 sums wrap, division truncates toward zero, and a guard saturates before either can overflow.
 The bounds come from the validated configuration, which is modelled here as well.
 */
module Reservations {
  import opened Common
  import opened Admission

  const MAX_INT64 := 0x7FFF_FFFF_FFFF_FFFF
  const MIN_INT64 := -0x8000_0000_0000_0000
  const BASE_MEMORY := 0x1_0000  // 64 KiB, for HTTP requests and WebSocket connections alike
  const WS_JSON_MEMORY_FACTOR := 16
  const MIB := 0x10_0000

  type int64 = x: int | MIN_INT64 <= x <= MAX_INT64

  /** Two's-complement wrap-around. */
  function Wrap(x: int): int64 {
    var r := x % 0x1_0000_0000_0000_0000;
    if r > MAX_INT64 then r - 0x1_0000_0000_0000_0000 else r
  }

  /** Division as Go does it: toward zero. */
  function Quotient(a: int, b: int): int
    requires b != 0
  {
    if a >= 0 && b > 0 then a / b
    else if a >= 0 then -(a / -b)
    else if b > 0 then -(-a / b)
    else -a / -b
  }

  function HttpReservation(quantity: int64, perItem: int64): int64 {
    if quantity < 1 || perItem < 1 || quantity > Quotient(MAX_INT64 - BASE_MEMORY, perItem) then MAX_INT64
    else Wrap(BASE_MEMORY + Wrap(quantity * perItem))
  }

  function WsReservation(quantity: int64, perItem: int64): int64
    requires perItem != 0
  {
    if quantity < 1 || quantity > Quotient(MAX_INT64 - BASE_MEMORY, perItem) then MAX_INT64
    else Wrap(BASE_MEMORY + Wrap(quantity * perItem))
  }

  function WsByteReservation(quantity: int64, jsonFrame: bool): int64 {
    WsReservation(quantity, if jsonFrame then WS_JSON_MEMORY_FACTOR else 1)
  }

  lemma WrapIsIdentity(x: int)
    requires MIN_INT64 <= x <= MAX_INT64
    ensures Wrap(x) == x
  {
  }

  /** The guard compares against a quotient; it lets through exactly the products that fit. */
  lemma GuardIsExact(room: nat, quantity: nat, perItem: nat)
    requires perItem > 0
    ensures quantity > room / perItem <==> quantity * perItem > room
  {
    var q := room / perItem;
    assert room == q * perItem + room % perItem;
    if quantity > q {
      assert quantity * perItem >= (q + 1) * perItem == q * perItem + perItem;
    } else {
      assert quantity * perItem <= q * perItem;
    }
  }

  /**
   For every 64-bit input both reservations are 64 KiB and the exact product when that fits, and
   the largest 64-bit value otherwise; nothing wraps.
   */
  lemma ReservationsAreExactOrSaturated(quantity: int64, perItem: int64)
    ensures HttpReservation(quantity, perItem)
         == if quantity < 1 || perItem < 1 || 65536 + quantity * perItem > 0x7FFF_FFFF_FFFF_FFFF
            then 0x7FFF_FFFF_FFFF_FFFF else 65536 + quantity * perItem
    ensures perItem != 0 ==>
              WsReservation(quantity, perItem)
              == if quantity < 1 || perItem < 1 || 65536 + quantity * perItem > 0x7FFF_FFFF_FFFF_FFFF
                 then 0x7FFF_FFFF_FFFF_FFFF else 65536 + quantity * perItem
  {
    if quantity >= 1 && perItem >= 1 {
      GuardIsExact(MAX_INT64 - BASE_MEMORY, quantity, perItem);
      if quantity * perItem <= MAX_INT64 - BASE_MEMORY {
        WrapIsIdentity(quantity * perItem);
        WrapIsIdentity(BASE_MEMORY + quantity * perItem);
      }
    } else if perItem < 0 {
      NegativeQuotient(MAX_INT64 - BASE_MEMORY, perItem);
    }
  }

  /** A WebSocket frame reserves one byte for each raw byte and sixteen for each byte of a JSON frame. */
  lemma FrameReservations(quantity: int64)
    ensures WsByteReservation(quantity, false)
         == if quantity < 1 || 65536 + quantity > 0x7FFF_FFFF_FFFF_FFFF then 0x7FFF_FFFF_FFFF_FFFF
            else 65536 + quantity
    ensures WsByteReservation(quantity, true)
         == if quantity < 1 || 65536 + 16 * quantity > 0x7FFF_FFFF_FFFF_FFFF then 0x7FFF_FFFF_FFFF_FFFF
            else 65536 + 16 * quantity
  {
    ReservationsAreExactOrSaturated(quantity, 1);
    ReservationsAreExactOrSaturated(quantity, 16);
  }

  lemma NegativeQuotient(a: int64, b: int64)
    requires a >= 0 && b < 0
    ensures Quotient(a, b) <= 0
  {
  }

  /** A JSON frame of a positive size never reserves less than the raw bytes, and both grow with the size. */
  lemma WsByteReservationGrows(a: int64, b: int64, json: bool)
    requires 1 <= a <= b
    ensures WsByteReservation(a, json) <= WsByteReservation(b, json)
    ensures WsByteReservation(a, false) <= WsByteReservation(a, true)
  {
    FrameReservations(a);
    FrameReservations(b);
  }

  // ---------------------------------------------------------------- configuration

  const MAX_MILLISECONDS := MAX_INT64 / 1_000_000
  const MIN_RESEED_BYTES := 32
  const MAX_RESEED_BYTES := 0x10_0000
  const MAX_RESEED_MS := 60_000
  const MAX_SAMPLE_BYTES := 0x200_0000
  const MAX_MIB := MAX_INT64 / MIB

  datatype ConfigError = BadTiming(field: nat) | BadReseedSize | BadMaxBytes | BadWords | BadFingerprint
                       | BadWebSocketLimits | BadHttpLimits | UnknownGenerator

  /** One row of the timing table: a field's value and its bounds in milliseconds. */
  datatype Timing = Timing(value: int64, min: int64, max: int64)

  class Config {
    var reseedMs: int64
    var maxReseedAgeMs: int64
    var reseedSize: int64
    var maxBytes: int64
    var maxWords: int64
    var pageRefreshMs: int64
    var bytesFingerprint: int64
    var refreshRateMs: int64
    var refreshColorMs: int64
    var generator: string
    var wsMaxConnections: int64
    var wsMemoryMiB: int64
    var httpMaxRequests: int64
    var httpMemoryMiB: int64

    constructor (reseedMs: int64, maxReseedAgeMs: int64, reseedSize: int64, maxBytes: int64, maxWords: int64,
                 pageRefreshMs: int64, bytesFingerprint: int64, refreshRateMs: int64, refreshColorMs: int64,
                 generator: string, wsMaxConnections: int64, wsMemoryMiB: int64, httpMaxRequests: int64,
                 httpMemoryMiB: int64)
    {
      this.reseedMs, this.maxReseedAgeMs := reseedMs, maxReseedAgeMs;
      this.reseedSize, this.maxBytes := reseedSize, maxBytes;
      this.maxWords, this.pageRefreshMs, this.bytesFingerprint := maxWords, pageRefreshMs, bytesFingerprint;
      this.refreshRateMs, this.refreshColorMs, this.generator := refreshRateMs, refreshColorMs, generator;
      this.wsMaxConnections, this.wsMemoryMiB := wsMaxConnections, wsMemoryMiB;
      this.httpMaxRequests, this.httpMemoryMiB := httpMaxRequests, httpMemoryMiB;
    }

    function Timings(): seq<Timing>
      reads this
    {
      [Timing(reseedMs, 1, MAX_RESEED_MS), Timing(refreshRateMs, 1, MAX_MILLISECONDS),
       Timing(refreshColorMs, 1, MAX_MILLISECONDS), Timing(pageRefreshMs, 1, MAX_MILLISECONDS),
       Timing(maxReseedAgeMs, 0, MAX_MILLISECONDS)]
    }

    /** Everything startup insists on. */
    predicate Acceptable()
      reads this
    {
      && 1 <= reseedMs <= MAX_RESEED_MS
      && 1 <= refreshRateMs <= MAX_MILLISECONDS && 1 <= refreshColorMs <= MAX_MILLISECONDS
      && 1 <= pageRefreshMs <= MAX_MILLISECONDS && 0 <= maxReseedAgeMs <= MAX_MILLISECONDS
      && MIN_RESEED_BYTES <= reseedSize <= MAX_RESEED_BYTES
      && 1 <= maxBytes <= MAX_SAMPLE_BYTES && 1 <= maxWords && 1 <= bytesFingerprint <= MAX_SAMPLE_BYTES
      && 1 <= wsMaxConnections && 1 <= wsMemoryMiB <= MAX_MIB
      && 1 <= httpMaxRequests && 1 <= httpMemoryMiB <= MAX_MIB
      && (generator == "chacha20" || generator == "aes-256-ctr")
    }

    method ValidateTiming() returns (error: Option<ConfigError>)
      ensures error == None <==> forall i :: 0 <= i < 5 ==> Timings()[i].min <= Timings()[i].value <= Timings()[i].max
      ensures error == None <==>
                && 1 <= reseedMs <= 60_000 && 1 <= refreshRateMs <= 9_223_372_036_854
                && 1 <= refreshColorMs <= 9_223_372_036_854 && 1 <= pageRefreshMs <= 9_223_372_036_854
                && 0 <= maxReseedAgeMs <= 9_223_372_036_854
      ensures error.Some? ==>
                && error.value.BadTiming? && error.value.field < 5
                && var t := Timings()[error.value.field]; !(t.min <= t.value <= t.max)
    {
      var fields := Timings();
      TimingsAre(fields);
      for i := 0 to |fields|
        invariant forall k :: 0 <= k < i ==> fields[k].min <= fields[k].value <= fields[k].max
      {
        if fields[i].value < fields[i].min || fields[i].value > fields[i].max {
          return Some(BadTiming(i));
        }
      }
      return None;
    }

    /** Accepts exactly the acceptable configurations, resolving the readiness age when it was left at zero. */
    method Validate() returns (error: Option<ConfigError>)
      modifies this`maxReseedAgeMs
      ensures error == None <==> old(Acceptable())
      ensures error == None <==> old(
                && 1 <= reseedMs <= 60_000 && 1 <= refreshRateMs <= 9_223_372_036_854
                && 1 <= refreshColorMs <= 9_223_372_036_854 && 1 <= pageRefreshMs <= 9_223_372_036_854
                && 0 <= maxReseedAgeMs <= 9_223_372_036_854
                && 32 <= reseedSize <= 0x10_0000 && 1 <= maxBytes <= 33_554_432 && 1 <= maxWords
                && 1 <= bytesFingerprint <= 33_554_432
                && 1 <= wsMaxConnections && 1 <= wsMemoryMiB <= 8_796_093_022_207
                && 1 <= httpMaxRequests && 1 <= httpMemoryMiB <= 8_796_093_022_207
                && (generator == "chacha20" || generator == "aes-256-ctr"))
      ensures match error
              case None => true
              case Some(BadTiming(field)) =>
                field < 5 && var t := old(Timings())[field]; !(t.min <= t.value <= t.max)
              case Some(BadReseedSize) => !(32 <= reseedSize <= 0x10_0000)
              case Some(BadMaxBytes) => !(1 <= maxBytes <= 33_554_432)
              case Some(BadWords) => maxWords < 1
              case Some(BadFingerprint) => !(1 <= bytesFingerprint <= 33_554_432)
              case Some(BadWebSocketLimits) => wsMaxConnections < 1 || !(1 <= wsMemoryMiB <= 8_796_093_022_207)
              case Some(BadHttpLimits) => httpMaxRequests < 1 || !(1 <= httpMemoryMiB <= 8_796_093_022_207)
              case Some(UnknownGenerator) => generator != "chacha20" && generator != "aes-256-ctr"
      ensures error == None ==> Acceptable() && maxReseedAgeMs > 0
      ensures maxReseedAgeMs
           == if error == None && old(maxReseedAgeMs) == 0 then Max(1000, 4 * reseedMs) else old(maxReseedAgeMs)
    {
      error := ValidateTiming();
      TimingsAre(Timings());
      if error.Some? {
        return;
      }
      if reseedSize < MIN_RESEED_BYTES || reseedSize > MAX_RESEED_BYTES {
        return Some(BadReseedSize);
      }
      if maxBytes < 1 || maxBytes > MAX_SAMPLE_BYTES {
        return Some(BadMaxBytes);
      }
      if maxWords < 1 {
        return Some(BadWords);
      }
      if bytesFingerprint < 1 || bytesFingerprint > MAX_SAMPLE_BYTES {
        return Some(BadFingerprint);
      }
      if wsMaxConnections < 1 || wsMemoryMiB < 1 || wsMemoryMiB > MAX_INT64 / MIB {
        return Some(BadWebSocketLimits);
      }
      if httpMaxRequests < 1 || httpMemoryMiB < 1 || httpMemoryMiB > MAX_INT64 / MIB {
        return Some(BadHttpLimits);
      }
      if generator != "chacha20" && generator != "aes-256-ctr" {
        return Some(UnknownGenerator);
      }
      if maxReseedAgeMs == 0 {
        maxReseedAgeMs := Max(1000, 4 * reseedMs);
      }
      return None;
    }
  }

  lemma TimingsAre(t: seq<Timing>)
    requires |t| == 5
    ensures (forall i :: 0 <= i < 5 ==> t[i].min <= t[i].value <= t[i].max)
       <==> (&& t[0].min <= t[0].value <= t[0].max && t[1].min <= t[1].value <= t[1].max
             && t[2].min <= t[2].value <= t[2].max && t[3].min <= t[3].value <= t[3].max
             && t[4].min <= t[4].value <= t[4].max)
  {
  }

  /** The byte budget a validated configuration asks for: it does not wrap and stays below the saturated reservation. */
  lemma BudgetBytesFit(mib: int64)
    requires 1 <= mib <= MAX_MIB
    ensures Wrap(mib * MIB) == mib * MIB
    ensures 0 < mib * MIB < MAX_INT64
  {
    assert MAX_MIB * MIB < MAX_INT64;
    WrapIsIdentity(mib * MIB);
  }

  /**
   Under any validated memory budget and in any state of it, a saturated reservation is refused
   as too large, and an exact one is so refused precisely when it exceeds the budget.
   */
  lemma SaturatedIsTooLarge(mib: int64, c: Counters, quantity: int64, perItem: int64)
    requires 1 <= mib <= MAX_MIB && c.maxMemory == mib * MIB
    ensures Decide(c, HttpReservation(quantity, perItem)).TooLarge?
       <==> quantity < 1 || perItem < 1 || BASE_MEMORY + quantity * perItem > c.maxMemory
    ensures HttpReservation(quantity, perItem) == MAX_INT64 ==> Decide(c, HttpReservation(quantity, perItem)).TooLarge?
    ensures perItem != 0 ==> WsReservation(quantity, perItem) == HttpReservation(quantity, perItem)
  {
    BudgetBytesFit(mib);
    ReservationsAreExactOrSaturated(quantity, perItem);
  }

  /** Startup: the two budgets of an acceptable configuration, its MiB turned into bytes in 64-bit arithmetic. */
  method NewBudgets(cfg: Config) returns (ws: WebSocketBudget, http: HttpRequestBudget)
    requires cfg.Acceptable()
    ensures fresh(ws) && ws.Valid() && ws.Usage() == New(cfg.wsMaxConnections, cfg.wsMemoryMiB * 0x10_0000)
    ensures fresh(http) && http.Valid() && http.Usage() == New(cfg.httpMaxRequests, cfg.httpMemoryMiB * 0x10_0000)
    ensures ws.maxConnections == cfg.wsMaxConnections && ws.maxMemory == cfg.wsMemoryMiB * 0x10_0000
    ensures http.maxRequests == cfg.httpMaxRequests && http.maxMemory == cfg.httpMemoryMiB * 0x10_0000
    ensures ws.active == ws.reserved == http.active == http.reserved == 0
  {
    BudgetBytesFit(cfg.wsMemoryMiB);
    BudgetBytesFit(cfg.httpMemoryMiB);
    ws := new WebSocketBudget(cfg.wsMaxConnections, Wrap(cfg.wsMemoryMiB * MIB));
    http := new HttpRequestBudget(cfg.httpMaxRequests, Wrap(cfg.httpMemoryMiB * MIB));
  }

  /**
   From an acceptable configuration, after any run of its two budgets: each refuses a reservation
   as too large exactly when the exact amount exceeds its memory, so always when it saturated, and
   open leases of s bytes each never add up to more than that memory.
   */
  lemma ValidatedBudgets(cfg: Config, http: bool, actions: seq<Action>, quantity: int64, perItem: int64, s: nat)
    requires cfg.Acceptable()
    ensures var limit, memory := if http then cfg.httpMaxRequests else cfg.wsMaxConnections,
                                 (if http then cfg.httpMemoryMiB else cfg.wsMemoryMiB) * 0x10_0000;
            var w := Run(limit, memory, actions);
            && (Decide(w.counters, HttpReservation(quantity, perItem)).TooLarge?
                <==> quantity < 1 || perItem < 1 || 65536 + quantity * perItem > memory)
            && (perItem != 0 ==> WsReservation(quantity, perItem) == HttpReservation(quantity, perItem))
            && (HttpReservation(quantity, perItem) == MAX_INT64 ==>
                  Decide(w.counters, HttpReservation(quantity, perItem)).TooLarge?)
            && OpenTotal(w.leases) <= memory
            && ((forall i :: 0 <= i < |w.leases| && w.leases[i].open ==> w.leases[i].size >= s) ==>
                  OpenCount(w.leases) * s <= memory)
  {
    var limit, mib := if http then cfg.httpMaxRequests else cfg.wsMaxConnections,
                      if http then cfg.httpMemoryMiB else cfg.wsMemoryMiB;
    var memory := mib * 0x10_0000;
    hide HttpReservation, WsReservation, Wrap, Decide, Run, OpenTotal, OpenCount, WsByteReservation;
    BudgetBytesFit(mib);
    RunKeepsInv(limit, memory, actions);
    var w := Run(limit, memory, actions);
    SaturatedIsTooLarge(mib, w.counters, quantity, perItem);
    if forall i :: 0 <= i < |w.leases| && w.leases[i].open ==> w.leases[i].size >= s {
      LeasesFitMemory(limit, memory, actions, s);
    }
  }

  /**
   In the same runs, k open leases of JSON frames of q bytes satisfy k (65536 + 16 q) <= memory, and
   of raw frames k (65536 + q) <= memory.
   */
  lemma OpenFramesFit(cfg: Config, actions: seq<Action>, quantity: int64)
    requires cfg.Acceptable() && quantity >= 1
    ensures var memory := cfg.wsMemoryMiB * 0x10_0000;
            var leases := Run(cfg.wsMaxConnections, memory, actions).leases;
            && ((forall i :: 0 <= i < |leases| && leases[i].open ==>
                   leases[i].size == WsByteReservation(quantity, true)) ==>
                  OpenCount(leases) * (65536 + 16 * quantity) <= memory)
            && ((forall i :: 0 <= i < |leases| && leases[i].open ==>
                   leases[i].size == WsByteReservation(quantity, false)) ==>
                  OpenCount(leases) * (65536 + quantity) <= memory)
  {
    hide Run, OpenTotal, OpenCount, WsByteReservation, Inv;
    var memory := cfg.wsMemoryMiB * 0x10_0000;
    BudgetBytesFit(cfg.wsMemoryMiB);
    RunKeepsInv(cfg.wsMaxConnections, memory, actions);
    FrameReservations(quantity);
    var w := Run(cfg.wsMaxConnections, memory, actions);
    LeasesOfOneSizeFit(w, WsByteReservation(quantity, true), 65536 + 16 * quantity);
    LeasesOfOneSizeFit(w, WsByteReservation(quantity, false), 65536 + quantity);
  }

  /** Open leases that all reserved an exact or saturated amount: of the saturated ones there are none. */
  lemma LeasesOfOneSizeFit(w: World, size: nat, exact: nat)
    requires Inv(w) && 0 < w.counters.maxMemory < MAX_INT64
    requires size == if exact > MAX_INT64 then MAX_INT64 else exact
    ensures (forall i :: 0 <= i < |w.leases| && w.leases[i].open ==> w.leases[i].size == size) ==>
              OpenCount(w.leases) * exact <= w.counters.maxMemory
  {
    if forall i :: 0 <= i < |w.leases| && w.leases[i].open ==> w.leases[i].size == size {
      TotalAtLeast(w.leases, size);
      if exact > MAX_INT64 {
        NoneFit(OpenCount(w.leases), MAX_INT64, OpenTotal(w.leases));
      }
    }
  }

  lemma NoneFit(k: nat, size: nat, total: int)
    requires k * size <= total < size
    ensures k == 0
  {
  }
}
