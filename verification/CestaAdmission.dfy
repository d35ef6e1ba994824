/**
 Admission control: when enabling updates follow a successful check of the same request, the enabled
 clients' summed clocks and bandwidth, and the IB derived from the sum, stay within the limits.
 */
module CestaAdmission {
  import opened CestaModel

  // The limits leave room for the hundredfold scaling of the IB formula in 64 bits.
  ghost predicate ConfigFits(cfg: Config) {
    cfg.maxBwKbps * 1000 * 100 < U64 && cfg.maxCoreClk < U64
  }

  // The IB a summed AB asks for: a channel's share of it, in hundredths of the DRAM's efficiency, both rounded down.
  ghost predicate IsIb(cfg: Config, bwAb: nat, ib: nat) {
    if cfg.channels == 0 || cfg.efficiency == 0 then ib == 0
    else
      exists share: nat ::
        && share * cfg.channels <= bwAb < (share + 1) * cfg.channels
        && ib * cfg.efficiency <= share * 100 < (ib + 1) * cfg.efficiency
  }

  ghost predicate Within(cfg: Config, clients: seq<Client>) {
    var n := |clients|;
    && SumClk(clients, n, n) <= cfg.maxCoreClk && MaxIb(clients, n, n) <= cfg.maxCoreClk
    && SumBw(clients, n, n) <= cfg.maxBwKbps * 1000
    && forall ib: nat :: IsIb(cfg, SumBw(clients, n, n), ib) ==> ib <= cfg.maxBwKbps * 1000
  }

  // The sums the check forms for request p of client k do not wrap.
  ghost predicate NoWrap(clients: seq<Client>, k: nat, p: Params) {
    var n := |clients|;
    p.data.bwAb + SumBw(clients, k, n) < U64 && p.data.clkAb + SumClk(clients, k, n) < U64
  }

  // Client d asks for what request p asks for, as far as the limits are concerned.
  ghost predicate AsksFor(d: Client, p: Params) {
    && d.enabled == p.enable
    && d.hw.clkAb == p.data.clkAb && d.hw.clkIb == p.data.clkIb && d.hw.bwAb == p.data.bwAb
  }

  // ----- Sums -----

  // Putting d in the place of client k splits every sum into the others' and d's.
  lemma {:induction false} SumsSplit(clients: seq<Client>, k: nat, d: Client, n: nat)
    requires k < |clients| && n <= |clients|
    ensures var after := clients[k := d];
      var on := d.enabled && k < n;
      && SumBw(after, |clients|, n) == SumBw(clients, k, n) + (if on then d.hw.bwAb else 0)
      && SumClk(after, |clients|, n) == SumClk(clients, k, n) + (if on then d.hw.clkAb else 0)
      && MaxIb(after, |clients|, n) == Max(MaxIb(clients, k, n), if on then d.hw.clkIb else 0)
  {
    if n > 0 {
      SumsSplit(clients, k, d, n - 1);
    }
  }

  lemma OthersLess(clients: seq<Client>, k: nat)
    requires k < |clients|
    ensures var n := |clients|;
      && SumBw(clients, k, n) <= SumBw(clients, n, n) && SumClk(clients, k, n) <= SumClk(clients, n, n)
      && MaxIb(clients, k, n) <= MaxIb(clients, n, n)
  {
    SumsSplit(clients, k, clients[k], |clients|);
    assert clients[k := clients[k]] == clients;
  }

  lemma MulGrows(x: int, y: int, d: int)
    requires x <= y && d >= 0
    ensures x * d <= y * d
  {
    assert (y - x) * d >= 0;
    assert (y - x) * d == y * d - x * d;
  }

  lemma DivMod(a: nat, d: nat)
    requires d > 0
    ensures a == d * (a / d) + a % d && 0 <= a % d < d
  {
  }

  lemma {:induction false} QuotientGrows(a: nat, b: nat, d: nat)
    requires a <= b && d > 0
    ensures a / d <= b / d
  {
    if a / d > b / d {
      DivMod(a, d);
      DivMod(b, d);
      MulGrows(b / d + 1, a / d, d);
    }
  }

  lemma {:induction false} QuotientLess(b: nat, d: nat)
    requires d > 0
    ensures 0 <= b / d <= b
  {
    DivMod(b, d);
    MulGrows(1, d, b / d);
  }

  lemma QuotientIs(a: nat, d: nat, q: nat)
    requires d > 0
    ensures q * d <= a < (q + 1) * d <==> q == a / d
  {
    DivMod(a, d);
    if q < a / d {
      MulGrows(q + 1, a / d, d);
    } else if q > a / d {
      MulGrows(a / d + 1, q, d);
    }
  }

  /** The IB that the code derives is the one the AB asks for, and no other, as long as a hundred times a channel's share
      fits 64 bits. */
  lemma DerivedIsIb(cfg: Config, bwAb: nat, ib: nat)
    requires cfg.channels != 0 ==> bwAb / cfg.channels * 100 < U64
    ensures IsIb(cfg, bwAb, ib) <==> ib == DerivedIb(cfg, bwAb)
  {
    if cfg.channels != 0 && cfg.efficiency != 0 {
      var share := bwAb / cfg.channels;
      Unwrapped(share * 100);
      QuotientIs(bwAb, cfg.channels, share);
      QuotientIs(share * 100, cfg.efficiency, ib);
      forall q: nat | q * cfg.channels <= bwAb < (q + 1) * cfg.channels ensures q == share {
        QuotientIs(bwAb, cfg.channels, q);
      }
    }
  }

  lemma FitsHundredfold(cfg: Config, bwAb: nat)
    requires bwAb * 100 < U64
    ensures cfg.channels != 0 ==> bwAb / cfg.channels * 100 < U64
    ensures forall ib: nat :: IsIb(cfg, bwAb, ib) <==> ib == DerivedIb(cfg, bwAb)
  {
    if cfg.channels != 0 {
      QuotientLess(bwAb, cfg.channels);
    }
    forall ib: nat {
      DerivedIsIb(cfg, bwAb, ib);
    }
  }

  // Without wrap-around the derived IB grows with the AB.
  lemma {:induction false} DerivedGrows(cfg: Config, a: nat, b: nat)
    requires a <= b && b * 100 < U64
    ensures DerivedIb(cfg, a) <= DerivedIb(cfg, b)
  {
    if cfg.channels != 0 && cfg.efficiency != 0 {
      QuotientGrows(a, b, cfg.channels);
      QuotientLess(b, cfg.channels);
      Unwrapped(a / cfg.channels * 100);
      Unwrapped(b / cfg.channels * 100);
      QuotientGrows(a / cfg.channels * 100, b / cfg.channels * 100, cfg.efficiency);
    }
  }

  lemma Unwrapped(x: nat)
    requires x < U64
    ensures x % U64 == x
  {
  }

  // ----- One request -----

  // A sum within its limit after wrapping is within it before exactly when it did not wrap.
  lemma WrapsOver(x: nat, limit: nat)
    requires limit < U64 && x % U64 <= limit
    ensures x <= limit <==> x < U64
  {
    if x < U64 {
      Unwrapped(x);
    }
  }

  /** A request that the check admits keeps the limits exactly when the check's own sums do not wrap. */
  lemma {:induction false} AdmittedWithinIff(cfg: Config, clients: seq<Client>, k: nat, p: Params, reserved: bool, d: Client)
    requires k < |clients| && ConfigFits(cfg) && p.enable && UpdateRequired(clients[k], p)
    requires Admits(cfg, clients, k, p, reserved) && AsksFor(d, p)
    ensures Within(cfg, clients[k := d]) <==> NoWrap(clients, k, p)
  {
    hide SumBw, SumClk, MaxIb, DerivedIb;
    var n := |clients|;
    SumsSplit(clients, k, d, n);
    var bw, clk := p.data.bwAb + SumBw(clients, k, n), p.data.clkAb + SumClk(clients, k, n);
    WrapsOver(clk, cfg.maxCoreClk);
    WrapsOver(bw, cfg.maxBwKbps * 1000);
    if bw < U64 {
      Unwrapped(bw);
      FitsHundredfold(cfg, bw);
    }
  }

  lemma {:induction false} SameWithin(cfg: Config, clients: seq<Client>, k: nat, d: Client)
    requires k < |clients| && Within(cfg, clients)
    requires d.enabled == clients[k].enabled && d.hw.clkAb == clients[k].hw.clkAb
    requires d.hw.clkIb == clients[k].hw.clkIb && d.hw.bwAb == clients[k].hw.bwAb
    ensures Within(cfg, clients[k := d])
  {
    SumsSplit(clients, k, d, |clients|);
    SumsSplit(clients, k, clients[k], |clients|);
    assert clients[k := clients[k]] == clients;
  }

  /** Switching a client off needs no check. */
  lemma {:induction false} DisabledWithin(cfg: Config, clients: seq<Client>, k: nat, d: Client)
    requires k < |clients| && ConfigFits(cfg) && Within(cfg, clients) && !d.enabled
    ensures Within(cfg, clients[k := d])
  {
    hide IsIb, DerivedIb, SumBw, SumClk, MaxIb;
    var n := |clients|;
    SumsSplit(clients, k, d, n);
    OthersLess(clients, k);
    DerivedGrows(cfg, SumBw(clients, k, n), SumBw(clients, n, n));
    FitsHundredfold(cfg, SumBw(clients, k, n));
    FitsHundredfold(cfg, SumBw(clients, n, n));
    assert IsIb(cfg, SumBw(clients, n, n), DerivedIb(cfg, SumBw(clients, n, n)));
  }

  // ----- Runs -----

  datatype Step =
    | Change(k: nat, p: Params, reserved: bool)   // check, and update if it succeeds
    | Off(k: nat, p: Params)                      // update without a check
    | Post(k: nat, p: Params)                     // update after the commit, repeating the request

  ghost predicate Allowed(cfg: Config, clients: seq<Client>, step: Step) {
    match step
    case Change(k, p, reserved) =>
      k < |clients| && p.enable && !p.postCommit && NoWrap(clients, k, p) && Admits(cfg, clients, k, p, reserved)
    case Off(k, p) => k < |clients| && !p.enable && !p.postCommit
    case Post(k, p) => k < |clients| && p.postCommit && AsksFor(clients[k], p)
  }

  ghost function Next(cfg: Config, clients: seq<Client>, step: Step): seq<Client> {
    if Allowed(cfg, clients, step) then Update(cfg, clients, step.k, step.p) else clients
  }

  ghost function Run(cfg: Config, clients: seq<Client>, steps: seq<Step>): seq<Client> {
    if steps == [] then clients
    else Next(cfg, Run(cfg, clients, steps[..|steps| - 1]), steps[|steps| - 1])
  }

  lemma UpdateAsks(cfg: Config, clients: seq<Client>, k: nat, p: Params)
    requires k < |clients| && (p.postCommit ==> AsksFor(clients[k], p))
    ensures AsksFor(Update(cfg, clients, k, p)[k], p)
  {
  }

  lemma NextKeeps(cfg: Config, clients: seq<Client>, step: Step)
    requires ConfigFits(cfg) && Within(cfg, clients)
    ensures Within(cfg, Next(cfg, clients, step))
  {
    hide Within, Admits, PreCommit, PostCommit, Requested, NoWrap;
    if Allowed(cfg, clients, step) {
      var k, p := step.k, step.p;
      var d := Update(cfg, clients, k, p)[k];
      UpdateAsks(cfg, clients, k, p);
      assert Update(cfg, clients, k, p) == clients[k := d];
      if step.Off? {
        DisabledWithin(cfg, clients, k, d);
      } else if step.Post? || !UpdateRequired(clients[k], p) {
        SameWithin(cfg, clients, k, d);
      } else {
        AdmittedWithinIff(cfg, clients, k, p, step.reserved, d);
      }
    }
  }

  /** Over every run of checked changes, switch-offs and repeated requests, the limits hold. */
  lemma {:induction false} LimitsHold(cfg: Config, clients: seq<Client>, steps: seq<Step>)
    requires ConfigFits(cfg) && forall i :: 0 <= i < |clients| ==> !clients[i].enabled
    ensures Within(cfg, Run(cfg, clients, steps))
  {
    if steps == [] {
      NoneEnabled(clients, |clients|);
      DerivedZero(cfg);
      FitsHundredfold(cfg, 0);
    } else {
      LimitsHold(cfg, clients, steps[..|steps| - 1]);
      NextKeeps(cfg, Run(cfg, clients, steps[..|steps| - 1]), steps[|steps| - 1]);
    }
  }

  lemma DerivedZero(cfg: Config)
    ensures DerivedIb(cfg, 0) == 0
  {
    if cfg.channels != 0 && cfg.efficiency != 0 {
      assert 0 / cfg.channels == 0 && 0 / cfg.efficiency == 0;
    }
  }

  lemma {:induction false} NoneEnabled(clients: seq<Client>, n: nat)
    requires n <= |clients| && forall i :: 0 <= i < |clients| ==> !clients[i].enabled
    ensures SumBw(clients, |clients|, n) == SumClk(clients, |clients|, n) == MaxIb(clients, |clients|, n) == 0
  {
    if n > 0 {
      NoneEnabled(clients, n - 1);
    }
  }

  /** Nothing wraps: the check admits an update exactly if the sums with the other enabled clients, the IB these ask for
      and the largest clock are within the limits, and the clock can be reserved. */
  lemma AdmitsIff(cfg: Config, clients: seq<Client>, k: nat, p: Params, reserved: bool, ib: nat)
    requires k < |clients| && UpdateRequired(clients[k], p) && NoWrap(clients, k, p)
    requires (p.data.bwAb + SumBw(clients, k, |clients|)) * 100 < U64
    requires IsIb(cfg, p.data.bwAb + SumBw(clients, k, |clients|), ib)
    ensures var n := |clients|;
      Admits(cfg, clients, k, p, reserved) <==>
        && p.data.bwAb + SumBw(clients, k, n) <= cfg.maxBwKbps * 1000 && ib <= cfg.maxBwKbps * 1000
        && p.data.clkAb + SumClk(clients, k, n) <= cfg.maxCoreClk
        && p.data.clkIb <= cfg.maxCoreClk && MaxIb(clients, k, n) <= cfg.maxCoreClk
        && reserved
  {
    hide IsIb, DerivedIb, SumBw, SumClk, MaxIb;
    var n := |clients|;
    FitsHundredfold(cfg, p.data.bwAb + SumBw(clients, k, n));
    Unwrapped(p.data.bwAb + SumBw(clients, k, n));
    Unwrapped(p.data.clkAb + SumClk(clients, k, n));
  }

  /** What the sums are over: the enabled clients other than k.  Each of them counts, and nothing else does. */
  lemma {:induction false} SumsCount(clients: seq<Client>, k: nat, n: nat, i: nat)
    requires i < n <= |clients|
    ensures var without := clients[i := clients[i].(enabled := false)];
      var on := clients[i].enabled && i != k;
      && SumBw(clients, k, n) == SumBw(without, k, n) + (if on then clients[i].hw.bwAb else 0)
      && SumClk(clients, k, n) == SumClk(without, k, n) + (if on then clients[i].hw.clkAb else 0)
      && MaxIb(clients, k, n) == Max(MaxIb(without, k, n), if on then clients[i].hw.clkIb else 0)
  {
    var without := clients[i := clients[i].(enabled := false)];
    if i < n - 1 {
      SumsCount(clients, k, n - 1, i);
    } else {
      SamePrefix(clients, without, k, n - 1);
    }
  }

  lemma {:induction false} SamePrefix(a: seq<Client>, b: seq<Client>, k: nat, n: nat)
    requires n <= |a| && |a| == |b| && a[..n] == b[..n]
    ensures SumBw(a, k, n) == SumBw(b, k, n) && SumClk(a, k, n) == SumClk(b, k, n) && MaxIb(a, k, n) == MaxIb(b, k, n)
  {
    if n > 0 {
      assert a[..n - 1] == a[..n][..n - 1] && a[n - 1] == a[..n][n - 1] == b[n - 1];
      assert b[..n - 1] == b[..n][..n - 1];
      SamePrefix(a, b, k, n - 1);
    }
  }

  // A request so large that its sum wraps is admitted and breaks the limits.
  lemma WrappedIsAdmitted()
    ensures
      var cfg := Config(0, 0, 1, 1);
      var on := Client(Data(0, 0, 1, 0), true, false, NoChange, Data(0, 0, 1, 0));
      var p := Params(Data(0, 0, U64 - 1, 0), true, false, false, false);
      var clients := [on, on.(enabled := false)];
      && ConfigFits(cfg) && Within(cfg, clients) && Admits(cfg, clients, 1, p, true)
      && !Within(cfg, Update(cfg, clients, 1, p))
  {
    var cfg := Config(0, 0, 1, 1);
    var on := Client(Data(0, 0, 1, 0), true, false, NoChange, Data(0, 0, 1, 0));
    var p := Params(Data(0, 0, U64 - 1, 0), true, false, false, false);
    var clients := [on, on.(enabled := false)];
    assert clients[0] == on && !clients[1].enabled;
    assert SumBw(clients, 2, 0) == SumBw(clients, 1, 0) == SumClk(clients, 2, 0) == SumClk(clients, 1, 0) == 0;
    assert MaxIb(clients, 2, 0) == MaxIb(clients, 1, 0) == 0;
    assert SumBw(clients, 2, 1) == SumBw(clients, 2, 2) == 1;
    assert SumBw(clients, 1, 1) == SumBw(clients, 1, 2) == 1 && SumClk(clients, 1, 1) == SumClk(clients, 1, 2) == 0;
    assert SumClk(clients, 2, 1) == SumClk(clients, 2, 2) == 0;
    assert MaxIb(clients, 2, 1) == MaxIb(clients, 2, 2) == MaxIb(clients, 1, 1) == MaxIb(clients, 1, 2) == 0;
    UpdateAsks(cfg, clients, 1, p);
    AdmittedWithinIff(cfg, clients, 1, p, true, Update(cfg, clients, 1, p)[1]);
  }
}
