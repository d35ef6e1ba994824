/**
 The functions of msm/sde_cesta.c in place: loops over the client list in 64-bit arithmetic, and a client's
 state and stored request rewritten by an update.
 */
module CestaDriver {
  import opened CestaModel
  import opened CestaAdmission

  lemma WrapAdd(x: nat, y: nat)
    ensures (x % U64 + y) % U64 == (x + y) % U64
  {
    assert x == U64 * (x / U64) + x % U64;
    WrapMany(x % U64 + y, x / U64);
  }

  lemma {:induction false} WrapMany(x: nat, m: nat)
    ensures (x + U64 * m) % U64 == x % U64
  {
    if m > 0 {
      WrapMany(x, m - 1);
      assert (x + U64 * (m - 1) + U64) % U64 == (x + U64 * (m - 1)) % U64;
    }
  }

  lemma AsksForIb(cfg: Config, clients: seq<Client>, k: nat, p: Params, reserved: bool)
    requires k < |clients|
    ensures var bwAb, limit := p.data.bwAb + SumBw(clients, k, |clients|), cfg.maxBwKbps * 1000;
      UpdateRequired(clients[k], p) && NoWrap(clients, k, p) && bwAb * 100 < U64 && Admits(cfg, clients, k, p, reserved)
      ==> bwAb <= limit && forall ib: nat :: IsIb(cfg, bwAb, ib) ==> ib <= limit
  {
    hide IsIb, DerivedIb, SumBw, SumClk, MaxIb;
    var bwAb := p.data.bwAb + SumBw(clients, k, |clients|);
    if bwAb * 100 < U64 {
      FitsHundredfold(cfg, bwAb);
      Unwrapped(bwAb);
    }
  }

  // The update replaces the request's IB by the derived one.
  predicate Derives(cfg: Config, c: Client, p: Params) {
    !p.postCommit && UpdateRequired(c, p) && p.enable && !p.maxVote && cfg.channels != 0 && cfg.efficiency != 0
  }

  lemma RequestedIb(cfg: Config, clients: seq<Client>, k: nat, p: Params)
    requires k < |clients|
    ensures var q, bwAb := Requested(cfg, clients, k, p), p.data.bwAb + SumBw(clients, k, |clients|);
      && q == p.(data := p.data.(bwIb := q.data.bwIb))
      && (Derives(cfg, clients[k], p) && bwAb * 100 < U64 ==> IsIb(cfg, bwAb, q.data.bwIb))
      && (!Derives(cfg, clients[k], p) ==> q == p)
  {
    hide IsIb, DerivedIb, SumBw;
    var bwAb := p.data.bwAb + SumBw(clients, k, |clients|);
    if bwAb * 100 < U64 {
      FitsHundredfold(cfg, bwAb);
      Unwrapped(bwAb);
    }
  }

  class Cesta {
    const cfg: Config
    var clients: seq<Client>

    // the IB vote calculation
    method Ib(bwAb: nat) returns (bwIb: nat)
      ensures bwIb == DerivedIb(cfg, bwAb)
    {
      bwIb := 0;
      if cfg.channels != 0 && cfg.efficiency != 0 {
        bwIb := (bwAb / cfg.channels * 100) % U64 / cfg.efficiency;
      }
    }

    // sde_cesta_clk_bw_check
    method ClkBwCheck(k: nat, p: Params, reserved: bool) returns (ok: bool)
      requires k < |clients|
      ensures ok == Admits(cfg, clients, k, p, reserved)
      ensures var bwAb, limit := p.data.bwAb + SumBw(clients, k, |clients|), cfg.maxBwKbps * 1000;
        UpdateRequired(clients[k], p) && NoWrap(clients, k, p) && bwAb * 100 < U64 && ok
        ==> bwAb <= limit && forall ib: nat :: IsIb(cfg, bwAb, ib) ==> ib <= limit
    {
      if !UpdateRequired(clients[k], p) { return true; }
      var bwAb, clkAb, clkIb := p.data.bwAb % U64, p.data.clkAb % U64, p.data.clkIb;
      var i := 0;
      while i < |clients|
        invariant i <= |clients|
        invariant bwAb == (p.data.bwAb + SumBw(clients, k, i)) % U64
        invariant clkAb == (p.data.clkAb + SumClk(clients, k, i)) % U64
        invariant clkIb == Max(p.data.clkIb, MaxIb(clients, k, i))
      {
        if clients[i].enabled && i != k {
          WrapAdd(p.data.bwAb + SumBw(clients, k, i), clients[i].hw.bwAb);
          WrapAdd(p.data.clkAb + SumClk(clients, k, i), clients[i].hw.clkAb);
          bwAb := (bwAb + clients[i].hw.bwAb) % U64;
          clkAb := (clkAb + clients[i].hw.clkAb) % U64;
          clkIb := Max(clkIb, clients[i].hw.clkIb);
        }
        i := i + 1;
      }
      var bwIb := Ib(bwAb);
      AsksForIb(cfg, clients, k, p, reserved);
      if Max(bwAb, bwIb) > cfg.maxBwKbps * 1000 { return false; }
      if Max(clkAb, clkIb) > cfg.maxCoreClk { return false; }
      return reserved;
    }

    // sde_cesta_clk_bw_update_helper
    method UpdateHelper(k: nat, p: Params)
      requires k < |clients|
      modifies this
      ensures clients == old(clients)[k := Vote(old(clients)[k], p)]
    {
      var c := clients[k];
      if c.state == Up || (c.state == Down && !p.enable) {
        c := c.(active := p.data);
      } else if p.postCommit && (c.state == BwUpClkDown || c.state == ClkUpBwDown || c.state == Down) {
        c := c.(override := true);
        c := c.(active := c.hw);
      } else if c.state == ClkUpBwDown {
        c := c.(active := Data(p.data.clkAb, p.data.clkIb, c.hw.bwAb, c.hw.bwIb));
      } else if c.state == BwUpClkDown {
        c := c.(active := Data(c.hw.clkAb, c.hw.clkIb, p.data.bwAb, p.data.bwIb));
      }
      clients := clients[k := c];
    }

    // the code after skip_calc
    method Finish(k: nat, p: Params)
      requires k < |clients|
      modifies this
      ensures clients == old(clients)[k := Place(old(clients)[k], p, old(clients)[k].state)]
    {
      clients := clients[k := clients[k].(override := p.override, enabled := p.enable)];
      UpdateHelper(k, p);
      clients := clients[k := clients[k].(hw := p.data)];
    }

    // sde_cesta_clk_bw_update; q is the request as the update leaves it
    method ClkBwUpdate(k: nat, p: Params) returns (q: Params)
      requires k < |clients|
      modifies this
      ensures q == Requested(cfg, old(clients), k, p)
      ensures clients == Update(cfg, old(clients), k, p)
      ensures q == p.(data := p.data.(bwIb := q.data.bwIb))
      ensures var bwAb := p.data.bwAb + SumBw(old(clients), k, |old(clients)|);
        Derives(cfg, old(clients)[k], p) && bwAb * 100 < U64 ==> IsIb(cfg, bwAb, q.data.bwIb)
      ensures !Derives(cfg, old(clients)[k], p) ==> q == p
    {
      hide Vote, SumBw, DerivedIb, Compare, Combine, BwPeak, IsIb, Derives;
      RequestedIb(cfg, clients, k, p);
      q := p;
      var c := clients[k];
      if p.postCommit {
        if c.state == BwUpClkDown || c.state == ClkUpBwDown || c.state == Down {
          Finish(k, p);
        }
        return;
      }
      if !UpdateRequired(c, p) {
        if (c.override && !p.override) || p.override {
          clients := clients[k := c.(state := Up)];
          Finish(k, p);
        } else {
          clients := clients[k := c.(state := NoChange)];
        }
        return;
      }
      var clkVote := Compare(ClkPeak(p.data), ClkPeak(c.hw));
      var bwAb := SummedBw(k, p.data.bwAb);
      if !p.maxVote && p.enable && cfg.channels != 0 && cfg.efficiency != 0 {
        var bwIb := Ib(bwAb);
        q := p.(data := p.data.(bwIb := bwIb));
      }
      var bwVote := Compare(BwPeak(q.data), BwPeak(c.hw));
      clients := clients[k := c.(state := Combine(bwVote, clkVote))];
      Finish(k, q);
    }

    // the bandwidth loop of the update
    method SummedBw(k: nat, start: nat) returns (bwAb: nat)
      requires k < |clients|
      ensures bwAb == (start + SumBw(clients, k, |clients|)) % U64
    {
      bwAb := start % U64;
      var i := 0;
      while i < |clients|
        invariant i <= |clients| && bwAb == (start + SumBw(clients, k, i)) % U64
      {
        if clients[i].enabled && i != k {
          WrapAdd(start + SumBw(clients, k, i), clients[i].hw.bwAb);
          bwAb := (bwAb + clients[i].hw.bwAb) % U64;
        }
        i := i + 1;
      }
    }

    // sde_cesta_get_core_clk_rate, before rounding
    method GetCoreClkRate() returns (rate: nat)
      ensures rate == Max(SumClk(clients, |clients|, |clients|) % U64, MaxIb(clients, |clients|, |clients|))
      ensures ConfigFits(cfg) && Within(cfg, clients) ==> rate <= cfg.maxCoreClk
    {
      var clkAb, clkIb := 0, 0;
      var i := 0;
      while i < |clients|
        invariant i <= |clients|
        invariant clkAb == SumClk(clients, |clients|, i) % U64 && clkIb == MaxIb(clients, |clients|, i)
      {
        if clients[i].enabled {
          WrapAdd(SumClk(clients, |clients|, i), clients[i].hw.clkAb);
          clkAb := (clkAb + clients[i].hw.clkAb) % U64;
          clkIb := Max(clkIb, clients[i].hw.clkIb);
        }
        i := i + 1;
      }
      rate := Max(clkAb, clkIb);
    }
  }
}
