/**
 Clock and bandwidth votes of msm/sde_cesta.c: the check that admits a request, and the update that turns
 it into votes before and after the commit.
 */
module CestaModel {

  const U64: nat := 0x1_0000_0000_0000_0000

  // struct sde_cesta_client_data
  datatype Data = Data(clkAb: nat, clkIb: nat, bwAb: nat, bwIb: nat)

  // struct sde_cesta_params
  datatype Params = Params(data: Data, enable: bool, postCommit: bool, override: bool, maxVote: bool)

  // enum sde_cesta_vote_state
  datatype VoteState = NoChange | Up | Down | BwUpClkDown | ClkUpBwDown

  // struct sde_cesta_client, with the vote last placed for its active power state
  datatype Client = Client(hw: Data, enabled: bool, override: bool, state: VoteState, active: Data)

  // The performance limits; channels and efficiency of 0 mean no IB is derived.
  datatype Config = Config(channels: nat, efficiency: nat, maxBwKbps: nat, maxCoreClk: nat)

  function Max(a: nat, b: nat): nat {
    if a < b then b else a
  }

  function ClkPeak(d: Data): nat {
    Max(d.clkAb, d.clkIb)
  }

  function BwPeak(d: Data): nat {
    Max(d.bwAb, d.bwIb)
  }

  // _sde_cesta_is_update_required
  predicate UpdateRequired(c: Client, p: Params) {
    || c.enabled != p.enable
    || p.data.clkAb != c.hw.clkAb || p.data.clkIb != c.hw.clkIb
    || p.data.bwAb != c.hw.bwAb
  }

  // ----- Sums over the enabled clients but client k (every enabled client when k is none of them) -----

  predicate Counts(clients: seq<Client>, k: nat, i: nat)
    requires i < |clients|
  {
    clients[i].enabled && i != k
  }

  function SumBw(clients: seq<Client>, k: nat, n: nat): nat
    requires n <= |clients|
  {
    if n == 0 then 0 else SumBw(clients, k, n - 1) + if Counts(clients, k, n - 1) then clients[n - 1].hw.bwAb else 0
  }

  function SumClk(clients: seq<Client>, k: nat, n: nat): nat
    requires n <= |clients|
  {
    if n == 0 then 0 else SumClk(clients, k, n - 1) + if Counts(clients, k, n - 1) then clients[n - 1].hw.clkAb else 0
  }

  function MaxIb(clients: seq<Client>, k: nat, n: nat): nat
    requires n <= |clients|
  {
    if n == 0 then 0 else Max(MaxIb(clients, k, n - 1), if Counts(clients, k, n - 1) then clients[n - 1].hw.clkIb else 0)
  }

  // The IB derived from a summed AB, as 64-bit arithmetic computes it.
  function DerivedIb(cfg: Config, bwAb: nat): nat {
    if cfg.channels == 0 || cfg.efficiency == 0 then 0
    else (bwAb / cfg.channels * 100) % U64 / cfg.efficiency
  }

  // ----- Admission -----

  // sde_cesta_clk_bw_check; `reserved` is the answer of the clock resource manager.
  predicate Admits(cfg: Config, clients: seq<Client>, k: nat, p: Params, reserved: bool)
    requires k < |clients|
  {
    !UpdateRequired(clients[k], p) ||
    var n := |clients|;
    var bwAb := (p.data.bwAb + SumBw(clients, k, n)) % U64;
    var clkAb := (p.data.clkAb + SumClk(clients, k, n)) % U64;
    && Max(bwAb, DerivedIb(cfg, bwAb)) <= cfg.maxBwKbps * 1000
    && Max(clkAb, Max(p.data.clkIb, MaxIb(clients, k, n))) <= cfg.maxCoreClk
    && reserved
  }

  // ----- Voting -----

  datatype Direction = Same | Raise | Lower

  function Compare(now: nat, before: nat): Direction {
    if now > before then Raise else if now < before then Lower else Same
  }

  function AsState(d: Direction): VoteState {
    match d
    case Same => NoChange
    case Raise => Up
    case Lower => Down
  }

  function Combine(bw: Direction, clk: Direction): VoteState {
    if bw == clk then AsState(bw)
    else if bw == Raise && clk == Lower then BwUpClkDown
    else if bw == Lower && clk == Raise then ClkUpBwDown
    else if bw != Same then AsState(bw)
    else AsState(clk)
  }

  // A vote that was put off, wholly or in part, until the commit is done.
  predicate Deferred(s: VoteState) {
    s == Down || s == BwUpClkDown || s == ClkUpBwDown
  }

  // The request with the IB that the update writes back into it.
  function WithIb(cfg: Config, clients: seq<Client>, k: nat, p: Params): Params
    requires k < |clients|
  {
    if !p.maxVote && p.enable && cfg.channels != 0 && cfg.efficiency != 0 then
      var bwAb := (p.data.bwAb + SumBw(clients, k, |clients|)) % U64;
      p.(data := p.data.(bwIb := DerivedIb(cfg, bwAb)))
    else p
  }

  // sde_cesta_clk_bw_update_helper
  function Vote(c: Client, p: Params): Client {
    if c.state == Up || (c.state == Down && !p.enable) then c.(active := p.data)
    else if p.postCommit && Deferred(c.state) then c.(override := true, active := c.hw)
    else if c.state == ClkUpBwDown then c.(active := Data(p.data.clkAb, p.data.clkIb, c.hw.bwAb, c.hw.bwIb))
    else if c.state == BwUpClkDown then c.(active := Data(c.hw.clkAb, c.hw.clkIb, p.data.bwAb, p.data.bwIb))
    else c
  }

  // The part of the update after skip_calc.
  function Place(c: Client, p: Params, state: VoteState): Client {
    Vote(c.(override := p.override, enabled := p.enable, state := state), p).(hw := p.data)
  }

  // Before the commit: decide the directions and vote what rises.
  function PreCommit(c: Client, p: Params): Client {
    if !UpdateRequired(c, p) then
      if c.override || p.override then Place(c, p, Up) else c.(state := NoChange)
    else
      Place(c, p, Combine(Compare(BwPeak(p.data), BwPeak(c.hw)), Compare(ClkPeak(p.data), ClkPeak(c.hw))))
  }

  // After it: vote what was put off.
  function PostCommit(c: Client, p: Params): Client {
    if Deferred(c.state) then Place(c, p, c.state) else c
  }

  // The request as sde_cesta_clk_bw_update leaves it.
  function Requested(cfg: Config, clients: seq<Client>, k: nat, p: Params): Params
    requires k < |clients|
  {
    if p.postCommit || !UpdateRequired(clients[k], p) then p else WithIb(cfg, clients, k, p)
  }

  // sde_cesta_clk_bw_update
  function Update(cfg: Config, clients: seq<Client>, k: nat, p: Params): seq<Client>
    requires k < |clients|
  {
    var q := Requested(cfg, clients, k, p);
    clients[k := if p.postCommit then PostCommit(clients[k], q) else PreCommit(clients[k], q)]
  }
}
