// Pacing of sends (src/subscriptions/dispatch.rs): what the dispatcher remembers of
// recent sends keeps the gaps a channel asks for, although it forgets. Times are
// milliseconds of the monotonic clock.

module Pacers {
  import opened Basics

  const FORGET_ABOVE := 10_000
  const FORGET_AFTER := 60_000

  datatype Pacing = Pacing(global: nat, perAddress: nat)

  datatype Send = Send(channel: string, address: string, started: int, ended: int)

  function PacingOf(pacings: map<string, Pacing>, channel: string): Pacing {
    At(pacings, channel, Pacing(0, 0))
  }

  /** A later send begins a channel's gap after an earlier one ended, and an address's
      gap if it goes to the same address. */
  predicate GapKept(a: Send, b: Send, pacing: Pacing) {
    && (a.channel == b.channel ==> a.ended + pacing.global <= b.started)
    && (a.channel == b.channel && a.address == b.address ==> a.ended + pacing.perAddress <= b.started)
  }

  ghost predicate Paced(log: seq<Send>, pacings: map<string, Pacing>) {
    forall i, j :: 0 <= i < j < |log| ==>
      GapKept(log[i], log[j], if log[j].channel in pacings then pacings[log[j].channel] else Pacing(0, 0))
  }

  lemma PacedMore(log: seq<Send>, s: Send, pacings: map<string, Pacing>)
    requires Paced(log, pacings)
    requires forall i :: 0 <= i < |log| ==> GapKept(log[i], s, PacingOf(pacings, s.channel))
    ensures Paced(log + [s], pacings)
  {
  }

  class Pacer {
    var lastChannel: map<string, int>
    var lastAddress: map<(string, string), int>
    const pacings: map<string, Pacing>
    ghost var log: seq<Send>
    ghost var clock: int

    /** Each send is remembered by its channel, and by its address or for longer than any
        address's gap. */
    ghost predicate Remembered(s: Send)
      reads this
    {
      && s.ended <= clock
      && s.channel in lastChannel && s.ended <= lastChannel[s.channel]
      && (((s.channel, s.address) in lastAddress && s.ended <= lastAddress[(s.channel, s.address)])
          || clock - s.ended >= FORGET_AFTER)
    }

    ghost predicate Valid()
      reads this
    {
      && (forall c :: c in pacings ==> pacings[c].perAddress <= FORGET_AFTER)
      && (forall i :: 0 <= i < |log| ==> Remembered(log[i]))
      && Paced(log, pacings)
    }

    constructor (pacings: map<string, Pacing>)
      requires forall c :: c in pacings ==> pacings[c].perAddress <= FORGET_AFTER
      ensures Valid() && log == [] && this.pacings == pacings
    {
      this.pacings := pacings;
      lastChannel, lastAddress, log, clock := map[], map[], [], 0;
    }

    method AddressReady(channel: string, address: string, now: int) returns (ready: bool)
      ensures ready <==> (channel, address) !in lastAddress
                         || now - lastAddress[(channel, address)] >= PacingOf(pacings, channel).perAddress
    {
      var key := (channel, address);
      ready := key !in lastAddress || now - lastAddress[key] >= PacingOf(pacings, channel).perAddress;
    }

    /** How long until the channel's gap has passed. */
    method ChannelWait(channel: string, now: int) returns (wait: nat)
      ensures channel in lastChannel ==> now + wait >= lastChannel[channel] + PacingOf(pacings, channel).global
      ensures wait > 0 ==>
              channel in lastChannel && now + wait == lastChannel[channel] + PacingOf(pacings, channel).global
    {
      wait := if channel in lastChannel
              then Max(0, PacingOf(pacings, channel).global - (now - lastChannel[channel]))
              else 0;
    }

    method Record(channel: string, address: string, ghost started: int, now: int)
      requires Valid() && clock <= started <= now
      requires forall i :: 0 <= i < |log| ==>
              GapKept(log[i], Send(channel, address, started, now), PacingOf(pacings, channel))
      modifies this
      ensures Valid() && log == old(log) + [Send(channel, address, started, now)] && clock == now
      ensures |lastAddress| > FORGET_ABOVE ==>
              forall key :: key in lastAddress ==> now - lastAddress[key] < FORGET_AFTER
    {
      PacedMore(log, Send(channel, address, started, now), pacings);
      hide Paced, GapKept, PacingOf;
      lastChannel := lastChannel[channel := now];
      lastAddress := lastAddress[(channel, address) := now];
      if |lastAddress| > FORGET_ABOVE {
        lastAddress := map key | key in lastAddress && now - lastAddress[key] < FORGET_AFTER :: lastAddress[key];
      }
      log, clock := log + [Send(channel, address, started, now)], now;
    }

    /** One row's turn: put off if its address was just sent to, otherwise sent once the
        channel's gap has passed. The sleep may oversleep, and the send takes its time. */
    method Turn(channel: string, address: string, now: int, oversleep: nat, took: nat) returns (sent: bool)
      requires Valid() && clock <= now
      modifies this
      ensures Valid()
      ensures var gap := if channel in pacings then pacings[channel].perAddress else 0;
              sent <==> (channel, address) !in old(lastAddress) || now - old(lastAddress)[(channel, address)] >= gap
      ensures sent ==>
                var gap := if channel in old(lastChannel)
                           then old(lastChannel)[channel] + (if channel in pacings then pacings[channel].global else 0)
                           else now;
                var started := Max(now, gap) + oversleep;
                log == old(log) + [Send(channel, address, started, started + took)]
      ensures !sent ==> log == old(log)
    {
      var ready := AddressReady(channel, address, now);
      if !ready {
        return false;
      }
      var wait := ChannelWait(channel, now);
      var started := now + wait + oversleep;
      forall i | 0 <= i < |log|
        ensures GapKept(log[i], Send(channel, address, started, started + took), PacingOf(pacings, channel))
      {
        assert Remembered(log[i]);
      }
      Record(channel, address, started, started + took);
      sent := true;
    }
  }
}
