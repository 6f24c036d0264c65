/**
 * The state machine of periodic_internet_check: the online flag and the consecutive-failure
 * counter, advanced by one probe per cycle, and when a cycle asks the OS to restart.
 */
module Watchdog {
  /** reboot_threshold: consecutive failed probes after which a restart is requested. */
  const RebootThreshold: nat := 2

  /** is_online and offline_reboot_counter. */
  datatype Link = Link(online: bool, failures: nat)

  /** The state after one probe whose outcome is ok. */
  function Probe(l: Link, ok: bool): (r: Link)
    ensures r.online == ok
    ensures ok ==> r.failures == 0
    ensures !ok ==> r.failures == l.failures + 1
  {
    if ok then Link(true, 0) else Link(false, l.failures + 1)
  }

  /** The cycle flips the link back online, announces it and replays the buffer. */
  predicate Recovers(l: Link, ok: bool) {
    ok && !l.online
  }

  /** The cycle flips the link offline and announces it, without restarting. */
  predicate GoesOffline(l: Link, ok: bool) {
    !ok && l.online
  }

  /** The cycle sends the restart alert and issues the restart request. */
  predicate RequestsReboot(l: Link, ok: bool) {
    !ok && !l.online && l.failures + 1 >= RebootThreshold
  }

  /** The state after a run of probes. */
  function Run(l: Link, probes: seq<bool>): Link {
    if probes == [] then l else Probe(Run(l, probes[..|probes| - 1]), probes[|probes| - 1])
  }

  /** The number of failed probes at the end of probes. */
  function TrailingFailures(probes: seq<bool>): (n: nat)
    ensures n <= |probes|
    ensures forall i :: |probes| - n <= i < |probes| ==> !probes[i]
    ensures n < |probes| ==> probes[|probes| - 1 - n]
  {
    if probes == [] || probes[|probes| - 1] then 0 else TrailingFailures(probes[..|probes| - 1]) + 1
  }

  /**
   * From a reset counter, the state after any run is determined by the probes alone: online
   * exactly when the last probe succeeded, and the counter is the length of the final run of
   * failures.
   */
  lemma {:induction false} RunState(online: bool, probes: seq<bool>)
    ensures Run(Link(online, 0), probes) ==
      if probes == [] then Link(online, 0) else Link(probes[|probes| - 1], TrailingFailures(probes))
    decreases |probes|
  {
    if probes != [] {
      RunState(online, probes[..|probes| - 1]);
    }
  }

  /** While online the counter is zero; every probe keeps that so. */
  lemma OnlineMeansReset(l: Link, probes: seq<bool>)
    requires l.online ==> l.failures == 0
    ensures var r := Run(l, probes); r.online ==> r.failures == 0
  {
    if probes != [] {
      assert Run(l, probes).online == probes[|probes| - 1];
    }
  }

  /**
   * From a reset counter, probe j requests a restart exactly when it and the probe before it
   * both failed: two consecutive failures, whatever the link state at start-up.
   */
  lemma RebootIff(online: bool, probes: seq<bool>, j: nat)
    requires j < |probes|
    ensures RequestsReboot(Run(Link(online, 0), probes[..j]), probes[j]) <==> !probes[j] && j >= 1 && !probes[j - 1]
  {
    RunState(online, probes[..j]);
    if j >= 1 {
      assert probes[..j][j - 1] == probes[j - 1];
      if !probes[j - 1] {
        assert TrailingFailures(probes[..j]) >= 1;
      }
    }
  }

  /** The counter is never reset by a restart: every further failure requests another one. */
  lemma RebootRepeats(l: Link)
    requires RequestsReboot(l, false)
    ensures RequestsReboot(Probe(l, false), false)
  {
  }

  /** A single failure followed by a success restores the reset, online state and requests nothing. */
  lemma BlipIsHarmless(l: Link)
    requires l.online && l.failures == 0
    ensures !RequestsReboot(l, false) && !RequestsReboot(Probe(l, false), true)
    ensures Run(l, [false, true]) == Link(true, 0)
  {
    assert [false, true][..1] == [false];
    assert [false][..0] == [];
  }
}
