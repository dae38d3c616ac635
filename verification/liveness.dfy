/**
 * The liveness rule: a machine is online when its last heartbeat is newer
 * than two minutes before now, and its uptime is the whole number of
 * seconds since its first heartbeat. Both are computed when a view is
 * built and never stored.
 */
module Liveness {
  import opened Values
  import opened Store

  /** Two minutes, in milliseconds. */
  const StaleWindow: int := 2 * 60 * 1000

  /**
   * `!!heartbeat && heartbeat > now - 2 minutes`: online exactly when a
   * heartbeat exists and is less than 120 000 ms old. The comparison is
   * strict, so a heartbeat exactly two minutes old is already offline.
   */
  predicate IsOnline(heartbeat: Option<Millis>, now: Millis)
  {
    heartbeat.Some? && heartbeat.value > now - StaleWindow
  }

  /** A heartbeat exactly 120 s old is already offline; 119 s is online, 121 s is offline. */
  lemma OnlineBoundary(now: Millis)
    ensures IsOnline(Some(now - 119000), now)
    ensures !IsOnline(Some(now - 120000), now)
    ensures !IsOnline(Some(now - 121000), now)
    ensures !IsOnline(None, now)
  {
  }

  /** A newer heartbeat, or an earlier clock, never turns an online machine offline. */
  lemma OnlineMonotone(h: Millis, h': Millis, now: Millis, now': Millis)
    requires IsOnline(Some(h), now)
    requires h <= h' && now' <= now
    ensures IsOnline(Some(h'), now')
  {
  }

  /** `Math.floor((now - firstHeartbeat) / 1000)`, or 0 when never seen. */
  function Uptime(firstHeartbeat: Option<Millis>, now: Millis): (secs: int)
    ensures firstHeartbeat.None? ==> secs == 0
    ensures firstHeartbeat.Some? ==>
      secs * 1000 <= now - firstHeartbeat.value < (secs + 1) * 1000
  {
    if firstHeartbeat.Some? then (now - firstHeartbeat.value) / 1000 else 0
  }

  /** Uptime never decreases as the clock advances. */
  lemma UptimeMonotone(first: Option<Millis>, now: Millis, now': Millis)
    requires now <= now'
    ensures Uptime(first, now) <= Uptime(first, now')
  {
  }

  /** The label the details view shows next to a machine. */
  function StatusLabel(online: bool): (text: string)
    ensures text == "在线" <==> online
    ensures text == "离线" <==> !online
  {
    if online then "在线" else "离线"
  }
}
