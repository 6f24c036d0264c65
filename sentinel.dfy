/**
 * SentinelSystem: the case loop (presence → up to five captures → confirm or discard), the
 * dispatch of a confirmed case, the offline notification buffer and its replay, and one
 * cycle of the connectivity watchdog. The sensor, camera, detector, clock and probe results
 * are parameters; every delivery to a sink is appended to the ghost log `sent`, and every
 * restart request counted in `rebootRequests`.
 */
module Sentinel {
  import opened Common
  import opened LocalFs
  import opened Alerts
  import opened Attempts
  import opened Watchdog
  import opened UploadQueue

  class SentinelSystem {
    const deviceId: string
    const deviceIp: string
    const photoDir: string
    /** CaseReporter.enabled and MilestoneClient.enabled. */
    const emailEnabled: bool
    const milestoneEnabled: bool
    const queue: FtpQueueManager
    const disk: Disk
    var currentCase: Option<Case>
    /** motion_being_processed: the re-entrancy guard of the case loop. */
    var busy: bool
    var isOnline: bool
    var offlineRebootCounter: nat
    var pending: seq<Notification>
    ghost var sent: seq<Push>
    ghost var rebootRequests: nat

    /** The photo tree is the one the queue copies from; online means no failure is being counted. */
    ghost predicate Valid()
      reads this, queue
    {
      queue.disk == disk && queue.Valid() && (isOnline ==> offlineRebootCounter == 0)
    }

    /** The watchdog's view of the state. */
    function Link(): Watchdog.Link
      reads this
    {
      Watchdog.Link(isOnline, offlineRebootCounter)
    }

    /**
     * __init__ followed by initialize: online is the outcome of the start-up connectivity
     * check; no case is open, the guard is clear, the counter is zero and the buffer is empty.
     */
    constructor (deviceId: string, deviceIp: string, photoDir: string, emailEnabled: bool, milestoneEnabled: bool,
                 queue: FtpQueueManager, online: bool)
      requires queue.Valid()
      ensures Valid()
      ensures this.deviceId == deviceId && this.deviceIp == deviceIp && this.photoDir == photoDir
      ensures this.emailEnabled == emailEnabled && this.milestoneEnabled == milestoneEnabled
      ensures this.queue == queue && disk == queue.disk
      ensures currentCase == None && !busy && isOnline == online && offlineRebootCounter == 0
      ensures pending == [] && sent == [] && rebootRequests == 0
    {
      this.deviceId := deviceId;
      this.deviceIp := deviceIp;
      this.photoDir := photoDir;
      this.emailEnabled := emailEnabled;
      this.milestoneEnabled := milestoneEnabled;
      this.queue := queue;
      disk := queue.disk;
      currentCase := None;
      busy := false;
      isOnline := online;
      offlineRebootCounter := 0;
      pending := [];
      sent := [];
      rebootRequests := 0;
    }

    /** The folder a case with this id gets under the photo directory. */
    function CaseDir(caseId: string): string
      reads {}
    {
      Join(photoDir, caseId)
    }

    /** The case start_case opens. */
    function Opened(caseId: string, startTime: int): Case
      reads {}
    {
      Case(caseId, CaseDir(caseId), startTime, [], deviceId, deviceIp)
    }

    /**
     * start_case: the case folder is created (an existing one is kept) and a fresh case with no
     * photos becomes the current case. caseId and startTime stand for the clock readings.
     */
    method StartCase(caseId: string, startTime: int)
      modifies this, disk
      ensures currentCase == Some(Opened(caseId, startTime))
      ensures var d := CaseDir(caseId); disk.dirs == if d in old(disk.dirs) then old(disk.dirs) else old(disk.dirs)[d := []]
      ensures busy == old(busy) && isOnline == old(isOnline) && offlineRebootCounter == old(offlineRebootCounter)
      ensures pending == old(pending) && sent == old(sent) && rebootRequests == old(rebootRequests)
    {
      var d := CaseDir(caseId);
      disk.MakeDirs(d);
      currentCase := Some(Opened(caseId, startTime));
    }

    /** discard_case: the open case's folder is deleted (a failure is only logged) and the case closed. */
    method DiscardCase()
      modifies this, disk
      ensures old(currentCase).None? ==> currentCase == None && disk.dirs == old(disk.dirs)
      ensures old(currentCase).Some? ==> currentCase == None && disk.dirs == old(disk.dirs) - {old(currentCase).value.dir}
      ensures busy == old(busy) && isOnline == old(isOnline) && offlineRebootCounter == old(offlineRebootCounter)
      ensures pending == old(pending) && sent == old(sent) && rebootRequests == old(rebootRequests)
    {
      if currentCase.Some? {
        var _ := disk.RemoveTree(currentCase.value.dir);
        currentCase := None;
      }
    }

    /** The buffered notification for a confirmed case whose last photo is photo. */
    function Buffered(c: Case, photo: string): Notification
      reads {}
    {
      Notification(HumanDetected(deviceId, c.id), photo, c)
    }

    /**
     * The upload side of a confirmed case: its folder, if it exists, is entered in the queue
     * as pending under its base name, and staged unless a staging copy exists already.
     */
    ghost predicate Enqueued(dir: string, dirs: map<string, seq<string>>,
                             status0: map<string, Entry>, staged0: map<string, seq<string>>,
                             status1: map<string, Entry>, staged1: map<string, seq<string>>)
    {
      && (dir !in dirs ==> status1 == status0 && staged1 == staged0)
      && (dir in dirs ==>
            var name := Basename(dir);
            && status1 == status0[name := Entry(dir, Pending)]
            && staged1 == if name in staged0 then staged0 else staged0[name := dirs[dir]])
    }

    /**
     * The notification side of a confirmed case c: with a photo, its last photo goes to every
     * enabled sink when online, or into the buffer when offline; without one nothing happens.
     */
    ghost predicate Alerted(c: Case, online: bool, sent0: seq<Push>, pending0: seq<Notification>,
                            sent1: seq<Push>, pending1: seq<Notification>)
    {
      && (c.photos == [] ==> sent1 == sent0 && pending1 == pending0)
      && (c.photos != [] && online ==>
            sent1 == sent0 + FanOut(deviceId, c, c.photos[|c.photos| - 1], emailEnabled, milestoneEnabled) &&
            pending1 == pending0)
      && (c.photos != [] && !online ==>
            sent1 == sent0 && pending1 == pending0 + [Buffered(c, c.photos[|c.photos| - 1])])
    }

    /**
     * process_human_detection: the case is queued for upload whatever the link state, the
     * current case is cleared, and then, if the case has a photo, its last photo goes to every
     * enabled sink when online or into the buffer when offline. Without a photo nothing is
     * sent or buffered.
     */
    method ProcessHumanDetection()
      requires Valid()
      modifies this, queue
      ensures Valid()
      ensures old(currentCase).None? ==>
        && currentCase == None && pending == old(pending) && sent == old(sent)
        && queue.status == old(queue.status) && queue.staged == old(queue.staged)
      ensures old(currentCase).Some? ==>
        var c := old(currentCase).value;
        && currentCase == None
        && Enqueued(c.dir, disk.dirs, old(queue.status), old(queue.staged), queue.status, queue.staged)
        && Alerted(c, isOnline, old(sent), old(pending), sent, pending)
      ensures queue.saves == old(queue.saves) + if old(currentCase).Some? && old(currentCase).value.dir in disk.dirs then 1 else 0
      ensures busy == old(busy) && isOnline == old(isOnline) && offlineRebootCounter == old(offlineRebootCounter)
      ensures rebootRequests == old(rebootRequests) && queue.lastAttempt == old(queue.lastAttempt)
    {
      if currentCase.None? {
        return;
      }
      var c := currentCase.value;
      if c.dir in disk.dirs {
        queue.QueueCase(c.dir);
      }
      assert busy == old(busy) && isOnline == old(isOnline) && offlineRebootCounter == old(offlineRebootCounter);
      assert pending == old(pending) && sent == old(sent) && rebootRequests == old(rebootRequests);
      currentCase := None;
      if c.photos != [] {
        var photo := c.photos[|c.photos| - 1];
        if isOnline {
          sent := sent + FanOut(deviceId, c, photo, emailEnabled, milestoneEnabled);
        } else {
          pending := pending + [Buffered(c, photo)];
        }
      }
    }

    /**
     * The capture loop of run for the open case: attempt after attempt until one shows a human,
     * one raises, or all have been made. Every photo is added to the case; the first attempt
     * without a photo sends the camera-fault alert, if online, and no later one does. The
     * result is the index of the attempt that ended the loop.
     */
    method Capture(attempts: seq<Attempt>) returns (k: nat)
      requires currentCase.Some?
      modifies this
      ensures k == Stop(attempts)
      ensures currentCase == Some(old(currentCase).value.(photos := old(currentCase).value.photos +
        Photos(attempts[..if Confirms(attempts) then k + 1 else k])))
      ensures sent == old(sent) + (if isOnline && Faults(attempts) then [Text(CameraFault(deviceId), 0)] else [])
      ensures busy == old(busy) && isOnline == old(isOnline) && offlineRebootCounter == old(offlineRebootCounter)
      ensures pending == old(pending) && rebootRequests == old(rebootRequests)
    {
      ghost var c := currentCase.value;
      var notified := false;
      k := 0;
      assert attempts[..0] == [];
      assert c.(photos := c.photos + []) == c;
      while k < |attempts|
        invariant k <= |attempts|
        invariant forall j :: 0 <= j < k ==> !Stops(attempts[j])
        invariant currentCase == Some(c.(photos := c.photos + Photos(attempts[..k])))
        invariant notified == exists j :: 0 <= j < k && attempts[j].NoPhoto?
        invariant sent == old(sent) + (if isOnline && notified then [Text(CameraFault(deviceId), 0)] else [])
        invariant busy == old(busy) && isOnline == old(isOnline) && offlineRebootCounter == old(offlineRebootCounter)
        invariant pending == old(pending) && rebootRequests == old(rebootRequests)
        decreases |attempts| - k
      {
        PhotosStep(attempts, k);
        match attempts[k] {
          case Raises =>
            StopAt(attempts, k);
            break;
          case NoPhoto =>
            if !notified {
              if isOnline {
                sent := sent + [Text(CameraFault(deviceId), 0)];
              }
              notified := true;
            }
            assert Photos(attempts[..k + 1]) == Photos(attempts[..k]) + [] == Photos(attempts[..k]);
          case Shot(path, human) =>
            var open := currentCase.value;
            currentCase := Some(open.(photos := open.photos + [path]));
            assert c.photos + Photos(attempts[..k + 1]) == open.photos + [path];
            if human {
              StopAt(attempts, k);
              break;
            }
        }
        k := k + 1;
      }
      if k == |attempts| {
        StopAt(attempts, k);
      }
    }
  
    /**
     * The end of the capture loop: a confirmed case goes through process_human_detection,
     * any other open case is discarded.
     */
    method Resolve(confirmed: bool)
      requires Valid() && currentCase.Some?
      modifies this, queue, disk
      ensures Valid() && currentCase == None
      ensures var c := old(currentCase).value;
        && (confirmed ==>
              && disk.dirs == old(disk.dirs)
              && Enqueued(c.dir, disk.dirs, old(queue.status), old(queue.staged), queue.status, queue.staged)
              && queue.saves == old(queue.saves) + (if c.dir in disk.dirs then 1 else 0)
              && Alerted(c, isOnline, old(sent), old(pending), sent, pending))
        && (!confirmed ==>
              && disk.dirs == old(disk.dirs) - {c.dir}
              && queue.status == old(queue.status) && queue.staged == old(queue.staged)
              && queue.saves == old(queue.saves)
              && sent == old(sent) && pending == old(pending))
      ensures busy == old(busy) && isOnline == old(isOnline) && offlineRebootCounter == old(offlineRebootCounter)
      ensures rebootRequests == old(rebootRequests) && queue.lastAttempt == old(queue.lastAttempt)
    {
      if confirmed {
        ProcessHumanDetection();
      } else {
        DiscardCase();
      }
    }

    /**
     * One pass of run's loop: a presence reading while no case is being processed opens a
     * case, makes up to MaxAttempts capture attempts, and then either hands the confirmed case
     * to process_human_detection or deletes it (also when an attempt raised); the guard is
     * clear again afterwards. A reading without presence, or one while the guard is set, does
     * nothing. caseId and startTime stand for the clock readings of start_case.
     */
    method RunCycle(presence: bool, caseId: string, startTime: int, attempts: seq<Attempt>)
      requires Valid() && |attempts| == MaxAttempts
      modifies this, queue, disk
      ensures Valid()
      ensures !presence || old(busy) ==>
        && busy == old(busy) && currentCase == old(currentCase) && sent == old(sent) && pending == old(pending)
        && disk.dirs == old(disk.dirs) && queue.status == old(queue.status) && queue.staged == old(queue.staged)
        && queue.saves == old(queue.saves)
      ensures presence && !old(busy) ==>
        var c := Opened(caseId, startTime).(photos := Evidence(attempts));
        var alerted := old(sent) + if isOnline && Faults(attempts) then [Text(CameraFault(deviceId), 0)] else [];
        && !busy && currentCase == None
        && (Confirms(attempts) ==>
              && disk.dirs == (if c.dir in old(disk.dirs) then old(disk.dirs) else old(disk.dirs)[c.dir := []])
              && Enqueued(c.dir, disk.dirs, old(queue.status), old(queue.staged), queue.status, queue.staged)
              && queue.saves == old(queue.saves) + 1
              && Alerted(c, isOnline, alerted, old(pending), sent, pending))
        && (!Confirms(attempts) ==>
              && disk.dirs == old(disk.dirs) - {c.dir}
              && queue.status == old(queue.status) && queue.staged == old(queue.staged)
              && queue.saves == old(queue.saves)
              && sent == alerted && pending == old(pending))
      ensures isOnline == old(isOnline) && offlineRebootCounter == old(offlineRebootCounter)
      ensures rebootRequests == old(rebootRequests) && queue.lastAttempt == old(queue.lastAttempt)
    {
      if !presence || busy {
        return;
      }
      busy := true;
      StartCase(caseId, startTime);
      var k := Capture(attempts);
      assert [] + Evidence(attempts) == Evidence(attempts);
      Resolve(k < |attempts| && attempts[k].Shot?);
      busy := false;
    }

    /**
     * process_pending_notifications: while online and with something buffered, the summary
     * with the buffered count goes out, then each buffered item's text and photo in order,
     * until the item at index failAt raises (failAt >= the buffer's length when none does);
     * the buffer then keeps the items not equal to one that went out.
     */
    method ProcessPending(failAt: nat)
      modifies this
      ensures !old(isOnline) ==> sent == old(sent) && pending == old(pending)
      ensures old(isOnline) ==>
        sent == old(sent) + ReplaySends(deviceId, old(pending), failAt) && pending == ReplayLeft(old(pending), failAt)
      ensures currentCase == old(currentCase) && busy == old(busy) && rebootRequests == old(rebootRequests)
      ensures isOnline == old(isOnline) && offlineRebootCounter == old(offlineRebootCounter)
    {
      if !isOnline {
        return;
      }
      if pending == [] {
        assert ReplaySends(deviceId, pending, failAt) == [] && ReplayLeft(pending, failAt) == [];
        assert sent + [] == sent;
        return;
      }
      var items := pending;
      sent := sent + [Text(Summary(deviceId, |items|), 0)];
      var processed: seq<Notification> := [];
      var k := 0;
      while k < |items|
        invariant k <= |items| && k <= failAt
        invariant processed == items[..k]
        invariant sent == old(sent) + [Text(Summary(deviceId, |items|), 0)] + Replayed(items[..k])
        invariant pending == items && isOnline == old(isOnline) && offlineRebootCounter == old(offlineRebootCounter)
        invariant currentCase == old(currentCase) && busy == old(busy) && rebootRequests == old(rebootRequests)
      {
        if k == failAt {
          break;
        }
        ReplayedStep(items, k);
        sent := sent + [Text(items[k].alert, 1), Photo(items[k].photo, items[k].alert)];
        processed := processed + [items[k]];
        k := k + 1;
      }
      assert k == Min(failAt, |items|);
      assert sent == old(sent) + ([Text(Summary(deviceId, |items|), 0)] + Replayed(items[..k]));
      pending := Without(pending, processed);
    }

    /**
     * One cycle of periodic_internet_check with probe outcome ok: success resets the counter
     * and, coming back from offline, announces it and replays the buffer (failAt as for
     * ProcessPending); failure counts, announces going offline when online, and otherwise sends
     * the restart alert and requests a restart once the counter reaches the threshold.
     */
    method WatchdogStep(ok: bool, failAt: nat)
      requires Valid()
      modifies this
      ensures Valid()
      ensures Link() == Probe(old(Link()), ok)
      ensures rebootRequests == old(rebootRequests) + if RequestsReboot(old(Link()), ok) then 1 else 0
      ensures Recovers(old(Link()), ok) ==>
        && sent == old(sent) + [Text(BackOnline(deviceId), 0)] + ReplaySends(deviceId, old(pending), failAt)
        && pending == ReplayLeft(old(pending), failAt)
      ensures GoesOffline(old(Link()), ok) ==> sent == old(sent) + [Text(WentOffline(deviceId), 0)] && pending == old(pending)
      ensures RequestsReboot(old(Link()), ok) ==> sent == old(sent) + [Text(Restarting(deviceId), 1)] && pending == old(pending)
      ensures !Recovers(old(Link()), ok) && !GoesOffline(old(Link()), ok) && !RequestsReboot(old(Link()), ok) ==>
        sent == old(sent) && pending == old(pending)
      ensures currentCase == old(currentCase) && busy == old(busy)
    {
      if ok {
        offlineRebootCounter := 0;
        if !isOnline {
          isOnline := true;
          sent := sent + [Text(BackOnline(deviceId), 0)];
          ProcessPending(failAt);
        }
      } else {
        offlineRebootCounter := offlineRebootCounter + 1;
        if isOnline {
          isOnline := false;
          sent := sent + [Text(WentOffline(deviceId), 0)];
        } else if offlineRebootCounter >= RebootThreshold {
          sent := sent + [Text(Restarting(deviceId), 1)];
          rebootRequests := rebootRequests + 1;
        }
      }
    }
  }
}
