/**
 * The alerts the system emits: the case record, the offline notification buffer's items,
 * every push/email/video-management delivery as a value, the fixed message texts, and the
 * specifications of dispatch fan-out and of the offline buffer's replay.
 */
module Alerts {
  import opened Common

  /** current_case: one candidate human-presence event. */
  datatype Case = Case(id: string, dir: string, startTime: int, photos: seq<string>, deviceId: string, deviceIp: string)

  /** The alert texts the system sends; Body renders each as the device shows it. */
  datatype Message =
    | HumanDetected(deviceId: string, caseId: string)
    | CameraFault(deviceId: string)
    | BackOnline(deviceId: string)
    | WentOffline(deviceId: string)
    | Restarting(deviceId: string)
    | Summary(deviceId: string, count: nat)

  function Body(m: Message): string {
    match m
    case HumanDetected(d, id) => "🚨 İNSAN TESPİT EDİLDİ! (" + d + ")\nVaka ID: " + id
    case CameraFault(d) => "⚠️ SİSTEM UYARISI (" + d + "): Kamera Hatası! Fotoğraf çekilemiyor."
    case BackOnline(d) => "🟢 Cihaz Tekrar Çevrimiçi: " + d
    case WentOffline(d) => "🔴 Cihaz Çevrimdışı Oldu: " + d
    case Restarting(d) => "⚠️ Cihaz (" + d + ") internet yokluğu nedeniyle yeniden başlatılıyor..."
    case Summary(d, n) => "ℹ️ (" + d + ") Bağlantı geri geldi. " + Decimal(n) + " olay tespit edildi."
  }

  /**
   * The replay summary announces its count unambiguously: two summaries of one device with the
   * same text announce the same number of buffered items.
   */
  lemma SummaryNamesCount(deviceId: string, n: nat, m: nat)
    requires Body(Summary(deviceId, n)) == Body(Summary(deviceId, m))
    ensures n == m
  {
    var pre := "ℹ️ (" + deviceId + ") Bağlantı geri geldi. ";
    var post := " olay tespit edildi.";
    var s := Body(Summary(deviceId, n));
    assert s == pre + Decimal(n) + post;
    assert s == pre + Decimal(m) + post;
    assert Decimal(n) == s[|pre|..|s| - |post|];
    assert Decimal(m) == s[|pre|..|s| - |post|];
    DecimalValue(n);
    DecimalValue(m);
  }

  /** One entry of pending_notifications: its message and title are those of alert. */
  datatype Notification = Notification(alert: Message, photo: string, caseData: Case)

  /** One delivery attempt to a sink. */
  datatype Push =
    | Text(alert: Message, priority: int)       // PushoverClient.send_message
    | Photo(path: string, alert: Message)       // PushoverClient.send_photo
    | Report(caseData: Case)                    // CaseReporter.send_report
    | Milestone(deviceId: string)               // MilestoneClient.trigger_event

  /**
   * The online dispatch of a confirmed case: the alert text and the confirming photo to the
   * push sink, plus the e-mail report and the video-management trigger when those are enabled.
   */
  function FanOut(deviceId: string, c: Case, photo: string, emailEnabled: bool, milestoneEnabled: bool): (r: seq<Push>)
    ensures var alert := HumanDetected(deviceId, c.id);
      && Text(alert, 1) in r && Photo(photo, alert) in r
      && (Report(c) in r <==> emailEnabled)
      && (Milestone(deviceId) in r <==> milestoneEnabled)
      && (forall p :: p in r && p.Report? ==> p.caseData == c)
      && |r| == 2 + (if emailEnabled then 1 else 0) + (if milestoneEnabled then 1 else 0)
  {
    var alert := HumanDetected(deviceId, c.id);
    [Text(alert, 1), Photo(photo, alert)]
      + (if emailEnabled then [Report(c)] else [])
      + (if milestoneEnabled then [Milestone(deviceId)] else [])
  }

  /** What replaying the buffered items sends: per item, its text at priority 1, then its photo. */
  function Replayed(items: seq<Notification>): (r: seq<Push>)
    ensures |r| == 2 * |items|
  {
    if items == [] then []
    else
      var n := items[|items| - 1];
      Replayed(items[..|items| - 1]) + [Text(n.alert, 1), Photo(n.photo, n.alert)]
  }

  /** Item k's text is the (2k)th push of the replay and its photo the next. */
  lemma {:induction false} ReplayedAt(items: seq<Notification>)
    ensures forall k :: 0 <= k < |items| ==>
      Replayed(items)[2 * k] == Text(items[k].alert, 1) && Replayed(items)[2 * k + 1] == Photo(items[k].photo, items[k].alert)
    decreases |items|
  {
    if items != [] {
      var init := items[..|items| - 1];
      ReplayedAt(init);
      assert forall k :: 0 <= k < |init| ==> init[k] == items[k];
    }
  }

  /** Replaying a longer prefix extends what was sent for the shorter one. */
  lemma ReplayedStep(items: seq<Notification>, k: nat)
    requires k < |items|
    ensures Replayed(items[..k + 1]) ==
      Replayed(items[..k]) + [Text(items[k].alert, 1), Photo(items[k].photo, items[k].alert)]
  {
    assert items[..k + 1][..k] == items[..k];
  }

  /** The list comprehension that keeps the items of xs that are not equal to any of ys. */
  function Without<T(==,!new)>(xs: seq<T>, ys: seq<T>): (r: seq<T>)
    ensures |r| <= |xs|
  {
    if xs == [] then []
    else
      var x := xs[|xs| - 1];
      Without(xs[..|xs| - 1], ys) + (if x in ys then [] else [x])
  }

  /** The items kept are exactly those of xs equal to none of ys. */
  lemma {:induction false} WithoutMembers<T(!new)>(xs: seq<T>, ys: seq<T>)
    ensures forall x :: x in Without(xs, ys) <==> x in xs && x !in ys
    decreases |xs|
  {
    if xs != [] {
      var init := xs[..|xs| - 1];
      assert xs == init + [xs[|xs| - 1]];
      WithoutMembers(init, ys);
    }
  }

  lemma {:induction false} WithoutConcat<T(!new)>(a: seq<T>, b: seq<T>, ys: seq<T>)
    ensures Without(a + b, ys) == Without(a, ys) + Without(b, ys)
    decreases |b|
  {
    if b == [] {
      assert a + b == a;
    } else {
      var b' := b[..|b| - 1];
      assert (a + b)[..|a + b| - 1] == a + b';
      WithoutConcat(a, b', ys);
    }
  }

  /** Items none of which is removed pass through unchanged and in order. */
  lemma {:induction false} WithoutNone<T(!new)>(xs: seq<T>, ys: seq<T>)
    requires forall x :: x in xs ==> x !in ys
    ensures Without(xs, ys) == xs
    decreases |xs|
  {
    if xs != [] {
      var init := xs[..|xs| - 1];
      assert xs == init + [xs[|xs| - 1]];
      WithoutNone(init, ys);
    }
  }

  /** Items all of which are removed leave nothing. */
  lemma {:induction false} WithoutAll<T(!new)>(xs: seq<T>, ys: seq<T>)
    requires forall x :: x in xs ==> x in ys
    ensures Without(xs, ys) == []
    decreases |xs|
  {
    if xs != [] {
      var init := xs[..|xs| - 1];
      assert xs == init + [xs[|xs| - 1]];
      WithoutAll(init, ys);
    }
  }

  /** No item after position k of a sequence without duplicates equals one before it. */
  lemma Disjoint<T>(xs: seq<T>, k: nat)
    requires k <= |xs|
    requires forall i, j :: 0 <= i < j < |xs| ==> xs[i] != xs[j]
    ensures forall x :: x in xs[k..] ==> x !in xs[..k]
  {
    forall x | x in xs[k..]
      ensures x !in xs[..k]
    {
      var j :| k <= j < |xs| && xs[j] == x;
    }
  }

  /**
   * When the buffered items are pairwise distinct, filtering out the first k of them leaves
   * exactly the items from k on, in their original order.
   */
  lemma WithoutPrefix<T(!new)>(xs: seq<T>, k: nat)
    requires k <= |xs|
    requires forall i, j :: 0 <= i < j < |xs| ==> xs[i] != xs[j]
    ensures Without(xs, xs[..k]) == xs[k..]
  {
    var done, rest := xs[..k], xs[k..];
    assert xs == done + rest;
    WithoutConcat(done, rest, done);
    WithoutAll(done, done);
    Disjoint(xs, k);
    WithoutNone(rest, done);
  }

  /**
   * Equality filtering removes equal twins together: with [a, b, a] buffered, delivering only
   * the first item also drops the third, which was never sent.
   */
  lemma WithoutDropsTwins<T(!new)>(a: T, b: T)
    requires a != b
    ensures Without([a, b, a], [a]) == [b]
  {
    assert [a, b, a][..2] == [a, b];
    assert [a, b][..1] == [a];
    assert [a][..0] == [];
    assert Without([a], [a]) == Without([], [a]) == [];
    assert Without([a, b], [a]) == [b];
  }

  /**
   * What one replay of the buffer sends while online, when the item at index failAt raises
   * (failAt >= |items| when none does): nothing for an empty buffer, otherwise the summary
   * with the buffered count, then the items before failAt.
   */
  function ReplaySends(deviceId: string, items: seq<Notification>, failAt: nat): (r: seq<Push>)
    ensures items == [] <==> r == []
    ensures items != [] ==>
      && |r| == 1 + 2 * Min(failAt, |items|)
      && r[0] == Text(Summary(deviceId, |items|), 0)
      && forall k :: 0 <= k < Min(failAt, |items|) ==>
           r[1 + 2 * k] == Text(items[k].alert, 1) && r[2 + 2 * k] == Photo(items[k].photo, items[k].alert)
  {
    if items == [] then []
    else
      var sent := items[..Min(failAt, |items|)];
      ReplayedAt(sent);
      [Text(Summary(deviceId, |items|), 0)] + Replayed(sent)
  }

  /** The buffer after that replay: every item equal to one that went out is filtered away. */
  function ReplayLeft(items: seq<Notification>, failAt: nat): seq<Notification> {
    Without(items, items[..Min(failAt, |items|)])
  }

  /** A replay with no failure empties the buffer. */
  lemma ReplayDrains(items: seq<Notification>, failAt: nat)
    requires failAt >= |items|
    ensures ReplayLeft(items, failAt) == []
  {
    assert items[..|items|] == items;
    WithoutAll(items, items);
  }

  /**
   * A replay that fails at item k of pairwise distinct items keeps exactly items k.., in order,
   * for the next recovery.
   */
  lemma ReplayKeepsTail(items: seq<Notification>, failAt: nat)
    requires failAt < |items|
    requires forall i, j :: 0 <= i < j < |items| ==> items[i] != items[j]
    ensures ReplayLeft(items, failAt) == items[failAt..]
  {
    WithoutPrefix(items, failAt);
  }
}
