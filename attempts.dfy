/**
 * The capture attempts of one case, as the outcomes the camera, the file check and the
 * detector produce for them, and which of them the case loop actually makes.
 */
module Attempts {
  /** The fixed number of capture attempts per case. */
  const MaxAttempts: nat := 5

  /**
   * The outcome of one attempt: no usable photo (capture returned nothing or the file is
   * missing), a photo with the detector's verdict, or an exception escaping the attempt.
   */
  datatype Attempt = NoPhoto | Shot(path: string, human: bool) | Raises

  /** An attempt after which the loop makes no further attempt. */
  predicate Stops(a: Attempt) {
    a.Raises? || (a.Shot? && a.human)
  }

  /** The index of the first attempt that ends the loop, or |attempts| if none does. */
  function Stop(attempts: seq<Attempt>): (k: nat)
    ensures k <= |attempts|
    ensures forall j :: 0 <= j < k ==> !Stops(attempts[j])
    ensures k < |attempts| ==> Stops(attempts[k])
  {
    if attempts == [] then 0
    else if Stops(attempts[0]) then 0
    else 1 + Stop(attempts[1..])
  }

  /** The first stopping attempt is the one where the loop ends. */
  lemma StopAt(attempts: seq<Attempt>, k: nat)
    requires k <= |attempts|
    requires forall j :: 0 <= j < k ==> !Stops(attempts[j])
    requires k == |attempts| || Stops(attempts[k])
    ensures Stop(attempts) == k
  {
  }

  /** The paths of the photos among attempts, in order. */
  function Photos(attempts: seq<Attempt>): (ps: seq<string>)
    ensures |ps| <= |attempts|
  {
    if attempts == [] then []
    else
      var a := attempts[|attempts| - 1];
      var ps := Photos(attempts[..|attempts| - 1]);
      if a.Shot? then ps + [a.path] else ps
  }

  /** The photos are exactly the paths of the attempts that produced one. */
  lemma {:induction false} PhotosMembers(attempts: seq<Attempt>)
    ensures forall p :: p in Photos(attempts) <==> exists j :: 0 <= j < |attempts| && attempts[j].Shot? && attempts[j].path == p
    decreases |attempts|
  {
    if attempts != [] {
      var init := attempts[..|attempts| - 1];
      PhotosMembers(init);
      assert forall j :: 0 <= j < |init| ==> init[j] == attempts[j];
    }
  }

  /** One more attempt adds its photo, if it produced one. */
  lemma PhotosStep(attempts: seq<Attempt>, i: nat)
    requires i < |attempts|
    ensures Photos(attempts[..i + 1]) == Photos(attempts[..i]) + (if attempts[i].Shot? then [attempts[i].path] else [])
  {
    assert attempts[..i + 1][..i] == attempts[..i];
  }

  /** The attempts the loop makes before the one that ends it. */
  function Made(attempts: seq<Attempt>): seq<Attempt> {
    attempts[..Stop(attempts)]
  }

  /** The case is confirmed: the attempt that ends the loop is a photo showing a human. */
  predicate Confirms(attempts: seq<Attempt>) {
    Stop(attempts) < |attempts| && attempts[Stop(attempts)].Shot?
  }

  /** Some attempt the loop made produced no photo. */
  predicate Faults(attempts: seq<Attempt>) {
    exists j :: 0 <= j < Stop(attempts) && attempts[j].NoPhoto?
  }

  /** The photos the case holds when the loop ends, the confirming photo last. */
  function Evidence(attempts: seq<Attempt>): seq<string> {
    Photos(attempts[..if Confirms(attempts) then Stop(attempts) + 1 else Stop(attempts)])
  }

  /**
   * A case is confirmed exactly when some attempt shows a human and no attempt before it
   * raised.
   */
  lemma ConfirmsIff(attempts: seq<Attempt>)
    ensures Confirms(attempts) <==>
      exists j :: 0 <= j < |attempts| && attempts[j].Shot? && attempts[j].human &&
        forall i :: 0 <= i < j ==> !attempts[i].Raises?
  {
    var k := Stop(attempts);
    if !Confirms(attempts) {
      forall j | 0 <= j < |attempts| && attempts[j].Shot? && attempts[j].human
        ensures exists i :: 0 <= i < j && attempts[i].Raises?
      {
        assert k <= j;
        if k == j {
          assert false;
        }
        assert k < |attempts| && attempts[k].Raises?;
      }
    }
  }

  /** The confirming photo is the last piece of evidence, and every photo before it is one. */
  lemma EvidenceEndsWithConfirmation(attempts: seq<Attempt>)
    requires Confirms(attempts)
    ensures var ev := Evidence(attempts); |ev| >= 1 && ev[|ev| - 1] == attempts[Stop(attempts)].path
    ensures |Evidence(attempts)| == |Photos(Made(attempts))| + 1
  {
    PhotosStep(attempts, Stop(attempts));
  }

  /**
   * The worked example: a failed capture, then a photo of a human. The case is confirmed at
   * the second attempt, with one camera fault and that photo as its only evidence.
   */
  lemma FaultThenHuman(path: string, later: seq<Attempt>)
    ensures var attempts := [NoPhoto, Shot(path, true)] + later;
      && Confirms(attempts) && Stop(attempts) == 1 && Faults(attempts) && Evidence(attempts) == [path]
  {
    var attempts := [NoPhoto, Shot(path, true)] + later;
    assert attempts[1..] == [Shot(path, true)] + later;
    assert Stop(attempts) == 1;
    assert attempts[..2] == [NoPhoto, Shot(path, true)];
    PhotosStep(attempts, 1);
    PhotosStep(attempts, 0);
    assert attempts[..0] == [];
  }
}
